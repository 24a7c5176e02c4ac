/** The camera record: its two matrices, its pose, its frame size, the
    colour and depth buffers it owns and its draw distances. The two
    creation routines (the library's and the demo program's variant) differ
    in how they treat the draw distances; moving and resetting are the same
    in both. */
module Cameras {
  import opened CNumeric
  import opened Vectors
  import opened Matrices
  import opened CameraTransforms
  import opened Buffers

  class Camera {
    var Mvp: Mat4
    var Mcam: Mat4
    var origin: Vec3
    var direction: Vec3
    var frameWidth: int
    var frameHeight: int
    var frameBuffer: array<byte>
    var depthBuffer: array<real>
    var minDrawDist: real
    var maxDrawDist: real

    /** The buffers have the sizes the frame calls for: three bytes and one
        depth per pixel. */
    predicate Valid()
      reads this
    {
      frameWidth >= 0 && frameHeight >= 0 &&
      frameBuffer.Length == 3 * (frameWidth * frameHeight) &&
      depthBuffer.Length == frameWidth * frameHeight
    }

    /** The library's camera: the viewport matrix is built with the negated
        draw distances as near and far planes, and the negated distances are
        what the camera keeps. */
    constructor Create(normalize: Vec3 -> Vec3, frameWidth: int, frameHeight: int,
                       origin: Vec3, direction: Vec3, tanHalfFov: real,
                       minDrawDist: real, maxDrawDist: real)
      requires ViewportArgs(frameWidth, frameHeight, tanHalfFov, -minDrawDist, -maxDrawDist)
      ensures Valid() && fresh(frameBuffer) && fresh(depthBuffer)
      ensures Mvp == ViewportTransform(frameWidth, frameHeight, tanHalfFov, -minDrawDist, -maxDrawDist)
      ensures Mcam == CameraTransform(normalize, origin, direction)
      ensures this.origin == origin && this.direction == direction
      ensures this.frameWidth == frameWidth && this.frameHeight == frameHeight
      ensures this.minDrawDist == -minDrawDist && this.maxDrawDist == -maxDrawDist
    {
      Mvp := ViewportTransform(frameWidth, frameHeight, tanHalfFov, -minDrawDist, -maxDrawDist);
      Mcam := CameraTransform(normalize, origin, direction);
      this.origin := origin;
      this.direction := direction;
      this.frameWidth := frameWidth;
      this.frameHeight := frameHeight;
      frameBuffer := new byte[3 * (frameWidth * frameHeight)];
      depthBuffer := new real[frameWidth * frameHeight];
      this.minDrawDist := -minDrawDist;
      this.maxDrawDist := -maxDrawDist;
    }

    /** The demo program's camera: the clip distances are negated for the
        viewport matrix, but the far draw distance is kept as given and the
        near one is never set. */
    constructor CreateMain(normalize: Vec3 -> Vec3, frameWidth: int, frameHeight: int,
                           origin: Vec3, direction: Vec3, tanHalfFov: real,
                           clipStart: real, clipEnd: real, maxDrawDist: real)
      requires ViewportArgs(frameWidth, frameHeight, tanHalfFov, -clipStart, -clipEnd)
      ensures Valid() && fresh(frameBuffer) && fresh(depthBuffer)
      ensures Mvp == ViewportTransform(frameWidth, frameHeight, tanHalfFov, -clipStart, -clipEnd)
      ensures Mcam == CameraTransform(normalize, origin, direction)
      ensures this.origin == origin && this.direction == direction
      ensures this.frameWidth == frameWidth && this.frameHeight == frameHeight
      ensures this.maxDrawDist == maxDrawDist
    {
      Mvp := ViewportTransform(frameWidth, frameHeight, tanHalfFov, -clipStart, -clipEnd);
      Mcam := CameraTransform(normalize, origin, direction);
      this.origin := origin;
      this.direction := direction;
      this.frameWidth := frameWidth;
      this.frameHeight := frameHeight;
      frameBuffer := new byte[3 * (frameWidth * frameHeight)];
      depthBuffer := new real[frameWidth * frameHeight];
      this.maxDrawDist := maxDrawDist;
    }

    /** Moving the camera rebuilds the view matrix from the new pose and
        stores the pose; nothing else about the camera changes. */
    method Move(normalize: Vec3 -> Vec3, origin: Vec3, direction: Vec3)
      modifies this`Mcam, this`origin, this`direction
      ensures Mcam == CameraTransform(normalize, origin, direction)
      ensures this.origin == origin && this.direction == direction
      ensures Mvp == old(Mvp) && frameWidth == old(frameWidth) && frameHeight == old(frameHeight)
      ensures frameBuffer == old(frameBuffer) && depthBuffer == old(depthBuffer)
      ensures minDrawDist == old(minDrawDist) && maxDrawDist == old(maxDrawDist)
      ensures old(Valid()) ==> Valid()
    {
      Mcam := CameraTransform(normalize, origin, direction);
      this.origin := origin;
      this.direction := direction;
    }

    /** Resetting clears the picture: every colour byte becomes 0 and every
        depth the camera's far draw distance. */
    method Reset()
      requires Valid()
      modifies frameBuffer, depthBuffer
      ensures Valid()
      ensures forall i :: 0 <= i < frameBuffer.Length ==> frameBuffer[i] == 0
      ensures forall i :: 0 <= i < depthBuffer.Length ==> depthBuffer[i] == maxDrawDist
    {
      var size := frameWidth * frameHeight;
      ClearBuffers(frameBuffer, depthBuffer, size, maxDrawDist);
    }
  }
}
