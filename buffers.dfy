/** The buffer clearing shared by the camera and the frame: the colour
    buffer's first `3 * size` bytes are zeroed with one `memset`, then a loop
    writes the clear depth into the first `size` depth entries. */
module Buffers {
  import opened CNumeric

  /** Zero `frameBuffer[0 .. 3 * size)` and fill `depthBuffer[0 .. size)`
      with `depth`; every other entry keeps its value. */
  method ClearBuffers(frameBuffer: array<byte>, depthBuffer: array<real>, size: nat, depth: real)
    requires 3 * size <= frameBuffer.Length && size <= depthBuffer.Length
    modifies frameBuffer, depthBuffer
    ensures forall i :: 0 <= i < 3 * size ==> frameBuffer[i] == 0
    ensures forall i :: 3 * size <= i < frameBuffer.Length ==> frameBuffer[i] == old(frameBuffer[i])
    ensures forall i :: 0 <= i < size ==> depthBuffer[i] == depth
    ensures forall i :: size <= i < depthBuffer.Length ==> depthBuffer[i] == old(depthBuffer[i])
  {
    // memset(frame_buffer, 0, size * 3)
    forall i | 0 <= i < 3 * size {
      frameBuffer[i] := 0;
    }
    var i := 0;
    while i < size
      invariant 0 <= i <= size
      invariant forall j :: 0 <= j < i ==> depthBuffer[j] == depth
      invariant forall j :: i <= j < depthBuffer.Length ==> depthBuffer[j] == old(depthBuffer[j])
      invariant forall j :: 0 <= j < 3 * size ==> frameBuffer[j] == 0
      invariant forall j :: 3 * size <= j < frameBuffer.Length ==> frameBuffer[j] == old(frameBuffer[j])
    {
      depthBuffer[i] := depth;
      i := i + 1;
    }
  }
}
