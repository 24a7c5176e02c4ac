/** The scene records shared by the rasterizer and the OBJ triangle importer. */
module Scene {
  import opened Vectors

  /** A corner of a triangle: position, texture coordinate and normal. */
  datatype Vertex = Vertex(v: Vec3, vt: Vec2, vn: Vec3)

  /** A triangle that carries its three corners by value. */
  datatype Tri = Tri(vert0: Vertex, vert1: Vertex, vert2: Vertex)
}
