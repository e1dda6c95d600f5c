/** The part of a Blender mesh (`obdata`) that the VTK writer reads: the mesh
    name, vertex coordinates, polygons with their vertex and loop indices, the
    loops (face corners) with the vertex each one sits on, and the vertex-colour
    layers, which hold one RGBA colour per loop. */
module MeshData {

  /** A single-precision float of the mesh. The writer only ever passes it to the
      `%f` formatter, so its value set does not matter to the model. */
  type Float = real

  datatype Vec3 = Vec3(x: Float, y: Float, z: Float)

  datatype Rgba = Rgba(r: Float, g: Float, b: Float, a: Float)

  datatype Vertex = Vertex(co: Vec3)

  /** `vertices` are the polygon's vertex indices in winding order;
      `loopIndices` are the indices of its loops in `Mesh.loops`. */
  datatype Polygon = Polygon(vertices: seq<nat>, loopIndices: seq<nat>)

  datatype Loop = Loop(vertexIndex: nat)

  /** A vertex-colour layer: `data[li]` is the colour of loop `li`. */
  datatype ColorLayer = ColorLayer(name: string, data: seq<Rgba>)

  datatype Mesh = Mesh(
    name: string,
    vertices: seq<Vertex>,
    polygons: seq<Polygon>,
    loops: seq<Loop>,
    vertexColors: seq<ColorLayer>)

  /** Every loop index of every polygon names an existing loop. */
  predicate LoopsInRange(m: Mesh) {
    forall k, j :: 0 <= k < |m.polygons| && 0 <= j < |m.polygons[k].loopIndices| ==>
      m.polygons[k].loopIndices[j] < |m.loops|
  }

  /** A colour layer holds exactly one colour per loop of the mesh. */
  predicate CoversLoops(m: Mesh, c: ColorLayer) {
    |c.data| == |m.loops|
  }

  /** The consistency Blender keeps between polygons, loops and colour layers. */
  predicate Consistent(m: Mesh) {
    && LoopsInRange(m)
    && forall j :: 0 <= j < |m.vertexColors| ==> CoversLoops(m, m.vertexColors[j])
  }
}
