/** The ASCII legacy-VTK PolyData writer: `ascii_write_vtk` and `vtk_header`.
    The file text is modelled as the sequence of its lines, without their
    terminating newlines. */
module VtkWriter {
  import opened Results
  import opened Decimal
  import opened Fields
  import opened MeshData

  /** The `%f` rendering of a float, left uninterpreted. */
  type FloatFormat = Float -> string

  /** The `IndexError` the source raises when it follows a dangling index. */
  datatype WriteError =
    | LoopIndexOutOfRange(loopIndex: nat)
    | ColorIndexOutOfRange(layer: string, loopIndex: nat)

  const VersionLine := "# vtk DataFile Version 4.2"

  function VtkHeader(name: string): seq<string> {
    [VersionLine, name, "ASCII"]
  }

  // ----- points -----

  function PointsHeader(n: nat): string {
    "POINTS " + NatToString(n) + " float"
  }

  function PointLine(fmt: FloatFormat, v: Vertex): string {
    fmt(v.co.x) + " " + fmt(v.co.y) + " " + fmt(v.co.z)
  }

  function PointLines(fmt: FloatFormat, vs: seq<Vertex>): seq<string> {
    seq(|vs|, i requires 0 <= i < |vs| => PointLine(fmt, vs[i]))
  }

  // ----- polygons -----

  /** The sum over all polygons of one plus the polygon's vertex count: the
      VTK "size" of the POLYGONS section. */
  function PolygonsSize(ps: seq<Polygon>): nat
    decreases |ps|
  {
    if |ps| == 0 then 0 else 1 + |ps[0].vertices| + PolygonsSize(ps[1..])
  }

  function PolygonsHeader(ps: seq<Polygon>): string {
    "POLYGONS " + NatToString(|ps|) + " " + NatToString(PolygonsSize(ps))
  }

  /** Appends a space and the decimal text of each vertex index to `row`,
      in order. */
  function AppendIndices(row: string, vs: seq<nat>): string
    decreases |vs|
  {
    if |vs| == 0 then row else AppendIndices(row + " " + NatToString(vs[0]), vs[1..])
  }

  function FaceRow(p: Polygon): string {
    AppendIndices(NatToString(|p.vertices|), p.vertices)
  }

  function FaceRows(ps: seq<Polygon>): seq<string> {
    seq(|ps|, k requires 0 <= k < |ps| => FaceRow(ps[k]))
  }

  /** Everything the writer emits before the vertex-colour blocks. */
  function GeometryLines(m: Mesh, fmt: FloatFormat): seq<string> {
    VtkHeader(m.name)
    + ["DATASET POLYDATA", PointsHeader(|m.vertices|)]
    + PointLines(fmt, m.vertices)
    + [PolygonsHeader(m.polygons)]
    + FaceRows(m.polygons)
  }

  // ----- vertex colours -----

  function ColorLine(fmt: FloatFormat, c: Rgba): string {
    fmt(c.r) + " " + fmt(c.g) + " " + fmt(c.b) + " " + fmt(c.a)
  }

  /** The inner loop over `p.loop_indices` for vertex `i`: every loop sitting on
      `i` emits its colour; the `continue` after a match does not leave the loop. */
  function ScanLoops(m: Mesh, fmt: FloatFormat, c: ColorLayer, i: nat, lis: seq<nat>)
    : Result<seq<string>, WriteError>
    decreases |lis|
  {
    if |lis| == 0 then Success([])
    else
      var li := lis[0];
      if li >= |m.loops| then Failure(LoopIndexOutOfRange(li))
      else if m.loops[li].vertexIndex == i then
        if li >= |c.data| then Failure(ColorIndexOutOfRange(c.name, li))
        else
          var rest :- ScanLoops(m, fmt, c, i, lis[1..]);
          Success([ColorLine(fmt, c.data[li])] + rest)
      else ScanLoops(m, fmt, c, i, lis[1..])
  }

  /** The loop over the polygons for vertex `i`, with the `found` flag: once a
      polygon has emitted a colour, the remaining polygons are skipped. */
  function ScanPolygons(m: Mesh, fmt: FloatFormat, c: ColorLayer, i: nat, ps: seq<Polygon>, found: bool)
    : Result<seq<string>, WriteError>
    decreases |ps|
  {
    if |ps| == 0 then Success([])
    else if found then ScanPolygons(m, fmt, c, i, ps[1..], found)
    else
      var lines :- ScanLoops(m, fmt, c, i, ps[0].loopIndices);
      var rest :- ScanPolygons(m, fmt, c, i, ps[1..], |lines| > 0);
      Success(lines + rest)
  }

  /** The colour lines one layer contributes for vertex `i`. */
  function VertexColorLines(m: Mesh, fmt: FloatFormat, c: ColorLayer, i: nat): Result<seq<string>, WriteError> {
    ScanPolygons(m, fmt, c, i, m.polygons, false)
  }

  /** The colour lines of vertices `0 .. k-1`, one group per vertex, in
      ascending vertex order; the first failing vertex decides the error. */
  function VertexColorGroups(m: Mesh, fmt: FloatFormat, c: ColorLayer, k: nat)
    : (r: Result<seq<seq<string>>, WriteError>)
    ensures r.Success? <==> forall i :: 0 <= i < k ==> VertexColorLines(m, fmt, c, i).Success?
    ensures r.Success? ==>
      && |r.value| == k
      && forall i :: 0 <= i < k ==> VertexColorLines(m, fmt, c, i) == Success(r.value[i])
    decreases k
  {
    if k == 0 then Success([])
    else
      var groups :- VertexColorGroups(m, fmt, c, k - 1);
      var g :- VertexColorLines(m, fmt, c, k - 1);
      Success(groups + [g])
  }

  function Flatten(gs: seq<seq<string>>): (r: seq<string>)
    decreases |gs|
  {
    if |gs| == 0 then [] else gs[0] + Flatten(gs[1..])
  }

  function PointDataHeader(n: nat): string {
    "POINT_DATA " + NatToString(n)
  }

  function ColorScalarsHeader(name: string): string {
    "COLOR_SCALARS " + name + " 4"
  }

  /** One layer's block: the two header lines, then the colour lines of every
      vertex in ascending vertex order. */
  function ColorBlock(m: Mesh, fmt: FloatFormat, c: ColorLayer): (r: Result<seq<string>, WriteError>)
    ensures r.Success? <==> forall i :: 0 <= i < |m.vertices| ==> VertexColorLines(m, fmt, c, i).Success?
  {
    var groups :- VertexColorGroups(m, fmt, c, |m.vertices|);
    Success([PointDataHeader(|m.vertices|), ColorScalarsHeader(c.name)] + Flatten(groups))
  }

  /** The blocks of `layers`, one per layer in layer order. */
  function ColorBlocks(m: Mesh, fmt: FloatFormat, layers: seq<ColorLayer>)
    : (r: Result<seq<seq<string>>, WriteError>)
    ensures r.Success? <==> forall j :: 0 <= j < |layers| ==> ColorBlock(m, fmt, layers[j]).Success?
    ensures r.Success? ==>
      && |r.value| == |layers|
      && forall j :: 0 <= j < |layers| ==> ColorBlock(m, fmt, layers[j]) == Success(r.value[j])
    decreases |layers|
  {
    if |layers| == 0 then Success([])
    else
      var b :- ColorBlock(m, fmt, layers[0]);
      var rest :- ColorBlocks(m, fmt, layers[1..]);
      Success([b] + rest)
  }

  /** `ascii_write_vtk`: the lines of the file, or the `IndexError` it raises. */
  function Write(m: Mesh, fmt: FloatFormat): Result<seq<string>, WriteError> {
    var blocks :- ColorBlocks(m, fmt, m.vertexColors);
    Success(GeometryLines(m, fmt) + Flatten(blocks))
  }
}
