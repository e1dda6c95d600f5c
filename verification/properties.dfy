/** What the lines written by `ascii_write_vtk` look like: their order, their
    counts, and what the numbers in them denote. */
module WriterProperties {
  import opened Results
  import opened Decimal
  import opened Fields
  import opened MeshData
  import opened VtkWriter
  import opened ColorSelection

  // ----- the document layout -----

  /** The file opens with the three header lines of `vtk_header`: the version
      line, the mesh name verbatim, and `ASCII`. */
  lemma WriteBeginsWithHeader(m: Mesh, fmt: FloatFormat)
    requires Write(m, fmt).Success?
    ensures |Write(m, fmt).value| >= 3
    ensures Write(m, fmt).value[..3] == ["# vtk DataFile Version 4.2", m.name, "ASCII"]
  {
  }

  /** Then `DATASET POLYDATA`, `POINTS <n> float`, and exactly one coordinate
      line per vertex, in vertex order. */
  lemma WritePointsSection(m: Mesh, fmt: FloatFormat)
    requires Write(m, fmt).Success?
    ensures var lines, n := Write(m, fmt).value, |m.vertices|;
      && |lines| >= 5 + n
      && lines[3] == "DATASET POLYDATA"
      && lines[4] == "POINTS " + NatToString(n) + " float"
      && forall i :: 0 <= i < n ==>
           var co := m.vertices[i].co;
           lines[5 + i] == fmt(co.x) + " " + fmt(co.y) + " " + fmt(co.z)
  {
    var lines := Write(m, fmt).value;
    assert lines[..|GeometryLines(m, fmt)|] == GeometryLines(m, fmt);
  }

  /** Then `POLYGONS <f> <size>` and exactly one face row per polygon, in
      polygon order. Each row splits into the polygon's vertex count and its
      vertex indices, and the size counts exactly the fields of those rows. */
  lemma WritePolygonsSection(m: Mesh, fmt: FloatFormat)
    requires Write(m, fmt).Success?
    ensures var lines, n, f := Write(m, fmt).value, |m.vertices|, |m.polygons|;
      && |lines| >= 6 + n + f
      && lines[5 + n] == "POLYGONS " + NatToString(f) + " " + NatToString(PolygonsSize(m.polygons))
      && FieldCount(lines[6 + n .. 6 + n + f]) == PolygonsSize(m.polygons)
      && forall k :: 0 <= k < f ==>
           var vs := m.polygons[k].vertices;
           Split(lines[6 + n + k]) == [NatToString(|vs|)] + IndexTexts(vs)
  {
    var lines := Write(m, fmt).value;
    var n, f := |m.vertices|, |m.polygons|;
    assert lines[..|GeometryLines(m, fmt)|] == GeometryLines(m, fmt);
    assert lines[6 + n .. 6 + n + f] == FaceRows(m.polygons);
    PolygonsSizeCountsFields(m.polygons);
    forall k | 0 <= k < f
      ensures Split(lines[6 + n + k]) == [NatToString(|m.polygons[k].vertices|)] + IndexTexts(m.polygons[k].vertices)
    {
      FaceRowFields(m.polygons[k]);
    }
  }

  /** Without colour layers the file ends right after the last face row, and
      writing cannot fail. */
  lemma WriteWithoutColorsEndsAfterFaces(m: Mesh, fmt: FloatFormat)
    requires |m.vertexColors| == 0
    ensures Write(m, fmt).Success?
    ensures |Write(m, fmt).value| == 6 + |m.vertices| + |m.polygons|
    ensures |m.polygons| > 0 ==>
      Write(m, fmt).value[|Write(m, fmt).value| - 1] == FaceRow(m.polygons[|m.polygons| - 1])
  {
  }

  /** After the face rows come the colour blocks, one per layer in layer order;
      each opens with `POINT_DATA <n>` and `COLOR_SCALARS <layer name> 4`. */
  lemma WriteColorBlocks(m: Mesh, fmt: FloatFormat)
    requires Write(m, fmt).Success?
    ensures var lines, n, f := Write(m, fmt).value, |m.vertices|, |m.polygons|;
      var blocks := ColorBlocks(m, fmt, m.vertexColors).value;
      && |lines| >= 6 + n + f
      && lines[6 + n + f..] == Flatten(blocks)
      && |blocks| == |m.vertexColors|
      && forall j :: 0 <= j < |blocks| ==>
           && |blocks[j]| >= 2
           && blocks[j][0] == "POINT_DATA " + NatToString(n)
           && blocks[j][1] == "COLOR_SCALARS " + m.vertexColors[j].name + " 4"
  {
    var lines := Write(m, fmt).value;
    var blocks := ColorBlocks(m, fmt, m.vertexColors).value;
    assert lines == GeometryLines(m, fmt) + Flatten(blocks);
    assert lines[|GeometryLines(m, fmt)|..] == Flatten(blocks);
  }

  /** Inside a block the colour lines are grouped by vertex, in ascending vertex
      order: the lines of vertex 0, then those of vertex 1, and so on. */
  lemma ColorBlockGroupsByVertex(m: Mesh, fmt: FloatFormat, c: ColorLayer)
    requires ColorBlock(m, fmt, c).Success?
    ensures var block := ColorBlock(m, fmt, c).value;
      var groups := VertexColorGroups(m, fmt, c, |m.vertices|).value;
      && |block| >= 2
      && block[2..] == Flatten(groups)
      && |groups| == |m.vertices|
      && forall i :: 0 <= i < |groups| ==> VertexColorLines(m, fmt, c, i) == Success(groups[i])
  {
    var block := ColorBlock(m, fmt, c).value;
    assert block[2..] == Flatten(VertexColorGroups(m, fmt, c, |m.vertices|).value);
  }

  // ----- the numbers in the POLYGONS section -----

  function IndexTexts(vs: seq<nat>): (r: seq<string>)
    ensures |r| == |vs| && AllSpaceFree(r)
  {
    seq(|vs|, j requires 0 <= j < |vs| => NatToString(vs[j]))
  }

  lemma {:induction false} AppendIndicesJoins(ws: seq<string>, vs: seq<nat>)
    requires |ws| >= 1
    ensures AppendIndices(Join(ws), vs) == Join(ws + IndexTexts(vs))
    decreases |vs|
  {
    if |vs| > 0 {
      JoinSnoc(ws, NatToString(vs[0]));
      AppendIndicesJoins(ws + [NatToString(vs[0])], vs[1..]);
      assert [NatToString(vs[0])] + IndexTexts(vs[1..]) == IndexTexts(vs);
      assert ws + [NatToString(vs[0])] + IndexTexts(vs[1..]) == ws + IndexTexts(vs);
    } else {
      assert ws + IndexTexts(vs) == ws;
    }
  }

  /** A face row is the vertex count followed by the vertex indices, in their
      original order, as decimal fields separated by single spaces: splitting
      the row on spaces gives back exactly those numbers. */
  lemma FaceRowFields(p: Polygon)
    ensures var fields := Split(FaceRow(p));
      && fields == [NatToString(|p.vertices|)] + IndexTexts(p.vertices)
      && |fields| == 1 + |p.vertices|
      && (forall j :: 0 <= j < |fields| ==> IsCanonical(fields[j]))
      && DecimalValue(fields[0]) == |p.vertices|
      && forall j :: 0 <= j < |p.vertices| ==> DecimalValue(fields[1 + j]) == p.vertices[j]
  {
    var count := NatToString(|p.vertices|);
    assert Join([count]) == count;
    AppendIndicesJoins([count], p.vertices);
    var ws := [count] + IndexTexts(p.vertices);
    assert AllSpaceFree(ws) by {
      forall j | 0 <= j < |ws| ensures SpaceFree(ws[j]) {
        if j > 0 {
          assert ws[j] == IndexTexts(p.vertices)[j - 1];
        }
      }
    }
    SplitJoin(ws);
    DecimalValueOfNatToString(|p.vertices|);
    forall j | 0 <= j < |p.vertices| ensures DecimalValue(ws[1 + j]) == p.vertices[j] {
      DecimalValueOfNatToString(p.vertices[j]);
    }
  }

  /** The number of space-separated fields in a sequence of rows. */
  function FieldCount(rows: seq<string>): nat
    decreases |rows|
  {
    if |rows| == 0 then 0 else |Split(rows[0])| + FieldCount(rows[1..])
  }

  /** The size in the POLYGONS header equals the number of integer fields in
      the face rows that follow it. */
  lemma {:induction false} PolygonsSizeCountsFields(ps: seq<Polygon>)
    ensures PolygonsSize(ps) == FieldCount(FaceRows(ps))
    decreases |ps|
  {
    if |ps| > 0 {
      FaceRowFields(ps[0]);
      assert FaceRows(ps)[1..] == FaceRows(ps[1..]);
      PolygonsSizeCountsFields(ps[1..]);
    }
  }

  // ----- the error path -----

  /** On a mesh whose polygons, loops and colour layers agree, writing never
      fails. */
  lemma WriteSucceedsOnConsistentMesh(m: Mesh, fmt: FloatFormat)
    requires Consistent(m)
    ensures Write(m, fmt).Success?
  {
    forall j, i | 0 <= j < |m.vertexColors| && 0 <= i < |m.vertices|
      ensures VertexColorLines(m, fmt, m.vertexColors[j], i).Success?
    {
      FirstMatchSelection(m, fmt, m.vertexColors[j], i);
    }
  }

  /** If vertex 0 cannot be scanned, every block fails with the error of vertex 0. */
  lemma {:induction false} GroupsFailAtFirstVertex(m: Mesh, fmt: FloatFormat, c: ColorLayer, k: nat)
    requires k >= 1 && VertexColorLines(m, fmt, c, 0).Failure?
    ensures VertexColorGroups(m, fmt, c, k) == Failure(VertexColorLines(m, fmt, c, 0).error)
    decreases k
  {
    if k > 1 {
      GroupsFailAtFirstVertex(m, fmt, c, k - 1);
    }
  }

  /** A dangling loop index is followed, and raises, as soon as a colour layer
      exists and the first polygon is scanned for vertex 0. */
  lemma DanglingLoopIndexFails(m: Mesh, fmt: FloatFormat)
    requires |m.vertices| >= 1 && |m.vertexColors| >= 1 && |m.polygons| >= 1
    requires |m.polygons[0].loopIndices| >= 1 && m.polygons[0].loopIndices[0] >= |m.loops|
    ensures Write(m, fmt) == Failure(LoopIndexOutOfRange(m.polygons[0].loopIndices[0]))
  {
    var c := m.vertexColors[0];
    GroupsFailAtFirstVertex(m, fmt, c, |m.vertices|);
  }
}

/** Two small meshes on which a colour block does not carry one line per point. */
module ColorBlockExamples {
  import opened Results
  import opened MeshData
  import opened VtkWriter
  import opened ColorSelection
  import WriterProperties

  const Origin := Vertex(Vec3(0.0, 0.0, 0.0))
  const Grey := Rgba(0.5, 0.5, 0.5, 1.0)

  /** A triangle on vertices 0, 1, 2, plus a loose vertex 3. */
  const Triangle := Mesh("tri", [Origin, Origin, Origin, Origin],
                         [Polygon([0, 1, 2], [0, 1, 2])],
                         [Loop(0), Loop(1), Loop(2)],
                         [ColorLayer("Col", [Grey, Grey, Grey])])

  /** A quadrilateral whose loops 1 and 3 both sit on vertex 1. */
  const Bowtie := Mesh("bowtie", [Origin, Origin, Origin],
                       [Polygon([0, 1, 2, 1], [0, 1, 2, 3])],
                       [Loop(0), Loop(1), Loop(2), Loop(1)],
                       [ColorLayer("Col", [Grey, Grey, Grey, Grey])])

  lemma TriangleFacts()
    ensures Consistent(Triangle) && PolygonsInRange(Triangle, Triangle.polygons)
    ensures forall i: nat :: i < 3 ==> MatchingLoops(Triangle, Triangle.polygons[0].loopIndices, i) == [i]
    ensures !Touches(Triangle, Triangle.polygons[0], 3)
  {
    var m := Triangle;
    var lis: seq<nat> := [0, 1, 2];
    assert m.polygons[0].loopIndices == lis;
    assert lis[1..] == [1, 2] && lis[2..] == [2] && lis[3..] == [];
    forall i: nat | i < 3 ensures MatchingLoops(m, lis, i) == [i] {
      assert MatchingLoops(m, lis[3..], i) == [];
      assert MatchingLoops(m, lis[2..], i) == if i == 2 then [2] else [];
      assert MatchingLoops(m, lis[1..], i) == if i == 0 then [] else [i];
    }
  }

  lemma BowtieConsistent()
    ensures Consistent(Bowtie) && PolygonsInRange(Bowtie, Bowtie.polygons)
  {
  }

  lemma BowtieMatches(i: nat)
    requires i < 3
    ensures MatchingLoops(Bowtie, Bowtie.polygons[0].loopIndices, i) == if i == 1 then [1, 3] else [i]
  {
    var m := Bowtie;
    var lis: seq<nat> := [0, 1, 2, 3];
    assert m.polygons[0].loopIndices == lis;
    assert lis[1..] == [1, 2, 3] && lis[2..] == [2, 3] && lis[3..] == [3] && lis[4..] == [];
    assert MatchingLoops(m, lis[4..], i) == [];
    assert MatchingLoops(m, lis[3..], i) == if i == 1 then [3] else [];
    assert MatchingLoops(m, lis[2..], i) == if i == 1 then [3] else if i == 2 then [2] else [];
    assert MatchingLoops(m, lis[1..], i) == if i == 1 then [1, 3] else if i == 2 then [2] else [];
  }

  /** The triangle's block announces `POINT_DATA 4` but holds only three
      colour lines: vertex 3 gets none. */
  lemma LooseVertexGetsNoColorLine(fmt: FloatFormat)
    ensures VertexColorLines(Triangle, fmt, Triangle.vertexColors[0], 3) == Success([])
    ensures Write(Triangle, fmt).Success?
    ensures |Write(Triangle, fmt).value| == 6 + 4 + 1 + 2 + 3
  {
    var m, c := Triangle, Triangle.vertexColors[0];
    TriangleFacts();
    CornerLines(m, fmt, c, 0, [0]);
    CornerLines(m, fmt, c, 1, [1]);
    CornerLines(m, fmt, c, 2, [2]);
    FirstMatchSelection(m, fmt, c, 3);
    SingleLayerLineCount(m, fmt);
    assert ColorLineCount(m, fmt, c, 4) == ColorLineCount(m, fmt, c, 3) + 0;
    assert ColorLineCount(m, fmt, c, 3) == ColorLineCount(m, fmt, c, 2) + 1;
    assert ColorLineCount(m, fmt, c, 2) == ColorLineCount(m, fmt, c, 1) + 1;
    assert ColorLineCount(m, fmt, c, 1) == ColorLineCount(m, fmt, c, 0) + 1;
  }

  /** Every matching loop of the first touching polygon emits a line, so
      vertex 1 of the bowtie gets two colour lines and the block holds four
      lines for three points. */
  lemma RepeatedCornerGivesTwoColorLines(fmt: FloatFormat)
    ensures |VertexColorLines(Bowtie, fmt, Bowtie.vertexColors[0], 1).value| == 2
    ensures Write(Bowtie, fmt).Success?
    ensures |Write(Bowtie, fmt).value| == 6 + 3 + 1 + 2 + 4
  {
    var m, c := Bowtie, Bowtie.vertexColors[0];
    BowtieConsistent();
    BowtieMatches(0);
    BowtieMatches(1);
    BowtieMatches(2);
    CornerLines(m, fmt, c, 0, [0]);
    CornerLines(m, fmt, c, 1, [1, 3]);
    CornerLines(m, fmt, c, 2, [2]);
    SingleLayerLineCount(m, fmt);
    assert ColorLineCount(m, fmt, c, 3) == ColorLineCount(m, fmt, c, 2) + 1;
    assert ColorLineCount(m, fmt, c, 2) == ColorLineCount(m, fmt, c, 1) + 2;
    assert ColorLineCount(m, fmt, c, 1) == ColorLineCount(m, fmt, c, 0) + 1;
  }

  /** The lines of vertex `i` in a one-polygon mesh whose polygon touches `i`. */
  lemma CornerLines(m: Mesh, fmt: FloatFormat, c: ColorLayer, i: nat, matching: seq<nat>)
    requires LoopsInRange(m) && CoversLoops(m, c) && |m.polygons| == 1
    requires PolygonsInRange(m, m.polygons)
    requires MatchingLoops(m, m.polygons[0].loopIndices, i) == matching && |matching| > 0
    ensures VertexColorLines(m, fmt, c, i).Success?
    ensures |VertexColorLines(m, fmt, c, i).value| == |matching|
  {
    FirstMatchSelection(m, fmt, c, i);
    MatchingLoopsSelects(m, m.polygons[0].loopIndices, i);
    assert FirstTouching(m, m.polygons, i, 0);
  }

  /** The number of colour lines vertices `0 .. k-1` contribute to a block. */
  function ColorLineCount(m: Mesh, fmt: FloatFormat, c: ColorLayer, k: nat): nat
    requires forall i :: 0 <= i < k ==> VertexColorLines(m, fmt, c, i).Success?
    decreases k
  {
    if k == 0 then 0 else ColorLineCount(m, fmt, c, k - 1) + |VertexColorLines(m, fmt, c, k - 1).value|
  }

  lemma {:induction false} FlattenGroupsLength(m: Mesh, fmt: FloatFormat, c: ColorLayer, k: nat)
    requires VertexColorGroups(m, fmt, c, k).Success?
    ensures |Flatten(VertexColorGroups(m, fmt, c, k).value)| == ColorLineCount(m, fmt, c, k)
    decreases k
  {
    if k > 0 {
      var gs := VertexColorGroups(m, fmt, c, k - 1).value;
      var g := VertexColorLines(m, fmt, c, k - 1).value;
      FlattenGroupsLength(m, fmt, c, k - 1);
      FlattenSnoc(gs, g);
    }
  }

  lemma {:induction false} FlattenSnoc(gs: seq<seq<string>>, g: seq<string>)
    ensures Flatten(gs + [g]) == Flatten(gs) + g
    decreases |gs|
  {
    if |gs| == 0 {
      assert gs + [g] == [g];
    } else {
      assert (gs + [g])[1..] == gs[1..] + [g];
      FlattenSnoc(gs[1..], g);
    }
  }

  /** Line count of a consistent one-layer mesh: geometry, two block headers,
      and the colour lines of all vertices. */
  lemma SingleLayerLineCount(m: Mesh, fmt: FloatFormat)
    requires |m.vertexColors| == 1 && Consistent(m)
    ensures Write(m, fmt).Success?
    ensures |Write(m, fmt).value|
      == 6 + |m.vertices| + |m.polygons| + 2 + ColorLineCount(m, fmt, m.vertexColors[0], |m.vertices|)
  {
    WriterProperties.WriteSucceedsOnConsistentMesh(m, fmt);
    FlattenGroupsLength(m, fmt, m.vertexColors[0], |m.vertices|);
    var blocks := ColorBlocks(m, fmt, m.vertexColors).value;
    assert Flatten(blocks) == blocks[0] + Flatten(blocks[1..]);
  }
}
