/** Which colours the writer picks for a vertex, stated without the loops of the
    source: for vertex `i`, the first polygon (in polygon order) having a loop
    on `i` supplies the colours of all of its loops on `i`, in loop order, and
    no other polygon contributes. */
module ColorSelection {
  import opened Results
  import opened MeshData
  import opened VtkWriter

  predicate IndicesInRange(m: Mesh, lis: seq<nat>) {
    forall j :: 0 <= j < |lis| ==> lis[j] < |m.loops|
  }

  /** Some loop among `lis` sits on vertex `i`. */
  predicate LoopsTouch(m: Mesh, lis: seq<nat>, i: nat) {
    exists j :: 0 <= j < |lis| && lis[j] < |m.loops| && m.loops[lis[j]].vertexIndex == i
  }

  predicate Touches(m: Mesh, p: Polygon, i: nat) {
    LoopsTouch(m, p.loopIndices, i)
  }

  /** `ps[k]` is the first polygon of `ps` touching vertex `i`. */
  predicate FirstTouching(m: Mesh, ps: seq<Polygon>, i: nat, k: nat) {
    && k < |ps|
    && Touches(m, ps[k], i)
    && forall k' :: 0 <= k' < k ==> !Touches(m, ps[k'], i)
  }

  /** The loops of `lis` that sit on vertex `i`, in their order in `lis`. */
  function MatchingLoops(m: Mesh, lis: seq<nat>, i: nat): (r: seq<nat>)
    requires IndicesInRange(m, lis)
    ensures IndicesInRange(m, r)
    decreases |lis|
  {
    if |lis| == 0 then []
    else
      var rest := MatchingLoops(m, lis[1..], i);
      if m.loops[lis[0]].vertexIndex == i then [lis[0]] + rest else rest
  }

  /** The selected loops are exactly the loops of `lis` on vertex `i`; there is
      one iff `lis` touches `i`. */
  lemma {:induction false} MatchingLoopsSelects(m: Mesh, lis: seq<nat>, i: nat)
    requires IndicesInRange(m, lis)
    ensures var r := MatchingLoops(m, lis, i);
      && (forall j :: 0 <= j < |r| ==> r[j] in lis && m.loops[r[j]].vertexIndex == i)
      && (forall j :: 0 <= j < |lis| && m.loops[lis[j]].vertexIndex == i ==> lis[j] in r)
      && (|r| > 0 <==> LoopsTouch(m, lis, i))
    decreases |lis|
  {
    if |lis| > 0 {
      MatchingLoopsSelects(m, lis[1..], i);
      assert forall j :: 1 <= j < |lis| ==> lis[j] == lis[1..][j - 1];
    }
  }

  /** `MatchingLoops` keeps a single loop iff it sits on `i`. With
      `MatchingLoopsAppend` this fixes the order and the number of the
      selected loops, not just which loops they are. */
  lemma MatchingLoopsOfOne(m: Mesh, li: nat, i: nat)
    requires li < |m.loops|
    ensures IndicesInRange(m, [li])
    ensures MatchingLoops(m, [li], i) == if m.loops[li].vertexIndex == i then [li] else []
  {
    assert [li][1..] == [];
  }

  /** The selection of a concatenation is the concatenation of the selections. */
  lemma {:induction false} MatchingLoopsAppend(m: Mesh, a: seq<nat>, b: seq<nat>, i: nat)
    requires IndicesInRange(m, a) && IndicesInRange(m, b)
    ensures IndicesInRange(m, a + b)
    ensures MatchingLoops(m, a + b, i) == MatchingLoops(m, a, i) + MatchingLoops(m, b, i)
    decreases |a|
  {
    assert IndicesInRange(m, a + b) by {
      forall j | 0 <= j < |a + b| ensures (a + b)[j] < |m.loops| {
        if j >= |a| {
          assert (a + b)[j] == b[j - |a|];
        }
      }
    }
    if |a| == 0 {
      assert a + b == b;
    } else {
      var tail := a[1..];
      assert IndicesInRange(m, tail) by {
        forall j | 0 <= j < |tail| ensures tail[j] < |m.loops| {
          assert tail[j] == a[j + 1];
        }
      }
      MatchingLoopsAppend(m, tail, b, i);
      assert (a + b)[1..] == tail + b;
    }
  }

  function ColorLinesOf(fmt: FloatFormat, c: ColorLayer, lis: seq<nat>): seq<string>
    requires forall j :: 0 <= j < |lis| ==> lis[j] < |c.data|
  {
    seq(|lis|, j requires 0 <= j < |lis| => ColorLine(fmt, c.data[lis[j]]))
  }

  /** The inner loop emits one colour line per loop on `i`, in loop order. */
  lemma {:induction false} ScanLoopsEmitsMatches(m: Mesh, fmt: FloatFormat, c: ColorLayer, i: nat, lis: seq<nat>)
    requires IndicesInRange(m, lis) && CoversLoops(m, c)
    ensures ScanLoops(m, fmt, c, i, lis) == Success(ColorLinesOf(fmt, c, MatchingLoops(m, lis, i)))
    decreases |lis|
  {
    if |lis| > 0 {
      var tail := lis[1..];
      assert IndicesInRange(m, tail) by {
        forall j | 0 <= j < |tail| ensures tail[j] < |m.loops| {
          assert tail[j] == lis[j + 1];
        }
      }
      ScanLoopsEmitsMatches(m, fmt, c, i, tail);
      var rest := MatchingLoops(m, tail, i);
      if m.loops[lis[0]].vertexIndex == i {
        assert MatchingLoops(m, lis, i) == [lis[0]] + rest;
        ColorLinesOfCons(fmt, c, lis[0], rest);
      } else {
        assert MatchingLoops(m, lis, i) == rest;
      }
    } else {
      assert ColorLinesOf(fmt, c, MatchingLoops(m, lis, i)) == [];
    }
  }

  lemma ColorLinesOfCons(fmt: FloatFormat, c: ColorLayer, li: nat, rest: seq<nat>)
    requires li < |c.data| && forall j :: 0 <= j < |rest| ==> rest[j] < |c.data|
    ensures ColorLinesOf(fmt, c, [li] + rest) == [ColorLine(fmt, c.data[li])] + ColorLinesOf(fmt, c, rest)
  {
  }

  /** Once `found` is set, the remaining polygons add nothing. */
  lemma {:induction false} ScanAfterFoundIsEmpty(m: Mesh, fmt: FloatFormat, c: ColorLayer, i: nat, ps: seq<Polygon>)
    ensures ScanPolygons(m, fmt, c, i, ps, true) == Success([])
    decreases |ps|
  {
    if |ps| > 0 {
      ScanAfterFoundIsEmpty(m, fmt, c, i, ps[1..]);
    }
  }

  predicate PolygonsInRange(m: Mesh, ps: seq<Polygon>) {
    forall k :: 0 <= k < |ps| ==> IndicesInRange(m, ps[k].loopIndices)
  }

  /** The colour lines the first polygon of `ps` yields for vertex `i`. */
  function HeadLines(m: Mesh, fmt: FloatFormat, c: ColorLayer, i: nat, ps: seq<Polygon>): seq<string>
    requires |ps| > 0 && PolygonsInRange(m, ps) && CoversLoops(m, c)
  {
    ColorLinesOf(fmt, c, MatchingLoops(m, ps[0].loopIndices, i))
  }

  /** When the first polygon touches `i`, it alone supplies the lines. */
  lemma ScanPolygonsHeadTouches(m: Mesh, fmt: FloatFormat, c: ColorLayer, i: nat, ps: seq<Polygon>)
    requires |ps| > 0 && PolygonsInRange(m, ps) && CoversLoops(m, c)
    requires Touches(m, ps[0], i)
    ensures ScanPolygons(m, fmt, c, i, ps, false) == Success(HeadLines(m, fmt, c, i, ps))
  {
    ScanLoopsEmitsMatches(m, fmt, c, i, ps[0].loopIndices);
    MatchingLoopsSelects(m, ps[0].loopIndices, i);
    ScanAfterFoundIsEmpty(m, fmt, c, i, ps[1..]);
    assert |HeadLines(m, fmt, c, i, ps)| > 0;
    assert HeadLines(m, fmt, c, i, ps) + [] == HeadLines(m, fmt, c, i, ps);
  }

  /** When the first polygon does not touch `i`, the scan moves on unchanged. */
  lemma ScanPolygonsHeadMisses(m: Mesh, fmt: FloatFormat, c: ColorLayer, i: nat, ps: seq<Polygon>)
    requires |ps| > 0 && PolygonsInRange(m, ps) && CoversLoops(m, c)
    requires !Touches(m, ps[0], i)
    ensures ScanPolygons(m, fmt, c, i, ps, false) == ScanPolygons(m, fmt, c, i, ps[1..], false)
  {
    ScanLoopsEmitsMatches(m, fmt, c, i, ps[0].loopIndices);
    MatchingLoopsSelects(m, ps[0].loopIndices, i);
    assert HeadLines(m, fmt, c, i, ps) == [];
    var rest := ScanPolygons(m, fmt, c, i, ps[1..], false);
    if rest.Success? {
      assert [] + rest.value == rest.value;
    }
  }

  lemma {:induction false} ScanPolygonsSelectsFirst(m: Mesh, fmt: FloatFormat, c: ColorLayer, i: nat, ps: seq<Polygon>)
    requires PolygonsInRange(m, ps) && CoversLoops(m, c)
    ensures ScanPolygons(m, fmt, c, i, ps, false).Success?
    ensures (forall k :: 0 <= k < |ps| ==> !Touches(m, ps[k], i)) ==>
      ScanPolygons(m, fmt, c, i, ps, false).value == []
    ensures forall k: nat :: FirstTouching(m, ps, i, k) ==>
      ScanPolygons(m, fmt, c, i, ps, false).value == ColorLinesOf(fmt, c, MatchingLoops(m, ps[k].loopIndices, i))
    decreases |ps|
  {
    if |ps| > 0 {
      var tail := ps[1..];
      if Touches(m, ps[0], i) {
        ScanPolygonsHeadTouches(m, fmt, c, i, ps);
        assert FirstTouching(m, ps, i, 0);
        forall k: nat | FirstTouching(m, ps, i, k) ensures k == 0 {
          FirstTouchingIsUnique(m, ps, i, 0, k);
        }
      } else {
        assert PolygonsInRange(m, tail) by {
          forall k | 0 <= k < |tail| ensures IndicesInRange(m, tail[k].loopIndices) {
            assert tail[k] == ps[k + 1];
          }
        }
        ScanPolygonsHeadMisses(m, fmt, c, i, ps);
        ScanPolygonsSelectsFirst(m, fmt, c, i, tail);
        if forall k :: 0 <= k < |ps| ==> !Touches(m, ps[k], i) {
          forall k | 0 <= k < |tail| ensures !Touches(m, tail[k], i) {
            assert tail[k] == ps[k + 1];
          }
        }
        forall k: nat | FirstTouching(m, ps, i, k)
          ensures ScanPolygons(m, fmt, c, i, ps, false).value
            == ColorLinesOf(fmt, c, MatchingLoops(m, ps[k].loopIndices, i))
        {
          assert k > 0 && tail[k - 1] == ps[k];
          forall k' | 0 <= k' < k - 1 ensures !Touches(m, tail[k'], i) {
            assert tail[k'] == ps[k' + 1];
          }
          assert FirstTouching(m, tail, i, k - 1);
        }
      }
    }
  }

  /** There is at most one first polygon touching a vertex. */
  lemma FirstTouchingIsUnique(m: Mesh, ps: seq<Polygon>, i: nat, a: nat, b: nat)
    requires FirstTouching(m, ps, i, a) && FirstTouching(m, ps, i, b)
    ensures a == b
  {
  }

  /** A vertex touched by some polygon has a first such polygon. */
  lemma {:induction false} FirstTouchingExists(m: Mesh, ps: seq<Polygon>, i: nat, k: nat)
    requires k < |ps| && Touches(m, ps[k], i)
    ensures exists f: nat :: FirstTouching(m, ps, i, f)
    decreases k
  {
    if !FirstTouching(m, ps, i, k) {
      var k' :| 0 <= k' < k && Touches(m, ps[k'], i);
      FirstTouchingExists(m, ps, i, k');
    }
  }

  /** The colour rule of `ascii_write_vtk`: for vertex `i`, the colours of every
      loop on `i` of the first polygon touching `i`; nothing when no polygon
      touches `i`. */
  lemma FirstMatchSelection(m: Mesh, fmt: FloatFormat, c: ColorLayer, i: nat)
    requires LoopsInRange(m) && CoversLoops(m, c)
    ensures VertexColorLines(m, fmt, c, i).Success?
    ensures (forall k :: 0 <= k < |m.polygons| ==> !Touches(m, m.polygons[k], i)) ==>
      VertexColorLines(m, fmt, c, i).value == []
    ensures forall k: nat :: FirstTouching(m, m.polygons, i, k) ==>
      VertexColorLines(m, fmt, c, i).value
        == ColorLinesOf(fmt, c, MatchingLoops(m, m.polygons[k].loopIndices, i))
  {
    assert PolygonsInRange(m, m.polygons);
    ScanPolygonsSelectsFirst(m, fmt, c, i, m.polygons);
  }

  /** A vertex gets colour lines exactly when some loop of some polygon sits on it. */
  lemma VertexColoredIffTouched(m: Mesh, fmt: FloatFormat, c: ColorLayer, i: nat)
    requires LoopsInRange(m) && CoversLoops(m, c)
    ensures VertexColorLines(m, fmt, c, i).Success?
    ensures |VertexColorLines(m, fmt, c, i).value| > 0 <==>
      exists k :: 0 <= k < |m.polygons| && Touches(m, m.polygons[k], i)
  {
    FirstMatchSelection(m, fmt, c, i);
    if k :| 0 <= k < |m.polygons| && Touches(m, m.polygons[k], i) {
      FirstTouchingExists(m, m.polygons, i, k);
      var f: nat :| FirstTouching(m, m.polygons, i, f);
      MatchingLoopsSelects(m, m.polygons[f].loopIndices, i);
    }
  }
}
