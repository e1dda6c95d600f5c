/** Lines made of fields separated by single spaces, the shape of every numeric
    row the writer emits. `Join` is Python's `" ".join(...)` and `Split` is
    `str.split(" ")`: splitting on each single space, so that two adjacent
    spaces would give an empty field. */
module Fields {

  predicate SpaceFree(w: string) {
    forall k :: 0 <= k < |w| ==> w[k] != ' '
  }

  predicate AllSpaceFree(ws: seq<string>) {
    forall j :: 0 <= j < |ws| ==> SpaceFree(ws[j])
  }

  function Join(ws: seq<string>): string
    decreases |ws|
  {
    if |ws| == 0 then ""
    else if |ws| == 1 then ws[0]
    else ws[0] + " " + Join(ws[1..])
  }

  function Split(s: string): (r: seq<string>)
    ensures |r| >= 1
    decreases |s|
  {
    if |s| == 0 then [""]
    else if s[0] == ' ' then [""] + Split(s[1..])
    else
      var t := Split(s[1..]);
      [[s[0]] + t[0]] + t[1..]
  }

  /** A text without spaces is a single field. */
  lemma {:induction false} SplitSpaceFree(w: string)
    requires SpaceFree(w)
    ensures Split(w) == [w]
    decreases |w|
  {
    if |w| > 0 {
      SplitSpaceFree(w[1..]);
      assert [w[0]] + w[1..] == w;
    }
  }

  /** A space-free field followed by a space splits off as the first field. */
  lemma {:induction false} SplitAfterField(w: string, rest: string)
    requires SpaceFree(w)
    ensures Split(w + " " + rest) == [w] + Split(rest)
    decreases |w|
  {
    var s := w + " " + rest;
    if |w| == 0 {
      assert s[0] == ' ' && s[1..] == rest;
    } else {
      assert s[0] == w[0] && s[1..] == w[1..] + " " + rest;
      SplitAfterField(w[1..], rest);
      assert [w[0]] + w[1..] == w;
    }
  }

  /** Appending one more field to a non-empty join. */
  lemma {:induction false} JoinSnoc(ws: seq<string>, w: string)
    requires |ws| >= 1
    ensures Join(ws + [w]) == Join(ws) + " " + w
    decreases |ws|
  {
    if |ws| == 1 {
      assert (ws + [w])[1..] == [w];
    } else {
      assert (ws + [w])[1..] == ws[1..] + [w];
      JoinSnoc(ws[1..], w);
    }
  }

  /** Splitting a join of space-free fields gives the fields back. */
  lemma {:induction false} SplitJoin(ws: seq<string>)
    requires |ws| >= 1 && AllSpaceFree(ws)
    ensures Split(Join(ws)) == ws
    decreases |ws|
  {
    if |ws| == 1 {
      SplitSpaceFree(ws[0]);
    } else {
      assert SpaceFree(ws[0]);
      assert AllSpaceFree(ws[1..]) by {
        forall j | 0 <= j < |ws[1..]| ensures SpaceFree(ws[1..][j]) {
          assert ws[1..][j] == ws[j + 1];
        }
      }
      SplitAfterField(ws[0], Join(ws[1..]));
      SplitJoin(ws[1..]);
      assert [ws[0]] + ws[1..] == ws;
    }
  }
}
