/**
 * The comma-separated text field through which the portfolio editors enter a
 * project's technologies and an experience's achievements: the field is parsed with
 * `split(',')`, `trim` and `filter(Boolean)`, and an edited record's list is shown
 * again with `join(', ')`.
 */
module ListField {
  import opened Text

  /** An entry as parsing produces it: non-empty, without surrounding whitespace, without a comma. */
  predicate CleanEntry(x: string) {
    x != "" && Trimmed(x) && ',' !in x
  }

  predicate Clean(xs: seq<string>) {
    forall i :: 0 <= i < |xs| ==> CleanEntry(xs[i])
  }

  /** `field.split(',').map(t => t.trim()).filter(Boolean)`. */
  function ParseList(field: string): (r: seq<string>)
    ensures Clean(r)
  {
    var pieces := SplitOn(field, ',');
    KeepEntriesClean(pieces);
    KeepEntries(pieces)
  }

  /** `pieces.map(t => t.trim()).filter(Boolean)`: the trimmed pieces that are not empty, in order. */
  function KeepEntries(pieces: seq<string>): (r: seq<string>)
    ensures |r| <= |pieces|
    ensures forall i :: 0 <= i < |r| ==> r[i] != "" && Trimmed(r[i])
    decreases |pieces|
  {
    if pieces == [] then []
    else
      var t := Trim(pieces[0]);
      var rest := KeepEntries(pieces[1..]);
      if t == "" then rest else [t] + rest
  }

  /** Pieces without commas give entries without commas. */
  lemma {:induction false} KeepEntriesClean(pieces: seq<string>)
    requires forall k :: 0 <= k < |pieces| ==> ',' !in pieces[k]
    ensures Clean(KeepEntries(pieces))
    decreases |pieces|
  {
    if pieces != [] {
      var tail := pieces[1..];
      assert forall k :: 0 <= k < |tail| ==> ',' !in tail[k] by {
        forall k | 0 <= k < |tail| ensures ',' !in tail[k] {
          assert tail[k] == pieces[k + 1];
        }
      }
      KeepEntriesClean(tail);
      var t := Trim(pieces[0]);
      TrimKeepsAbsence(pieces[0], ',');
      if t != "" {
        CleanCons(t, KeepEntries(tail));
      }
    }
  }

  lemma CleanCons(t: string, xs: seq<string>)
    requires CleanEntry(t) && Clean(xs)
    ensures Clean([t] + xs)
  {
  }

  lemma TrimKeepsAbsence(s: string, c: char)
    ensures c !in s ==> c !in Trim(s)
  {
    if c !in s {
      var j :| SliceAt(s, j, Trim(s));
      SliceKeepsAbsence(s, j, Trim(s), c);
    }
  }

  /** `list.join(', ')`: how the edit form shows a stored list. */
  function JoinList(xs: seq<string>): string {
    Join(xs, ", ")
  }

  lemma SliceKeepsAbsence(s: string, i: int, r: string, c: char)
    requires SliceAt(s, i, r) && c !in s
    ensures c !in r
  {
  }

  /** The pieces after the first one each carry the single space of the `', '` glue. */
  function Spaced(ys: seq<string>): (r: seq<string>)
    ensures |r| == |ys|
    ensures forall i :: 0 <= i < |ys| ==> r[i] == " " + ys[i]
  {
    seq(|ys|, i requires 0 <= i < |ys| => " " + ys[i])
  }

  lemma {:induction false} SplitJoin(p: string, xs: seq<string>)
    requires xs != [] && ',' !in p
    requires forall i :: 0 <= i < |xs| ==> ',' !in xs[i]
    ensures SplitOn(p + Join(xs, ", "), ',') == [p + xs[0]] + Spaced(xs[1..])
    decreases |xs|
  {
    if |xs| == 1 {
      assert ',' !in p + xs[0];
      SplitNoSep(p + xs[0], ',');
    } else {
      var tail := xs[1..];
      assert p + Join(xs, ", ") == (p + xs[0]) + [','] + (" " + Join(tail, ", "));
      assert ',' !in p + xs[0];
      SplitCons(p + xs[0], ',', " " + Join(tail, ", "));
      SplitJoin(" ", tail);
      assert [" " + tail[0]] + Spaced(tail[1..]) == Spaced(tail);
    }
  }

  lemma TrimSpaced(x: string)
    requires CleanEntry(x)
    ensures Trim(" " + x) == x
  {
    assert (" " + x)[1..] == x;
    assert TrimStart(" " + x) == TrimStart(x);
  }

  /** A piece that trims to an entry is kept, in front of what the rest gives. */
  lemma KeepEntriesCons(p: string, rest: seq<string>)
    requires Trim(p) != ""
    ensures KeepEntries([p] + rest) == [Trim(p)] + KeepEntries(rest)
  {
    assert ([p] + rest)[1..] == rest;
  }

  /** The spaced pieces of a clean list all survive parsing, trimmed back to the entries. */
  lemma {:induction false} KeepSpaced(ys: seq<string>)
    requires Clean(ys)
    ensures KeepEntries(Spaced(ys)) == ys
    decreases |ys|
  {
    if ys != [] {
      assert Spaced(ys) == [" " + ys[0]] + Spaced(ys[1..]);
      TrimSpaced(ys[0]);
      KeepEntriesCons(" " + ys[0], Spaced(ys[1..]));
      KeepSpaced(ys[1..]);
    }
  }

  /** Showing a clean list in the edit form and saving it unchanged gives the same list back. */
  lemma JoinParseRoundTrip(xs: seq<string>)
    requires Clean(xs)
    ensures ParseList(JoinList(xs)) == xs
  {
    if xs != [] {
      var pieces := SplitOn(JoinList(xs), ',');
      SplitJoin("", xs);
      assert "" + xs[0] == xs[0];
      assert "" + Join(xs, ", ") == JoinList(xs);
      assert pieces == [xs[0]] + Spaced(xs[1..]);
      KeepSpaced(xs[1..]);
      KeepEntriesCons(xs[0], Spaced(xs[1..]));
    }
  }
}
