/**
 * Splitting a property path on '.', as Kotlin's `String.split(".")` does:
 * every dot separates two pieces, empty pieces are kept, and the result is
 * never empty ("" gives [""], "a." gives ["a", ""]).
 */
module PathSplit {

  const Dot: char := '.'

  /** The pieces of `s` joined back together with a dot between neighbours. */
  function Join(pieces: seq<string>): (r: string)
    requires |pieces| >= 1
  {
    if |pieces| == 1 then pieces[0] else pieces[0] + [Dot] + Join(pieces[1..])
  }

  ghost predicate DotFree(pieces: seq<string>) {
    forall i :: 0 <= i < |pieces| ==> Dot !in pieces[i]
  }

  /** The dot-separated pieces of `s`: none contains a dot and joining them gives `s` back. */
  function Split(s: string): (r: seq<string>)
    ensures |r| >= 1
    ensures DotFree(r)
    ensures Join(r) == s
  {
    if s == [] then [""]
    else if s[0] == Dot then [""] + Split(s[1..])
    else
      var rest := Split(s[1..]);
      assert Join(rest) == s[1..];
      var r := [[s[0]] + rest[0]] + rest[1..];
      assert r[1..] == rest[1..];
      r
  }

  /** Splitting undoes joining, so `Split` and `Join` are inverse bijections. */
  lemma {:induction false} SplitJoin(pieces: seq<string>)
    requires |pieces| >= 1 && DotFree(pieces)
    ensures Split(Join(pieces)) == pieces
  {
    if |pieces| == 1 {
      SplitDotFree(pieces[0]);
    } else {
      var tail := pieces[1..];
      assert DotFree(tail) by {
        forall i | 0 <= i < |tail| ensures Dot !in tail[i] { assert tail[i] == pieces[i + 1]; }
      }
      SplitJoin(tail);
      SplitPrefix(pieces[0], Join(tail));
      assert [pieces[0]] + tail == pieces;
    }
  }

  /** A dot-free string is a single piece. */
  lemma SplitDotFree(w: string)
    requires Dot !in w
    ensures Split(w) == [w]
  {
  }

  /** A dot-free head followed by a dot splits off as the first piece. */
  lemma {:induction false} SplitPrefix(w: string, rest: string)
    requires Dot !in w
    ensures Split(w + [Dot] + rest) == [w] + Split(rest)
    decreases |w|
  {
    if w == [] {
      assert w + [Dot] + rest == [Dot] + rest;
      assert ([Dot] + rest)[1..] == rest;
    } else {
      var s := w + [Dot] + rest;
      assert s[0] == w[0] && s[1..] == w[1..] + [Dot] + rest;
      SplitPrefix(w[1..], rest);
      assert [w[0]] + w[1..] == w;
    }
  }

  /** Joining two piece lists end to end puts one dot between their joins. */
  lemma {:induction false} JoinConcat(a: seq<string>, b: seq<string>)
    requires |a| >= 1 && |b| >= 1
    ensures Join(a + b) == Join(a) + [Dot] + Join(b)
  {
    if |a| == 1 {
      assert (a + b)[1..] == b;
    } else {
      assert (a + b)[1..] == a[1..] + b;
      JoinConcat(a[1..], b);
    }
  }

  /** The pieces of `p + "." + q` are the pieces of `p` followed by those of `q`. */
  lemma SplitConcat(p: string, q: string)
    ensures Split(p + [Dot] + q) == Split(p) + Split(q)
  {
    var a, b := Split(p), Split(q);
    JoinConcat(a, b);
    assert DotFree(a + b) by {
      forall i | 0 <= i < |a + b| ensures Dot !in (a + b)[i] {
        if i < |a| { assert (a + b)[i] == a[i]; } else { assert (a + b)[i] == b[i - |a|]; }
      }
    }
    SplitJoin(a + b);
  }
}
