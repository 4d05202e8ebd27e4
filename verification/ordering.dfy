/**
  Python's ordering on `str` and the `sorted(set(xs))` idiom the notebook
  builder uses for requirement lines and import statements.
*/
module Ordering {

  /** Python's `a < b` on strings: lexicographic by code point, and a proper
      prefix sorts first. */
  predicate Below(a: string, b: string)
  {
    |b| > 0 && (|a| == 0 || a[0] < b[0] || (a[0] == b[0] && Below(a[1..], b[1..])))
  }

  lemma {:induction false} BelowIrreflexive(a: string)
    ensures !Below(a, a)
  {
    if |a| > 0 {
      BelowIrreflexive(a[1..]);
    }
  }

  lemma {:induction false} BelowTransitive(a: string, b: string, c: string)
    requires Below(a, b) && Below(b, c)
    ensures Below(a, c)
  {
    if |a| > 0 && a[0] == b[0] && b[0] == c[0] {
      BelowTransitive(a[1..], b[1..], c[1..]);
    }
  }

  /** Any two distinct strings are ordered one way or the other. */
  lemma {:induction false} BelowTotal(a: string, b: string)
    ensures a == b || Below(a, b) || Below(b, a)
  {
    if |a| > 0 && |b| > 0 && a[0] == b[0] {
      BelowTotal(a[1..], b[1..]);
      if a[1..] == b[1..] {
        assert a == [a[0]] + a[1..] && b == [b[0]] + b[1..];
      }
    }
  }

  /** The strings listed in `xs`. */
  function Elems(xs: seq<string>): set<string>
  {
    set x | x in xs
  }

  /** The strings of a concatenation are those of either part. */
  lemma ElemsAppend(xs: seq<string>, ys: seq<string>)
    ensures Elems(xs + ys) == Elems(xs) + Elems(ys)
  {
    forall x | x in Elems(xs + ys)
      ensures x in Elems(xs) + Elems(ys)
    {
      var i :| 0 <= i < |xs + ys| && (xs + ys)[i] == x;
      if i >= |xs| {
        assert ys[i - |xs|] == x;
      }
    }
  }

  /** Sorted and free of duplicates. */
  predicate StrictlyIncreasing(xs: seq<string>)
  {
    forall i, j :: 0 <= i < j < |xs| ==> Below(xs[i], xs[j])
  }

  /** Inserts `x` into a strictly increasing list, dropping it if present. */
  function Insert(x: string, xs: seq<string>): (r: seq<string>)
    requires StrictlyIncreasing(xs)
    ensures StrictlyIncreasing(r)
    ensures Elems(r) == Elems(xs) + {x}
  {
    if |xs| == 0 then [x]
    else if x == xs[0] then xs
    else if Below(x, xs[0]) then
      InsertFront(x, xs)
    else
      BelowTotal(x, xs[0]);
      var tail := Insert(x, xs[1..]);
      assert Elems(xs) == {xs[0]} + Elems(xs[1..]);
      HeadBelowAll(xs[0], tail);
      assert Elems([xs[0]] + tail) == {xs[0]} + Elems(tail);
      [xs[0]] + tail
  }

  function InsertFront(x: string, xs: seq<string>): (r: seq<string>)
    requires StrictlyIncreasing(xs) && |xs| > 0 && Below(x, xs[0])
    ensures r == [x] + xs
    ensures StrictlyIncreasing(r)
    ensures Elems(r) == Elems(xs) + {x}
  {
    forall j | 0 < j < |xs|
      ensures Below(x, xs[j])
    {
      BelowTransitive(x, xs[0], xs[j]);
    }
    [x] + xs
  }

  /** Prefixing a strictly increasing list with an element below all of it
      keeps it strictly increasing. */
  lemma HeadBelowAll(h: string, tail: seq<string>)
    requires StrictlyIncreasing(tail)
    requires forall y :: y in Elems(tail) ==> Below(h, y)
    ensures StrictlyIncreasing([h] + tail)
  {
    forall i, j | 0 <= i < j < |[h] + tail|
      ensures Below(([h] + tail)[i], ([h] + tail)[j])
    {
      if i == 0 {
        assert tail[j - 1] in Elems(tail);
      }
    }
  }

  /** `sorted(set(xs))`: the elements of `xs`, in increasing order, each once. */
  function SortedUnique(xs: seq<string>): (r: seq<string>)
    ensures StrictlyIncreasing(r)
    ensures Elems(r) == Elems(xs)
  {
    if |xs| == 0 then []
    else
      var init := xs[..|xs| - 1];
      assert xs == init + [xs[|xs| - 1]];
      assert Elems(xs) == Elems(init) + {xs[|xs| - 1]};
      Insert(xs[|xs| - 1], SortedUnique(init))
  }

  /** A strictly increasing list is determined by the set of its elements. */
  lemma {:induction false} StrictlyIncreasingUnique(a: seq<string>, b: seq<string>)
    requires StrictlyIncreasing(a) && StrictlyIncreasing(b)
    requires Elems(a) == Elems(b)
    ensures a == b
  {
    ElemsEmpty(a);
    ElemsEmpty(b);
    if |a| == 0 || |b| == 0 {
    } else {
      // both heads are the least element of the common set
      assert a[0] in Elems(b);
      assert b[0] in Elems(a);
      if a[0] != b[0] {
        var i :| 0 <= i < |b| && b[i] == a[0];
        var j :| 0 <= j < |a| && a[j] == b[0];
        assert Below(b[0], a[0]) && Below(a[0], b[0]);
        BelowTransitive(a[0], b[0], a[0]);
        BelowIrreflexive(a[0]);
      }
      TailElems(a);
      TailElems(b);
      StrictlyIncreasingUnique(a[1..], b[1..]);
      assert a == [a[0]] + a[1..] && b == [b[0]] + b[1..];
    }
  }

  lemma ElemsEmpty(a: seq<string>)
    ensures Elems(a) == {} <==> |a| == 0
  {
    if |a| > 0 {
      assert a[0] in Elems(a);
    }
  }

  lemma TailElems(a: seq<string>)
    requires StrictlyIncreasing(a) && |a| > 0
    ensures Elems(a[1..]) == Elems(a) - {a[0]}
  {
    assert a == [a[0]] + a[1..];
    forall j | 0 < j < |a|
      ensures a[j] != a[0]
    {
      BelowIrreflexive(a[0]);
    }
  }

  /** `sorted(set(xs))` depends only on which strings `xs` lists: permuting or
      repeating entries changes nothing. */
  lemma SortedUniqueOrderIndependent(xs: seq<string>, ys: seq<string>)
    requires Elems(xs) == Elems(ys)
    ensures SortedUnique(xs) == SortedUnique(ys)
  {
    StrictlyIncreasingUnique(SortedUnique(xs), SortedUnique(ys));
  }
}
