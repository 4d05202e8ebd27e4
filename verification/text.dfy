/**
  Text utilities over Python strings, modelled as sequences of code points:
  substring search (`t in s`), `sep.join(xs)`, `s.split(c)` and `str(n)` for
  integers.
*/
module Text {

  /** `t` occurs in `s` starting at index `i`. */
  predicate OccursAt(s: string, t: string, i: nat)
  {
    i + |t| <= |s| && s[i..i + |t|] == t
  }

  /** Python's `t in s` on strings. */
  predicate Contains(s: string, t: string)
  {
    exists i | 0 <= i <= |s| :: OccursAt(s, t, i)
  }

  lemma ContainsMiddle(a: string, t: string, b: string)
    ensures Contains(a + t + b, t)
  {
    assert OccursAt(a + t + b, t, |a|) by {
      assert (a + t + b)[|a|..|a| + |t|] == t;
    }
  }

  lemma ContainsLeft(a: string, b: string, t: string)
    requires Contains(a, t)
    ensures Contains(a + b, t)
  {
    var i :| 0 <= i <= |a| && OccursAt(a, t, i);
    assert (a + b)[i..i + |t|] == a[i..i + |t|];
    assert OccursAt(a + b, t, i);
  }

  lemma ContainsRight(a: string, b: string, t: string)
    requires Contains(b, t)
    ensures Contains(a + b, t)
  {
    var i :| 0 <= i <= |b| && OccursAt(b, t, i);
    assert (a + b)[|a| + i..|a| + i + |t|] == b[i..i + |t|];
    assert OccursAt(a + b, t, |a| + i);
  }

  /** Containment is transitive: a substring of a substring is a substring. */
  lemma ContainsTransitive(s: string, t: string, u: string)
    requires Contains(s, t) && Contains(t, u)
    ensures Contains(s, u)
  {
    var i :| 0 <= i <= |s| && OccursAt(s, t, i);
    var k :| 0 <= k <= |t| && OccursAt(t, u, k);
    forall j | 0 <= j < |u|
      ensures s[i + k + j] == u[j]
    {
      assert u[j] == t[k + j] == s[i + k + j];
    }
    assert s[i + k..i + k + |u|] == u;
    assert OccursAt(s, u, i + k);
  }

  /** Python's `sep.join(xs)`. */
  function Join(xs: seq<string>, sep: string): string
  {
    if |xs| == 0 then ""
    else if |xs| == 1 then xs[0]
    else xs[0] + sep + Join(xs[1..], sep)
  }

  /** Lines of text joined by line breaks, with no break after the last one. */
  function Lines(xs: seq<string>): string
  {
    Join(xs, "\n")
  }

  /** Every element of a joined list occurs in the joined text. */
  lemma {:induction false} ContainsJoined(xs: seq<string>, sep: string, k: nat)
    requires k < |xs|
    ensures Contains(Join(xs, sep), xs[k])
  {
    if |xs| == 1 {
      ContainsMiddle("", xs[0], "");
      assert "" + xs[0] + "" == xs[0];
    } else if k == 0 {
      ContainsMiddle("", xs[0], sep + Join(xs[1..], sep));
      assert "" + xs[0] + (sep + Join(xs[1..], sep)) == Join(xs, sep);
    } else {
      ContainsJoined(xs[1..], sep, k - 1);
      ContainsRight(xs[0] + sep, Join(xs[1..], sep), xs[k]);
    }
  }

  /** Line `k` of a template occurs in the rendered text, and so does every
      substring of it. */
  lemma ContainsLine(xs: seq<string>, k: nat, t: string)
    requires k < |xs| && Contains(xs[k], t)
    ensures Contains(Lines(xs), t)
  {
    ContainsJoined(xs, "\n", k);
    ContainsTransitive(Lines(xs), xs[k], t);
  }

  /** The piece `t` of a line `a + t + b` occurs in the rendered template. */
  lemma ContainsPiece(xs: seq<string>, k: nat, a: string, t: string, b: string)
    requires k < |xs| && xs[k] == a + t + b
    ensures Contains(Lines(xs), t)
  {
    ContainsMiddle(a, t, b);
    ContainsLine(xs, k, t);
  }

  lemma ContainsStart(t: string, b: string)
    ensures Contains(t + b, t)
  {
    ContainsMiddle("", t, b);
    assert "" + t + b == t + b;
  }

  lemma ContainsEnd(a: string, t: string)
    ensures Contains(a + t, t)
  {
    ContainsMiddle(a, t, "");
    assert a + t + "" == a + t;
  }

  /** An occurrence of `t` in `x + m + y` lies inside `x` or `y` or uses a
      character of the non-empty gap `m`. */
  lemma ContainsGap(x: string, m: string, y: string, t: string)
    requires |m| > 0
    ensures Contains(x + m + y, t) ==>
      Contains(x, t) || Contains(y, t) || exists k | 0 <= k < |m| :: m[k] in t
  {
    var s := x + m + y;
    if Contains(s, t) {
      var i :| 0 <= i <= |s| && OccursAt(s, t, i);
      var end := i + |t|;
      if |t| == 0 {
        assert OccursAt(x, t, 0);
      } else if end <= |x| {
        assert s[i..end] == x[i..end];
        assert OccursAt(x, t, i);
      } else if i >= |x| + |m| {
        assert s[i..end] == y[i - |x| - |m|..end - |x| - |m|];
        assert OccursAt(y, t, i - |x| - |m|);
      } else {
        var at := if i < |x| then |x| else i;
        assert t[at - i] == s[at] == m[at - |x|];
      }
    }
  }

  /** A character of a substring is a character of the text. */
  lemma ContainsChar(s: string, t: string, c: char)
    requires Contains(s, t) && c in t
    ensures c in s
  {
    var i :| 0 <= i <= |s| && OccursAt(s, t, i);
    var k :| 0 <= k < |t| && t[k] == c;
    assert s[i + k] == c;
  }

  /** A text lacking one of `t`'s characters does not contain `t`. */
  lemma LacksChar(s: string, t: string, c: char)
    requires c in t && c !in s
    ensures !Contains(s, t)
  {
    if Contains(s, t) {
      ContainsChar(s, t, c);
    }
  }


  /** Python's `s.startswith(p)`. */
  predicate IsPrefix(p: string, s: string)
  {
    |p| <= |s| && s[..|p|] == p
  }

  /** Python's `s.endswith(p)`. */
  predicate IsSuffix(p: string, s: string)
  {
    |p| <= |s| && s[|s| - |p|..] == p
  }

  lemma EndsWithAppended(a: string, b: string)
    ensures IsSuffix(b, a + b)
  {
    assert (a + b)[|a|..] == b;
  }

  /** A rendered template opens with its first line. */
  lemma StartsWithFirstLine(xs: seq<string>)
    requires |xs| >= 1
    ensures IsPrefix(xs[0], Lines(xs))
  {
    if |xs| > 1 {
      assert Lines(xs) == xs[0] + ("\n" + Lines(xs[1..]));
    }
  }

  /** Joining two non-empty runs of lines is joining each and putting a line
      break between them. */
  lemma {:induction false} LinesAppend(a: seq<string>, b: seq<string>)
    requires |a| >= 1 && |b| >= 1
    ensures Lines(a + b) == Lines(a) + ("\n" + Lines(b))
  {
    assert (a + b)[0] == a[0];
    assert (a + b)[1..] == a[1..] + b;
    if |a| > 1 {
      LinesAppend(a[1..], b);
      assert Lines(a + b) == a[0] + "\n" + (Lines(a[1..]) + ("\n" + Lines(b)));
    } else {
      assert a[1..] + b == b;
    }
  }

  /** Python's `s.split(c)`: the pieces between successive occurrences of `c`. */
  function Split(s: string, c: char): (r: seq<string>)
    ensures |r| >= 1
  {
    if |s| == 0 then [""]
    else
      var rest := Split(s[1..], c);
      if s[0] == c then [""] + rest
      else [[s[0]] + rest[0]] + rest[1..]
  }

  /** Splitting a text that starts with a piece free of `c`. */
  lemma {:induction false} SplitFreePrefix(a: string, s: string, c: char)
    requires c !in a
    ensures Split(a + s, c) == [a + Split(s, c)[0]] + Split(s, c)[1..]
  {
    if |a| > 0 {
      assert (a + s)[1..] == a[1..] + s;
      SplitFreePrefix(a[1..], s, c);
      assert [a[0]] + (a[1..] + Split(s, c)[0]) == a + Split(s, c)[0];
    } else {
      assert a + s == s;
      assert a + Split(s, c)[0] == Split(s, c)[0];
      assert Split(s, c) == [Split(s, c)[0]] + Split(s, c)[1..];
    }
  }

  /** `s.split(c)` undoes `c.join(xs)` when no element contains `c`. */
  lemma {:induction false} SplitJoin(xs: seq<string>, c: char)
    requires |xs| >= 1
    requires forall k :: 0 <= k < |xs| ==> c !in xs[k]
    ensures Split(Join(xs, [c]), c) == xs
  {
    if |xs| == 1 {
      SplitFreePrefix(xs[0], "", c);
      assert xs[0] + "" == xs[0];
    } else {
      var rest := Join(xs[1..], [c]);
      SplitJoin(xs[1..], c);
      assert Join(xs, [c]) == xs[0] + ([c] + rest);
      SplitFreePrefix(xs[0], [c] + rest, c);
      assert ([c] + rest)[0] == c && ([c] + rest)[1..] == rest;
      assert Split([c] + rest, c) == [""] + xs[1..];
      assert xs[0] + "" == xs[0];
      assert [xs[0]] + xs[1..] == xs;
    }
  }

  predicate IsDigit(ch: char)
  {
    '0' <= ch <= '9'
  }

  function DigitChar(d: nat): (ch: char)
    requires d < 10
    ensures IsDigit(ch)
  {
    (('0' as int) + d) as char
  }

  /** Python's `str(n)` for a non-negative integer: decimal, no leading zeros. */
  function NatToString(n: nat): (r: string)
    ensures |r| >= 1
    ensures forall k :: 0 <= k < |r| ==> IsDigit(r[k])
    ensures |r| > 1 ==> r[0] != '0'
  {
    if n < 10 then [DigitChar(n)]
    else NatToString(n / 10) + [DigitChar(n % 10)]
  }

  /** Python's `str(n)` for any integer. */
  function IntToString(n: int): string
  {
    if n < 0 then "-" + NatToString(-n) else NatToString(n)
  }

  function DigitValue(ch: char): (d: nat)
    requires IsDigit(ch)
    ensures d < 10
  {
    ch as int - '0' as int
  }

  /** Reads back a run of decimal digits; the inverse of `NatToString`. */
  function ParseNat(s: string): nat
    requires forall k :: 0 <= k < |s| ==> IsDigit(s[k])
  {
    if |s| == 0 then 0
    else 10 * ParseNat(s[..|s| - 1]) + DigitValue(s[|s| - 1])
  }

  /** Reads back an optionally negative decimal; the inverse of `IntToString`. */
  function ParseInt(s: string): int
  {
    if |s| > 0 && s[0] == '-' && forall k :: 1 <= k < |s| ==> IsDigit(s[k]) then
      0 - ParseNat(s[1..])
    else if forall k :: 0 <= k < |s| ==> IsDigit(s[k]) then
      ParseNat(s)
    else 0
  }

  lemma {:induction false} ParseNatToString(n: nat)
    ensures ParseNat(NatToString(n)) == n
  {
    if n >= 10 {
      var s := NatToString(n);
      assert s[..|s| - 1] == NatToString(n / 10);
      ParseNatToString(n / 10);
    }
  }

  /** `str(n)` is injective: the decimal text determines the integer. */
  lemma ParseIntToString(n: int)
    ensures ParseInt(IntToString(n)) == n
  {
    if n < 0 {
      var s := IntToString(n);
      assert s[1..] == NatToString(-n);
      ParseNatToString(-n);
    } else {
      ParseNatToString(n);
    }
  }
}
