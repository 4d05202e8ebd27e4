/**
  The regular expression the validator uses to spot a forbidden keyword
  argument, `Cls\s*\([^)]*param\s*=`, as searched by `re.search`: a
  declarative reading of what a match is, and a left-to-right scanner proved
  to find a match exactly when one exists. The validator states its findings
  with the declarative `PatternMatches`; `Search` shows that reading is
  decidable, the way `re.search` decides it, and is not called by the
  validator itself.
*/
module ParamPattern {
  import opened Text

  /** `\s` on a `str` pattern: the characters Python's `str.isspace` accepts. */
  predicate IsSpace(c: char)
  {
    var n := c as int;
    (9 <= n <= 13) || (28 <= n <= 32) || n == 0x85 || n == 0xA0 || n == 0x1680 ||
    (0x2000 <= n <= 0x200A) || n == 0x2028 || n == 0x2029 || n == 0x202F ||
    n == 0x205F || n == 0x3000
  }

  /** `s[i..j]` matches `\s*`. */
  predicate SpacesBetween(s: string, i: nat, j: nat)
    requires i <= j <= |s|
  {
    forall t | i <= t < j :: IsSpace(s[t])
  }

  /** `s[i..j]` matches `[^)]*`. */
  predicate NoCloseBetween(s: string, i: nat, j: nat)
    requires i <= j <= |s|
  {
    forall t | i <= t < j :: s[t] != ')'
  }

  /** `param\s*=` matches at `k`. */
  predicate AssignsAt(s: string, param: string, k: nat)
  {
    OccursAt(s, param, k) &&
    exists m | k + |param| <= m < |s| :: SpacesBetween(s, k + |param|, m) && s[m] == '='
  }

  /** `\([^)]*param\s*=` matches with its parenthesis at `j`. */
  predicate CallAssignsFrom(s: string, param: string, j: nat)
  {
    j < |s| && s[j] == '(' &&
    exists k | j + 1 <= k <= |s| :: NoCloseBetween(s, j + 1, k) && AssignsAt(s, param, k)
  }

  /** The whole pattern matches starting at `i`. */
  predicate MatchesAt(s: string, cls: string, param: string, i: nat)
  {
    OccursAt(s, cls, i) &&
    exists j | i + |cls| <= j < |s| :: SpacesBetween(s, i + |cls|, j) && CallAssignsFrom(s, param, j)
  }

  /** `re.search(cls + r'\s*\([^)]*' + param + r'\s*=', s)` succeeds; the
      class and parameter names are plain identifiers, so they match
      literally. */
  predicate PatternMatches(s: string, cls: string, param: string)
  {
    exists i | 0 <= i <= |s| :: MatchesAt(s, cls, param, i)
  }

  // ---------------------------------------------------------------------
  // The scanner
  // ---------------------------------------------------------------------

  /** The end of the run of whitespace starting at `i`. */
  function SkipSpaces(s: string, i: nat): (j: nat)
    requires i <= |s|
    ensures i <= j <= |s|
    ensures SpacesBetween(s, i, j)
    ensures j < |s| ==> !IsSpace(s[j])
    decreases |s| - i
  {
    if i < |s| && IsSpace(s[i]) then SkipSpaces(s, i + 1) else i
  }

  /** The first `)` at or after `i`, or the end of the text. */
  function NextClose(s: string, i: nat): (c: nat)
    requires i <= |s|
    ensures i <= c <= |s|
    ensures NoCloseBetween(s, i, c)
    ensures c < |s| ==> s[c] == ')'
    decreases |s| - i
  {
    if i < |s| && s[i] != ')' then NextClose(s, i + 1) else i
  }

  /** Whitespace is skipped greedily: a run of spaces ending just before a
      non-space character ends where `SkipSpaces` stops. */
  lemma SkipSpacesUnique(s: string, i: nat, j: nat)
    requires i <= j < |s| && SpacesBetween(s, i, j) && !IsSpace(s[j])
    ensures SkipSpaces(s, i) == j
  {
  }

  /** Scanner form of `param\s*=` at `k`. */
  predicate AssignAtScan(s: string, param: string, k: nat)
  {
    OccursAt(s, param, k) &&
    var m := SkipSpaces(s, k + |param|);
    m < |s| && s[m] == '='
  }

  lemma AssignAtScanCorrect(s: string, param: string, k: nat)
    ensures AssignAtScan(s, param, k) <==> AssignsAt(s, param, k)
  {
    if AssignsAt(s, param, k) {
      var m :| k + |param| <= m < |s| && SpacesBetween(s, k + |param|, m) && s[m] == '=';
      SkipSpacesUnique(s, k + |param|, m);
    }
  }

  /** Tries every start `k` in `lo..hi` for `param\s*=`. */
  function AssignBetween(s: string, param: string, lo: nat, hi: nat): bool
    requires lo <= hi + 1
    decreases hi + 1 - lo
  {
    if lo > hi then false
    else AssignAtScan(s, param, lo) || AssignBetween(s, param, lo + 1, hi)
  }

  lemma {:induction false} AssignBetweenCorrect(s: string, param: string, lo: nat, hi: nat)
    requires lo <= hi + 1
    ensures AssignBetween(s, param, lo, hi) <==> exists k | lo <= k <= hi :: AssignsAt(s, param, k)
    decreases hi + 1 - lo
  {
    if lo <= hi {
      AssignAtScanCorrect(s, param, lo);
      AssignBetweenCorrect(s, param, lo + 1, hi);
    }
  }

  /** Scanner form of `\([^)]*param\s*=` at `j`: the parameter must start
      before the first closing parenthesis, or at it. */
  predicate CallAtScan(s: string, param: string, j: nat)
  {
    j < |s| && s[j] == '(' && AssignBetween(s, param, j + 1, NextClose(s, j + 1))
  }

  lemma CallAtScanCorrect(s: string, param: string, j: nat)
    ensures CallAtScan(s, param, j) <==> CallAssignsFrom(s, param, j)
  {
    if j < |s| && s[j] == '(' {
      var c := NextClose(s, j + 1);
      AssignBetweenCorrect(s, param, j + 1, c);
      if CallAssignsFrom(s, param, j) {
        var k :| j + 1 <= k <= |s| && NoCloseBetween(s, j + 1, k) && AssignsAt(s, param, k);
        if k > c {
          assert s[c] == ')';
        }
      }
      if CallAtScan(s, param, j) {
        var k :| j + 1 <= k <= c && AssignsAt(s, param, k);
        assert NoCloseBetween(s, j + 1, k);
      }
    }
  }

  /** Scanner form of the whole pattern at `i`. */
  predicate MatchAtScan(s: string, cls: string, param: string, i: nat)
  {
    OccursAt(s, cls, i) && CallAtScan(s, param, SkipSpaces(s, i + |cls|))
  }

  lemma MatchAtScanCorrect(s: string, cls: string, param: string, i: nat)
    ensures MatchAtScan(s, cls, param, i) <==> MatchesAt(s, cls, param, i)
  {
    if OccursAt(s, cls, i) {
      var j := SkipSpaces(s, i + |cls|);
      CallAtScanCorrect(s, param, j);
      if MatchesAt(s, cls, param, i) {
        var j' :| i + |cls| <= j' < |s| && SpacesBetween(s, i + |cls|, j') && CallAssignsFrom(s, param, j');
        SkipSpacesUnique(s, i + |cls|, j');
        CallAtScanCorrect(s, param, j');
      }
    }
  }

  /** Scans the text left to right for a match of the pattern. */
  method Search(s: string, cls: string, param: string) returns (found: bool)
    ensures found <==> PatternMatches(s, cls, param)
  {
    var i := 0;
    while i <= |s|
      invariant 0 <= i <= |s| + 1
      invariant forall i' | 0 <= i' < i :: !MatchesAt(s, cls, param, i')
    {
      MatchAtScanCorrect(s, cls, param, i);
      if MatchAtScan(s, cls, param, i) {
        return true;
      }
      i := i + 1;
    }
    return false;
  }

  /** Whitespace skipping stops at the first character that is not a space. */
  lemma {:induction false} SkipSpacesStops(s: string, i: nat, e: nat)
    requires i <= e < |s| && !IsSpace(s[e])
    ensures SkipSpaces(s, i) <= e
    decreases e - i
  {
    if IsSpace(s[i]) {
      SkipSpacesStops(s, i + 1, e);
    }
  }

  /** The search for `)` stops at the first one. */
  lemma {:induction false} NextCloseStops(s: string, i: nat, e: nat)
    requires i <= e < |s| && s[e] == ')'
    ensures NextClose(s, i) <= e
    decreases e - i
  {
    if s[i] != ')' {
      NextCloseStops(s, i + 1, e);
    }
  }

  /** An occurrence of the class name in `p + v + q` that does not lie
      before `v`'s closing parenthesis, within `v`, lies in `p` or `q` or
      spans a line break or that parenthesis. */
  lemma ClassAround(p: string, v: string, q: string, cls: string, i: nat)
    requires |p| > 0 && p[|p| - 1] == '\n'
    requires |v| > 0 && v[|v| - 1] == ')'
    requires |q| > 0 && q[0] == '\n'
    ensures OccursAt(p + v + q, cls, i) && !(|p| <= i && i + |cls| < |p| + |v|) ==>
      Contains(p, cls) || Contains(q, cls) || '\n' in cls || ')' in cls
  {
    var s := p + v + q;
    var e := |p| + |v| - 1;
    assert s[|p| - 1] == '\n' && s[e] == ')' && s[e + 1] == '\n';
    if OccursAt(s, cls, i) {
      if i + |cls| <= |p| {
        assert s[i..i + |cls|] == p[i..i + |cls|];
        assert OccursAt(p, cls, i);
      } else if i < |p| {
        assert cls[|p| - 1 - i] == s[|p| - 1];
      } else if i > e {
        assert s[i..i + |cls|] == q[i - e - 1..i - e - 1 + |cls|];
        assert OccursAt(q, cls, i - e - 1);
      } else if i + |cls| == e + 1 {
        assert cls[e - i] == s[e];
      } else if i + |cls| > e + 1 {
        assert cls[e + 1 - i] == s[e + 1];
      }
    }
  }

  /** An occurrence of the parameter starting inside `v` lies in `v` or
      spans the line break after it. */
  lemma ParamInside(p: string, v: string, q: string, param: string, k: nat)
    requires |q| > 0 && q[0] == '\n'
    requires |p| <= k <= |p| + |v|
    ensures OccursAt(p + v + q, param, k) ==> Contains(v, param) || '\n' in param
  {
    var s := p + v + q;
    if OccursAt(s, param, k) {
      if k + |param| <= |p| + |v| {
        assert s[k..k + |param|] == v[k - |p|..k - |p| + |param|];
        assert OccursAt(v, param, k - |p|);
      } else {
        assert param[|p| + |v| - k] == s[|p| + |v|] == q[0];
      }
    }
  }

  /** A call opened inside `v`, before its closing parenthesis, takes its
      parameter from `v` unless the parameter spans the line break after
      `v`. */
  lemma CallInside(p: string, v: string, q: string, param: string, j: nat)
    requires |v| > 0 && v[|v| - 1] == ')'
    requires |q| > 0 && q[0] == '\n'
    requires |p| <= j < |p| + |v| - 1
    ensures CallAtScan(p + v + q, param, j) ==> Contains(v, param) || '\n' in param
  {
    var s := p + v + q;
    var e := |p| + |v| - 1;
    assert s[e] == ')';
    var c := NextClose(s, j + 1);
    NextCloseStops(s, j + 1, e);
    AssignBetweenCorrect(s, param, j + 1, c);
    forall k | j + 1 <= k <= c
      ensures OccursAt(s, param, k) ==> Contains(v, param) || '\n' in param
    {
      ParamInside(p, v, q, param, k);
    }
  }

  /** A match in `p + v + q`, where `p` ends a line, `v` ends with `)` and `q`
      starts a new line, finds the class name in `p` or `q`, or the parameter
      in `v`, or the class name or parameter spans a line break or the
      closing parenthesis. A match of the class name inside `v` cannot take
      its parameter from beyond `v`'s closing parenthesis. */
  lemma MatchAtAround(p: string, v: string, q: string, cls: string, param: string, i: nat)
    requires |p| > 0 && p[|p| - 1] == '\n'
    requires |v| > 0 && v[|v| - 1] == ')'
    requires |q| > 0 && q[0] == '\n'
    ensures MatchesAt(p + v + q, cls, param, i) ==>
      Contains(p, cls) || Contains(q, cls) || Contains(v, param) ||
      '\n' in cls || ')' in cls || '\n' in param
  {
    var s := p + v + q;
    var e := |p| + |v| - 1;
    assert s[e] == ')';
    MatchAtScanCorrect(s, cls, param, i);
    ClassAround(p, v, q, cls, i);
    if |p| <= i && i + |cls| < |p| + |v| {
      var j := SkipSpaces(s, i + |cls|);
      SkipSpacesStops(s, i + |cls|, e);
      if j < e {
        CallInside(p, v, q, param, j);
      }
    }
  }

  /** With a call on a line of its own that closes there and does not spell
      the parameter, any match needs the class name in the lines before or
      after it. */
  lemma MatchNeedsOtherLine(head: string, v: string, tail: string, cls: string, param: string)
    requires |v| > 0 && v[|v| - 1] == ')' && !Contains(v, param)
    requires |cls| > 0 && '\n' !in cls && ')' !in cls && '\n' !in param
    ensures PatternMatches((head + "\n") + v + ("\n" + tail), cls, param) ==> Contains(head, cls) || Contains(tail, cls)
  {
    var p := head + "\n";
    var q := "\n" + tail;
    assert p + "" == p && "" + "\n" + tail == q;
    assert "\n"[0] !in cls;
    assert !Contains("", cls);
    ContainsGap(head, "\n", "", cls);
    ContainsGap("", "\n", tail, cls);
    assert Contains(p, cls) ==> Contains(head, cls);
    assert Contains(q, cls) ==> Contains(tail, cls);
    forall i | 0 <= i <= |p + v + q|
      ensures MatchesAt(p + v + q, cls, param, i) ==> Contains(head, cls) || Contains(tail, cls)
    {
      MatchAtAround(p, v, q, cls, param, i);
    }
  }

  /** Every match spells out the parameter name. */
  lemma PatternNeedsParam(s: string, cls: string, param: string)
    requires PatternMatches(s, cls, param)
    ensures Contains(s, cls) && Contains(s, param)
  {
    var i :| 0 <= i <= |s| && MatchesAt(s, cls, param, i);
    var j :| i + |cls| <= j < |s| && SpacesBetween(s, i + |cls|, j) && CallAssignsFrom(s, param, j);
    var k :| j + 1 <= k <= |s| && NoCloseBetween(s, j + 1, k) && AssignsAt(s, param, k);
    assert OccursAt(s, param, k);
  }

  /** A direct call passing the parameter as a keyword, with no closing
      parenthesis among the arguments before it, is always flagged. */
  lemma KeywordCallMatches(pre: string, cls: string, args: string, param: string, post: string)
    requires ')' !in args
    ensures PatternMatches(pre + cls + "(" + args + param + "=" + post, cls, param)
  {
    var s := pre + cls + "(" + args + param + "=" + post;
    var i := |pre|;
    var j := i + |cls|;
    var k := j + 1 + |args|;
    var m := k + |param|;
    assert s[i..j] == cls;
    assert s[j] == '(';
    assert s[k..m] == param;
    assert s[m] == '=';
    forall t | j + 1 <= t < k
      ensures s[t] != ')'
    {
      assert s[t] == args[t - j - 1];
    }
    assert SpacesBetween(s, m, m);
    assert AssignsAt(s, param, k);
    assert SpacesBetween(s, j, j);
    assert CallAssignsFrom(s, param, j);
    assert MatchesAt(s, cls, param, i);
  }
}
