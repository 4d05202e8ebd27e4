/**
  `NotebookValidator.validate`: parse the notebook, compile every code cell,
  and look for keyword arguments the scikit-learn vectorizers do not accept.
  Every problem is collected, none stops the checking, and the notebook is
  valid exactly when nothing was collected. Parsing and compiling are done by
  Python's own machinery, which is not part of this model: both come in as
  oracles.
*/
module Validation {
  import opened Text
  import opened Records
  import opened Notebook
  import opened ParamPattern
  import opened DatasetGenerators

  // ---------------------------------------------------------------------
  // The rule table
  // ---------------------------------------------------------------------

  /** A scikit-learn class, the keyword arguments it rejects, and why. */
  datatype ParamRule = ParamRule(className: string, forbiddenParams: seq<string>, reason: string)

  /** The rule for a deterministic vectorizer: `random_state` is forbidden. */
  function DeterministicRule(className: string): ParamRule
  {
    ParamRule(className, ["random_state"], className + " is deterministic and does not accept random_state")
  }

  /** `SKLEARN_PARAM_RULES`, in the dictionary's insertion order. */
  const ParamRules: seq<ParamRule> :=
    [DeterministicRule("CountVectorizer"), DeterministicRule("TfidfVectorizer"), DeterministicRule("HashingVectorizer")]

  // ---------------------------------------------------------------------
  // Oracles and the result
  // ---------------------------------------------------------------------

  /** What `compile(source, filename, 'exec')` does: succeed, raise a
      `SyntaxError` (line number, possibly `None`, and message) or raise any
      other exception (its text). */
  datatype CompileOutcome = Compiled | SyntaxFailure(lineno: Option<int>, msg: string) | OtherFailure(text: string)

  type Compiler = (string, string) -> CompileOutcome

  /** What `nbformat.reads(bytes.decode('utf-8'), as_version=4)` does:
      yield the cells, or raise (the exception's text). */
  datatype ParseOutcome = Parsed(cells: seq<Cell>) | ParseFailed(reason: string)

  type NotebookReader = seq<bv8> -> ParseOutcome

  datatype ValidationResult = ValidationResult(valid: bool, errors: seq<string>)

  /** `bool(result)`. */
  predicate IsTruthy(r: ValidationResult)
  {
    r.valid
  }

  // ---------------------------------------------------------------------
  // Messages
  // ---------------------------------------------------------------------

  /** A message head followed by a cell index and a separator that is not a
      digit, so that the index reads back unambiguously. */
  function Tagged(head: string, i: nat, sep: char): string
  {
    head + NatToString(i) + [sep]
  }

  const SyntaxHead := "Syntax error in cell "
  const CompilationHead := "Compilation error in cell "
  const ParamHead := "Cell "

  function LinenoText(lineno: Option<int>): string
  {
    match lineno
    case None => "None"
    case Some(n) => IntToString(n)
  }

  function ParseFailureMessage(reason: string): string
  {
    "Failed to parse notebook: " + reason
  }

  function SyntaxMessage(i: nat, lineno: Option<int>, msg: string): string
  {
    Tagged(SyntaxHead, i, ' ') + ("at line " + LinenoText(lineno) + ": " + msg)
  }

  function CompilationMessage(i: nat, text: string): string
  {
    Tagged(CompilationHead, i, ':') + (" " + text)
  }

  function ParamMessage(i: nat, rule: ParamRule, param: string): string
  {
    Tagged(ParamHead, i, ':') + ParamDetail(rule, param)
  }

  function ParamDetail(rule: ParamRule, param: string): string
  {
    " " + rule.className + " uses invalid parameter '" + param + "'. Reason: " + rule.reason
  }

  /** The message names cell `i` as one that failed to compile. */
  predicate NamesFailedCell(e: string, i: nat)
  {
    IsPrefix(Tagged(SyntaxHead, i, ' '), e) || IsPrefix(Tagged(CompilationHead, i, ':'), e)
  }

  // ---------------------------------------------------------------------
  // The checks
  // ---------------------------------------------------------------------

  /** The filename a cell is compiled under. */
  function CellFilename(i: nat): string
  {
    "<cell-" + NatToString(i) + ">"
  }

  /** A code cell whose source does not compile. */
  predicate FailsToCompile(cell: Cell, i: nat, compile: Compiler)
  {
    cell.kind == CodeCell && !compile(cell.source, CellFilename(i)).Compiled?
  }

  /** The syntax check's finding for one cell. */
  function CellSyntaxErrors(cell: Cell, i: nat, compile: Compiler): (errs: seq<string>)
    ensures |errs| == (if FailsToCompile(cell, i, compile) then 1 else 0)
  {
    if cell.kind != CodeCell then []
    else
      match compile(cell.source, CellFilename(i))
      case Compiled => []
      case SyntaxFailure(lineno, msg) => [SyntaxMessage(i, lineno, msg)]
      case OtherFailure(text) => [CompilationMessage(i, text)]
  }

  /** `_check_syntax`, from cell `i` on. */
  function SyntaxErrorsFrom(cells: seq<Cell>, i: nat, compile: Compiler): seq<string>
    requires i <= |cells|
    decreases |cells| - i
  {
    if i == |cells| then []
    else CellSyntaxErrors(cells[i], i, compile) + SyntaxErrorsFrom(cells, i + 1, compile)
  }

  function CheckSyntax(cells: seq<Cell>, compile: Compiler): seq<string>
  {
    SyntaxErrorsFrom(cells, 0, compile)
  }

  /** The findings of one rule's forbidden parameters on one cell source. */
  function ForbiddenParamErrors(source: string, i: nat, rule: ParamRule, params: seq<string>): seq<string>
  {
    if |params| == 0 then []
    else
      (if PatternMatches(source, rule.className, params[0]) then [ParamMessage(i, rule, params[0])] else []) +
      ForbiddenParamErrors(source, i, rule, params[1..])
  }

  /** The findings of the given rules on one cell source; a rule whose class
      name does not occur is skipped. */
  function RuleErrors(source: string, i: nat, rules: seq<ParamRule>): seq<string>
  {
    if |rules| == 0 then []
    else
      (if Contains(source, rules[0].className) then ForbiddenParamErrors(source, i, rules[0], rules[0].forbiddenParams) else []) +
      RuleErrors(source, i, rules[1..])
  }

  function CellParamErrors(cell: Cell, i: nat): seq<string>
  {
    if cell.kind != CodeCell then [] else RuleErrors(cell.source, i, ParamRules)
  }

  /** `_check_sklearn_params`, from cell `i` on. */
  function ParamErrorsFrom(cells: seq<Cell>, i: nat): seq<string>
    requires i <= |cells|
    decreases |cells| - i
  {
    if i == |cells| then []
    else CellParamErrors(cells[i], i) + ParamErrorsFrom(cells, i + 1)
  }

  function CheckParams(cells: seq<Cell>): seq<string>
  {
    ParamErrorsFrom(cells, 0)
  }

  /** `validate(notebook_bytes)`. */
  function Validate(bytes: seq<bv8>, read: NotebookReader, compile: Compiler): (r: ValidationResult)
    ensures r.valid <==> |r.errors| == 0
    ensures IsTruthy(r) == r.valid
    ensures read(bytes).ParseFailed? ==> r.errors == [ParseFailureMessage(read(bytes).reason)]
  {
    match read(bytes)
    case ParseFailed(reason) => ValidationResult(false, [ParseFailureMessage(reason)])
    case Parsed(cells) =>
      var errors := CheckSyntax(cells, compile) + CheckParams(cells);
      ValidationResult(|errors| == 0, errors)
  }

  // ---------------------------------------------------------------------
  // Reading messages back
  // ---------------------------------------------------------------------

  /** The run of decimal digits a text opens with. */
  function DigitRun(s: string): (r: string)
    ensures forall k :: 0 <= k < |r| ==> IsDigit(r[k])
  {
    if |s| > 0 && IsDigit(s[0]) then [s[0]] + DigitRun(s[1..]) else ""
  }

  lemma {:induction false} DigitRunStopsAtSeparator(a: string, sep: char, rest: string)
    requires forall k :: 0 <= k < |a| ==> IsDigit(a[k])
    requires !IsDigit(sep)
    ensures DigitRun(a + [sep] + rest) == a
  {
    if |a| == 0 {
      assert a + [sep] + rest == [sep] + rest;
    } else {
      assert (a + [sep] + rest)[1..] == a[1..] + [sep] + rest;
      DigitRunStopsAtSeparator(a[1..], sep, rest);
      assert [a[0]] + a[1..] == a;
    }
  }

  /** The cell index written right after a message head. */
  function IndexAfter(head: string, e: string): nat
  {
    if |head| <= |e| then ParseNat(DigitRun(e[|head|..])) else 0
  }

  /** The index a message was tagged with reads back. */
  lemma TaggedReadsBack(head: string, i: nat, sep: char, e: string)
    requires !IsDigit(sep) && IsPrefix(Tagged(head, i, sep), e)
    ensures IndexAfter(head, e) == i
  {
    var a := NatToString(i);
    var rest := e[|head| + |a| + 1..];
    assert e == e[..|head| + |a| + 1] + rest;
    assert e[|head|..] == a + [sep] + rest;
    DigitRunStopsAtSeparator(a, sep, rest);
    ParseNatToString(i);
  }

  lemma TaggedPrefix(head: string, i: nat, sep: char, detail: string)
    ensures IsPrefix(Tagged(head, i, sep), Tagged(head, i, sep) + detail)
    ensures IsPrefix(head, Tagged(head, i, sep) + detail)
  {
    assert (Tagged(head, i, sep) + detail)[..|head|] == head;
  }

  // ---------------------------------------------------------------------
  // Properties of the validator
  // ---------------------------------------------------------------------

  /** A finding of the syntax check. */
  predicate IsSyntaxFinding(e: string)
  {
    IsPrefix(SyntaxHead, e) || IsPrefix(CompilationHead, e)
  }

  /** A finding of the parameter check. */
  predicate IsParamFinding(e: string)
  {
    IsPrefix(ParamHead, e)
  }

  /** No message is both: the heads differ in their first two letters. */
  lemma FindingKindsDisjoint(e: string)
    ensures !(IsSyntaxFinding(e) && IsParamFinding(e))
  {
    if IsParamFinding(e) {
      assert e[0] == 'C' && e[1] == 'e';
      assert SyntaxHead[0] == 'S';
      assert CompilationHead[1] == 'o';
    }
  }

  lemma {:induction false} SyntaxFindingsFrom(cells: seq<Cell>, i: nat, compile: Compiler)
    requires i <= |cells|
    ensures forall e :: e in SyntaxErrorsFrom(cells, i, compile) ==> IsSyntaxFinding(e)
    decreases |cells| - i
  {
    if i < |cells| {
      SyntaxFindingsFrom(cells, i + 1, compile);
      if cells[i].kind == CodeCell {
        match compile(cells[i].source, CellFilename(i))
        case Compiled =>
        case SyntaxFailure(lineno, msg) =>
          TaggedPrefix(SyntaxHead, i, ' ', "at line " + LinenoText(lineno) + ": " + msg);
        case OtherFailure(text) =>
          TaggedPrefix(CompilationHead, i, ':', " " + text);
      }
    }
  }

  lemma {:induction false} ForbiddenParamTagged(source: string, i: nat, rule: ParamRule, params: seq<string>)
    ensures forall e :: e in ForbiddenParamErrors(source, i, rule, params) ==> IsPrefix(Tagged(ParamHead, i, ':'), e) && IsParamFinding(e)
  {
    if |params| > 0 {
      TaggedPrefix(ParamHead, i, ':', ParamDetail(rule, params[0]));
      ForbiddenParamTagged(source, i, rule, params[1..]);
    }
  }

  lemma {:induction false} RuleErrorsTagged(source: string, i: nat, rules: seq<ParamRule>)
    ensures forall e :: e in RuleErrors(source, i, rules) ==> IsPrefix(Tagged(ParamHead, i, ':'), e) && IsParamFinding(e)
  {
    if |rules| > 0 {
      ForbiddenParamTagged(source, i, rules[0], rules[0].forbiddenParams);
      RuleErrorsTagged(source, i, rules[1..]);
    }
  }

  lemma {:induction false} ParamFindingsFrom(cells: seq<Cell>, i: nat)
    requires i <= |cells|
    ensures forall e :: e in ParamErrorsFrom(cells, i) ==> IsParamFinding(e)
    decreases |cells| - i
  {
    if i < |cells| {
      RuleErrorsTagged(cells[i].source, i, ParamRules);
      ParamFindingsFrom(cells, i + 1);
    }
  }

  /** The first `n` messages are syntax findings and the rest parameter
      findings. */
  predicate SyntaxThenParams(errs: seq<string>, n: nat)
  {
    n <= |errs| &&
    (forall k | 0 <= k < n :: IsSyntaxFinding(errs[k])) &&
    (forall k | n <= k < |errs| :: IsParamFinding(errs[k]))
  }

  /** The cell a syntax-check finding names: the index after whichever of
      the two heads the message opens with. */
  function FailedCell(e: string): nat
  {
    if IsPrefix(SyntaxHead, e) then IndexAfter(SyntaxHead, e) else IndexAfter(CompilationHead, e)
  }

  /** A cell contributes at most one finding, and it names that cell. */
  lemma CellSyntaxErrorsName(cell: Cell, i: nat, compile: Compiler)
    ensures forall e :: e in CellSyntaxErrors(cell, i, compile) ==> FailedCell(e) == i
  {
    if cell.kind == CodeCell {
      match compile(cell.source, CellFilename(i))
      case Compiled =>
      case SyntaxFailure(lineno, msg) =>
        var e := SyntaxMessage(i, lineno, msg);
        TaggedPrefix(SyntaxHead, i, ' ', "at line " + LinenoText(lineno) + ": " + msg);
        TaggedReadsBack(SyntaxHead, i, ' ', e);
      case OtherFailure(text) =>
        var e := CompilationMessage(i, text);
        TaggedPrefix(CompilationHead, i, ':', " " + text);
        TaggedReadsBack(CompilationHead, i, ':', e);
        assert e[0] == 'C' && SyntaxHead[0] == 'S';
    }
  }

  /** Every message names a cell at `lo` or later that fails to compile. */
  predicate NamesFailingCells(errs: seq<string>, lo: nat, cells: seq<Cell>, compile: Compiler)
  {
    forall k | 0 <= k < |errs| ::
      lo <= FailedCell(errs[k]) < |cells| && FailsToCompile(cells[FailedCell(errs[k])], FailedCell(errs[k]), compile)
  }

  /** The syntax findings among the first `n` name their cells in strictly
      increasing order. */
  predicate InCellOrder(errs: seq<string>, n: nat)
  {
    forall k, l | 0 <= k < l < n && l < |errs| :: FailedCell(errs[k]) < FailedCell(errs[l])
  }

  /** The findings from cell `i` on name cells `i` and later, each a cell
      that fails to compile. */
  lemma {:induction false} SyntaxErrorsFromNameFailing(cells: seq<Cell>, i: nat, compile: Compiler)
    requires i <= |cells|
    ensures NamesFailingCells(SyntaxErrorsFrom(cells, i, compile), i, cells, compile)
    decreases |cells| - i
  {
    if i < |cells| {
      var head := CellSyntaxErrors(cells[i], i, compile);
      var tail := SyntaxErrorsFrom(cells, i + 1, compile);
      var errs := head + tail;
      CellSyntaxErrorsName(cells[i], i, compile);
      SyntaxErrorsFromNameFailing(cells, i + 1, compile);
      forall k | 0 <= k < |errs|
        ensures i <= FailedCell(errs[k]) < |cells| && FailsToCompile(cells[FailedCell(errs[k])], FailedCell(errs[k]), compile)
      {
        if k < |head| {
          assert errs[k] == head[k] && head[k] in head;
          assert FailsToCompile(cells[i], i, compile);
        } else {
          assert errs[k] == tail[k - |head|];
        }
      }
      assert errs == SyntaxErrorsFrom(cells, i, compile);
    }
  }

  /** The findings from cell `i` on name their cells in strictly increasing
      order. */
  lemma {:induction false} SyntaxErrorsFromInOrder(cells: seq<Cell>, i: nat, compile: Compiler)
    requires i <= |cells|
    ensures InCellOrder(SyntaxErrorsFrom(cells, i, compile), |SyntaxErrorsFrom(cells, i, compile)|)
    decreases |cells| - i
  {
    if i < |cells| {
      var head := CellSyntaxErrors(cells[i], i, compile);
      var tail := SyntaxErrorsFrom(cells, i + 1, compile);
      var errs := head + tail;
      CellSyntaxErrorsName(cells[i], i, compile);
      SyntaxErrorsFromNameFailing(cells, i + 1, compile);
      SyntaxErrorsFromInOrder(cells, i + 1, compile);
      forall k, l | 0 <= k < l < |errs|
        ensures FailedCell(errs[k]) < FailedCell(errs[l])
      {
        if k < |head| {
          assert errs[k] == head[k] && head[k] in head;
          assert errs[l] == tail[l - |head|];
        } else {
          assert errs[k] == tail[k - |head|] && errs[l] == tail[l - |head|];
        }
      }
      assert errs == SyntaxErrorsFrom(cells, i, compile);
    }
  }

  /** `_check_syntax` reports only cells that fail to compile, each at most
      once and in cell order. */
  lemma SyntaxFindingsInCellOrder(cells: seq<Cell>, compile: Compiler)
    ensures NamesFailingCells(CheckSyntax(cells, compile), 0, cells, compile)
    ensures InCellOrder(CheckSyntax(cells, compile), |CheckSyntax(cells, compile)|)
  {
    SyntaxErrorsFromNameFailing(cells, 0, compile);
    SyntaxErrorsFromInOrder(cells, 0, compile);
  }

  /** All syntax findings come first, in cell order, then all parameter
      findings. */
  lemma SyntaxFindingsBeforeParamFindings(bytes: seq<bv8>, read: NotebookReader, compile: Compiler)
    requires read(bytes).Parsed?
    ensures exists n: nat ::
      SyntaxThenParams(Validate(bytes, read, compile).errors, n) && InCellOrder(Validate(bytes, read, compile).errors, n)
  {
    var cells := read(bytes).cells;
    var syntax := CheckSyntax(cells, compile);
    var params := CheckParams(cells);
    var errs := Validate(bytes, read, compile).errors;
    assert errs == syntax + params;
    SyntaxFindingsFrom(cells, 0, compile);
    ParamFindingsFrom(cells, 0);
    forall k | 0 <= k < |syntax|
      ensures IsSyntaxFinding(errs[k])
    {
      assert errs[k] == syntax[k];
    }
    forall k | |syntax| <= k < |errs|
      ensures IsParamFinding(errs[k])
    {
      assert errs[k] == params[k - |syntax|];
    }
    assert SyntaxThenParams(errs, |syntax|);
    SyntaxFindingsInCellOrder(cells, compile);
    assert InCellOrder(errs, |syntax|);
  }

  // --- the text-corpus cell and the count-vectorizer rule --------------

  /** The text-corpus cell's own vectorizer never trips the count-vectorizer
      rule. Its call closes on its own line without `random_state`, so a
      finding needs another mention of `CountVectorizer` in the lines before
      or after it. */
  lemma HuggingFaceVectorizerPassesRule(meta: DatasetMetadata, plan: Plan)
    ensures ParamViolation(Cell(CodeCell, HuggingFaceCode(meta, plan)), 0) ==>
      Contains(HuggingFaceHead(meta, plan), "CountVectorizer") || Contains(HuggingFaceTail(meta, plan), "CountVectorizer")
  {
    assert ParamRules[0].className == "CountVectorizer";
    HuggingFaceVectorizerUnseeded();
    HuggingFaceAroundVectorizer(meta, plan);
    RuleNamesStayOnOneLine();
    MatchNeedsOtherLine(HuggingFaceHead(meta, plan), BoundedVectorizer, HuggingFaceTail(meta, plan), "CountVectorizer", "random_state");
  }

  /** The count-vectorizer rule's class and parameter names hold no line
      break and no closing parenthesis. */
  lemma RuleNamesStayOnOneLine()
    ensures '\n' !in "CountVectorizer" && ')' !in "CountVectorizer" && '\n' !in "random_state"
  {
  }

  // --- the syntax check is collect-all ---------------------------------

  /** How many messages name cell `i` as failing to compile. */
  function CountNaming(xs: seq<string>, i: nat): nat
  {
    if |xs| == 0 then 0
    else (if NamesFailedCell(xs[0], i) then 1 else 0) + CountNaming(xs[1..], i)
  }

  lemma {:induction false} CountNamingAppend(xs: seq<string>, ys: seq<string>, i: nat)
    ensures CountNaming(xs + ys, i) == CountNaming(xs, i) + CountNaming(ys, i)
  {
    if |xs| > 0 {
      assert (xs + ys)[1..] == xs[1..] + ys;
      CountNamingAppend(xs[1..], ys, i);
    } else {
      assert xs + ys == ys;
    }
  }

  /** A syntax message names exactly the cell it was produced for. */
  lemma SyntaxMessageNames(s: nat, lineno: Option<int>, msg: string, i: nat)
    ensures NamesFailedCell(SyntaxMessage(s, lineno, msg), i) <==> i == s
  {
    var m := SyntaxMessage(s, lineno, msg);
    TaggedPrefix(SyntaxHead, s, ' ', "at line " + LinenoText(lineno) + ": " + msg);
    if IsPrefix(Tagged(SyntaxHead, i, ' '), m) {
      TaggedReadsBack(SyntaxHead, i, ' ', m);
      TaggedReadsBack(SyntaxHead, s, ' ', m);
    }
    assert m[0] == 'S';
    assert Tagged(CompilationHead, i, ':')[0] == 'C';
  }

  lemma CompilationMessageNames(s: nat, text: string, i: nat)
    ensures NamesFailedCell(CompilationMessage(s, text), i) <==> i == s
  {
    var m := CompilationMessage(s, text);
    TaggedPrefix(CompilationHead, s, ':', " " + text);
    if IsPrefix(Tagged(CompilationHead, i, ':'), m) {
      TaggedReadsBack(CompilationHead, i, ':', m);
      TaggedReadsBack(CompilationHead, s, ':', m);
    }
    assert m[0] == 'C';
    assert Tagged(SyntaxHead, i, ' ')[0] == 'S';
  }

  lemma CellSyntaxCount(cell: Cell, s: nat, compile: Compiler, i: nat)
    ensures CountNaming(CellSyntaxErrors(cell, s, compile), i) ==
      (if s == i && FailsToCompile(cell, s, compile) then 1 else 0)
  {
    if cell.kind == CodeCell {
      match compile(cell.source, CellFilename(s))
      case Compiled =>
      case SyntaxFailure(lineno, msg) =>
        SyntaxMessageNames(s, lineno, msg, i);
      case OtherFailure(text) =>
        CompilationMessageNames(s, text, i);
    }
  }

  lemma {:induction false} SyntaxCountFrom(cells: seq<Cell>, s: nat, compile: Compiler, i: nat)
    requires s <= |cells|
    ensures CountNaming(SyntaxErrorsFrom(cells, s, compile), i) ==
      (if s <= i < |cells| && FailsToCompile(cells[i], i, compile) then 1 else 0)
    decreases |cells| - s
  {
    if s < |cells| {
      CountNamingAppend(CellSyntaxErrors(cells[s], s, compile), SyntaxErrorsFrom(cells, s + 1, compile), i);
      CellSyntaxCount(cells[s], s, compile, i);
      SyntaxCountFrom(cells, s + 1, compile, i);
    }
  }

  /** The syntax check is collect-all: every code cell that fails to compile
      gets exactly one message naming its index, and no other cell is named. */
  lemma SyntaxCheckCollectsAll(cells: seq<Cell>, compile: Compiler, i: nat)
    ensures CountNaming(CheckSyntax(cells, compile), i) ==
      (if i < |cells| && FailsToCompile(cells[i], i, compile) then 1 else 0)
  {
    SyntaxCountFrom(cells, 0, compile, i);
  }

  // --- the parameter check ---------------------------------------------

  /** Code cell `cell` instantiates rule `r`'s class with `random_state`, as
      the rule's pattern sees it. */
  predicate ParamViolation(cell: Cell, r: nat)
    requires r < |ParamRules|
  {
    cell.kind == CodeCell &&
    Contains(cell.source, ParamRules[r].className) &&
    PatternMatches(cell.source, ParamRules[r].className, "random_state")
  }

  /** The message the parameter check writes for rule `r` on cell `i`. */
  function ParamFinding(i: nat, r: nat): string
    requires r < |ParamRules|
  {
    ParamMessage(i, ParamRules[r], "random_state")
  }

  function Occurrences(xs: seq<string>, x: string): nat
  {
    if |xs| == 0 then 0
    else (if xs[0] == x then 1 else 0) + Occurrences(xs[1..], x)
  }

  lemma {:induction false} OccurrencesAppend(xs: seq<string>, ys: seq<string>, x: string)
    ensures Occurrences(xs + ys, x) == Occurrences(xs, x) + Occurrences(ys, x)
  {
    if |xs| > 0 {
      assert (xs + ys)[1..] == xs[1..] + ys;
      OccurrencesAppend(xs[1..], ys, x);
    } else {
      assert xs + ys == ys;
    }
  }

  lemma {:induction false} OccurrencesAbsent(xs: seq<string>, x: string)
    requires x !in xs
    ensures Occurrences(xs, x) == 0
  {
    if |xs| > 0 {
      assert xs[0] != x;
      assert x !in xs[1..];
      OccurrencesAbsent(xs[1..], x);
    }
  }

  /** Rule `r`'s share of a code cell's findings. */
  function RulePart(source: string, i: nat, r: nat): seq<string>
    requires r < |ParamRules|
  {
    if Contains(source, ParamRules[r].className) && PatternMatches(source, ParamRules[r].className, "random_state")
    then [ParamFinding(i, r)]
    else []
  }

  /** The three rules, applied in table order, each with its one parameter. */
  lemma RuleErrorsUnrolled(source: string, i: nat)
    ensures RuleErrors(source, i, ParamRules) == RulePart(source, i, 0) + (RulePart(source, i, 1) + RulePart(source, i, 2))
  {
    var rs := ParamRules;
    forall r | 0 <= r < 3
      ensures ForbiddenParamErrors(source, i, rs[r], rs[r].forbiddenParams) ==
        (if PatternMatches(source, rs[r].className, "random_state") then [ParamFinding(i, r)] else [])
    {
      assert rs[r].forbiddenParams == ["random_state"];
      assert rs[r].forbiddenParams[1..] == [];
    }
    var tail2 := rs[1..][1..];
    assert tail2 == [rs[2]] && tail2[1..] == [];
    assert RuleErrors(source, i, tail2) == RulePart(source, i, 2) + [];
    assert rs[1..] == [rs[1]] + tail2;
    assert RuleErrors(source, i, rs[1..]) == RulePart(source, i, 1) + RulePart(source, i, 2);
    assert RuleErrors(source, i, rs) == RulePart(source, i, 0) + RuleErrors(source, i, rs[1..]);
  }

  /** The class name is the first thing after the cell tag. */
  lemma ParamMessageInitial(i: nat, rule: ParamRule, param: string)
    requires |rule.className| > 0
    ensures ParamMessage(i, rule, param)[|Tagged(ParamHead, i, ':')| + 1] == rule.className[0]
  {
  }

  /** Different rules give different messages for the same cell. */
  lemma ParamFindingsDistinct(i: nat, a: nat, b: nat)
    requires a < |ParamRules| && b < |ParamRules| && a != b
    ensures ParamFinding(i, a) != ParamFinding(i, b)
  {
    ParamMessageInitial(i, ParamRules[a], "random_state");
    ParamMessageInitial(i, ParamRules[b], "random_state");
    assert ParamRules[0].className[0] == 'C';
    assert ParamRules[1].className[0] == 'T';
    assert ParamRules[2].className[0] == 'H';
  }

  lemma RulePartCount(source: string, i: nat, k: nat, r: nat)
    requires k < |ParamRules| && r < |ParamRules|
    ensures Occurrences(RulePart(source, i, k), ParamFinding(i, r)) ==
      (if k == r && Contains(source, ParamRules[r].className) && PatternMatches(source, ParamRules[r].className, "random_state") then 1 else 0)
  {
    if k != r {
      ParamFindingsDistinct(i, k, r);
    }
  }

  /** A message tagged with cell `s` is a finding for cell `s` only. */
  lemma ParamTagFixesCell(e: string, s: nat, i: nat, r: nat)
    requires r < |ParamRules|
    requires IsPrefix(Tagged(ParamHead, s, ':'), e)
    ensures e == ParamFinding(i, r) ==> s == i
  {
    if e == ParamFinding(i, r) {
      TaggedPrefix(ParamHead, i, ':', ParamDetail(ParamRules[r], "random_state"));
      TaggedReadsBack(ParamHead, i, ':', e);
      TaggedReadsBack(ParamHead, s, ':', e);
    }
  }

  lemma CellParamCount(cell: Cell, s: nat, i: nat, r: nat)
    requires r < |ParamRules|
    ensures Occurrences(CellParamErrors(cell, s), ParamFinding(i, r)) ==
      (if s == i && ParamViolation(cell, r) then 1 else 0)
  {
    if cell.kind == CodeCell {
      var errs := CellParamErrors(cell, s);
      if s != i {
        RuleErrorsTagged(cell.source, s, ParamRules);
        forall e | e in errs
          ensures e != ParamFinding(i, r)
        {
          ParamTagFixesCell(e, s, i, r);
        }
        OccurrencesAbsent(errs, ParamFinding(i, r));
      } else {
        var src := cell.source;
        RuleErrorsUnrolled(src, i);
        OccurrencesAppend(RulePart(src, i, 0), RulePart(src, i, 1) + RulePart(src, i, 2), ParamFinding(i, r));
        OccurrencesAppend(RulePart(src, i, 1), RulePart(src, i, 2), ParamFinding(i, r));
        RulePartCount(src, i, 0, r);
        RulePartCount(src, i, 1, r);
        RulePartCount(src, i, 2, r);
      }
    }
  }

  lemma {:induction false} ParamCountFrom(cells: seq<Cell>, s: nat, i: nat, r: nat)
    requires s <= |cells| && r < |ParamRules|
    ensures Occurrences(ParamErrorsFrom(cells, s), ParamFinding(i, r)) ==
      (if s <= i < |cells| && ParamViolation(cells[i], r) then 1 else 0)
    decreases |cells| - s
  {
    if s < |cells| {
      OccurrencesAppend(CellParamErrors(cells[s], s), ParamErrorsFrom(cells, s + 1), ParamFinding(i, r));
      CellParamCount(cells[s], s, i, r);
      ParamCountFrom(cells, s + 1, i, r);
    }
  }

  /** `e` is the finding of some rule that cell `i`, at or after `lo`, breaks. */
  predicate IsViolationFinding(cells: seq<Cell>, lo: nat, e: string)
  {
    exists i: nat, r: nat | lo <= i < |cells| && r < |ParamRules| :: e == ParamFinding(i, r) && ParamViolation(cells[i], r)
  }

  /** A cell's parameter findings are findings of rules the cell breaks. */
  lemma CellParamFindingsAreViolations(cells: seq<Cell>, s: nat)
    requires s < |cells|
    ensures forall e :: e in CellParamErrors(cells[s], s) ==> IsViolationFinding(cells, s, e)
  {
    if cells[s].kind == CodeCell {
      var src := cells[s].source;
      RuleErrorsUnrolled(src, s);
      forall e | e in CellParamErrors(cells[s], s)
        ensures IsViolationFinding(cells, s, e)
      {
        var r: nat := if e in RulePart(src, s, 0) then 0 else if e in RulePart(src, s, 1) then 1 else 2;
        assert e in RulePart(src, s, r);
        assert e == ParamFinding(s, r) && ParamViolation(cells[s], r);
      }
    }
  }

  lemma {:induction false} ParamFindingsFromAreViolations(cells: seq<Cell>, s: nat)
    requires s <= |cells|
    ensures forall e :: e in ParamErrorsFrom(cells, s) ==> IsViolationFinding(cells, s, e)
    decreases |cells| - s
  {
    if s < |cells| {
      CellParamFindingsAreViolations(cells, s);
      ParamFindingsFromAreViolations(cells, s + 1);
      forall e | e in ParamErrorsFrom(cells, s + 1)
        ensures IsViolationFinding(cells, s, e)
      {
        var i: nat, r: nat :| s + 1 <= i < |cells| && r < |ParamRules| && e == ParamFinding(i, r) && ParamViolation(cells[i], r);
      }
    }
  }

  /** The parameter check reports rule `r` on cell `i` exactly once when the
      cell is code, mentions the class and matches the rule's pattern, and
      never otherwise; and it reports nothing but such findings. */
  lemma ParamCheckReportsExactly(cells: seq<Cell>, i: nat, r: nat)
    requires r < |ParamRules|
    ensures Occurrences(CheckParams(cells), ParamFinding(i, r)) ==
      (if i < |cells| && ParamViolation(cells[i], r) then 1 else 0)
    ensures forall e :: e in CheckParams(cells) ==> IsViolationFinding(cells, 0, e)
  {
    ParamCountFrom(cells, 0, i, r);
    ParamFindingsFromAreViolations(cells, 0);
  }

  // --- validity ----------------------------------------------------------

  /** Every code cell compiles and none breaks a parameter rule. */
  predicate Clean(cells: seq<Cell>, compile: Compiler)
  {
    forall k | 0 <= k < |cells| ::
      !FailsToCompile(cells[k], k, compile) && forall r | 0 <= r < |ParamRules| :: !ParamViolation(cells[k], r)
  }

  lemma {:induction false} SyntaxErrorsEmpty(cells: seq<Cell>, s: nat, compile: Compiler)
    requires s <= |cells|
    requires forall k | s <= k < |cells| :: !FailsToCompile(cells[k], k, compile)
    ensures SyntaxErrorsFrom(cells, s, compile) == []
    decreases |cells| - s
  {
    if s < |cells| {
      SyntaxErrorsEmpty(cells, s + 1, compile);
    }
  }

  lemma {:induction false} ParamErrorsEmpty(cells: seq<Cell>, s: nat)
    requires s <= |cells|
    requires forall k, r | s <= k < |cells| && 0 <= r < |ParamRules| :: !ParamViolation(cells[k], r)
    ensures ParamErrorsFrom(cells, s) == []
    decreases |cells| - s
  {
    if s < |cells| {
      if cells[s].kind == CodeCell {
        RuleErrorsUnrolled(cells[s].source, s);
        assert !ParamViolation(cells[s], 0) && !ParamViolation(cells[s], 1) && !ParamViolation(cells[s], 2);
      }
      ParamErrorsEmpty(cells, s + 1);
    }
  }

  /** A parsed notebook is valid exactly when every code cell compiles and no
      code cell passes `random_state` to a deterministic vectorizer. */
  lemma ValidExactlyWhenClean(bytes: seq<bv8>, read: NotebookReader, compile: Compiler)
    requires read(bytes).Parsed?
    ensures Validate(bytes, read, compile).valid <==> Clean(read(bytes).cells, compile)
  {
    var cells := read(bytes).cells;
    var r := Validate(bytes, read, compile);
    if Clean(cells, compile) {
      SyntaxErrorsEmpty(cells, 0, compile);
      ParamErrorsEmpty(cells, 0);
    }
    if r.valid {
      forall k | 0 <= k < |cells|
        ensures !FailsToCompile(cells[k], k, compile)
      {
        SyntaxCheckCollectsAll(cells, compile, k);
      }
      forall k, q | 0 <= k < |cells| && 0 <= q < |ParamRules|
        ensures !ParamViolation(cells[k], q)
      {
        ParamCheckReportsExactly(cells, k, q);
      }
    }
  }

  /** Markdown and raw cells never produce a finding: a notebook without code
      cells is valid whatever its text says. */
  lemma NonCodeCellsAreSilent(bytes: seq<bv8>, read: NotebookReader, compile: Compiler)
    requires read(bytes).Parsed?
    requires forall k | 0 <= k < |read(bytes).cells| :: read(bytes).cells[k].kind != CodeCell
    ensures Validate(bytes, read, compile) == ValidationResult(true, [])
  {
    var cells := read(bytes).cells;
    SyntaxErrorsEmpty(cells, 0, compile);
    ParamErrorsEmpty(cells, 0);
  }
}
