/**
 * The notebook grader: checks the number of code cells, walks the problems with a
 * cumulative cell cursor, assembles the code of each test, screens it, runs it
 * with the spies installed, validates the result and tallies scores and counters.
 *
 * Each imperative method of `NotebookGrader` is proved equal to a specification
 * function of this module; the properties of grading are lemmas about those functions.
 */
module NotebookGrader {
  import opened Wrappers
  import opened Text
  import opened Values
  import opened Schema
  import opened SafeCode
  import opened TestRunner
  import opened MockSystem

  // ---------------------------------------------------------------------------
  // Collaborators and results

  /** What student code does with the installed hooks while it runs. */
  datatype IOEvent =
    | PrintCall(args: seq<Value>, sep: string, end: string)
    | InputCall(prompt: string)
    | RawWrite(text: string)

  /** The result of `run_cell`: the code completes, exceeds the time limit, or raises. */
  datatype ExecOutcome =
    | Completed(vars: map<string, Value>, events: seq<IOEvent>)
    | TimedOut
    | Raised(exc: Exc)

  /**
   * What the notebook grader calls but does not define: `run_cell` (given the code, the
   * namespace's variables and its input hook), `sanitize_student_code`, and the
   * engine of format mode.
   */
  datatype Collaborators = Collaborators(
    execute: (string, map<string, Value>, Option<InputSource>) -> ExecOutcome,
    sanitize: string -> string,
    engine: FormatEngine)

  /** The outcome of one test: passed, or the failure message. */
  datatype TestResult = TestResult(passed: bool, failureMessage: string)

  /** The record `_create_problem_result` builds. */
  datatype ProblemResult = ProblemResult(
    cellIndex: int,
    passed: nat,
    total: nat,
    score: real,
    pts: real,
    failedTests: seq<string>,
    safetyViolations: nat,
    timeoutViolations: nat)

  /**
   * The single record of a cell-count mismatch; its other fields are constant
   * (`cell_index` `'ALL'`, `passed` 0, `total` 1, `score` and `pts` 0).
   */
  datatype CellMismatch = CellMismatch(expectedCells: int, actualCells: nat, failedTests: seq<string>)

  /** The four-tuple `grade_notebook` returns, by case. */
  datatype Report =
    | MaxOnly(maxScore: real)
    | Mismatch(record: CellMismatch)
    | Graded(results: seq<ProblemResult>, totalScore: real, maxScore: real,
             testResults: map<string, (int, string)>)

  // ---------------------------------------------------------------------------
  // Configuration sums

  /** Σ `next_code_cell` over the first `n` problems, a missing value counting 0. */
  function CellAdvance(config: seq<Problem>, n: nat): int
    requires n <= |config|
  {
    if n == 0 then 0 else CellAdvance(config, n - 1) + config[n - 1].nextCodeCell.GetOr(0)
  }

  /** Σ `pts` over the first `n` problems, a missing value counting 1. */
  function PointsSum(config: seq<Problem>, n: nat): real
    requires n <= |config|
  {
    if n == 0 then 0.0 else PointsSum(config, n - 1) + config[n - 1].Points()
  }

  /** `_get_max_score_only`. */
  function GetMaxScoreOnly(config: seq<Problem>): Report {
    MaxOnly(PointsSum(config, |config|))
  }

  // ---------------------------------------------------------------------------
  // Cells

  predicate IsCode(c: Cell) {
    c.cellType == Code
  }

  /** A code cell whose source is not blank. */
  predicate IsGradable(c: Cell) {
    c.cellType == Code && Strip(c.source) != ""
  }

  function CodeCells(cells: seq<Cell>): seq<Cell> {
    Filter(IsCode, cells)
  }

  function GradableCells(cells: seq<Cell>): seq<Cell> {
    Filter(IsGradable, cells)
  }

  function CellCountMessage(expected: int, actual: nat): string {
    "Cell count mismatch: Expected " + IntToString(expected) + " code cells, but found " + IntToString(actual)
  }

  /**
   * `_validate_cell_count`: grading proceeds when either the number of code cells or
   * the number of non-blank code cells equals Σ `next_code_cell`.
   */
  function ValidateCellCount(config: seq<Problem>, cells: seq<Cell>): (r: Option<CellMismatch>)
    ensures var expected := CellAdvance(config, |config|);
            r.None? <==> |CodeCells(cells)| == expected || |GradableCells(cells)| == expected
    ensures r.Some? ==>
              var expected := CellAdvance(config, |config|);
              && r.value.expectedCells == expected
              && r.value.actualCells == |CodeCells(cells)|
              && r.value.failedTests == [CellCountMessage(expected, |CodeCells(cells)|)]
  {
    var expected := CellAdvance(config, |config|);
    var actual := |CodeCells(cells)|;
    if actual != expected then
      if |GradableCells(cells)| == expected then None
      else Some(CellMismatch(expected, actual, [CellCountMessage(expected, actual)]))
    else None
  }

  function CellNotFoundMessage(target: int): string {
    "Code cell number " + IntToString(target) + " not found."
  }

  /** `_get_code_cell_by_index`: the `target`-th (1-based) non-blank code cell. */
  function CodeCellByIndex(cells: seq<Cell>, target: int): (r: Result<Cell, Exc>)
    ensures r.Ok? <==> 1 <= target <= |GradableCells(cells)|
    ensures r.Ok? ==> r.value == GradableCells(cells)[target - 1]
    ensures r.Err? ==> r.error == Exc("IndexError", CellNotFoundMessage(target))
  {
    var gradable := GradableCells(cells);
    if 1 <= target <= |gradable| then Ok(gradable[target - 1])
    else Err(Exc("IndexError", CellNotFoundMessage(target)))
  }

  /** The cell found is one of the notebook's cells, a code cell with a non-blank source. */
  lemma CodeCellByIndexIsGradable(cells: seq<Cell>, target: int)
    requires CodeCellByIndex(cells, target).Ok?
    ensures IsGradable(CodeCellByIndex(cells, target).value) && CodeCellByIndex(cells, target).value in cells
  {
    FilterMembers(IsGradable, cells);
  }

  // ---------------------------------------------------------------------------
  // Test namespace and code assembly

  /** `_create_test_namespace`: each variable converted and bound in order; a later binding wins. */
  function SeedVariables(entries: seq<(string, Value)>): Result<map<string, Value>, Exc> {
    if entries == [] then Ok(map[])
    else
      match SeedVariables(entries[..|entries| - 1])
      case Err(e) => Err(e)
      case Ok(m) =>
        var (name, raw) := entries[|entries| - 1];
        match ConvertComplex(raw)
        case Err(e) => Err(e)
        case Ok(v) => Ok(m[name := v])
  }

  /** Seeding succeeds exactly when every configured value converts. */
  lemma {:induction false} SeedVariablesSucceeds(entries: seq<(string, Value)>)
    ensures SeedVariables(entries).Ok? <==> forall k :: 0 <= k < |entries| ==> ConvertComplex(entries[k].1).Ok?
  {
    if entries != [] {
      var init := entries[..|entries| - 1];
      SeedVariablesSucceeds(init);
      assert forall k :: 0 <= k < |init| ==> init[k] == entries[k];
    }
  }

  /**
   * Once seeding succeeds, each configured name is bound to the conversion of its
   * last configured value, and nothing else is bound.
   */
  lemma {:induction false} SeedVariablesBindsLast(entries: seq<(string, Value)>)
    ensures SeedVariables(entries).Ok? ==>
              forall name :: (name in SeedVariables(entries).value <==> Lookup(entries, name).Some?)
                && (name in SeedVariables(entries).value ==>
                      ConvertComplex(Lookup(entries, name).value) == Ok(SeedVariables(entries).value[name]))
  {
    if entries != [] && SeedVariables(entries).Ok? {
      var init := entries[..|entries| - 1];
      SeedVariablesBindsLast(init);
    }
  }

  /** A failure while seeding a prefix of the variables is the failure of the whole seeding. */
  lemma {:induction false} SeedVariablesErrSticks(entries: seq<(string, Value)>, i: nat)
    requires i <= |entries| && SeedVariables(entries[..i]).Err?
    ensures SeedVariables(entries) == SeedVariables(entries[..i])
    decreases |entries| - i
  {
    if i < |entries| {
      assert entries[..i + 1][..i] == entries[..i];
      SeedVariablesErrSticks(entries, i + 1);
    } else {
      assert entries[..i] == entries;
    }
  }

  predicate IsNonBlank(line: string) {
    Strip(line) != ""
  }

  /** The non-blank lines of a cell's source, in order. */
  function NonBlankLines(source: string): seq<string> {
    Filter(IsNonBlank, SplitLines(source))
  }

  /** The student's lines that are run: the non-blank lines after the first `lineOffset`. */
  function StudentLines(cell: Cell, lineOffset: int): seq<string> {
    SliceFrom(NonBlankLines(cell.source), lineOffset)
  }

  /** The lines one `prefix_code` value contributes. */
  function PrefixLinesOf(p: Option<Prefix>): seq<string> {
    match p
    case None => []
    case Some(PrefixLine(code)) => [code]
    case Some(PrefixLines(lines)) => lines
  }

  /** The problem's prefix lines, then the test's. */
  function AllPrefixLines(test: Test, problem: Problem): seq<string> {
    PrefixLinesOf(problem.prefixCode) + PrefixLinesOf(test.prefixCode)
  }

  /** `_add_prefix_code`. */
  function AddPrefixCode(code: string, test: Test, problem: Problem): string {
    var lines := AllPrefixLines(test, problem);
    if lines == [] then code else Join(lines, "\n") + "\n" + code
  }

  /** Input lines are stripped when the test seeds variables and scripts no input. */
  predicate StripsInputLines(test: Test) {
    test.variables != [] && test.inputOverload.None?
  }

  /** The code `_prepare_code` hands to `sanitize_student_code`. */
  function AssembledCode(cell: Cell, lineOffset: int, test: Test, problem: Problem): string {
    var code := AddPrefixCode(Join(StudentLines(cell, lineOffset), "\n"), test, problem);
    if StripsInputLines(test) then RemoveInputLines(code) else code
  }

  /**
   * A test that seeds variables without scripted input runs code with no `input(`
   * call; any other test runs the prefixed student code unchanged.
   */
  lemma AssembledCodeInput(cell: Cell, lineOffset: int, test: Test, problem: Problem)
    ensures StripsInputLines(test) ==> !Contains(AssembledCode(cell, lineOffset, test, problem), "input(")
    ensures !StripsInputLines(test) ==>
              AssembledCode(cell, lineOffset, test, problem)
              == AddPrefixCode(Join(StudentLines(cell, lineOffset), "\n"), test, problem)
  {
    RemoveInputLinesDropsInput(AddPrefixCode(Join(StudentLines(cell, lineOffset), "\n"), test, problem));
  }

  /** `_prepare_code`. */
  function PrepareCode(collab: Collaborators, cell: Cell, lineOffset: int, test: Test, problem: Problem): string {
    collab.sanitize(AssembledCode(cell, lineOffset, test, problem))
  }

  /** The student lines are non-blank and free of line boundaries. */
  lemma StudentLinesShape(cell: Cell, lineOffset: int)
    ensures forall k :: 0 <= k < |StudentLines(cell, lineOffset)| ==>
              Strip(StudentLines(cell, lineOffset)[k]) != "" && NoLineBreak(StudentLines(cell, lineOffset)[k])
  {
    var all := SplitLines(cell.source);
    SplitLinesHaveNoBreaks(cell.source);
    var kept := NonBlankLines(cell.source);
    FilterMembers(IsNonBlank, all);
    forall k | 0 <= k < |kept| ensures Strip(kept[k]) != "" && NoLineBreak(kept[k]) {
      assert kept[k] in all;
    }
  }

  /**
   * Code assembly: the lines of the assembled code are the problem's prefix lines,
   * then the test's, then the non-blank student lines after the offset.
   */
  lemma AssembledLines(cell: Cell, lineOffset: int, test: Test, problem: Problem)
    requires forall k :: 0 <= k < |AllPrefixLines(test, problem)| ==> NoLineBreak(AllPrefixLines(test, problem)[k])
    requires StudentLines(cell, lineOffset) != []
    ensures SplitLines(AddPrefixCode(Join(StudentLines(cell, lineOffset), "\n"), test, problem))
            == AllPrefixLines(test, problem) + StudentLines(cell, lineOffset)
  {
    var st := StudentLines(cell, lineOffset);
    StudentLinesShape(cell, lineOffset);
    assert Strip(st[|st| - 1]) != "";
    PrefixedSplitLines(AllPrefixLines(test, problem), st);
  }

  /** `_build_input_description`'s list of `name=value` items. */
  function DescribeVariables(entries: seq<(string, Value)>): Result<seq<string>, Exc> {
    if entries == [] then Ok([])
    else
      match DescribeVariables(entries[..|entries| - 1])
      case Err(e) => Err(e)
      case Ok(items) =>
        var (name, raw) := entries[|entries| - 1];
        match ConvertComplex(raw)
        case Err(e) => Err(e)
        case Ok(v) => Ok(items + [name + "=" + ToStr(v)])
  }

  /** `_build_input_description`: the variables, then the description of the input overload. */
  function BuildInputDescription(test: Test): Result<string, Exc> {
    match DescribeVariables(test.variables)
    case Err(e) => Err(e)
    case Ok(items) =>
      var described := Join(items, ", ");
      if test.inputOverload.None? then Ok(described)
      else
        var overload := GetInputDescription(test.inputOverload);
        Ok(if described != "" then described + ", " + overload else overload)
  }

  /** The description fails exactly when seeding the namespace fails, with the same exception. */
  lemma {:induction false} DescriptionFailsWithSeeding(entries: seq<(string, Value)>)
    ensures DescribeVariables(entries).Err? <==> SeedVariables(entries).Err?
    ensures DescribeVariables(entries).Err? ==> DescribeVariables(entries).error == SeedVariables(entries).error
    ensures DescribeVariables(entries).Ok? ==> |DescribeVariables(entries).value| == |entries|
  {
    if entries != [] {
      DescriptionFailsWithSeeding(entries[..|entries| - 1]);
    }
  }

  lemma ConcatAssoc(a: string, b: string, c: string)
    ensures a + (b + c) == a + b + c
  {
  }

  /** One plain variable is described as `name=value`. */
  lemma DescribeOneVariable(name: string, v: Value)
    requires !IsComplexDict(v)
    ensures DescribeVariables([(name, v)]) == Ok([name + "=" + ToStr(v)])
  {
    var entries := [(name, v)];
    assert entries[..|entries| - 1] == [];
    assert ConvertComplex(v) == Ok(v);
    assert [] + [name + "=" + ToStr(v)] == [name + "=" + ToStr(v)];
  }

  /** A test with one plain variable and an input overload is described as both, in that order. */
  lemma DescriptionListsVariablesThenInputs(name: string, v: Value, overload: Value, test: Test)
    requires !IsComplexDict(v)
    requires test.variables == [(name, v)] && test.inputOverload == Some(overload)
    ensures BuildInputDescription(test) == Ok(name + "=" + ToStr(v) + ", " + "all inputs be " + Repr(overload))
  {
    DescribeOneVariable(name, v);
    var described := name + "=" + ToStr(v);
    assert Join([described], ", ") == described;
    assert |described| > 0;
    assert BuildInputDescription(test) == Ok(described + ", " + GetInputDescription(test.inputOverload));
    ConcatAssoc(described + ", ", "all inputs be ", Repr(overload));
  }

  // ---------------------------------------------------------------------------
  // One test

  function BlockedMessage(testIdx: int, inputs: string, reason: string): string {
    "Test " + IntToString(testIdx) + " blocked on input (" + inputs + "): " + reason
  }

  function TimeoutMessage(testIdx: int, inputs: string): string {
    "Test " + IntToString(testIdx) + " timeout on input (" + inputs + ")"
  }

  function ErrorMessage(testIdx: int, inputs: string, e: Exc): string {
    "Test " + IntToString(testIdx) + " error (" + e.typeName + ") on input (" + inputs + "): " + e.msg
  }

  function FailedMessage(testIdx: int, inputs: string, msg: string): string {
    "Test " + IntToString(testIdx) + " failed on input (" + inputs + "): " + msg
  }

  /** The messages the print spy records while the events replay. */
  function PrintedBy(events: seq<IOEvent>): seq<string> {
    if events == [] then []
    else
      var e := events[|events| - 1];
      PrintedBy(events[..|events| - 1]) + (if e.PrintCall? then [PrintMessage(e.args, e.sep, e.end)] else [])
  }

  /** The prompts passed to `input` while the events replay. */
  function PromptsOf(events: seq<IOEvent>): seq<string> {
    if events == [] then []
    else
      var e := events[|events| - 1];
      PromptsOf(events[..|events| - 1]) + (if e.InputCall? then [e.prompt] else [])
  }

  /** What one event writes to the redirected standard output. */
  function WrittenBy(e: IOEvent): string {
    match e
    case PrintCall(args, _, _) => Render(args, " ", "\n")
    case InputCall(prompt) => prompt
    case RawWrite(text) => text
  }

  /** The captured standard output of a run (`cell_output`). */
  function CapturedBy(events: seq<IOEvent>): string {
    if events == [] then "" else CapturedBy(events[..|events| - 1]) + WrittenBy(events[|events| - 1])
  }

  predicate IsNotInput(e: IOEvent) {
    !e.InputCall?
  }

  /** `input` calls record no print message: the printed messages ignore them. */
  lemma {:induction false} PrintsIgnoreInputs(events: seq<IOEvent>)
    ensures PrintedBy(Filter(IsNotInput, events)) == PrintedBy(events)
    decreases |events|
  {
    if events != [] {
      var init, e := events[..|events| - 1], events[|events| - 1];
      PrintsIgnoreInputs(init);
      var kept := Filter(IsNotInput, init);
      if IsNotInput(e) {
        assert (kept + [e])[..|kept|] == kept;
      } else {
        assert Filter(IsNotInput, events) == kept;
      }
    }
  }

  /**
   * Once the student code printed something, the compared text is the printed
   * messages, so the prompts that `input` echoes to the stream are never compared:
   * the text is the same with every `input` call removed from the run.
   */
  lemma PromptsNeverCompared(events: seq<IOEvent>)
    requires PrintedBy(events) != []
    ensures OutputText(PrintedBy(events), CapturedBy(events))
            == OutputText(PrintedBy(Filter(IsNotInput, events)), CapturedBy(Filter(IsNotInput, events)))
  {
    PrintsIgnoreInputs(events);
  }

  /** The input hook `setup_mocks` installs for a test. */
  function InputHook(test: Test): Option<InputSource> {
    if test.inputOverload.Some? then Some(SourceOf(test.inputOverload.value)) else None
  }

  /**
   * The built-in exceptions that derive from `BaseException` but not from `Exception`:
   * an `except Exception` clause does not catch them.
   */
  predicate EscapesExceptException(e: Exc) {
    e.typeName == "SystemExit" || e.typeName == "KeyboardInterrupt" || e.typeName == "GeneratorExit"
  }

  /**
   * The outcome once the code has run: a timeout, a caught error, the validator's
   * verdict, or an exception that no `except Exception` catches.
   */
  function ExecutedOutcome(engine: FormatEngine, test: Test, testIdx: int, inputs: string, outcome: ExecOutcome)
    : Result<TestResult, Exc>
  {
    match outcome
    case TimedOut => Ok(TestResult(false, TimeoutMessage(testIdx, inputs)))
    case Raised(e) =>
      if EscapesExceptException(e) then Err(e)
      else if e.msg == "__DEADLOOP__" then Ok(TestResult(false, TimeoutMessage(testIdx, inputs)))
      else Ok(TestResult(false, ErrorMessage(testIdx, inputs, e)))
    case Completed(finalVars, events) =>
      match RunTest(engine, test, finalVars, PrintedBy(events), CapturedBy(events))
      case Pass => Ok(TestResult(true, ""))
      case Fail(msg) => Ok(TestResult(false, FailedMessage(testIdx, inputs, msg)))
      case Error(e) => Err(e)
  }

  /** The outcome of assembled code: screened first, executed only when safe. */
  function ScreenedOutcome(collab: Collaborators, test: Test, testIdx: int, vars: map<string, Value>, code: string,
                           inputs: string): Result<TestResult, Exc>
  {
    var (safe, reason) := IsCodeSafe(code);
    if !safe then Ok(TestResult(false, BlockedMessage(testIdx, inputs, reason)))
    else ExecutedOutcome(collab.engine, test, testIdx, inputs, collab.execute(code, vars, InputHook(test)))
  }

  /** `_run_single_test`, in order: seed, assemble, describe, screen, execute, validate. */
  function TestOutcome(collab: Collaborators, test: Test, testIdx: int, problem: Problem, cell: Cell,
                       lineOffset: int): Result<TestResult, Exc> {
    match SeedVariables(test.variables)
    case Err(e) => Err(e)
    case Ok(vars) =>
      match BuildInputDescription(test)
      case Err(e) => Err(e)
      case Ok(inputs) => ScreenedOutcome(collab, test, testIdx, vars, PrepareCode(collab, cell, lineOffset, test, problem), inputs)
  }

  /** A test whose code the safety gate rejects is never executed: the executor does not matter. */
  lemma BlockedTestNeverExecuted(collab: Collaborators, other: (string, map<string, Value>, Option<InputSource>) -> ExecOutcome,
                                 test: Test, testIdx: int, problem: Problem, cell: Cell, lineOffset: int)
    requires !IsCodeSafe(PrepareCode(collab, cell, lineOffset, test, problem)).0
    ensures TestOutcome(collab, test, testIdx, problem, cell, lineOffset)
            == TestOutcome(collab.(execute := other), test, testIdx, problem, cell, lineOffset)
    ensures TestOutcome(collab, test, testIdx, problem, cell, lineOffset).Ok? ==>
              !TestOutcome(collab, test, testIdx, problem, cell, lineOffset).value.passed
  {
    assert PrepareCode(collab, cell, lineOffset, test, problem)
           == PrepareCode(collab.(execute := other), cell, lineOffset, test, problem);
  }

  /**
   * A validator exception other than `AssertionError` is not caught: a safe test of
   * unknown type that runs to completion makes the whole grading raise `ValueError`.
   */
  lemma UnknownTestTypePropagates(collab: Collaborators, test: Test, testIdx: int, problem: Problem, cell: Cell,
                                  lineOffset: int)
    requires test.kind != "variable" && test.kind != "output"
    requires SeedVariables(test.variables).Ok?
    requires IsCodeSafe(PrepareCode(collab, cell, lineOffset, test, problem)).0
    requires collab.execute(PrepareCode(collab, cell, lineOffset, test, problem),
                            SeedVariables(test.variables).value, InputHook(test)).Completed?
    ensures TestOutcome(collab, test, testIdx, problem, cell, lineOffset)
            == Err(Exc("ValueError", "Unknown test type: " + test.kind))
  {
    DescriptionFailsWithSeeding(test.variables);
    var vars := SeedVariables(test.variables).value;
    var inputs := BuildInputDescription(test).value;
    var code := PrepareCode(collab, cell, lineOffset, test, problem);
    assert TestOutcome(collab, test, testIdx, problem, cell, lineOffset)
           == ScreenedOutcome(collab, test, testIdx, vars, code, inputs);
    var outcome := collab.execute(code, vars, InputHook(test));
    assert ScreenedOutcome(collab, test, testIdx, vars, code, inputs)
           == ExecutedOutcome(collab.engine, test, testIdx, inputs, outcome);
  }

  /**
   * A format template whose pattern cannot be built or run (such as `"{"`, or a name
   * used twice) raises outside `except AssertionError`: the whole grading raises it.
   */
  lemma BadTemplatePropagates(collab: Collaborators, test: Test, testIdx: int, problem: Problem, cell: Cell,
                              lineOffset: int, finalVars: map<string, Value>, events: seq<IOEvent>, e: Exc)
    requires test.kind == "output" && test.format.Some?
    requires SeedVariables(test.variables).Ok?
    requires IsCodeSafe(PrepareCode(collab, cell, lineOffset, test, problem)).0
    requires collab.execute(PrepareCode(collab, cell, lineOffset, test, problem),
                            SeedVariables(test.variables).value, InputHook(test)) == Completed(finalVars, events)
    requires collab.engine.matchTemplate(test.format.value,
                                         NormalizeWhitespace(OutputText(PrintedBy(events), CapturedBy(events))),
                                         test.caseSensitive) == Err(e)
    ensures TestOutcome(collab, test, testIdx, problem, cell, lineOffset) == Err(e)
  {
    DescriptionFailsWithSeeding(test.variables);
    var vars := SeedVariables(test.variables).value;
    var inputs := BuildInputDescription(test).value;
    var code := PrepareCode(collab, cell, lineOffset, test, problem);
    assert TestOutcome(collab, test, testIdx, problem, cell, lineOffset)
           == ScreenedOutcome(collab, test, testIdx, vars, code, inputs);
    assert ScreenedOutcome(collab, test, testIdx, vars, code, inputs)
           == ExecutedOutcome(collab.engine, test, testIdx, inputs, Completed(finalVars, events));
    FormatOutputErrors(collab.engine, test.format.value, test.expected, test.tol,
                       OutputText(PrintedBy(events), CapturedBy(events)), test.caseSensitive);
  }

  /**
   * An exception raised by safe student code: `SystemExit`, `KeyboardInterrupt` and
   * `GeneratorExit` escape the test and so the whole grading; any other becomes a
   * failed test, reported as a timeout for `__DEADLOOP__` and as an error naming
   * its type otherwise.
   */
  lemma RaisedOutcome(collab: Collaborators, test: Test, testIdx: int, problem: Problem, cell: Cell,
                      lineOffset: int, e: Exc)
    requires SeedVariables(test.variables).Ok? && BuildInputDescription(test).Ok?
    requires IsCodeSafe(PrepareCode(collab, cell, lineOffset, test, problem)).0
    requires collab.execute(PrepareCode(collab, cell, lineOffset, test, problem),
                            SeedVariables(test.variables).value, InputHook(test)) == Raised(e)
    ensures EscapesExceptException(e) ==> TestOutcome(collab, test, testIdx, problem, cell, lineOffset) == Err(e)
    ensures !EscapesExceptException(e) ==>
              var inputs := BuildInputDescription(test).value;
              TestOutcome(collab, test, testIdx, problem, cell, lineOffset)
              == Ok(TestResult(false, if e.msg == "__DEADLOOP__" then TimeoutMessage(testIdx, inputs)
                                      else ErrorMessage(testIdx, inputs, e)))
  {
    var vars := SeedVariables(test.variables).value;
    var inputs := BuildInputDescription(test).value;
    var code := PrepareCode(collab, cell, lineOffset, test, problem);
    assert TestOutcome(collab, test, testIdx, problem, cell, lineOffset)
           == ScreenedOutcome(collab, test, testIdx, vars, code, inputs);
    assert ScreenedOutcome(collab, test, testIdx, vars, code, inputs)
           == ExecutedOutcome(collab.engine, test, testIdx, inputs, Raised(e));
  }

  // ---------------------------------------------------------------------------
  // Failure classification

  /** A failure message counted as a safety violation. */
  predicate IsSafetyMessage(msg: string) {
    Contains(Lower(msg), "blocked")
  }

  /** A failure message counted as a timeout (when it is not a safety violation). */
  predicate IsTimeoutMessage(msg: string) {
    Contains(Lower(msg), "timeout")
  }

  /** A lowercase word spelled out in `s` from index `i` on is found by the case-insensitive test. */
  lemma WordAt(s: string, word: string, i: nat)
    requires i + |word| <= |s|
    requires forall k :: 0 <= k < |word| ==> s[i + k] == word[k] && !('A' <= word[k] <= 'Z')
    ensures Contains(Lower(s), word)
  {
    var l := Lower(s);
    forall k | 0 <= k < |word| ensures l[i..i + |word|][k] == word[k] {
      assert l[i + k] == LowerChar(s[i + k]);
    }
    assert l[i..i + |word|] == word;
    assert OccursAt(l, word, i);
  }

  /** A blocked test always counts as a safety violation. */
  lemma BlockedMessageIsSafety(testIdx: int, inputs: string, reason: string)
    ensures IsSafetyMessage(BlockedMessage(testIdx, inputs, reason))
  {
    var msg := BlockedMessage(testIdx, inputs, reason);
    var head := "Test " + IntToString(testIdx);
    var mid := " blocked on input (";
    forall k | 0 <= k < 7 ensures msg[|head| + 1 + k] == "blocked"[k] {
      assert msg[|head| + 1 + k] == (head + mid)[|head| + 1 + k] == mid[1 + k];
    }
    WordAt(msg, "blocked", |head| + 1);
  }

  /** A timeout message always mentions `timeout`. */
  lemma TimeoutMessageMentionsTimeout(testIdx: int, inputs: string)
    ensures IsTimeoutMessage(TimeoutMessage(testIdx, inputs))
  {
    var msg := TimeoutMessage(testIdx, inputs);
    var head := "Test " + IntToString(testIdx);
    var mid := " timeout on input (";
    forall k | 0 <= k < 7 ensures msg[|head| + 1 + k] == "timeout"[k] {
      assert msg[|head| + 1 + k] == (head + mid)[|head| + 1 + k] == mid[1 + k];
    }
    WordAt(msg, "timeout", |head| + 1);
  }

  /**
   * Classification reads the text, not the outcome: an executed test whose validator
   * message mentions "Blocked" is counted as a safety violation too.
   */
  lemma FailedMessageCanCountAsSafety(testIdx: int, inputs: string, msg: string)
    requires Contains(Lower(msg), "blocked")
    ensures IsSafetyMessage(FailedMessage(testIdx, inputs, msg))
  {
    var head := "Test " + IntToString(testIdx) + " failed on input (" + inputs + "): ";
    assert FailedMessage(testIdx, inputs, msg) == head + msg;
    LowerConcat(head, msg);
    ContainsInContext(Lower(msg), "blocked", Lower(head), []);
    assert Lower(head) + Lower(msg) + [] == Lower(FailedMessage(testIdx, inputs, msg));
  }

  // ---------------------------------------------------------------------------
  // One problem

  /** The counters `_grade_single_problem` accumulates over its tests. */
  datatype Tally = Tally(
    passed: nat,
    failedTests: seq<string>,
    safetyViolations: nat,
    timeoutViolations: nat,
    testResults: map<string, (int, string)>)

  /** The key of test `testIdx` of problem `probIdx` in the result map. */
  function TestKey(probIdx: int, testIdx: int): string {
    "prob" + IntToString(probIdx) + "_test" + IntToString(testIdx)
  }

  /** The entry recorded for a test: 1 or 0, and the failure message. */
  function Entry(r: TestResult): (int, string) {
    (if r.passed then 1 else 0, r.failureMessage)
  }

  /** The counters after one more test. */
  function Record(t: Tally, r: TestResult, key: string): Tally {
    var msg := r.failureMessage;
    if r.passed then
      t.(passed := t.passed + 1, testResults := t.testResults[key := Entry(r)])
    else
      Tally(t.passed, t.failedTests + [msg],
            t.safetyViolations + (if IsSafetyMessage(msg) then 1 else 0),
            t.timeoutViolations + (if !IsSafetyMessage(msg) && IsTimeoutMessage(msg) then 1 else 0),
            t.testResults[key := Entry(r)])
  }

  /** One more test adds one pass or one failure, bumps at most one violation counter, and records its entry. */
  lemma RecordFacts(t: Tally, r: TestResult, key: string)
    ensures var u := Record(t, r, key);
            && u.passed + |u.failedTests| == t.passed + |t.failedTests| + 1
            && u.safetyViolations + u.timeoutViolations <= t.safetyViolations + t.timeoutViolations
                                                           + |u.failedTests| - |t.failedTests|
            && u.testResults == t.testResults[key := Entry(r)]
  {
  }

  /** `Record`, counter by counter. */
  lemma RecordCounters(t: Tally, r: TestResult, key: string)
    ensures var u := Record(t, r, key);
            && u.passed == t.passed + (if r.passed then 1 else 0)
            && u.failedTests == t.failedTests + (if r.passed then [] else [r.failureMessage])
            && u.safetyViolations == t.safetyViolations + (if !r.passed && IsSafetyMessage(r.failureMessage) then 1 else 0)
            && u.timeoutViolations
               == t.timeoutViolations
                  + (if !r.passed && !IsSafetyMessage(r.failureMessage) && IsTimeoutMessage(r.failureMessage) then 1 else 0)
            && u.testResults == t.testResults[key := Entry(r)]
  {
  }

  /** The counter updates of `_grade_single_problem` for one test result. */
  method RecordTest(passed: nat, failedTests: seq<string>, safetyViolations: nat, timeoutViolations: nat,
                    testResults: map<string, (int, string)>, result: TestResult, key: string)
    returns (passed': nat, failedTests': seq<string>, safetyViolations': nat, timeoutViolations': nat,
             testResults': map<string, (int, string)>)
    ensures Tally(passed', failedTests', safetyViolations', timeoutViolations', testResults')
            == Record(Tally(passed, failedTests, safetyViolations, timeoutViolations, testResults), result, key)
  {
    passed', failedTests', safetyViolations', timeoutViolations', testResults' :=
      passed, failedTests, safetyViolations, timeoutViolations, testResults;
    if result.passed {
      passed' := passed' + 1;
    } else {
      failedTests' := failedTests' + [result.failureMessage];
      if Contains(Lower(result.failureMessage), "blocked") {
        safetyViolations' := safetyViolations' + 1;
      } else if Contains(Lower(result.failureMessage), "timeout") {
        timeoutViolations' := timeoutViolations' + 1;
      }
    }
    testResults' := testResults'[key := (if result.passed then 1 else 0, result.failureMessage)];
    RecordCounters(Tally(passed, failedTests, safetyViolations, timeoutViolations, testResults), result, key);
  }

  /** How each test of a problem is run on its cell: `_run_single_test` with the problem's line offset. */
  function Runner(collab: Collaborators, problem: Problem, cell: Cell): (Test, nat) -> Result<TestResult, Exc> {
    (test: Test, j: nat) => TestOutcome(collab, test, j, problem, cell, problem.lineOffset.GetOr(0))
  }

  /** The counters after the first `n` tests, or the exception one of them raised. */
  function TallyTests(run: (Test, nat) -> Result<TestResult, Exc>, tests: seq<Test>, probIdx: int, n: nat)
    : Result<Tally, Exc>
    requires n <= |tests|
    decreases n, 1
  {
    if n == 0 then Ok(Tally(0, [], 0, 0, map[])) else TallyNext(run, tests, probIdx, n)
  }

  /** Test `n` run after the first `n - 1`: its exception ends the tally, its result is recorded. */
  function TallyNext(run: (Test, nat) -> Result<TestResult, Exc>, tests: seq<Test>, probIdx: int, n: nat)
    : Result<Tally, Exc>
    requires 1 <= n <= |tests|
    decreases n, 0
  {
    match TallyTests(run, tests, probIdx, n - 1)
    case Err(e) => Err(e)
    case Ok(t) =>
      match run(tests[n - 1], n)
      case Err(e) => Err(e)
      case Ok(r) => Ok(Record(t, r, TestKey(probIdx, n)))
  }

  lemma {:induction false} TallyErrSticks(run: (Test, nat) -> Result<TestResult, Exc>, tests: seq<Test>, probIdx: int,
                                          i: nat, n: nat)
    requires i <= n <= |tests| && TallyTests(run, tests, probIdx, i).Err?
    ensures TallyTests(run, tests, probIdx, n) == TallyTests(run, tests, probIdx, i)
    decreases n
  {
    if n > i {
      TallyErrSticks(run, tests, probIdx, i, n - 1);
    }
  }

  /** Running test `j + 1` once the first `j` are tallied: an exception ends the tally, a result is recorded. */
  lemma TallyTestsNext(run: (Test, nat) -> Result<TestResult, Exc>, tests: seq<Test>, probIdx: int, j: nat, t: Tally,
                       outcome: Result<TestResult, Exc>)
    requires j < |tests| && TallyTests(run, tests, probIdx, j) == Ok(t) && outcome == run(tests[j], j + 1)
    ensures outcome.Err? ==> TallyTests(run, tests, probIdx, |tests|) == Err(outcome.error)
    ensures outcome.Ok? ==> TallyTests(run, tests, probIdx, j + 1) == Ok(Record(t, outcome.value, TestKey(probIdx, j + 1)))
  {
    if outcome.Err? {
      TallyErrSticks(run, tests, probIdx, j + 1, |tests|);
    }
  }

  /** The first `n` tests of a problem, run on its cell, tally to `t`. */
  predicate Tallied(collab: Collaborators, problem: Problem, cell: Cell, probIdx: int, n: nat, t: Tally) {
    problem.tests.Some? && n <= |problem.Tests()| && TallyTests(Runner(collab, problem, cell), problem.Tests(), probIdx, n) == Ok(t)
  }

  /** Some test of a problem, run on its cell, raises `e`. */
  predicate TallyRaises(collab: Collaborators, problem: Problem, cell: Cell, probIdx: int, e: Exc) {
    problem.tests.Some? && TallyTests(Runner(collab, problem, cell), problem.Tests(), probIdx, |problem.Tests()|) == Err(e)
  }

  /** Test keys of one problem are distinct. */
  lemma TestKeyInjective(probIdx: int, i: nat, j: nat)
    requires TestKey(probIdx, i) == TestKey(probIdx, j)
    ensures i == j
  {
    var head := "prob" + IntToString(probIdx) + "_test";
    assert TestKey(probIdx, i) == head + NatToString(i);
    assert TestKey(probIdx, j) == head + NatToString(j);
    assert NatToString(i) == TestKey(probIdx, i)[|head|..];
    assert NatToString(j) == TestKey(probIdx, j)[|head|..];
    NatToStringInjective(i, j);
  }

  /**
   * After `n` tests passed and failed add up to `n`, and safety and timeout
   * violations together are at most the failures.
   */
  lemma {:induction false} TallyCounts(run: (Test, nat) -> Result<TestResult, Exc>, tests: seq<Test>, probIdx: int,
                                       n: nat)
    requires n <= |tests|
    ensures TallyTests(run, tests, probIdx, n).Ok? ==>
              var t := TallyTests(run, tests, probIdx, n).value;
              && t.passed + |t.failedTests| == n
              && t.safetyViolations + t.timeoutViolations <= |t.failedTests|
  {
    if n > 0 && TallyTests(run, tests, probIdx, n).Ok? {
      TallyCounts(run, tests, probIdx, n - 1);
      assert TallyTests(run, tests, probIdx, n) == TallyNext(run, tests, probIdx, n);
      var prev := TallyTests(run, tests, probIdx, n - 1).value;
      var r := run(tests[n - 1], n).value;
      assert TallyTests(run, tests, probIdx, n).value == Record(prev, r, TestKey(probIdx, n));
      RecordFacts(prev, r, TestKey(probIdx, n));
    }
  }

  /** Every key of `results` is the key of one of tests `1..n` of problem `probIdx`. */
  predicate KeysWithin(results: map<string, (int, string)>, probIdx: int, n: nat) {
    forall key :: key in results ==> exists j :: 1 <= j <= n && key == TestKey(probIdx, j)
  }

  /** The outcome of test `j` (counted from 1). */
  function TestOutcomeAt(run: (Test, nat) -> Result<TestResult, Exc>, tests: seq<Test>, j: nat)
    : Result<TestResult, Exc>
    requires 1 <= j <= |tests|
  {
    run(tests[j - 1], j)
  }

  /** Each of tests `1..n` returned a result, recorded in `results` under its key. */
  predicate EntriesRecorded(run: (Test, nat) -> Result<TestResult, Exc>, tests: seq<Test>, probIdx: int,
                            results: map<string, (int, string)>, n: nat)
    requires n <= |tests|
  {
    forall j :: 1 <= j <= n ==>
      TestOutcomeAt(run, tests, j).Ok?
      && TestKey(probIdx, j) in results
      && results[TestKey(probIdx, j)] == Entry(TestOutcomeAt(run, tests, j).value)
  }

  /** After `n` tests the result map is keyed by those tests only. */
  lemma {:induction false} TallyKeys(run: (Test, nat) -> Result<TestResult, Exc>, tests: seq<Test>, probIdx: int,
                                     n: nat)
    requires n <= |tests|
    ensures TallyTests(run, tests, probIdx, n).Ok? ==>
              KeysWithin(TallyTests(run, tests, probIdx, n).value.testResults, probIdx, n)
  {
    if n > 0 && TallyTests(run, tests, probIdx, n).Ok? {
      TallyKeys(run, tests, probIdx, n - 1);
      assert TallyTests(run, tests, probIdx, n) == TallyNext(run, tests, probIdx, n);
      var prev := TallyTests(run, tests, probIdx, n - 1).value;
      var r := run(tests[n - 1], n).value;
      var t := TallyTests(run, tests, probIdx, n).value;
      assert t == Record(prev, r, TestKey(probIdx, n));
      RecordFacts(prev, r, TestKey(probIdx, n));
      forall key | key in t.testResults
        ensures exists j :: 1 <= j <= n && key == TestKey(probIdx, j)
      {
        if key == TestKey(probIdx, n) {
          assert 1 <= n <= n;
        } else {
          assert key in prev.testResults;
          var j :| 1 <= j <= n - 1 && key == TestKey(probIdx, j);
        }
      }
    }
  }

  /** Recording test `n`'s result keeps the entries of tests `1..n - 1` and adds its own. */
  lemma EntriesRecordedNext(run: (Test, nat) -> Result<TestResult, Exc>, tests: seq<Test>, probIdx: int,
                            results: map<string, (int, string)>, n: nat, r: TestResult)
    requires 1 <= n <= |tests| && EntriesRecorded(run, tests, probIdx, results, n - 1)
    requires TestOutcomeAt(run, tests, n) == Ok(r)
    ensures EntriesRecorded(run, tests, probIdx, results[TestKey(probIdx, n) := Entry(r)], n)
  {
    var updated := results[TestKey(probIdx, n) := Entry(r)];
    forall j | 1 <= j < n
      ensures TestKey(probIdx, j) in updated
      ensures updated[TestKey(probIdx, j)] == Entry(TestOutcomeAt(run, tests, j).value)
    {
      if TestKey(probIdx, j) == TestKey(probIdx, n) {
        TestKeyInjective(probIdx, j, n);
      }
    }
  }

  /**
   * After `n` tests the result map holds one entry per test, keyed
   * `prob{probIdx}_test{j}`, recording that test's outcome.
   */
  lemma {:induction false} TallyEntries(run: (Test, nat) -> Result<TestResult, Exc>, tests: seq<Test>, probIdx: int,
                                        n: nat)
    requires n <= |tests|
    ensures TallyTests(run, tests, probIdx, n).Ok? ==>
              EntriesRecorded(run, tests, probIdx, TallyTests(run, tests, probIdx, n).value.testResults, n)
  {
    if n > 0 && TallyTests(run, tests, probIdx, n).Ok? {
      TallyEntries(run, tests, probIdx, n - 1);
      assert TallyTests(run, tests, probIdx, n) == TallyNext(run, tests, probIdx, n);
      var prev := TallyTests(run, tests, probIdx, n - 1).value;
      var r := TestOutcomeAt(run, tests, n).value;
      assert TallyTests(run, tests, probIdx, n).value == Record(prev, r, TestKey(probIdx, n));
      RecordFacts(prev, r, TestKey(probIdx, n));
      EntriesRecordedNext(run, tests, probIdx, prev.testResults, n, r);
    }
  }

  /** `(passed / len(tests) * pts) if tests else 0`. */
  function Score(passed: nat, total: nat, pts: real): real {
    if total == 0 then 0.0 else (passed as real) / (total as real) * pts
  }

  /** With non-negative points the score lies between 0 and `pts`, and reaches `pts` when every test passes. */
  lemma ScoreBounds(passed: nat, total: nat, pts: real)
    requires passed <= total && 0.0 <= pts
    ensures 0.0 <= Score(passed, total, pts) <= pts
    ensures 0 < total && passed == total ==> Score(passed, total, pts) == pts
    ensures passed == 0 ==> Score(passed, total, pts) == 0.0
  {
    if total > 0 {
      var f := (passed as real) / (total as real);
      assert 0.0 <= f <= 1.0;
      assert f * pts <= 1.0 * pts;
    }
  }

  /** What `_grade_single_problem` returns besides its result record. */
  datatype ProblemGrade = ProblemGrade(
    result: ProblemResult,
    score: real,
    maxScore: real,
    testResults: map<string, (int, string)>)

  /** `_grade_single_problem`. */
  function GradeProblem(collab: Collaborators, problem: Problem, probIdx: int, cellIndex: int, cells: seq<Cell>)
    : Result<ProblemGrade, Exc>
  {
    if problem.tests.None? then Err(Exc("KeyError", "'tests'"))
    else
      var pts := problem.Points();
      var total := |problem.Tests()|;
      match CodeCellByIndex(cells, cellIndex)
      case Err(e) =>
        Ok(ProblemGrade(ProblemResult(cellIndex, 0, total, 0.0, pts, [e.msg], 0, 0), 0.0, pts, map[]))
      case Ok(cell) =>
        match TallyTests(Runner(collab, problem, cell), problem.Tests(), probIdx, total)
        case Err(e) => Err(e)
        case Ok(t) =>
          var score := Score(t.passed, total, pts);
          Ok(ProblemGrade(
               ProblemResult(cellIndex, t.passed, total, score, pts, t.failedTests, t.safetyViolations, t.timeoutViolations),
               score, pts, t.testResults))
  }

  /** On a cell that is found, an exception of the tally is the exception of the problem. */
  lemma GradeProblemRaises(collab: Collaborators, problem: Problem, probIdx: int, cellIndex: int, cells: seq<Cell>,
                           cell: Cell, e: Exc)
    requires CodeCellByIndex(cells, cellIndex) == Ok(cell)
    requires TallyRaises(collab, problem, cell, probIdx, e)
    ensures GradeProblem(collab, problem, probIdx, cellIndex, cells) == Err(e)
  {
  }

  /** On a cell that is found, the problem's record carries the counters of the full tally. */
  lemma GradeProblemScores(collab: Collaborators, problem: Problem, probIdx: int, cellIndex: int, cells: seq<Cell>,
                           cell: Cell, t: Tally)
    requires CodeCellByIndex(cells, cellIndex) == Ok(cell)
    requires Tallied(collab, problem, cell, probIdx, |problem.Tests()|, t)
    ensures var total := |problem.Tests()|;
            var score := Score(t.passed, total, problem.Points());
            GradeProblem(collab, problem, probIdx, cellIndex, cells)
            == Ok(ProblemGrade(ProblemResult(cellIndex, t.passed, total, score, problem.Points(), t.failedTests,
                                             t.safetyViolations, t.timeoutViolations),
                               score, problem.Points(), t.testResults))
  {
  }

  /**
   * A graded problem: 0 ≤ passed ≤ total, counters bounded by the failures, score
   * `passed/total*pts` (0 without tests), maximum `pts`; a missing cell yields no
   * passes, score 0 and the single "not found" message; a problem without `tests`
   * raises `KeyError`.
   */
  lemma ProblemGradeFacts(collab: Collaborators, problem: Problem, probIdx: int, cellIndex: int, cells: seq<Cell>)
    ensures GradeProblem(collab, problem, probIdx, cellIndex, cells).Ok? ==>
              var g := GradeProblem(collab, problem, probIdx, cellIndex, cells).value;
              && g.result.total == |problem.Tests()|
              && g.result.passed <= g.result.total
              && g.result.safetyViolations + g.result.timeoutViolations <= |g.result.failedTests|
              && g.score == g.result.score == Score(g.result.passed, g.result.total, problem.Points())
              && g.maxScore == g.result.pts == problem.Points()
              && g.result.cellIndex == cellIndex
    ensures problem.tests.None? ==> GradeProblem(collab, problem, probIdx, cellIndex, cells) == Err(Exc("KeyError", "'tests'"))
    ensures problem.tests.Some? && CodeCellByIndex(cells, cellIndex).Err? ==>
              GradeProblem(collab, problem, probIdx, cellIndex, cells)
              == Ok(ProblemGrade(ProblemResult(cellIndex, 0, |problem.Tests()|, 0.0, problem.Points(),
                                               [CellNotFoundMessage(cellIndex)], 0, 0),
                                 0.0, problem.Points(), map[]))
  {
    if problem.tests.Some? && CodeCellByIndex(cells, cellIndex).Ok? {
      TallyCounts(Runner(collab, problem, CodeCellByIndex(cells, cellIndex).value), problem.Tests(), probIdx,
                     |problem.Tests()|);
    }
  }

  // ---------------------------------------------------------------------------
  // All problems and the notebook

  /** The accumulators of `_grade_all_problems`. */
  datatype Totals = Totals(
    results: seq<ProblemResult>,
    totalScore: real,
    maxScore: real,
    testResults: map<string, (int, string)>,
    cellIndex: int)

  /** The accumulators once problem result `g`, graded on cell `index`, is added. */
  function Advance(t: Totals, g: ProblemGrade, index: int): Totals {
    Totals(t.results + [g.result], t.totalScore + g.score, t.maxScore + g.maxScore, t.testResults + g.testResults, index)
  }

  /** How each problem is graded on the notebook: `_grade_single_problem`. */
  function Grader(collab: Collaborators, cells: seq<Cell>): (Problem, int, int) -> Result<ProblemGrade, Exc> {
    (problem: Problem, probIdx: int, cellIndex: int) => GradeProblem(collab, problem, probIdx, cellIndex, cells)
  }

  /** The accumulators after the first `n` problems, or the exception one of them raised. */
  function GradeProblems(grade: (Problem, int, int) -> Result<ProblemGrade, Exc>, config: seq<Problem>, n: nat)
    : Result<Totals, Exc>
    requires n <= |config|
  {
    if n == 0 then Ok(Totals([], 0.0, 0.0, map[], 0))
    else
      match GradeProblems(grade, config, n - 1)
      case Err(e) => Err(e)
      case Ok(t) =>
        var problem := config[n - 1];
        if problem.nextCodeCell.None? then Err(Exc("KeyError", "'next_code_cell'"))
        else
          var index := t.cellIndex + problem.nextCodeCell.value;
          match grade(problem, n, index)
          case Err(e) => Err(e)
          case Ok(g) => Ok(Advance(t, g, index))
  }

  lemma {:induction false} GradeProblemsErrSticks(grade: (Problem, int, int) -> Result<ProblemGrade, Exc>,
                                                  config: seq<Problem>, i: nat, n: nat)
    requires i <= n <= |config| && GradeProblems(grade, config, i).Err?
    ensures GradeProblems(grade, config, n) == GradeProblems(grade, config, i)
    decreases n
  {
    if n > i {
      GradeProblemsErrSticks(grade, config, i, n - 1);
    }
  }

  /** Grading one more problem: a missing `next_code_cell`, an exception, or extended accumulators. */
  lemma GradeProblemsStep(grade: (Problem, int, int) -> Result<ProblemGrade, Exc>, config: seq<Problem>, i: nat,
                          t: Totals)
    requires i < |config| && GradeProblems(grade, config, i) == Ok(t)
    ensures config[i].nextCodeCell.None? ==> GradeProblems(grade, config, i + 1) == Err(Exc("KeyError", "'next_code_cell'"))
    ensures config[i].nextCodeCell.Some? ==>
              var index := t.cellIndex + config[i].nextCodeCell.value;
              match grade(config[i], i + 1, index)
              case Err(e) => GradeProblems(grade, config, i + 1) == Err(e)
              case Ok(g) => GradeProblems(grade, config, i + 1) == Ok(Advance(t, g, index))
  {
  }

  /** A problem without `next_code_cell` ends the run with `KeyError`, whatever the problem grader. */
  lemma GradeProblemsMissingCell(grade: (Problem, int, int) -> Result<ProblemGrade, Exc>, config: seq<Problem>, i: nat,
                                 t: Totals)
    requires i < |config| && GradeProblems(grade, config, i) == Ok(t) && config[i].nextCodeCell.None?
    ensures GradeProblems(grade, config, |config|) == Err(Exc("KeyError", "'next_code_cell'"))
  {
    GradeProblemsErrSticks(grade, config, i + 1, |config|);
  }

  /** Grading problem `i + 1` once its grade is known: an exception ends the run, a result extends the totals. */
  lemma GradeProblemsNext(grade: (Problem, int, int) -> Result<ProblemGrade, Exc>, config: seq<Problem>, i: nat,
                          t: Totals, graded: Result<ProblemGrade, Exc>)
    requires i < |config| && GradeProblems(grade, config, i) == Ok(t)
    requires config[i].nextCodeCell.Some?
    requires graded == grade(config[i], i + 1, t.cellIndex + config[i].nextCodeCell.value)
    ensures graded.Err? ==> GradeProblems(grade, config, |config|) == Err(graded.error)
    ensures graded.Ok? ==>
              GradeProblems(grade, config, i + 1) == Ok(Advance(t, graded.value, t.cellIndex + config[i].nextCodeCell.value))
  {
    GradeProblemsStep(grade, config, i, t);
    if graded.Err? {
      GradeProblemsErrSticks(grade, config, i + 1, |config|);
    }
  }

  /** The first `n` problems of the configuration, graded on the notebook's cells, accumulate to `t`. */
  predicate GradedUpTo(collab: Collaborators, cells: seq<Cell>, config: seq<Problem>, n: nat, t: Totals) {
    n <= |config| && GradeProblems(Grader(collab, cells), config, n) == Ok(t)
  }

  /** A problem without `next_code_cell` ends the run with `KeyError`. */
  lemma MissingCellAdvanceRaises(collab: Collaborators, cells: seq<Cell>, config: seq<Problem>, i: nat, t: Totals)
    requires i < |config| && GradedUpTo(collab, cells, config, i, t) && config[i].nextCodeCell.None?
    ensures GradeProblems(Grader(collab, cells), config, |config|) == Err(Exc("KeyError", "'next_code_cell'"))
  {
    GradeProblemsMissingCell(Grader(collab, cells), config, i, t);
  }

  /** `GradeProblemsNext` on the notebook's own grader. */
  lemma GraderStep(collab: Collaborators, cells: seq<Cell>, config: seq<Problem>, i: nat, t: Totals, index: int,
                   graded: Result<ProblemGrade, Exc>)
    requires i < |config| && GradeProblems(Grader(collab, cells), config, i) == Ok(t)
    requires config[i].nextCodeCell.Some? && index == t.cellIndex + config[i].nextCodeCell.value
    requires graded == GradeProblem(collab, config[i], i + 1, index, cells)
    ensures graded.Err? ==> GradeProblems(Grader(collab, cells), config, |config|) == Err(graded.error)
    ensures graded.Ok? ==> GradeProblems(Grader(collab, cells), config, i + 1) == Ok(Advance(t, graded.value, index))
  {
    GradeProblemsNext(Grader(collab, cells), config, i, t, graded);
  }

  /** Σ of the scores in a list of problem results. */
  function ScoreSum(results: seq<ProblemResult>): real {
    if results == [] then 0.0 else ScoreSum(results[..|results| - 1]) + results[|results| - 1].score
  }

  /** A problem grader whose records carry the targeted cell, their own score and the problem's points. */
  ghost predicate KeepsCellAndPoints(grade: (Problem, int, int) -> Result<ProblemGrade, Exc>) {
    forall problem, probIdx, cellIndex :: grade(problem, probIdx, cellIndex).Ok? ==>
      && grade(problem, probIdx, cellIndex).value.result.cellIndex == cellIndex
      && grade(problem, probIdx, cellIndex).value.score == grade(problem, probIdx, cellIndex).value.result.score
      && grade(problem, probIdx, cellIndex).value.maxScore == problem.Points()
  }

  /** The sums of `GradeProblems` for any grader that keeps cells and points. */
  lemma {:induction false} GradeProblemsSums(grade: (Problem, int, int) -> Result<ProblemGrade, Exc>,
                                             config: seq<Problem>, n: nat)
    requires n <= |config| && KeepsCellAndPoints(grade)
    ensures GradeProblems(grade, config, n).Ok? ==>
              var t := GradeProblems(grade, config, n).value;
              && |t.results| == n
              && t.cellIndex == CellAdvance(config, n)
              && (forall i :: 0 <= i < n ==> t.results[i].cellIndex == CellAdvance(config, i + 1))
              && t.totalScore == ScoreSum(t.results)
              && t.maxScore == PointsSum(config, n)
  {
    if n > 0 && GradeProblems(grade, config, n).Ok? {
      GradeProblemsSums(grade, config, n - 1);
      var prev := GradeProblems(grade, config, n - 1).value;
      var t := GradeProblems(grade, config, n).value;
      assert t.results[..n - 1] == prev.results;
    }
  }

  /**
   * After `n` problems: one result per problem; problem `i` targets the cell given by
   * the prefix sum of `next_code_cell` through problem `i`; the total score is the sum
   * of the problem scores and the maximum the sum of `pts`.
   */
  lemma GradeProblemsTotals(collab: Collaborators, config: seq<Problem>, cells: seq<Cell>, n: nat)
    requires n <= |config|
    ensures GradeProblems(Grader(collab, cells), config, n).Ok? ==>
              var t := GradeProblems(Grader(collab, cells), config, n).value;
              && |t.results| == n
              && t.cellIndex == CellAdvance(config, n)
              && (forall i :: 0 <= i < n ==> t.results[i].cellIndex == CellAdvance(config, i + 1))
              && t.totalScore == ScoreSum(t.results)
              && t.maxScore == PointsSum(config, n)
  {
    forall problem, probIdx, cellIndex | GradeProblem(collab, problem, probIdx, cellIndex, cells).Ok?
      ensures var g := GradeProblem(collab, problem, probIdx, cellIndex, cells).value;
              g.result.cellIndex == cellIndex && g.score == g.result.score && g.maxScore == problem.Points()
    {
      ProblemGradeFacts(collab, problem, probIdx, cellIndex, cells);
    }
    GradeProblemsSums(Grader(collab, cells), config, n);
  }

  /** `grade_notebook`. */
  function GradeNotebookSpec(collab: Collaborators, config: seq<Problem>, nb: Option<seq<Cell>>): Result<Report, Exc> {
    match nb
    case None => Ok(GetMaxScoreOnly(config))
    case Some(cells) =>
      match ValidateCellCount(config, cells)
      case Some(m) => Ok(Mismatch(m))
      case None =>
        match GradeProblems(Grader(collab, cells), config, |config|)
        case Err(e) => Err(e)
        case Ok(t) => Ok(Graded(t.results, t.totalScore, t.maxScore, t.testResults))
  }

  /** Without a notebook only the maximum score is reported, and nothing is executed. */
  lemma NoNotebookExecutesNothing(collab: Collaborators, other: Collaborators, config: seq<Problem>)
    ensures GradeNotebookSpec(collab, config, None) == Ok(MaxOnly(PointsSum(config, |config|)))
    ensures GradeNotebookSpec(collab, config, None) == GradeNotebookSpec(other, config, None)
  {
  }

  /** A graded notebook's total is the sum of its problem scores and its maximum the sum of `pts`. */
  lemma GradedNotebookTotals(collab: Collaborators, config: seq<Problem>, cells: seq<Cell>)
    requires GradeNotebookSpec(collab, config, Some(cells)).Ok?
    ensures var r := GradeNotebookSpec(collab, config, Some(cells)).value;
            r.Graded? ==>
              && |r.results| == |config|
              && r.totalScore == ScoreSum(r.results)
              && r.maxScore == PointsSum(config, |config|)
              && (forall i :: 0 <= i < |config| ==> r.results[i].cellIndex == CellAdvance(config, i + 1))
  {
    GradeProblemsTotals(collab, config, cells, |config|);
  }

  // ---------------------------------------------------------------------------
  // The NotebookGrader object

  class NotebookGrader {
    const config: seq<Problem>
    const collab: Collaborators
    const mockManager: MockManager

    constructor(config: seq<Problem>, collab: Collaborators)
      ensures this.config == config && this.collab == collab
      ensures fresh(mockManager) && mockManager.spy == null
    {
      this.config := config;
      this.collab := collab;
      mockManager := new MockManager();
    }

    /** `grade_notebook`. */
    method GradeNotebook(nb: Option<seq<Cell>>) returns (r: Result<Report, Exc>)
      modifies mockManager
      ensures r == GradeNotebookSpec(collab, config, nb)
    {
      if nb.None? {
        return Ok(GetMaxScoreOnly(config));
      }
      var mismatch := ValidateCellCount(config, nb.value);
      if mismatch.Some? {
        return Ok(Mismatch(mismatch.value));
      }
      var totals := GradeAllProblems(nb.value);
      if totals.Err? {
        return Err(totals.error);
      }
      var t := totals.value;
      return Ok(Graded(t.results, t.totalScore, t.maxScore, t.testResults));
    }

    /** `_grade_all_problems`: the cell cursor advances by each problem's `next_code_cell`. */
    method GradeAllProblems(cells: seq<Cell>) returns (r: Result<Totals, Exc>)
      modifies mockManager
      ensures r == GradeProblems(Grader(collab, cells), config, |config|)
    {
      var results: seq<ProblemResult> := [];
      var totalScore := 0.0;
      var maxScore := 0.0;
      var current := 0;
      var testResults: map<string, (int, string)> := map[];
      for i := 0 to |config|
        invariant GradedUpTo(collab, cells, config, i, Totals(results, totalScore, maxScore, testResults, current))
      {
        var problem := config[i];
        ghost var before := Totals(results, totalScore, maxScore, testResults, current);
        if problem.nextCodeCell.None? {
          MissingCellAdvanceRaises(collab, cells, config, i, before);
          return Err(Exc("KeyError", "'next_code_cell'"));
        }
        current := current + problem.nextCodeCell.value;
        var graded := GradeNextProblem(cells, i, current, before);
        if graded.Err? {
          return Err(graded.error);
        }
        var g := graded.value;
        results := results + [g.result];
        totalScore := totalScore + g.score;
        maxScore := maxScore + g.maxScore;
        testResults := testResults + g.testResults;
        assert Totals(results, totalScore, maxScore, testResults, current) == Advance(before, g, current);
      }
      return Ok(Totals(results, totalScore, maxScore, testResults, current));
    }

    /** Problem `i + 1` graded on cell `index`, as one more step of the run over the problems. */
    method GradeNextProblem(cells: seq<Cell>, i: nat, index: int, ghost before: Totals)
      returns (graded: Result<ProblemGrade, Exc>)
      requires i < |config| && GradedUpTo(collab, cells, config, i, before)
      requires config[i].nextCodeCell.Some? && index == before.cellIndex + config[i].nextCodeCell.value
      modifies mockManager
      ensures graded.Err? ==> GradeProblems(Grader(collab, cells), config, |config|) == Err(graded.error)
      ensures graded.Ok? ==> GradedUpTo(collab, cells, config, i + 1, Advance(before, graded.value, index))
    {
      graded := GradeSingleProblem(config[i], i + 1, index, cells);
      GraderStep(collab, cells, config, i, before, index, graded);
    }

    /** `_grade_single_problem`. */
    method GradeSingleProblem(problem: Problem, probIdx: int, cellIndex: int, cells: seq<Cell>)
      returns (r: Result<ProblemGrade, Exc>)
      modifies mockManager
      ensures r == GradeProblem(collab, problem, probIdx, cellIndex, cells)
    {
      if problem.tests.None? {
        return Err(Exc("KeyError", "'tests'"));
      }
      var pts := problem.Points();
      var tests := problem.Tests();
      var lineOffset := problem.lineOffset.GetOr(0);
      var found := GetCodeCellByIndex(cells, cellIndex);
      if found.Err? {
        return Ok(ProblemGrade(ProblemResult(cellIndex, 0, |tests|, 0.0, pts, [found.error.msg], 0, 0),
                               0.0, pts, map[]));
      }
      var cell := found.value;
      var passed: nat := 0;
      var failedTests: seq<string> := [];
      var safetyViolations: nat := 0;
      var timeoutViolations: nat := 0;
      var testResults: map<string, (int, string)> := map[];
      for j := 0 to |tests|
        invariant Tallied(collab, problem, cell, probIdx, j,
                          Tally(passed, failedTests, safetyViolations, timeoutViolations, testResults))
      {
        ghost var before := Tally(passed, failedTests, safetyViolations, timeoutViolations, testResults);
        var outcome := RunNextTest(problem, probIdx, cell, lineOffset, j, before);
        if outcome.Err? {
          GradeProblemRaises(collab, problem, probIdx, cellIndex, cells, cell, outcome.error);
          return Err(outcome.error);
        }
        passed, failedTests, safetyViolations, timeoutViolations, testResults :=
          RecordTest(passed, failedTests, safetyViolations, timeoutViolations, testResults, outcome.value,
                     TestKey(probIdx, j + 1));
      }
      var score := if |tests| > 0 then (passed as real) / (|tests| as real) * pts else 0.0;
      GradeProblemScores(collab, problem, probIdx, cellIndex, cells, cell,
                         Tally(passed, failedTests, safetyViolations, timeoutViolations, testResults));
      assert score == Score(passed, |tests|, pts);
      return Ok(ProblemGrade(
                  ProblemResult(cellIndex, passed, |tests|, score, pts, failedTests, safetyViolations, timeoutViolations),
                  score, pts, testResults));
    }

    /** Test `j + 1` of a problem run on its cell, as one more step of the tally. */
    method RunNextTest(problem: Problem, probIdx: int, cell: Cell, lineOffset: int, j: nat, ghost before: Tally)
      returns (outcome: Result<TestResult, Exc>)
      requires j < |problem.Tests()| && Tallied(collab, problem, cell, probIdx, j, before)
      requires lineOffset == problem.lineOffset.GetOr(0)
      modifies mockManager
      ensures outcome.Err? ==> TallyRaises(collab, problem, cell, probIdx, outcome.error)
      ensures outcome.Ok? ==> Tallied(collab, problem, cell, probIdx, j + 1, Record(before, outcome.value, TestKey(probIdx, j + 1)))
    {
      outcome := RunSingleTest(problem.Tests()[j], j + 1, problem, cell, lineOffset);
      TallyTestsNext(Runner(collab, problem, cell), problem.Tests(), probIdx, j, before, outcome);
    }

    /** `_run_single_test`. */
    method RunSingleTest(test: Test, testIdx: int, problem: Problem, cell: Cell, lineOffset: int)
      returns (r: Result<TestResult, Exc>)
      modifies mockManager
      ensures r == TestOutcome(collab, test, testIdx, problem, cell, lineOffset)
    {
      var created := CreateTestNamespace(test);
      if created.Err? {
        return Err(created.error);
      }
      var ns := created.value;
      ghost var vars := ns.vars;
      mockManager.SetupMocks(ns, test);
      var code := PrepareCode(collab, cell, lineOffset, test, problem);
      var described := BuildInputDescription(test);
      if described.Err? {
        return Err(described.error);
      }
      var inputs := described.value;
      assert TestOutcome(collab, test, testIdx, problem, cell, lineOffset)
             == ScreenedOutcome(collab, test, testIdx, vars, code, inputs);
      var (safe, reason) := IsCodeSafe(code);
      if !safe {
        return Ok(TestResult(false, BlockedMessage(testIdx, inputs, reason)));
      }
      ghost var outcome := collab.execute(code, vars, InputHook(test));
      assert ScreenedOutcome(collab, test, testIdx, vars, code, inputs)
             == ExecutedOutcome(collab.engine, test, testIdx, inputs, outcome);
      var output, answers := ExecuteCode(code, ns);
      if output.Err? {
        if EscapesExceptException(output.error) {
          return Err(output.error);
        }
        if output.error.msg == "__DEADLOOP__" {
          return Ok(TestResult(false, TimeoutMessage(testIdx, inputs)));
        }
        return Ok(TestResult(false, ErrorMessage(testIdx, inputs, output.error)));
      }
      assert outcome.Completed?;
      assert ns.vars == outcome.vars && ns.printedOutputs == PrintedBy(outcome.events);
      var verdict := RunTest(collab.engine, test, ns.vars, ns.printedOutputs, output.value);
      assert ExecutedOutcome(collab.engine, test, testIdx, inputs, outcome)
             == match verdict
                case Pass => Ok(TestResult(true, ""))
                case Fail(msg) => Ok(TestResult(false, FailedMessage(testIdx, inputs, msg)))
                case Error(e) => Err(e);
      match verdict
      case Pass =>
        return Ok(TestResult(true, ""));
      case Fail(msg) =>
        return Ok(TestResult(false, FailedMessage(testIdx, inputs, msg)));
      case Error(e) =>
        return Err(e);
    }

    /** `_create_test_namespace`: bind each converted variable in a fresh namespace. */
    method CreateTestNamespace(test: Test) returns (r: Result<Namespace, Exc>)
      ensures SeedVariables(test.variables).Err? ==> r == Err(SeedVariables(test.variables).error)
      ensures SeedVariables(test.variables).Ok? ==>
                && r.Ok? && fresh(r.value)
                && r.value.vars == SeedVariables(test.variables).value
                && r.value.printSpy == null && r.value.inputSpy == null
    {
      var ns := new Namespace();
      var entries := test.variables;
      for i := 0 to |entries|
        invariant SeedVariables(entries[..i]) == Ok(ns.vars)
        invariant ns.printSpy == null && ns.inputSpy == null
      {
        var (name, raw) := entries[i];
        assert entries[..i + 1][..i] == entries[..i];
        var converted := ConvertComplex(raw);
        if converted.Err? {
          SeedVariablesErrSticks(entries, i + 1);
          return Err(converted.error);
        }
        ns.SetVar(name, converted.value);
      }
      assert entries[..|entries|] == entries;
      return Ok(ns);
    }

    /**
     * `_execute_code`: run the code in the namespace with standard output captured.
     * The events of a completed run replay through the installed spies; a run that
     * exceeds the time limit raises `Exception("__DEADLOOP__")`. The ghost `answers`
     * are what the student's `input()` calls received.
     */
    method ExecuteCode(code: string, ns: Namespace) returns (r: Result<string, Exc>, ghost answers: seq<string>)
      requires ns.printSpy != null && ns.printSpy.ns == ns
      requires ns.inputSpy != null ==> ns.inputSpy.spy.ns == ns
      modifies ns, ns.inputSpy
      ensures ns.printSpy == old(ns.printSpy) && ns.inputSpy == old(ns.inputSpy)
      ensures var hook := if ns.inputSpy != null then Some(ns.inputSpy.source) else None;
              match collab.execute(code, old(ns.vars), hook)
              case TimedOut => r == Err(Exc("Exception", "__DEADLOOP__"))
              case Raised(e) => r == Err(e)
              case Completed(vars, events) =>
                && r == Ok(CapturedBy(events))
                && ns.vars == vars
                && ns.printedOutputs == old(ns.printedOutputs) + PrintedBy(events)
                && (ns.inputSpy != null ==>
                      && ns.promptsUsed == old(ns.promptsUsed) + PromptsOf(events)
                      && answers == Run(ns.inputSpy.source, old(ns.inputSpy.consumed), |PromptsOf(events)|))
    {
      answers := [];
      var hook := if ns.inputSpy != null then Some(ns.inputSpy.source) else None;
      var outcome := collab.execute(code, ns.vars, hook);
      match outcome
      case TimedOut =>
        return Err(Exc("Exception", "__DEADLOOP__")), answers;
      case Raised(e) =>
        return Err(e), answers;
      case Completed(vars, events) =>
        var captured;
        captured, answers := Replay(events, ns);
        ns.vars := vars;
        return Ok(captured), answers;
    }

    /** One event of a run, through the installed spies; an `input` call through the input spy yields its answer. */
    method ReplayEvent(e: IOEvent, ns: Namespace, stdout: Stream) returns (answer: Option<string>)
      requires ns.printSpy != null && ns.printSpy.ns == ns
      requires ns.inputSpy != null ==> ns.inputSpy.spy.ns == ns
      modifies ns, ns.inputSpy, stdout
      ensures ns.printSpy == old(ns.printSpy) && ns.inputSpy == old(ns.inputSpy) && ns.vars == old(ns.vars)
      ensures stdout.text == old(stdout.text) + WrittenBy(e)
      ensures ns.printedOutputs
              == old(ns.printedOutputs) + (if e.PrintCall? then [PrintMessage(e.args, e.sep, e.end)] else [])
      ensures ns.inputSpy == null ==> answer.None?
      ensures ns.inputSpy != null ==>
                && ns.promptsUsed == old(ns.promptsUsed) + (if e.InputCall? then [e.prompt] else [])
                && (e.InputCall? ==> answer.Some? && (answer.value, ns.inputSpy.consumed)
                                                    == Step(ns.inputSpy.source, old(ns.inputSpy.consumed)))
                && (!e.InputCall? ==> answer.None? && ns.inputSpy.consumed == old(ns.inputSpy.consumed))
    {
      answer := None;
      match e
      case PrintCall(args, sep, end) =>
        ns.printSpy.Print(args, sep, end, stdout);
      case InputCall(prompt) =>
        if ns.inputSpy != null {
          var a := ns.inputSpy.Call(prompt, stdout);
          answer := Some(a);
        } else {
          stdout.Write(prompt);
        }
      case RawWrite(text) =>
        stdout.Write(text);
    }

    /**
     * The events of a completed run, replayed in order: prints go through the print
     * spy, `input()` calls through the input spy when one is installed (else the
     * prompt is written as is), raw writes straight to the captured stream.
     */
    method Replay(events: seq<IOEvent>, ns: Namespace) returns (captured: string, ghost answers: seq<string>)
      requires ns.printSpy != null && ns.printSpy.ns == ns
      requires ns.inputSpy != null ==> ns.inputSpy.spy.ns == ns
      modifies ns, ns.inputSpy
      ensures ns.printSpy == old(ns.printSpy) && ns.inputSpy == old(ns.inputSpy) && ns.vars == old(ns.vars)
      ensures captured == CapturedBy(events)
      ensures ns.printedOutputs == old(ns.printedOutputs) + PrintedBy(events)
      ensures ns.inputSpy != null ==>
                && ns.promptsUsed == old(ns.promptsUsed) + PromptsOf(events)
                && answers == Run(ns.inputSpy.source, old(ns.inputSpy.consumed), |PromptsOf(events)|)
    {
      answers := [];
      var stdout := new Stream();
      var printSpy := ns.printSpy;
      var inputSpy := ns.inputSpy;
      ghost var start := if inputSpy != null then inputSpy.consumed else 0;
      for i := 0 to |events|
        invariant ns.printSpy == printSpy && ns.inputSpy == inputSpy && ns.vars == old(ns.vars)
        invariant stdout.text == CapturedBy(events[..i])
        invariant ns.printedOutputs == old(ns.printedOutputs) + PrintedBy(events[..i])
        invariant inputSpy != null ==>
                    && ns.promptsUsed == old(ns.promptsUsed) + PromptsOf(events[..i])
                    && answers == Run(inputSpy.source, start, |PromptsOf(events[..i])|)
                    && inputSpy.consumed == Pos(inputSpy.source, start, |PromptsOf(events[..i])|)
      {
        assert events[..i + 1][..i] == events[..i];
        if inputSpy != null && events[i].InputCall? {
          RunSnoc(inputSpy.source, start, |PromptsOf(events[..i])|);
        }
        var answer := ReplayEvent(events[i], ns, stdout);
        if answer.Some? {
          answers := answers + [answer.value];
        }
      }
      assert events[..|events|] == events;
      return stdout.text, answers;
    }

    /** `_get_code_cell_by_index`: count non-blank code cells until the target is reached. */
    method GetCodeCellByIndex(cells: seq<Cell>, target: int) returns (r: Result<Cell, Exc>)
      ensures r == CodeCellByIndex(cells, target)
    {
      var count := 0;
      for i := 0 to |cells|
        invariant count == |Filter(IsGradable, cells[..i])|
        invariant 1 <= target ==> count < target
      {
        assert cells[..i + 1] == cells[..i] + [cells[i]];
        FilterAppend(IsGradable, cells[..i], cells[i]);
        if cells[i].cellType == Code && Strip(cells[i].source) != "" {
          count := count + 1;
          if count == target {
            assert cells == cells[..i + 1] + cells[i + 1..];
            FilterConcat(IsGradable, cells[..i + 1], cells[i + 1..]);
            return Ok(cells[i]);
          }
        }
      }
      assert cells[..|cells|] == cells;
      return Err(Exc("IndexError", CellNotFoundMessage(target)));
    }
  }
}
