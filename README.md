# PHYS150grader core, modelled in Dafny

PHYS150grader grades Jupyter notebooks handed in for a physics course. A
configuration lists problems. Each problem names the code cell it grades, as an
advance `next_code_cell` from the previous problem, and carries its points `pts`
and a list of tests. For each test the notebook grader:

1. builds a fresh namespace from the test's `variables`, where complex numbers are
   written as `{"real": .., "imag": ..}`;
2. installs a print spy and, when the test has an `input_overload`, an input spy;
3. assembles the code to run: the non-blank cell lines after `line_offset`, with
   the problem's and the test's `prefix_code` before them, and with `input(` lines
   removed when variables are seeded and no input is scripted;
4. screens that code textually against banned imports and call patterns;
5. runs it when it is safe, with standard output captured;
6. validates the outcome:
   - a variable test compares variables, exactly or within a tolerance;
   - an output test compares output as one string, as a list, or through a format
     template with named groups.

Failure messages are classified by their text:
- a message containing "blocked" is a safety violation;
- otherwise one containing "timeout" is a timeout.

A problem scores `passed / len(tests) * pts`. A notebook's report is one of:
- the problem results with their sums;
- a cell-count mismatch record;
- only the maximum score, when no notebook is given.

The submission preprocessor recovers a student's user id from a Canvas file name.

The Dafny modules follow the program:

| module | file | models |
|---|---|---|
| `SafeCode` | `safecode.dfy` | the safety gate and the removal of input lines |
| `TestRunner` | `test_runner.dfy` | the expectation validator and the test-type dispatch |
| `MockSystem` | `mock_system.dfy` | the print and input spies and the spy installation, as classes over a mutable `Namespace` |
| `NotebookGrader` | `notebook_grader.dfy` | the notebook grader (see below) |
| `Preprocess` | `preprocess.dfy` | the user-id extraction |

`NotebookGrader` holds the notebook grader in two forms:
- specification functions (`GradeNotebookSpec`, `GradeProblems`, `GradeProblem`,
  `TallyTests`, `TestOutcome`) with lemmas about them;
- the class `NotebookGrader`, whose loop methods are proved equal to those functions.

`Text`, `Values`, `Schema` and `Wrappers` hold the string functions the source
takes from Python, the configuration values, the configuration records and
`Option`/`Result`.

Executing student code is the `execute` field of a `Collaborators` record. It maps
the code, the seeded variables and the installed input hook to one of:
- a timeout;
- a raised exception;
- completion, with the final variables and the sequence of I/O events (prints,
  `input` calls, raw writes).

Those events are replayed through the spies. `sanitize_student_code` and the
format engine (the regular-expression match and `float()` parsing) are
collaborators too.

## Model

| member | source | states |
|---|---|---|
| SafeCode.FirstHitSpec | safecode.py:57-62 | the early-return scan finds nothing exactly when no element is hit, else the first element hit |
| SafeCode.ScreenSpec | safecode.py:57-63 | the screen passes iff no listed module is imported and no listed pattern occurs; the reason names the first imported module, or (with no import) the first pattern |
| SafeCode.IsCodeSafeSpec | safecode.py:54-63 | code is safe iff it imports none of the 11 banned modules and contains none of the 31 banned patterns; the reason is empty when safe and otherwise names the first offender, imports before patterns |
| SafeCode.RejectionMonotone | safecode.py:57-62 | code that is rejected stays rejected inside any larger code |
| SafeCode.ImportScreenIsTextual | safecode.py:58-59 | `import ossaudiodev` is rejected as a banned import of `os` (substring match) |
| SafeCode.PatternScreenIsTextual | safecode.py:60-62 | the harmless method call `xs.copy()` is rejected as the banned pattern `copy(`, inside any surrounding code |
| SafeCode.CopyCallReason | safecode.py:54-63 | on `ys = xs.copy()` alone the reason is exact: `(False, "Banned code pattern detected: copy(")`, because it imports nothing and holds none of the 25 patterns listed before `copy(` |
| SafeCode.RemoveInputLinesDropsInput | safecode.py:65-69 | no `input(` survives the removal |
| SafeCode.RemoveInputLinesKeepsOtherLines | safecode.py:65-69 | when the last line kept is non-empty, the result split back into lines is exactly the input lines without `input(`, in order, and every such line is kept (with an empty last kept line, `splitlines` drops it on reading back: `"x = 1\n\ninput()"` reads back as `["x = 1"]`) |
| TestRunner.CollapseSpaces | core/test_runner.py:14-16 | collapsing keeps emptiness and the whitespace status of the ends, and leaves only single plain spaces |
| TestRunner.NormalizeWhitespace | core/test_runner.py:14-16 | the result has no leading or trailing whitespace and no two adjacent or non-space whitespace characters |
| TestRunner.CollapseFixesNormalized | core/test_runner.py:16 | text with single plain spaces only is left unchanged by the collapse |
| TestRunner.CollapseKeepsVisible | core/test_runner.py:16 | the collapse keeps every non-whitespace character, all of them and in order |
| TestRunner.CollapseAppend | core/test_runner.py:16 | text that ends in non-whitespace collapses independently of what follows it: the substitution works run by run |
| TestRunner.CollapseSpaceRun | core/test_runner.py:16 | a whitespace run before non-whitespace becomes exactly one `' '` |
| TestRunner.NormalizeKeepsVisible | core/test_runner.py:14-16 | normalising removes only whitespace: the non-whitespace characters of the text survive, all of them and in order |
| TestRunner.NormalizeJoinsWithOneSpace | core/test_runner.py:14-16 | for stripped non-empty `a` and `b` and a non-empty whitespace run `w`, `a + w + b` normalises to the normalisations of `a` and `b` joined by exactly one `' '` |
| TestRunner.NormalizedIsFixpoint | core/test_runner.py:14-16 | normalised text is a fixpoint of the normalisation |
| TestRunner.NormalizeIdempotent | core/test_runner.py:14-16 | normalising twice is normalising once |
| TestRunner.ConvertComplex | core/test_runner.py:48-52 | a non-dict value is unchanged; a dict with `real` and `imag` numbers becomes that complex number, and one with a non-number raises `TypeError` |
| TestRunner.DiffWithinTolIsMagnitudeBound | core/test_runner.py:54-61 | `abs(expected - actual) <= tol` holds iff the squared magnitude of the difference is at most `tol^2` |
| TestRunner.ValidateWithTolerance | core/test_runner.py:54-61 | passes iff both values are numbers within the tolerance; never raises anything but `AssertionError` |
| TestRunner.ToleranceBoundary | core/test_runner.py:60 | the tolerance bound is inclusive: a difference of exactly `tol` passes, and one beyond it fails |
| TestRunner.ValidateExactMatch | core/test_runner.py:63-66 | passes iff the values are equal under Python's `==`; never raises anything but `AssertionError` |
| TestRunner.CheckVariable | core/test_runner.py:21-28 | a conversion error propagates; otherwise the verdict is the tolerance or the exact comparison with the value read (missing reads as `None`) |
| TestRunner.FirstFailureSpec | core/test_runner.py:21-28 | the early-exit loop passes iff every element passes, and otherwise returns the verdict of the first element that does not |
| TestRunner.CheckVariablesFirstFailure | core/test_runner.py:18-28 | a variable test passes iff every expected variable passes; otherwise its verdict is that of the first failing variable |
| TestRunner.CompareText | core/test_runner.py:135-146 | a non-string expectation raises; otherwise passes iff the normalised texts agree, case-folded unless case-sensitive |
| TestRunner.StringOutputSymmetric | core/test_runner.py:135-146 | the single-string verdict does not change when expected and actual text are swapped |
| TestRunner.CaseInsensitiveIsWeaker | core/test_runner.py:141-146 | a case-insensitive comparison accepts everything a case-sensitive one accepts |
| TestRunner.ListOutputChecksOnlyFirst | core/test_runner.py:119-133 | list mode wraps the output in a one-element list, so it checks only `expected[0]` and passes on an empty list |
| TestRunner.CompareExtracted | core/test_runner.py:102-117 | when both sides parse as floats it compares numbers (within `tol` when given); otherwise it compares `str(expected)` with the captured text; it never raises anything but `AssertionError` |
| TestRunner.CheckGroupsPassIff | core/test_runner.py:95-100 | format mode passes iff every expected variable was captured by the template and its value compares equal |
| TestRunner.FormatOutputErrors | core/test_runner.py:68-100 | format mode raises something other than `AssertionError` exactly when building or running the template's pattern raises (that same exception), or the template matched and `expected` is not a dict |
| TestRunner.SingletonListIsStringMode | core/test_runner.py:41-46 | without a `format` key, an expected list of one non-list entry gives the same verdict as that entry alone, since the output is compared only with `expected[0]` |
| TestRunner.RunTest | core/test_runner.py:155-164 | a `variable` test goes to the variable validator and an `output` test to the output validator; any other type raises `ValueError("Unknown test type: …")` |
| MockSystem.PrintMessage | core/mock_system.py:22-29 | the recorded message is the printed text with at most one trailing newline removed |
| MockSystem.DefaultPrintRecordsJoinedArgs | core/mock_system.py:22-33 | with the default `sep` and `end` the message is the space-joined arguments, and the forwarded copy is the message plus a newline |
| MockSystem.OneNewlineRemoved | core/mock_system.py:28-29 | a printed string that ends in a newline keeps that newline in the record |
| MockSystem.ForwardedCopyDropsEnd | core/mock_system.py:24-33 | `print(x, end="")` records `x` but still forwards `x` plus a newline to the captured stream |
| MockSystem.IOSpy.constructor | core/mock_system.py:12-16 | binds the namespace and resets its prompts and printed outputs to empty |
| MockSystem.IOSpy.Print | core/mock_system.py:20-33 | appends one message to the printed outputs and writes the positional arguments with default `sep`/`end` to the stream; nothing else changes |
| MockSystem.IOSpy.CreateSpyInput | core/mock_system.py:37-42 | a list overload gives a fresh list spy at position 0; any other value gives the fixed spy |
| MockSystem.RunSnoc | core/mock_system.py:44-65 | one more `input` call appends the answer given at the position the earlier calls reached |
| MockSystem.ListRunClosedForm | core/mock_system.py:44-56 | the k-th call of the list spy returns `str(items[k])`, and every call after the list is exhausted returns `""` |
| MockSystem.ListRunAt | core/mock_system.py:48-54 | the same, one call at a time |
| MockSystem.FixedRunClosedForm | core/mock_system.py:58-65 | the single-value spy returns `str(value)` on every call |
| MockSystem.InputSpy.Call | core/mock_system.py:48-63 | records the prompt, echoes it to the stream, and answers from the list (advancing) or the fixed value |
| MockSystem.MockManager.SetupMocks | core/mock_system.py:74-84 | always installs a fresh print spy with empty recordings; installs an input spy at position 0 on the overload's source iff the test has an overload; the variables are unchanged |
| MockSystem.GetInputDescription | core/mock_system.py:86-89 | `all inputs be <repr>`, which is never empty, for an overload |
| NotebookGrader.ValidateCellCount | core/notebook_grader.py:51-83 | no mismatch iff the number of code cells or of non-blank code cells equals Σ `next_code_cell`; otherwise the record carries the expected and actual counts and the mismatch message |
| NotebookGrader.CodeCellByIndex | core/notebook_grader.py:315-323 | found iff `1 <= target <= number of non-blank code cells`, and it is the `target`-th of them; otherwise `IndexError("Code cell number … not found.")` |
| NotebookGrader.CodeCellByIndexIsGradable | core/notebook_grader.py:318-322 | the cell found is a non-blank code cell of the notebook |
| NotebookGrader.SeedVariablesSucceeds | core/notebook_grader.py:210-223 | building the namespace succeeds iff every configured value converts |
| NotebookGrader.SeedVariablesBindsLast | core/notebook_grader.py:216-221 | after seeding, exactly the configured names are bound, each to the conversion of its last configured value |
| NotebookGrader.SeedVariablesErrSticks | core/notebook_grader.py:216-217 | the first conversion error aborts the seeding with that error |
| NotebookGrader.AssembledCodeInput | core/notebook_grader.py:237-243 | a test with variables and no input overload runs code with no `input(`; any other test runs the prefixed code unchanged |
| NotebookGrader.StudentLinesShape | core/notebook_grader.py:229-231 | the student lines that run are non-blank and contain no line boundary |
| NotebookGrader.AssembledLines | core/notebook_grader.py:229-279 | when no prefix line holds a line break and at least one student line remains after the offset, the assembled code's lines are the problem's prefix lines, then the test's, then the non-blank student lines |
| NotebookGrader.DescriptionFailsWithSeeding | core/notebook_grader.py:281-302 | the input description fails iff building the namespace fails, with the same exception; otherwise it has one item per variable |
| NotebookGrader.DescribeOneVariable | core/notebook_grader.py:287-289 | a plain variable is described as `name=value` |
| NotebookGrader.DescriptionListsVariablesThenInputs | core/notebook_grader.py:281-302 | with one variable and an overload the description is `name=value, all inputs be <repr>` |
| NotebookGrader.RaisedOutcome | core/notebook_grader.py:185-198 | when the run raises, a `SystemExit`, `KeyboardInterrupt` or `GeneratorExit` escapes the test; any other exception fails it with the timeout message for `__DEADLOOP__` and otherwise `Test i error (<type>) on input (<inputs>): <message>` |
| NotebookGrader.BadTemplatePropagates | core/notebook_grader.py:200-208 | a format template whose pattern raises (such as `"{"` or a name used twice) is not an `AssertionError`, so the whole grading raises that exception |
| NotebookGrader.PrintsIgnoreInputs | core/mock_system.py:20-33 | `input` calls add no print message: the printed messages are the same with every `input` call removed |
| NotebookGrader.PromptsNeverCompared | core/test_runner.py:33-37 | once anything was printed, the compared text is the same with every `input` call removed from the run, so echoed prompts are never compared |
| NotebookGrader.BlockedTestNeverExecuted | core/notebook_grader.py:176-182 | a test whose code the gate rejects fails with its outcome independent of the executor: the code is never run |
| NotebookGrader.UnknownTestTypePropagates | core/notebook_grader.py:200-208 | a validator exception other than `AssertionError` escapes the test: an unknown test type makes grading raise `ValueError` |
| NotebookGrader.WordAt | core/notebook_grader.py:140-143 | a lowercase word spelled out in a message is found by the case-insensitive classification |
| NotebookGrader.BlockedMessageIsSafety | core/notebook_grader.py:140-141 | every blocked message is counted as a safety violation |
| NotebookGrader.TimeoutMessageMentionsTimeout | core/notebook_grader.py:188-192 | every timeout message mentions `timeout` |
| NotebookGrader.FailedMessageCanCountAsSafety | core/notebook_grader.py:140-141 | classification reads text: a validation failure whose message mentions "blocked" counts as a safety violation |
| NotebookGrader.RecordFacts | core/notebook_grader.py:136-146 | one more test adds exactly one pass or one failure, raises the violation counters by at most the failures added, and records its entry |
| NotebookGrader.RecordTest | core/notebook_grader.py:136-146 | the counters after one test are those of the tally step |
| NotebookGrader.TallyErrSticks | core/notebook_grader.py:131-134 | an exception raised by a test ends the tally with that exception |
| NotebookGrader.TallyTestsNext | core/notebook_grader.py:131-146 | running the next test either raises for the whole problem or extends the tally by that test's record |
| NotebookGrader.TestKeyInjective | core/notebook_grader.py:145 | distinct tests of one problem get distinct keys `prob{p}_test{j}` |
| NotebookGrader.TallyCounts | core/notebook_grader.py:131-143 | after n tests, passes plus failures equal n and the two violation counts together are at most the failures |
| NotebookGrader.TallyKeys | core/notebook_grader.py:145-146 | every key in the result map is the key of one of the tests run |
| NotebookGrader.EntriesRecordedNext | core/notebook_grader.py:145-146 | recording a test keeps the entries of the earlier tests |
| NotebookGrader.TallyEntries | core/notebook_grader.py:131-146 | after n tests the result map holds, under each test's key, `(1 or 0, message)` of that test's outcome |
| NotebookGrader.ScoreBounds | core/notebook_grader.py:148 | with non-negative points the score lies in `[0, pts]`, equals `pts` when all tests pass and 0 when none do |
| NotebookGrader.ProblemGradeFacts | core/notebook_grader.py:107-158 | a problem without `tests` raises `KeyError`; a graded problem has `passed <= total = len(tests)`, violations bounded by failures, score `passed/total*pts`, maximum `pts`; a missing cell gives no passes, score 0 and the one "not found" message |
| NotebookGrader.GradeProblemsErrSticks | core/notebook_grader.py:93-103 | an exception in one problem ends the grading with it |
| NotebookGrader.GradeProblemsMissingCell | core/notebook_grader.py:94 | a problem without `next_code_cell` makes the grading raise `KeyError`, though the cell count treated it as 0 |
| NotebookGrader.GradeProblemsNext | core/notebook_grader.py:94-103 | a problem's exception ends the run; its result extends the totals |
| NotebookGrader.MissingCellAdvanceRaises | core/notebook_grader.py:94 | `KeyError` for a missing `next_code_cell`, on the notebook's own grader |
| NotebookGrader.GraderStep | core/notebook_grader.py:94-103 | the step of the run over problems, on the notebook's own grader |
| NotebookGrader.GradeProblemsSums | core/notebook_grader.py:85-105 | for any problem grader that keeps cells and points: one result per problem, problem i graded on the cell at the prefix sum of `next_code_cell`, total score the sum of scores, maximum the sum of `pts` |
| NotebookGrader.GradeProblemsTotals | core/notebook_grader.py:85-105 | the same sums for the notebook grader's own problem grading |
| NotebookGrader.NoNotebookExecutesNothing | core/notebook_grader.py:35-49 | without a notebook the report is the sum of `pts` alone, whatever the executor |
| NotebookGrader.GradedNotebookTotals | core/notebook_grader.py:35-105 | a graded notebook has one result per problem, total the sum of the problem scores, maximum the sum of `pts`, and problem i on its prefix-sum cell |
| NotebookGrader.NotebookGrader.GradeNotebook | core/notebook_grader.py:35-44 | returns the report of the grading specification: maximum only, cell mismatch, or the graded problems |
| NotebookGrader.NotebookGrader.GradeAllProblems | core/notebook_grader.py:85-105 | the loop over problems yields the accumulated totals of the specification, or its exception |
| NotebookGrader.NotebookGrader.GradeNextProblem | core/notebook_grader.py:94-103 | grading one problem is one step of the run over problems |
| NotebookGrader.NotebookGrader.GradeSingleProblem | core/notebook_grader.py:107-158 | the loop over tests yields the problem grade of the specification, or its exception |
| NotebookGrader.NotebookGrader.RunNextTest | core/notebook_grader.py:131-146 | running one test is one step of the tally |
| NotebookGrader.NotebookGrader.RunSingleTest | core/notebook_grader.py:160-208 | seed, install spies, assemble, describe, screen, execute, validate: the outcome is that of the test specification; an exception that `except Exception` does not catch (`SystemExit`, `KeyboardInterrupt`, `GeneratorExit`) escapes the test |
| NotebookGrader.NotebookGrader.CreateTestNamespace | core/notebook_grader.py:210-223 | a fresh namespace whose variables are the seeded bindings, or the conversion error |
| NotebookGrader.NotebookGrader.ExecuteCode | core/notebook_grader.py:304-313 | a timeout raises `Exception("__DEADLOOP__")`; a completed run returns the captured output, with the variables, printed messages and prompts the spies record |
| NotebookGrader.NotebookGrader.Replay | core/notebook_grader.py:306-308 | replaying a run's events captures their output, records their prints and prompts, and hands out the input spy's answers in order |
| NotebookGrader.NotebookGrader.GetCodeCellByIndex | core/notebook_grader.py:315-323 | the counting loop returns the cell of the specification, or its `IndexError` |
| Preprocess.ExtractUserIdIsPart | preprocess.py:53-66 | the id is `""` or one of the underscore-separated parts, and never contains `_` |
| Preprocess.FewUnderscoresNoId | preprocess.py:58-59 | a name with fewer than two underscores (fewer than 3 parts) gives `""` |
| Preprocess.UnderscoresSelectPart | preprocess.py:56-66 | with at least two underscores the id is `parts[2]` when there are 4 or more parts and `parts[1]` is `LATE`, else `parts[1]` |
| Preprocess.RegularNameYieldsId | preprocess.py:64-66 | `prefix_id_suffix` yields `id` |
| Preprocess.LateNameYieldsId | preprocess.py:62-63 | `prefix_LATE_id_suffix` yields `id` |
| Preprocess.ThreePartLateYieldsMarker | preprocess.py:58-66 | `prefix_LATE_suffix`, with only 3 parts, yields the marker `LATE` itself |

## Left out

- Running student code (`run_cell`, the `exec` worker, the time limit and `__DEADLOOP__` detection) is the `execute` collaborator. The model states what the notebook grader does with each of its outcomes.
- `sanitize_student_code` is not defined in the repository. It is a collaborator applied to the assembled code.
- The format engine is a collaborator:
  - the template-to-regex conversion and its named groups, or the exception that building or running the pattern raises (modelled as an error result the validator passes on);
  - `float()` parsing of captured text.
- Floating point is modelled as exact reals. Float rendering (`repr` of a float) is approximated by a fixed-point rendering.
- TestRunner.CompareExtracted: a tolerance is a real, so an integer `tol` such as `1` is rendered `1.0` in the failure message, where Python prints `1`.
- String escaping in `repr` is not modelled beyond quoting.
- Case folding (`lower()`) is ASCII-only.
- A notebook cell's source is a string. The list-of-lines form that `_prepare_code` also accepts is not modelled.
- MockSystem.GetInputDescription: returns `""` for a missing overload, where the source implicitly returns `None`. Its only caller passes an overload, so the difference is never observed.
- NotebookGrader.SeedVariables and NotebookGrader.NotebookGrader.CreateTestNamespace: values are immutable, so the model drops aliasing. The source shallow-copies only top-level list values (core/notebook_grader.py:219-220). A dict value that is not a `real`/`imag` pair, and a list nested inside a list, stay shared with the configuration, so student code that mutates one in place changes what later gradings from the same configuration are seeded with. The model seeds every test from the configuration as written.
- The spies replace `print` and `input` inside the namespace. The model replays the run's I/O events through the spies rather than intercepting calls.
- MockSystem.Namespace: keeps the spies and their recordings (`print`, `input`, `prompts_used`, `printed_outputs`) in fields apart from the student's variables. In the source they share the namespace's `__dict__` with the student's globals, so student code that rebinds `printed_outputs` changes the text an output test compares; the model does not capture that.
- `redirect_stdout` is a `Stream` object that the replay writes to.
- Configuration loading (`ConfigManager`) is left out. The configuration is a sequence of `Problem` records:
  - a key the source reads with `.get` or after an `in` test (`pts`, `line_offset`, `prefix_code`) is an `Option` field read the same way;
  - a key read by subscript (`next_code_cell`, `tests`) is an `Option` field too, and its absence raises `KeyError` where the source subscripts it.
- The submission preprocessor's zip extraction, file renaming and `validate_extractions` are file-system I/O and are left out. Only `_extract_user_id` is modelled.
- TestRunner.ValidateExactMatch and TestRunner.CheckVariable: a student's final variables are limited to the modelled values (`None`, `bool`, `int`, `float`, `complex`, `str`, `list`, `dict`). Tuples, sets, numpy arrays and other objects are not represented, so the model cannot show that `(1, 2)` differs from an expected `[1, 2]`, or that comparing a numpy array raises `ValueError` and ends the grading. Never raising anything but `AssertionError` holds only for the modelled values.
- TestRunner.ConvertComplex: accepts only `int`, `float` and `bool` values as the `real` and `imag` parts. Python's `complex()` also accepts complex numbers there, but a configuration value read from TOML is never complex, so that case cannot arise.
- NotebookGrader.EscapesExceptException: recognises the exceptions that escape `except Exception` by the three built-in names. A user-defined subclass of `BaseException` is not modelled.
