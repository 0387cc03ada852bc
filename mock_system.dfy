/**
 * The mock I/O layer installed in a test namespace: a print spy that records each
 * message, and an input spy that records each prompt and answers from a scripted
 * list (then `""` once exhausted) or with one fixed value. Recordings are sequences
 * held by the namespace and appended to in place.
 */
module MockSystem {
  import opened Wrappers
  import opened Text
  import opened Values
  import opened Schema

  /** The redirected standard output of a test run. */
  class Stream {
    var text: string

    constructor()
      ensures text == ""
    {
      text := "";
    }

    method Write(s: string)
      modifies this
      ensures text == old(text) + s
    {
      text := text + s;
    }
  }

  /** Where an input spy takes its answers from. */
  datatype InputSource = FromList(items: seq<Value>) | Fixed(value: Value)

  /** The namespace a test runs in: its variables, the spy recordings and the installed hooks. */
  class Namespace {
    var vars: map<string, Value>
    var promptsUsed: seq<string>
    var printedOutputs: seq<string>
    var printSpy: IOSpy?
    var inputSpy: InputSpy?

    constructor()
      ensures vars == map[] && promptsUsed == [] && printedOutputs == []
      ensures printSpy == null && inputSpy == null
    {
      vars := map[];
      promptsUsed := [];
      printedOutputs := [];
      printSpy := null;
      inputSpy := null;
    }

    /** `setattr(ns, name, v)`. */
    method SetVar(name: string, v: Value)
      modifies this
      ensures vars == old(vars)[name := v]
      ensures promptsUsed == old(promptsUsed) && printedOutputs == old(printedOutputs)
      ensures printSpy == old(printSpy) && inputSpy == old(inputSpy)
    {
      vars := vars[name := v];
    }
  }

  /** The `str()` of each argument of a `print` call. */
  function ArgTexts(args: seq<Value>): (r: seq<string>)
    ensures |r| == |args|
    ensures forall i :: 0 <= i < |args| ==> r[i] == ToStr(args[i])
  {
    seq(|args|, i requires 0 <= i < |args| => ToStr(args[i]))
  }

  /** What `print(*args, sep=sep, end=end)` writes. */
  function Render(args: seq<Value>, sep: string, end: string): string {
    Join(ArgTexts(args), sep) + end
  }

  /** The message the print spy records: the rendering with at most one trailing newline removed. */
  function PrintMessage(args: seq<Value>, sep: string, end: string): (m: string)
    ensures var text := Render(args, sep, end);
            if text != [] && text[|text| - 1] == '\n' then m + "\n" == text else m == text
  {
    var text := Render(args, sep, end);
    if text != [] && text[|text| - 1] == '\n' then text[..|text| - 1] else text
  }

  /**
   * With the default `sep` and `end`, the recorded message is exactly the space-joined
   * arguments, and the copy forwarded to the stream is that message plus a newline.
   */
  lemma DefaultPrintRecordsJoinedArgs(args: seq<Value>)
    ensures PrintMessage(args, " ", "\n") == Join(ArgTexts(args), " ")
    ensures Render(args, " ", "\n") == PrintMessage(args, " ", "\n") + "\n"
  {
    var text := Render(args, " ", "\n");
    assert text[..|text| - 1] == Join(ArgTexts(args), " ");
  }

  /**
   * Only one trailing newline is removed: a message that itself ends in a newline keeps it.
   */
  lemma OneNewlineRemoved(s: string)
    ensures PrintMessage([Str(s + "\n")], " ", "\n") == s + "\n"
  {
    assert ArgTexts([Str(s + "\n")]) == [s + "\n"];
    DefaultPrintRecordsJoinedArgs([Str(s + "\n")]);
  }

  /**
   * The forwarded copy ignores `sep` and `end`: `print(x, end="")` records the bare text
   * but still writes a newline to the stream.
   */
  lemma ForwardedCopyDropsEnd(s: string)
    requires s == [] || s[|s| - 1] != '\n'
    ensures PrintMessage([Str(s)], " ", "") == s
    ensures Render([Str(s)], " ", "\n") == s + "\n"
  {
    assert ArgTexts([Str(s)]) == [s];
  }

  /** The spy object of one test run, bound to its namespace. */
  class IOSpy {
    const ns: Namespace

    /** Binds the namespace and resets both recordings to empty sequences. */
    constructor(ns: Namespace)
      modifies ns
      ensures this.ns == ns
      ensures ns.promptsUsed == [] && ns.printedOutputs == []
      ensures ns.vars == old(ns.vars)
      ensures ns.printSpy == old(ns.printSpy) && ns.inputSpy == old(ns.inputSpy)
    {
      this.ns := ns;
      new;
      ns.promptsUsed := [];
      ns.printedOutputs := [];
    }

    /**
     * `spy_print`: record one message, then forward the positional arguments alone
     * to the stream with the default separator and terminator.
     */
    method Print(args: seq<Value>, sep: string, end: string, stdout: Stream)
      modifies ns, stdout
      ensures ns.printedOutputs == old(ns.printedOutputs) + [PrintMessage(args, sep, end)]
      ensures stdout.text == old(stdout.text) + Render(args, " ", "\n")
      ensures ns.promptsUsed == old(ns.promptsUsed) && ns.vars == old(ns.vars)
      ensures ns.printSpy == old(ns.printSpy) && ns.inputSpy == old(ns.inputSpy)
    {
      var message := PrintMessage(args, sep, end);
      ns.printedOutputs := ns.printedOutputs + [message];
      stdout.Write(Render(args, " ", "\n"));
    }

    /** `create_spy_input`: a list overload gives the sequence spy, anything else the fixed one. */
    method CreateSpyInput(overload: Value) returns (s: InputSpy)
      ensures fresh(s)
      ensures s.spy == this && s.source == SourceOf(overload) && s.consumed == 0
    {
      if overload.List? {
        s := new InputSpy(this, FromList(overload.items));
      } else {
        s := new InputSpy(this, Fixed(overload));
      }
    }
  }

  /** The answer source an input overload selects. */
  function SourceOf(overload: Value): (r: InputSource)
    ensures overload.List? <==> r.FromList?
    ensures r.FromList? ==> r.items == overload.items
    ensures r.Fixed? ==> r.value == overload
  {
    if overload.List? then FromList(overload.items) else Fixed(overload)
  }

  /**
   * One call of an input spy whose list iterator has yielded `consumed` items: the
   * answer and the new iterator position. An exhausted list answers `""` and stays exhausted.
   */
  function Step(source: InputSource, consumed: nat): (string, nat) {
    match source
    case FromList(items) =>
      if consumed < |items| then (ToStr(items[consumed]), consumed + 1) else ("", consumed)
    case Fixed(v) => (ToStr(v), consumed)
  }

  /** The answers of `n` successive calls starting at iterator position `consumed`. */
  function Run(source: InputSource, consumed: nat, n: nat): (answers: seq<string>)
    ensures |answers| == n
    decreases n
  {
    if n == 0 then []
    else
      var (answer, next) := Step(source, consumed);
      [answer] + Run(source, next, n - 1)
  }

  /** The iterator position after `n` successive calls starting at position `consumed`. */
  function Pos(source: InputSource, consumed: nat, n: nat): nat
    decreases n
  {
    if n == 0 then consumed else Pos(source, Step(source, consumed).1, n - 1)
  }

  /** One more call appends the answer given at the position the earlier calls reached. */
  lemma {:induction false} RunSnoc(source: InputSource, consumed: nat, n: nat)
    ensures Run(source, consumed, n + 1) == Run(source, consumed, n) + [Step(source, Pos(source, consumed, n)).0]
    ensures Pos(source, consumed, n + 1) == Step(source, Pos(source, consumed, n)).1
    decreases n
  {
    if n > 0 {
      RunSnoc(source, Step(source, consumed).1, n - 1);
    }
  }

  /** What the list spy answers at iterator position `p`: `str(items[p])`, or `""` once exhausted. */
  function ListAnswer(items: seq<Value>, p: nat): string {
    if p < |items| then ToStr(items[p]) else ""
  }

  /** The list spy's answers: the k-th call returns `str(items[k])`, every later call `""`. */
  lemma {:induction false} ListRunClosedForm(items: seq<Value>, consumed: nat, n: nat)
    ensures forall k :: 0 <= k < n ==> Run(FromList(items), consumed, n)[k] == ListAnswer(items, consumed + k)
  {
    forall k | 0 <= k < n ensures Run(FromList(items), consumed, n)[k] == ListAnswer(items, consumed + k) {
      ListRunAt(items, consumed, n, k);
    }
  }

  /** The `k`-th of `n` calls to the list spy, by induction on `k`. */
  lemma {:induction false} ListRunAt(items: seq<Value>, consumed: nat, n: nat, k: nat)
    requires k < n
    ensures Run(FromList(items), consumed, n)[k] == ListAnswer(items, consumed + k)
    decreases k
  {
    var next := if consumed < |items| then consumed + 1 else consumed;
    assert Step(FromList(items), consumed) == (ListAnswer(items, consumed), next);
    var rest := Run(FromList(items), next, n - 1);
    assert Run(FromList(items), consumed, n) == [ListAnswer(items, consumed)] + rest;
    if k == 0 {
      assert Run(FromList(items), consumed, n)[0] == ListAnswer(items, consumed);
    } else {
      ListRunAt(items, next, n - 1, k - 1);
      assert Run(FromList(items), consumed, n)[k] == rest[k - 1];
      if consumed < |items| {
        assert next + (k - 1) == consumed + k;
      } else {
        assert ListAnswer(items, next + (k - 1)) == "" == ListAnswer(items, consumed + k);
      }
    }
  }

  /** The fixed-value spy returns `str(value)` on every call, however many are made. */
  lemma {:induction false} FixedRunClosedForm(v: Value, consumed: nat, n: nat)
    ensures forall k :: 0 <= k < n ==> Run(Fixed(v), consumed, n)[k] == ToStr(v)
    decreases n
  {
    if n > 0 {
      FixedRunClosedForm(v, consumed, n - 1);
      var r := Run(Fixed(v), consumed, n);
      forall k | 0 < k < n ensures r[k] == ToStr(v) {
        assert r[k] == Run(Fixed(v), consumed, n - 1)[k - 1];
      }
    }
  }

  /** An installed input function: `spy_input_from_list` or `spy_input_single`. */
  class InputSpy {
    const spy: IOSpy
    const source: InputSource
    /** How many items the list iterator has yielded. */
    var consumed: nat

    constructor(spy: IOSpy, source: InputSource)
      ensures this.spy == spy && this.source == source && consumed == 0
    {
      this.spy := spy;
      this.source := source;
      consumed := 0;
    }

    /** One `input(prompt)` call: record the prompt, echo it, answer. */
    method Call(prompt: string, stdout: Stream) returns (answer: string)
      modifies this, spy.ns, stdout
      ensures (answer, consumed) == Step(source, old(consumed))
      ensures spy.ns.promptsUsed == old(spy.ns.promptsUsed) + [prompt]
      ensures spy.ns.printedOutputs == old(spy.ns.printedOutputs) && spy.ns.vars == old(spy.ns.vars)
      ensures spy.ns.printSpy == old(spy.ns.printSpy) && spy.ns.inputSpy == old(spy.ns.inputSpy)
      ensures stdout.text == old(stdout.text) + prompt
    {
      spy.ns.promptsUsed := spy.ns.promptsUsed + [prompt];
      stdout.Write(prompt);
      match source
      case FromList(items) =>
        if consumed < |items| {
          answer := ToStr(items[consumed]);
          consumed := consumed + 1;
        } else {
          answer := "";
        }
      case Fixed(v) =>
        answer := ToStr(v);
    }
  }

  /** Installs the spies of each test run. */
  class MockManager {
    var spy: IOSpy?

    constructor()
      ensures spy == null
    {
      spy := null;
    }

    /**
     * `setup_mocks`: a fresh print spy with empty recordings is always installed; an
     * input spy only when the test has an input overload.
     */
    method SetupMocks(ns: Namespace, test: Test)
      modifies this, ns
      ensures spy != null && fresh(spy) && spy.ns == ns
      ensures ns.printSpy == spy && ns.promptsUsed == [] && ns.printedOutputs == []
      ensures ns.vars == old(ns.vars)
      ensures test.inputOverload.None? ==> ns.inputSpy == old(ns.inputSpy)
      ensures test.inputOverload.Some? ==>
                && ns.inputSpy != null && fresh(ns.inputSpy)
                && ns.inputSpy.spy == spy && ns.inputSpy.consumed == 0
                && ns.inputSpy.source == SourceOf(test.inputOverload.value)
    {
      var s := new IOSpy(ns);
      spy := s;
      ns.printSpy := s;
      if test.inputOverload.Some? {
        var input := s.CreateSpyInput(test.inputOverload.value);
        ns.inputSpy := input;
      }
    }
  }

  /** `get_input_description`. */
  function GetInputDescription(overload: Option<Value>): (r: string)
    ensures overload.None? <==> r == ""
    ensures overload.Some? ==> r == "all inputs be " + Repr(overload.value)
  {
    if overload.Some? then "all inputs be " + Repr(overload.value) else ""
  }
}
