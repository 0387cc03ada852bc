/**
 * The expectation validator and the test runner: whitespace normalisation, variable
 * checks (exact or within a tolerance), and output checks in format, list and
 * single-string modes. A validator either passes, raises `AssertionError` (`Fail`)
 * or raises some other exception (`Error`), which the notebook grader lets propagate.
 */
module TestRunner {
  import opened Wrappers
  import opened Text
  import opened Values
  import opened Schema

  datatype Verdict = Pass | Fail(msg: string) | Error(exc: Exc)

  /**
   * The collaborators of format mode: the regular-expression match of a template
   * against normalised text (its named groups, `None` when it does not match, or the
   * exception that `Formatter().parse`, the pattern compiler or `re.match` raises on
   * a template such as `"{"` or `"{a} = {a}"`), and `float()` on a string (`None`
   * when it raises `ValueError`).
   */
  datatype FormatEngine = FormatEngine(
    matchTemplate: (string, string, bool) -> Result<Option<map<string, string>>, Exc>,
    parseFloat: string -> Option<real>)

  // ---------------------------------------------------------------------------
  // Whitespace normalisation

  /** `' '` is the only whitespace character. */
  ghost predicate PlainSpaces(s: string) {
    forall k :: 0 <= k < |s| && IsSpace(s[k]) ==> s[k] == ' '
  }

  /** No two whitespace characters in a row. */
  ghost predicate NoAdjacentSpaces(s: string) {
    forall j, k :: 0 <= j < k < |s| && k == j + 1 ==> !(IsSpace(s[j]) && IsSpace(s[k]))
  }

  /** No leading or trailing whitespace, `' '` the only whitespace, never two in a row. */
  ghost predicate Normalized(s: string) {
    && (s != [] ==> !IsSpace(s[0]) && !IsSpace(s[|s| - 1]))
    && PlainSpaces(s)
    && NoAdjacentSpaces(s)
  }

  /** `re.sub(r'\s+', ' ', s)`: every maximal run of whitespace becomes one space. */
  function CollapseSpaces(s: string): (r: string)
    ensures r == [] <==> s == []
    ensures r != [] ==> (IsSpace(r[0]) <==> IsSpace(s[0]))
    ensures r != [] ==> (IsSpace(r[|r| - 1]) <==> IsSpace(s[|s| - 1]))
    ensures PlainSpaces(r) && NoAdjacentSpaces(r)
    decreases |s|
  {
    if s == [] then []
    else if IsSpace(s[0]) then
      var rest := TrimStart(s);
      assert |rest| < |s|;
      assert rest != [] ==> rest[|rest| - 1] == s[|s| - 1];
      [' '] + CollapseSpaces(rest)
    else
      [s[0]] + CollapseSpaces(s[1..])
  }

  /** `normalize_whitespace`: strip, then collapse whitespace runs. */
  function NormalizeWhitespace(text: string): (r: string)
    ensures Normalized(r)
  {
    var t := Strip(text);
    assert t == [] || (!IsSpace(t[0]) && !IsSpace(t[|t| - 1]));
    CollapseSpaces(t)
  }

  lemma TailKeepsSpacing(s: string)
    requires s != [] && PlainSpaces(s) && NoAdjacentSpaces(s)
    ensures PlainSpaces(s[1..]) && NoAdjacentSpaces(s[1..])
    ensures |s| > 1 && IsSpace(s[0]) ==> !IsSpace(s[1])
  {
    var t := s[1..];
    forall k | 0 <= k < |t| && IsSpace(t[k]) ensures t[k] == ' ' {
      assert t[k] == s[k + 1];
    }
    forall j, k | 0 <= j < k < |t| && k == j + 1 ensures !(IsSpace(t[j]) && IsSpace(t[k])) {
      assert t[j] == s[j + 1] && t[k] == s[k + 1];
    }
  }

  lemma {:induction false} CollapseFixesNormalized(s: string)
    requires PlainSpaces(s) && NoAdjacentSpaces(s)
    ensures CollapseSpaces(s) == s
    decreases |s|
  {
    if s != [] {
      var t := s[1..];
      TailKeepsSpacing(s);
      CollapseFixesNormalized(t);
      if IsSpace(s[0]) {
        assert TrimStart(t) == t;
        assert TrimStart(s) == t;
        assert s == [' '] + t;
      } else {
        assert s == [s[0]] + t;
      }
    }
  }

  /** Normalising an already normalised string returns it unchanged. */
  lemma NormalizedIsFixpoint(s: string)
    requires Normalized(s)
    ensures NormalizeWhitespace(s) == s
  {
    assert TrimStart(s) == s;
    assert TrimEnd(s) == s;
    CollapseFixesNormalized(s);
  }

  /** `normalize_whitespace` is idempotent. */
  lemma NormalizeIdempotent(s: string)
    ensures NormalizeWhitespace(NormalizeWhitespace(s)) == NormalizeWhitespace(s)
  {
    NormalizedIsFixpoint(NormalizeWhitespace(s));
  }

  predicate IsVisible(c: char) {
    !IsSpace(c)
  }

  /** The collapse keeps every non-whitespace character, in order. */
  lemma {:induction false} CollapseKeepsVisible(s: string)
    ensures Filter(IsVisible, CollapseSpaces(s)) == Filter(IsVisible, s)
    decreases |s|
  {
    if s != [] {
      if IsSpace(s[0]) {
        var rest := TrimStart(s);
        TrimStartIsSuffix(s);
        var run := s[..|s| - |rest|];
        assert s == run + rest;
        FilterConcat(IsVisible, run, rest);
        FilterNone(IsVisible, run);
        CollapseKeepsVisible(rest);
        FilterConcat(IsVisible, [' '], CollapseSpaces(rest));
        FilterNone(IsVisible, [' ']);
      } else {
        assert s == [s[0]] + s[1..];
        FilterConcat(IsVisible, [s[0]], s[1..]);
        CollapseKeepsVisible(s[1..]);
        FilterConcat(IsVisible, [s[0]], CollapseSpaces(s[1..]));
        assert [s[0]][..0] == [];
      }
    }
  }

  /** `lstrip()` removes only whitespace. */
  lemma TrimStartKeepsVisible(s: string)
    ensures Filter(IsVisible, TrimStart(s)) == Filter(IsVisible, s)
  {
    var u := TrimStart(s);
    TrimStartIsSuffix(s);
    var lead := s[..|s| - |u|];
    assert s == lead + u;
    FilterConcat(IsVisible, lead, u);
    FilterNone(IsVisible, lead);
  }

  /** `rstrip()` removes only whitespace. */
  lemma TrimEndKeepsVisible(s: string)
    ensures Filter(IsVisible, TrimEnd(s)) == Filter(IsVisible, s)
  {
    var v := TrimEnd(s);
    TrimEndIsPrefix(s);
    var trail := s[|v|..];
    assert s == v + trail;
    FilterConcat(IsVisible, v, trail);
    FilterNone(IsVisible, trail);
  }

  /** `strip()` removes only whitespace. */
  lemma StripKeepsVisible(s: string)
    ensures Filter(IsVisible, Strip(s)) == Filter(IsVisible, s)
  {
    TrimStartKeepsVisible(s);
    TrimEndKeepsVisible(TrimStart(s));
  }

  /** Normalisation drops only whitespace: the non-whitespace characters survive, in order. */
  lemma NormalizeKeepsVisible(text: string)
    ensures Filter(IsVisible, NormalizeWhitespace(text)) == Filter(IsVisible, text)
  {
    StripKeepsVisible(text);
    CollapseKeepsVisible(Strip(text));
  }

  /** A string ending in non-whitespace collapses independently of what follows it. */
  lemma {:induction false} CollapseAppend(a: string, t: string)
    requires a != [] && !IsSpace(a[|a| - 1])
    ensures CollapseSpaces(a + t) == CollapseSpaces(a) + CollapseSpaces(t)
    decreases |a|, 1
  {
    if IsSpace(a[0]) {
      CollapseAppendAfterRun(a, t);
    } else {
      CollapseAppendAfterChar(a, t);
    }
  }

  lemma {:induction false} CollapseAppendAfterRun(a: string, t: string)
    requires a != [] && !IsSpace(a[|a| - 1]) && IsSpace(a[0])
    ensures CollapseSpaces(a + t) == CollapseSpaces(a) + CollapseSpaces(t)
    decreases |a|, 0
  {
    var rest := TrimStart(a);
    CollapseRunAppend(a, t);
    CollapseAppend(rest, t);
    CollapseRunStep(a);
    ConsAssoc(' ', CollapseSpaces(rest), CollapseSpaces(t));
  }

  lemma ConsAssoc(c: char, x: string, y: string)
    ensures [c] + (x + y) == ([c] + x) + y
  {
  }

  /** The leading run of `a + t` is that of `a`, which is followed by a non-empty rest. */
  lemma CollapseRunAppend(a: string, t: string)
    requires a != [] && !IsSpace(a[|a| - 1]) && IsSpace(a[0])
    ensures TrimStart(a) != [] && !IsSpace(TrimStart(a)[|TrimStart(a)| - 1]) && |TrimStart(a)| < |a|
    ensures CollapseSpaces(a + t) == [' '] + CollapseSpaces(TrimStart(a) + t)
  {
    assert (a + t)[0] == a[0];
    CollapseRunStep(a + t);
    TrimStartAppend(a, t);
  }

  lemma {:induction false} CollapseAppendAfterChar(a: string, t: string)
    requires a != [] && !IsSpace(a[|a| - 1]) && !IsSpace(a[0])
    ensures CollapseSpaces(a + t) == CollapseSpaces(a) + CollapseSpaces(t)
    decreases |a|, 0
  {
    var tail := a[1..];
    calc {
      CollapseSpaces(a + t);
      { assert (a + t)[0] == a[0] && (a + t)[1..] == tail + t; CollapseCharStep(a + t); }
      [a[0]] + CollapseSpaces(tail + t);
      { if tail == [] { assert tail + t == t; } else { CollapseAppend(tail, t); } }
      [a[0]] + (CollapseSpaces(tail) + CollapseSpaces(t));
      { CollapseCharStep(a); }
      CollapseSpaces(a) + CollapseSpaces(t);
    }
  }

  /** One step of the collapse at a leading whitespace run. */
  lemma CollapseRunStep(s: string)
    requires s != [] && IsSpace(s[0])
    ensures CollapseSpaces(s) == [' '] + CollapseSpaces(TrimStart(s))
  {
  }

  /** One step of the collapse at a leading non-whitespace character. */
  lemma CollapseCharStep(s: string)
    requires s != [] && !IsSpace(s[0])
    ensures CollapseSpaces(s) == [s[0]] + CollapseSpaces(s[1..])
  {
  }

  /** A whitespace run before non-whitespace collapses to one space. */
  lemma CollapseSpaceRun(w: string, b: string)
    requires w != [] && forall i :: 0 <= i < |w| ==> IsSpace(w[i])
    requires b == [] || !IsSpace(b[0])
    ensures CollapseSpaces(w + b) == [' '] + CollapseSpaces(b)
  {
    TrimStartSpaces(w, b);
    assert (w + b)[0] == w[0];
  }

  /**
   * Each whitespace run between non-whitespace text becomes exactly one space:
   * with `a` and `b` already stripped and `w` all whitespace, `a + w + b` normalises
   * to the normalisations of `a` and `b` joined by a single `' '`.
   */
  lemma NormalizeJoinsWithOneSpace(a: string, w: string, b: string)
    requires a != [] && Strip(a) == a && b != [] && Strip(b) == b
    requires w != [] && forall i :: 0 <= i < |w| ==> IsSpace(w[i])
    ensures NormalizeWhitespace(a + w + b) == NormalizeWhitespace(a) + " " + NormalizeWhitespace(b)
  {
    StrippedEnds(a);
    StrippedEnds(b);
    var s := a + (w + b);
    assert a + w + b == s;
    assert s[0] == a[0] && s[|s| - 1] == b[|b| - 1];
    StripFixes(s);
    NormalizeOfStripped(s);
    NormalizeOfStripped(a);
    NormalizeOfStripped(b);
    CollapseAppend(a, w + b);
    CollapseSpaceRun(w, b);
    var ca, cb := CollapseSpaces(a), CollapseSpaces(b);
    assert ca + ([' '] + cb) == ca + " " + cb;
  }

  /** On a string that `strip()` leaves alone, normalising is collapsing. */
  lemma NormalizeOfStripped(s: string)
    requires Strip(s) == s
    ensures NormalizeWhitespace(s) == CollapseSpaces(s)
  {
  }

  // ---------------------------------------------------------------------------
  // Variable tests

  /** A dict that carries both `real` and `imag` keys. */
  predicate IsComplexDict(v: Value) {
    v.Dict? && Lookup(v.entries, "real").Some? && Lookup(v.entries, "imag").Some?
  }

  /** `_convert_complex_if_needed`: `complex(d['real'], d['imag'])`, which raises on non-numbers. */
  function ConvertComplex(v: Value): (r: Result<Value, Exc>)
    ensures !IsComplexDict(v) ==> r == Ok(v)
    ensures IsComplexDict(v) ==>
              var re := Lookup(v.entries, "real").value;
              var im := Lookup(v.entries, "imag").value;
              if IsRealNumber(re) && IsRealNumber(im) then r == Ok(Complex(RealPart(re), RealPart(im)))
              else r.Err? && r.error.typeName == "TypeError"
  {
    if !IsComplexDict(v) then Ok(v)
    else
      var re := Lookup(v.entries, "real").value;
      var im := Lookup(v.entries, "imag").value;
      if re.Str? then Err(Exc("TypeError", "complex() can't take second arg if first is a string"))
      else if im.Str? then Err(Exc("TypeError", "complex() second arg can't be a string"))
      else if !IsRealNumber(re) then
        Err(Exc("TypeError", "complex() first argument must be a string or a number, not '" + TypeName(re) + "'"))
      else if !IsRealNumber(im) then
        Err(Exc("TypeError", "complex() second argument must be a number, not '" + TypeName(im) + "'"))
      else Ok(Complex(RealPart(re), RealPart(im)))
  }

  function Abs(x: real): real {
    if x < 0.0 then -x else x
  }

  /**
   * `abs(d) <= tol` for the difference `d = dre + dim*j`. A difference with no imaginary
   * part is compared through its absolute value, a complex one through its squared magnitude.
   */
  predicate DiffWithinTol(dre: real, dim: real, tol: real) {
    if dim == 0.0 then Abs(dre) <= tol else 0.0 <= tol && dre * dre + dim * dim <= tol * tol
  }

  /** `abs(actual - expected) <= tol` on two numbers. */
  predicate WithinTol(actual: Value, expected: Value, tol: real)
    requires IsNumeric(actual) && IsNumeric(expected)
  {
    DiffWithinTol(RealPart(actual) - RealPart(expected), ImagPart(actual) - ImagPart(expected), tol)
  }

  /**
   * Both branches of `DiffWithinTol` decide the same thing: the magnitude
   * `sqrt(dre^2 + dim^2)` of the difference is at most `tol`.
   */
  lemma DiffWithinTolIsMagnitudeBound(dre: real, dim: real, tol: real)
    ensures DiffWithinTol(dre, dim, tol) <==> 0.0 <= tol && dre * dre + dim * dim <= tol * tol
  {
    if dim == 0.0 {
      var a := Abs(dre);
      assert dre * dre == a * a;
      assert dim * dim == 0.0;
      if a <= tol {
        SquareMonotone(a, tol);
      } else if 0.0 <= tol {
        SquareStrictlyMonotone(tol, a);
      }
    }
  }

  lemma SquareMonotone(x: real, y: real)
    requires 0.0 <= x <= y
    ensures x * x <= y * y
  {
    assert x * x <= x * y;
    assert x * y <= y * y;
  }

  lemma SquareStrictlyMonotone(x: real, y: real)
    requires 0.0 <= x < y
    ensures x * x < y * y
  {
    var d := y - x;
    assert y * y == (x + d) * (x + d);
    assert (x + d) * (x + d) == x * x + 2.0 * x * d + d * d;
    assert d * d > 0.0;
    assert x * d >= 0.0;
  }

  /** `_validate_with_tolerance`. */
  function ValidateWithTolerance(name: string, expected: Value, actual: Value, tol: real): (r: Verdict)
    ensures r.Pass? <==> IsNumeric(actual) && IsNumeric(expected) && WithinTol(actual, expected, tol)
    ensures !r.Error?
  {
    if !(IsNumeric(actual) && IsNumeric(expected)) then
      Fail("test for " + name + " expected " + ToStr(expected) + ", got " + ToStr(actual)
           + " (non-numeric, cannot use tol)")
    else if !WithinTol(actual, expected, tol) then
      Fail("test for " + name + " expected " + ToStr(expected) + " (tol=" + FloatRepr(tol) + "), got "
           + ToStr(actual))
    else Pass
  }

  /** The boundary `|actual - expected| == tol` passes; anything beyond it fails. */
  lemma ToleranceBoundary(name: string, e: real, tol: real, eps: real)
    requires 0.0 <= tol && 0.0 < eps
    ensures ValidateWithTolerance(name, Float(e), Float(e + tol), tol).Pass?
    ensures ValidateWithTolerance(name, Float(e), Float(e - tol), tol).Pass?
    ensures ValidateWithTolerance(name, Float(e), Float(e + tol + eps), tol).Fail?
  {
  }

  /** `_validate_exact_match`: `actual != expected` fails. */
  function ValidateExactMatch(name: string, expected: Value, actual: Value): (r: Verdict)
    ensures r.Pass? <==> PyEq(actual, expected)
    ensures !r.Error?
  {
    if !PyEq(actual, expected) then
      Fail("test for " + name + " expected " + ToStr(expected) + ", got " + ToStr(actual))
    else Pass
  }

  /** `getattr(test_ns, name, None)`. */
  function ActualValue(vars: map<string, Value>, name: string): Value {
    if name in vars then vars[name] else PyNone
  }

  /** One expected variable: convert, read (missing is `None`), compare. */
  function CheckVariable(name: string, raw: Value, vars: map<string, Value>, tol: Option<real>): (r: Verdict)
    ensures ConvertComplex(raw).Err? ==> r == Error(ConvertComplex(raw).error)
    ensures ConvertComplex(raw).Ok? ==>
              var expected := ConvertComplex(raw).value;
              var actual := ActualValue(vars, name);
              !r.Error?
              && (tol.Some? ==> (r.Pass? <==> IsNumeric(actual) && IsNumeric(expected)
                                               && WithinTol(actual, expected, tol.value)))
              && (tol.None? ==> (r.Pass? <==> PyEq(actual, expected)))
  {
    match ConvertComplex(raw)
    case Err(e) => Error(e)
    case Ok(expected) =>
      var actual := ActualValue(vars, name);
      if tol.Some? then ValidateWithTolerance(name, expected, actual, tol.value)
      else ValidateExactMatch(name, expected, actual)
  }

  /** The verdict of the first element whose check does not pass, or `Pass`: a loop with early return. */
  function FirstFailure<T>(check: T -> Verdict, xs: seq<T>): Verdict {
    if xs == [] then Pass
    else
      var v := check(xs[0]);
      if v.Pass? then FirstFailure(check, xs[1..]) else v
  }

  /** The scan passes exactly when every check passes, and otherwise yields the first verdict that does not. */
  lemma {:induction false} FirstFailureSpec<T>(check: T -> Verdict, xs: seq<T>)
    ensures FirstFailure(check, xs).Pass? <==> forall k :: 0 <= k < |xs| ==> check(xs[k]).Pass?
    ensures !FirstFailure(check, xs).Pass? ==>
              exists k :: 0 <= k < |xs| && FirstFailure(check, xs) == check(xs[k])
                && forall j :: 0 <= j < k ==> check(xs[j]).Pass?
  {
    if xs != [] {
      FirstFailureSpec(check, xs[1..]);
      if check(xs[0]).Pass? {
        if !FirstFailure(check, xs).Pass? {
          var k :| 0 <= k < |xs[1..]| && FirstFailure(check, xs[1..]) == check(xs[1..][k])
                   && forall j :: 0 <= j < k ==> check(xs[1..][j]).Pass?;
          assert xs[k + 1] == xs[1..][k];
          forall j | 0 <= j < k + 1 ensures check(xs[j]).Pass? {
            if j > 0 { assert xs[j] == xs[1..][j - 1]; }
          }
        }
        forall k | 1 <= k < |xs| ensures xs[k] == xs[1..][k - 1] { }
      }
    }
  }

  /** The loop over `test["expected"].items()`, stopping at the first failure. */
  function CheckVariables(entries: seq<(string, Value)>, vars: map<string, Value>, tol: Option<real>): Verdict {
    FirstFailure((e: (string, Value)) => CheckVariable(e.0, e.1, vars, tol), entries)
  }

  /**
   * The variable check passes exactly when every expected variable passes; otherwise
   * its verdict is that of the first expected variable that does not.
   */
  lemma CheckVariablesFirstFailure(entries: seq<(string, Value)>, vars: map<string, Value>, tol: Option<real>)
    ensures CheckVariables(entries, vars, tol).Pass? <==>
              forall k :: 0 <= k < |entries| ==> CheckVariable(entries[k].0, entries[k].1, vars, tol).Pass?
    ensures !CheckVariables(entries, vars, tol).Pass? ==>
              exists k :: 0 <= k < |entries|
                && CheckVariables(entries, vars, tol) == CheckVariable(entries[k].0, entries[k].1, vars, tol)
                && forall j :: 0 <= j < k ==> CheckVariable(entries[j].0, entries[j].1, vars, tol).Pass?
  {
    FirstFailureSpec((e: (string, Value)) => CheckVariable(e.0, e.1, vars, tol), entries);
  }

  /** `validate_variable_test`. */
  function ValidateVariableTest(test: Test, vars: map<string, Value>): Verdict {
    match test.expected
    case None => Error(Exc("KeyError", "'expected'"))
    case Some(Dict(entries)) => CheckVariables(entries, vars, test.tol)
    case Some(v) => Error(Exc("AttributeError", "'" + TypeName(v) + "' object has no attribute 'items'"))
  }

  // ---------------------------------------------------------------------------
  // Output tests

  /** The text an output test compares: the recorded print messages, else the raw stream. */
  function OutputText(printed: seq<string>, cellOutput: string): string {
    if printed != [] then Join(printed, "\n") else cellOutput
  }

  function CaseHint(caseSensitive: bool): string {
    if caseSensitive then "(case-sensitive)" else "(case-insensitive)"
  }

  /** Case folding applied unless the comparison is case-sensitive. */
  function Fold(s: string, caseSensitive: bool): string {
    if caseSensitive then s else Lower(s)
  }

  /** `normalize_whitespace` applied to a configured value: only a string has `strip()`. */
  function NormalizeValue(v: Value): Result<string, Exc> {
    if v.Str? then Ok(NormalizeWhitespace(v.s))
    else Err(Exc("AttributeError", "'" + TypeName(v) + "' object has no attribute 'strip'"))
  }

  /** One text comparison of the single-string and list modes. */
  function CompareText(expected: Value, actual: string, caseSensitive: bool): (r: Verdict)
    ensures !expected.Str? ==> r.Error?
    ensures expected.Str? ==>
              (r.Pass? <==> Fold(NormalizeWhitespace(actual), caseSensitive)
                            == Fold(NormalizeWhitespace(expected.s), caseSensitive))
              && !r.Error?
  {
    var normalizedActual := NormalizeWhitespace(actual);
    match NormalizeValue(expected)
    case Err(e) => Error(e)
    case Ok(normalizedExpected) =>
      if Fold(normalizedActual, caseSensitive) == Fold(normalizedExpected, caseSensitive) then Pass
      else Fail("test for output expected " + ToStr(expected) + ", got " + actual + " " + CaseHint(caseSensitive))
  }

  /** `_validate_string_output`. */
  function ValidateStringOutput(expected: Value, output: string, caseSensitive: bool): Verdict {
    CompareText(expected, output, caseSensitive)
  }

  /** The verdict of a single-string comparison is symmetric in expected and actual text. */
  lemma StringOutputSymmetric(expected: string, actual: string, caseSensitive: bool)
    ensures ValidateStringOutput(Str(expected), actual, caseSensitive).Pass?
            <==> ValidateStringOutput(Str(actual), expected, caseSensitive).Pass?
  {
  }

  /** A case-insensitive comparison accepts whatever the case-sensitive one accepts. */
  lemma CaseInsensitiveIsWeaker(expected: string, actual: string)
    ensures ValidateStringOutput(Str(expected), actual, true).Pass?
            ==> ValidateStringOutput(Str(expected), actual, false).Pass?
  {
  }

  /** `_validate_list_output`: the `zip` loop over expected strings and actual segments. */
  function ZipCompare(expected: seq<Value>, actual: seq<string>, caseSensitive: bool): Verdict {
    if expected == [] || actual == [] then Pass
    else
      var v := CompareText(expected[0], actual[0], caseSensitive);
      if v.Pass? then ZipCompare(expected[1..], actual[1..], caseSensitive) else v
  }

  /** `_validate_list_output` on the output text, which is always a string and so wrapped. */
  function ValidateListOutput(expected: seq<Value>, output: string, caseSensitive: bool): Verdict {
    ZipCompare(expected, [output], caseSensitive)
  }

  /**
   * Because the output is wrapped in a one-element list, `zip` checks only the first
   * expected entry: list mode is single-string mode on `expected[0]`, and an empty
   * expected list always passes.
   */
  lemma ListOutputChecksOnlyFirst(expected: seq<Value>, output: string, caseSensitive: bool)
    ensures expected == [] ==> ValidateListOutput(expected, output, caseSensitive) == Pass
    ensures expected != [] ==>
              ValidateListOutput(expected, output, caseSensitive)
              == ValidateStringOutput(expected[0], output, caseSensitive)
  {
    if expected != [] {
      var v := CompareText(expected[0], output, caseSensitive);
      assert [output][1..] == [];
      if v.Pass? {
        assert ZipCompare(expected[1..], [], caseSensitive) == Pass;
      }
    }
  }

  /** `float(v)` on a configured value: `None` where Python raises `ValueError` or `TypeError`. */
  function FloatOf(v: Value, parseFloat: string -> Option<real>): Option<real> {
    match v
    case Bool(b) => Some(if b then 1.0 else 0.0)
    case Int(i) => Some(i as real)
    case Float(r) => Some(r)
    case Str(s) => parseFloat(s)
    case _ => None
  }

  /** `_compare_extracted_values`: numerically when both sides parse, else as strings. */
  function CompareExtracted(name: string, expected: Value, actual: string, tol: Option<real>,
                            parseFloat: string -> Option<real>): (r: Verdict)
    ensures !r.Error?
    ensures FloatOf(expected, parseFloat).Some? && parseFloat(actual).Some? ==>
              var e := FloatOf(expected, parseFloat).value;
              var a := parseFloat(actual).value;
              (r.Pass? <==> if tol.Some? then Abs(a - e) <= tol.value else a == e)
    ensures !(FloatOf(expected, parseFloat).Some? && parseFloat(actual).Some?) ==>
              (r.Pass? <==> actual == ToStr(expected))
  {
    var expectedNum := FloatOf(expected, parseFloat);
    var actualNum := parseFloat(actual);
    if expectedNum.Some? && actualNum.Some? then
      var e, a := expectedNum.value, actualNum.value;
      if tol.Some? then
        if Abs(a - e) > tol.value then
          Fail(name + ": expected " + FloatRepr(e) + " (tol=" + FloatRepr(tol.value) + "), got " + FloatRepr(a))
        else Pass
      else if a != e then Fail(name + ": expected " + FloatRepr(e) + ", got " + FloatRepr(a))
      else Pass
    else if actual != ToStr(expected) then
      Fail(name + ": expected '" + ToStr(expected) + "', got '" + actual + "'")
    else Pass
  }

  /** One requested variable of format mode: it must be a group of the match, then compare. */
  function CheckGroup(name: string, expected: Value, groups: map<string, string>, tol: Option<real>,
                      parseFloat: string -> Option<real>): Verdict {
    if name !in groups then Fail("Variable " + name + " not found in output.")
    else CompareExtracted(name, expected, groups[name], tol, parseFloat)
  }

  /** The loop over the expected variables of format mode, stopping at the first failure. */
  function CheckGroups(entries: seq<(string, Value)>, groups: map<string, string>, tol: Option<real>,
                       parseFloat: string -> Option<real>): Verdict {
    FirstFailure((e: (string, Value)) => CheckGroup(e.0, e.1, groups, tol, parseFloat), entries)
  }

  /** Format mode passes exactly when every requested variable was captured and compares equal. */
  lemma CheckGroupsPassIff(entries: seq<(string, Value)>, groups: map<string, string>,
                           tol: Option<real>, parseFloat: string -> Option<real>)
    ensures CheckGroups(entries, groups, tol, parseFloat).Pass? <==>
              forall k :: 0 <= k < |entries| ==>
                entries[k].0 in groups
                && CompareExtracted(entries[k].0, entries[k].1, groups[entries[k].0], tol, parseFloat).Pass?
    ensures !CheckGroups(entries, groups, tol, parseFloat).Error?
  {
    var check := (e: (string, Value)) => CheckGroup(e.0, e.1, groups, tol, parseFloat);
    FirstFailureSpec(check, entries);
    if !CheckGroups(entries, groups, tol, parseFloat).Pass? {
      var k :| 0 <= k < |entries| && CheckGroups(entries, groups, tol, parseFloat) == check(entries[k]);
      assert check(entries[k]) == CheckGroup(entries[k].0, entries[k].1, groups, tol, parseFloat);
    }
  }

  /** `_validate_format_output`. */
  function ValidateFormatOutput(engine: FormatEngine, format: string, expected: Option<Value>, tol: Option<real>,
                                output: string, caseSensitive: bool): Verdict {
    match engine.matchTemplate(format, NormalizeWhitespace(output), caseSensitive)
    case Err(e) => Error(e)
    case Ok(None) =>
      Fail("Output did not match expected format.\nExpected format " + CaseHint(caseSensitive) + ": " + format
           + "\nActual: " + output)
    case Ok(Some(groups)) =>
      match expected
      case None => Pass
      case Some(Dict(entries)) => CheckGroups(entries, groups, tol, engine.parseFloat)
      case Some(v) => Error(Exc("AttributeError", "'" + TypeName(v) + "' object has no attribute 'items'"))
  }

  /**
   * Format mode raises something other than `AssertionError` exactly when building or
   * running the template's pattern raises, or the template matched and `expected` is
   * not a dict; a raising template raises that same exception.
   */
  lemma FormatOutputErrors(engine: FormatEngine, format: string, expected: Option<Value>, tol: Option<real>,
                           output: string, caseSensitive: bool)
    ensures var m := engine.matchTemplate(format, NormalizeWhitespace(output), caseSensitive);
            ValidateFormatOutput(engine, format, expected, tol, output, caseSensitive).Error?
            <==> m.Err? || (m.value.Some? && expected.Some? && !expected.value.Dict?)
    ensures var m := engine.matchTemplate(format, NormalizeWhitespace(output), caseSensitive);
            m.Err? ==> ValidateFormatOutput(engine, format, expected, tol, output, caseSensitive) == Error(m.error)
  {
    var m := engine.matchTemplate(format, NormalizeWhitespace(output), caseSensitive);
    if m.Ok? && m.value.Some? && expected.Some? && expected.value.Dict? {
      CheckGroupsPassIff(expected.value.entries, m.value.value, tol, engine.parseFloat);
    }
  }

  /** `validate_output_test`: pick the compared text, then the mode by the keys present. */
  function ValidateOutputTest(engine: FormatEngine, test: Test, printed: seq<string>, cellOutput: string): Verdict {
    var output := OutputText(printed, cellOutput);
    var caseSensitive := test.caseSensitive;
    if test.format.Some? then
      ValidateFormatOutput(engine, test.format.value, test.expected, test.tol, output, caseSensitive)
    else
      match test.expected
      case None => Error(Exc("KeyError", "'expected'"))
      case Some(List(items)) => ValidateListOutput(items, output, caseSensitive)
      case Some(e) => ValidateStringOutput(e, output, caseSensitive)
  }

  /**
   * Without a format, an expected list of one entry is checked as that entry alone:
   * list mode and single-string mode give the same verdict.
   */
  lemma SingletonListIsStringMode(engine: FormatEngine, test: Test, e: Value, printed: seq<string>,
                                  cellOutput: string)
    requires test.format.None? && test.expected == Some(List([e])) && !e.List?
    ensures ValidateOutputTest(engine, test, printed, cellOutput)
            == ValidateOutputTest(engine, test.(expected := Some(e)), printed, cellOutput)
  {
    ListOutputChecksOnlyFirst([e], OutputText(printed, cellOutput), test.caseSensitive);
  }

  /** `TestRunner.run_test`: dispatch on the test type; an unknown type raises `ValueError`. */
  function RunTest(engine: FormatEngine, test: Test, vars: map<string, Value>, printed: seq<string>,
                   cellOutput: string): (r: Verdict)
    ensures test.kind == "variable" ==> r == ValidateVariableTest(test, vars)
    ensures test.kind == "output" ==> r == ValidateOutputTest(engine, test, printed, cellOutput)
    ensures test.kind != "variable" && test.kind != "output" ==>
              r == Error(Exc("ValueError", "Unknown test type: " + test.kind))
  {
    if test.kind == "variable" then ValidateVariableTest(test, vars)
    else if test.kind == "output" then ValidateOutputTest(engine, test, printed, cellOutput)
    else Error(Exc("ValueError", "Unknown test type: " + test.kind))
  }
}
