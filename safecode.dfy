/**
 * The safety gate: a textual screen of a code fragment against banned imports and
 * banned call patterns, and the filter that drops input-reading lines.
 */
module SafeCode {
  import opened Wrappers
  import opened Text

  const BannedImports: seq<string> :=
    ["os", "sys", "subprocess", "socket", "shutil", "pathlib", "requests", "multiprocessing",
     "threading", "ctypes", "pickle"]

  const BannedPatterns: seq<string> :=
    ["open(", "eval(", "exec(", "__import__", "compile(", "globals(", "locals(", "setattr(",
     "delattr(", "getattr(", "exit(", "quit(", "system(", "fork(", "kill(", "remove(", "rmdir(",
     "unlink(", "chmod(", "chown(", "popen(", "walk(", "makedirs(", "mkdir(", "rmtree(", "copy(",
     "move(", "rename(", "socket.", "threading.", "multiprocessing."]

  /** `f"import {m}" in code or f"from {m} import" in code`. */
  predicate ImportsModule(code: string, m: string) {
    Contains(code, "import " + m) || Contains(code, "from " + m + " import")
  }

  /** Index of the first element of `xs`, from index `from` on, on which `hit` holds: a scan with early return. */
  function FirstHit(xs: seq<string>, hit: string -> bool, from: nat): (r: Option<nat>)
    ensures r.Some? ==> from <= r.value < |xs|
    decreases |xs| - from
  {
    if from >= |xs| then None
    else if hit(xs[from]) then Some(from)
    else FirstHit(xs, hit, from + 1)
  }

  /** The scan finds nothing exactly when no element from `from` on is hit, and otherwise the first one hit. */
  lemma {:induction false} FirstHitSpec(xs: seq<string>, hit: string -> bool, from: nat)
    ensures FirstHit(xs, hit, from).None? <==> forall k :: from <= k < |xs| ==> !hit(xs[k])
    ensures FirstHit(xs, hit, from).Some? ==>
              var k := FirstHit(xs, hit, from).value;
              from <= k < |xs| && hit(xs[k]) && forall j :: from <= j < k ==> !hit(xs[j])
    decreases |xs| - from
  {
    if from < |xs| && !hit(xs[from]) {
      FirstHitSpec(xs, hit, from + 1);
    }
  }

  /** `code` imports none of `mods`. */
  predicate NoImportOf(code: string, mods: seq<string>) {
    forall k :: 0 <= k < |mods| ==> !ImportsModule(code, mods[k])
  }

  /** `code` contains none of `pats`. */
  predicate NoPatternOf(code: string, pats: seq<string>) {
    forall k :: 0 <= k < |pats| ==> !Contains(code, pats[k])
  }

  /** `mods[k]` is the first module, in list order, that `code` imports. */
  predicate IsFirstImport(code: string, mods: seq<string>, k: nat) {
    k < |mods| && ImportsModule(code, mods[k])
    && forall j :: 0 <= j < k ==> !ImportsModule(code, mods[j])
  }

  /** `pats[k]` is the first pattern, in list order, that occurs in `code`. */
  predicate IsFirstPattern(code: string, pats: seq<string>, k: nat) {
    k < |pats| && Contains(code, pats[k])
    && forall j :: 0 <= j < k ==> !Contains(code, pats[j])
  }

  /** The two scans of the gate over given lists: imports first, then patterns. */
  function Screen(code: string, mods: seq<string>, pats: seq<string>): (bool, string) {
    match FirstHit(mods, m => ImportsModule(code, m), 0)
    case Some(k) => (false, "Banned import detected: " + mods[k])
    case None =>
      match FirstHit(pats, p => Contains(code, p), 0)
      case Some(k) => (false, "Banned code pattern detected: " + pats[k])
      case None => (true, "")
  }

  /**
   * A fragment passes exactly when it imports none of the modules and contains none of
   * the patterns; otherwise the reason names the first module it imports or, when it
   * imports none, the first pattern it contains.
   */
  lemma ScreenSpec(code: string, mods: seq<string>, pats: seq<string>)
    ensures Screen(code, mods, pats).0 <==> NoImportOf(code, mods) && NoPatternOf(code, pats)
    ensures Screen(code, mods, pats).0 ==> Screen(code, mods, pats).1 == ""
    ensures forall k: nat :: IsFirstImport(code, mods, k) ==>
              Screen(code, mods, pats) == (false, "Banned import detected: " + mods[k])
    ensures forall k: nat :: NoImportOf(code, mods) && IsFirstPattern(code, pats, k) ==>
              Screen(code, mods, pats) == (false, "Banned code pattern detected: " + pats[k])
  {
    var imports := m => ImportsModule(code, m);
    var patterns := p => Contains(code, p);
    FirstHitSpec(mods, imports, 0);
    FirstHitSpec(pats, patterns, 0);
    match FirstHit(mods, imports, 0)
    case Some(k) =>
      assert forall k': nat :: IsFirstImport(code, mods, k') ==> k' == k;
    case None =>
      match FirstHit(pats, patterns, 0)
      case Some(k) =>
        assert forall k': nat :: IsFirstPattern(code, pats, k') ==> k' == k;
      case None =>
  }

  predicate NoBannedImport(code: string) {
    NoImportOf(code, BannedImports)
  }

  predicate NoBannedPattern(code: string) {
    NoPatternOf(code, BannedPatterns)
  }

  /** `is_code_safe`: imports are screened before patterns. */
  function IsCodeSafe(code: string): (bool, string) {
    Screen(code, BannedImports, BannedPatterns)
  }

  /**
   * Code is safe exactly when it imports no banned module and contains no banned
   * pattern; the reason names the first offending module or pattern in list order.
   */
  lemma IsCodeSafeSpec(code: string)
    ensures IsCodeSafe(code).0 <==> NoBannedImport(code) && NoBannedPattern(code)
    ensures IsCodeSafe(code).0 ==> IsCodeSafe(code).1 == ""
    ensures forall k: nat :: IsFirstImport(code, BannedImports, k) ==>
              IsCodeSafe(code) == (false, "Banned import detected: " + BannedImports[k])
    ensures forall k: nat :: NoBannedImport(code) && IsFirstPattern(code, BannedPatterns, k) ==>
              IsCodeSafe(code) == (false, "Banned code pattern detected: " + BannedPatterns[k])
  {
    ScreenSpec(code, BannedImports, BannedPatterns);
  }

  /** A fragment that imports nothing banned is rejected with the first pattern it contains. */
  lemma PatternReason(code: string, k: nat)
    requires NoBannedImport(code) && IsFirstPattern(code, BannedPatterns, k)
    ensures IsCodeSafe(code) == (false, "Banned code pattern detected: " + BannedPatterns[k])
  {
    IsCodeSafeSpec(code);
  }

  /** A rejected fragment stays rejected inside any larger fragment. */
  lemma RejectionMonotone(code: string, before: string, after: string)
    requires !IsCodeSafe(code).0
    ensures !IsCodeSafe(before + code + after).0
  {
    IsCodeSafeSpec(code);
    IsCodeSafeSpec(before + code + after);
    var big := before + code + after;
    if !NoBannedImport(code) {
      var k :| 0 <= k < |BannedImports| && ImportsModule(code, BannedImports[k]);
      var m := BannedImports[k];
      if Contains(code, "import " + m) {
        ContainsInContext(code, "import " + m, before, after);
      } else {
        ContainsInContext(code, "from " + m + " import", before, after);
      }
      assert !NoBannedImport(big);
    } else {
      var k :| 0 <= k < |BannedPatterns| && Contains(code, BannedPatterns[k]);
      ContainsInContext(code, BannedPatterns[k], before, after);
      assert !NoBannedPattern(big);
    }
  }

  /** The screen is textual: `import os` inside `import ossaudiodev` is the first banned import. */
  lemma ImportScreenIsTextual(before: string, after: string)
    ensures IsCodeSafe(before + "import ossaudiodev" + after) == (false, "Banned import detected: os")
  {
    var s1 := "import ossaudiodev";
    assert s1[0..9] == "import os";
    assert OccursAt(s1, "import os", 0);
    ContainsInContext(s1, "import os", before, after);
    assert "import " + BannedImports[0] == "import os";
    assert ImportsModule(before + s1 + after, BannedImports[0]);
    ScreenSpec(before + s1 + after, BannedImports, BannedPatterns);
    assert IsFirstImport(before + s1 + after, BannedImports, 0);
    assert "Banned import detected: " + BannedImports[0] == "Banned import detected: os";
  }

  /** The screen is textual: `copy(` inside the method call `xs.copy(` is a banned pattern. */
  lemma PatternScreenIsTextual(before: string, after: string)
    ensures !IsCodeSafe(before + "ys = xs.copy()" + after).0
  {
    var s2 := "ys = xs.copy()";
    assert s2[8..13] == "copy(";
    assert OccursAt(s2, "copy(", 8);
    ContainsInContext(s2, "copy(", before, after);
    assert BannedPatterns[25] == "copy(";
    assert !NoPatternOf(before + s2 + after, BannedPatterns);
    ScreenSpec(before + s2 + after, BannedImports, BannedPatterns);
  }

  /** `ys = xs.copy()` has no `i` and no `f`, so it imports none of the banned modules. */
  lemma CopyCallImportsNothing()
    ensures NoBannedImport("ys = xs.copy()")
  {
    var s := "ys = xs.copy()";
    forall k | 0 <= k < |BannedImports|
      ensures !ImportsModule(s, BannedImports[k])
    {
      AbsentCharBlocks(s, "import " + BannedImports[k], 'i');
      AbsentCharBlocks(s, "from " + BannedImports[k] + " import", 'f');
    }
  }

  /** Each of the first thirteen patterns holds a character that `ys = xs.copy()` lacks. */
  lemma CopyCallMissesFirstPatterns()
    ensures forall j :: 0 <= j < 13 ==> !Contains("ys = xs.copy()", BannedPatterns[j])
  {
    var absent := "eee_mgltdgeqt";
    forall k | 0 <= k < 13
      ensures !Contains("ys = xs.copy()", BannedPatterns[k])
    {
      AbsentCharBlocks("ys = xs.copy()", BannedPatterns[k], absent[k]);
    }
  }

  /** Each pattern from `fork(` to `rmtree(` holds a character that `ys = xs.copy()` lacks. */
  lemma CopyCallMissesLaterPatterns()
    ensures forall j :: 13 <= j < 25 ==> !Contains("ys = xs.copy()", BannedPatterns[j])
  {
    var absent := "fkrruhhewmmr";
    forall k | 13 <= k < 25
      ensures !Contains("ys = xs.copy()", BannedPatterns[k])
    {
      AbsentCharBlocks("ys = xs.copy()", BannedPatterns[k], absent[k - 13]);
    }
  }

  /** `copy(` is the first banned pattern that `ys = xs.copy()` contains. */
  lemma CopyCallFirstPattern()
    ensures IsFirstPattern("ys = xs.copy()", BannedPatterns, 25)
  {
    var s := "ys = xs.copy()";
    CopyCallMissesFirstPatterns();
    CopyCallMissesLaterPatterns();
    assert s[8..13] == BannedPatterns[25];
    assert OccursAt(s, BannedPatterns[25], 8);
  }

  /**
   * The reason is exact: `ys = xs.copy()` imports nothing and holds none of the patterns
   * listed before `copy(`, so the gate names `copy(`.
   */
  lemma CopyCallReason()
    ensures IsCodeSafe("ys = xs.copy()") == (false, "Banned code pattern detected: copy(")
  {
    CopyCallImportsNothing();
    CopyCallFirstPattern();
    PatternReason("ys = xs.copy()", 25);
    assert "Banned code pattern detected: " + BannedPatterns[25] == "Banned code pattern detected: copy(";
  }

  /** A line that calls `input(`. */
  predicate ReadsInput(line: string) {
    Contains(line, "input(")
  }

  predicate KeepsLine(line: string) {
    !ReadsInput(line)
  }

  /** The lines of `code` that do not call `input(`, in their original order. */
  function KeptLines(code: string): seq<string> {
    Filter(KeepsLine, SplitLines(code))
  }

  /** `remove_input_lines`: the newline-join of the kept lines. */
  function RemoveInputLines(code: string): string {
    Join(KeptLines(code), "\n")
  }

  /** No `input(` call survives the removal. */
  lemma RemoveInputLinesDropsInput(code: string)
    ensures !Contains(RemoveInputLines(code), "input(")
  {
    FilterMembers(KeepsLine, SplitLines(code));
    JoinAvoids(KeptLines(code), "input(");
  }

  /**
   * Read back line by line, the result is exactly the lines of the input that do
   * not call `input(`, unless the last of those is empty (then `splitlines` drops it).
   */
  lemma RemoveInputLinesKeepsOtherLines(code: string)
    requires KeptLines(code) != [] ==> KeptLines(code)[|KeptLines(code)| - 1] != ""
    ensures SplitLines(RemoveInputLines(code)) == KeptLines(code)
    ensures forall k :: 0 <= k < |KeptLines(code)| ==> !ReadsInput(KeptLines(code)[k])
    ensures forall l :: l in SplitLines(code) && !ReadsInput(l) ==> l in KeptLines(code)
  {
    var kept := KeptLines(code);
    FilterMembers(KeepsLine, SplitLines(code));
    SplitLinesHaveNoBreaks(code);
    forall k | 0 <= k < |kept| ensures NoLineBreak(kept[k]) {
      assert kept[k] in SplitLines(code);
    }
    SplitLinesJoin(kept);
  }
}
