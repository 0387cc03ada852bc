/**
 * Python string operations used by the notebook grader, over Dafny strings (`seq<char>`):
 * whitespace tests, `in` on strings, `strip`, ASCII `lower`, `join`, `split`,
 * `splitlines`, slicing and `str(int)`.
 */
module Text {

  /** `c.isspace()` in Python: the characters `\s` matches and `strip()` removes. */
  predicate IsSpace(c: char) {
    c == ' ' || c == '\t' || c == '\n' || c == '\r' || c == '\U{B}' || c == '\U{C}'
    || c == '\U{1C}' || c == '\U{1D}' || c == '\U{1E}' || c == '\U{1F}'
    || c == '\U{85}' || c == '\U{A0}' || c == '\U{1680}' || ('\U{2000}' <= c <= '\U{200A}')
    || c == '\U{2028}' || c == '\U{2029}' || c == '\U{202F}' || c == '\U{205F}' || c == '\U{3000}'
  }

  /** The line boundaries on which Python's `str.splitlines` breaks. */
  predicate IsLineBreak(c: char) {
    c == '\n' || c == '\r' || c == '\U{B}' || c == '\U{C}' || c == '\U{1C}' || c == '\U{1D}'
    || c == '\U{1E}' || c == '\U{85}' || c == '\U{2028}' || c == '\U{2029}'
  }

  predicate NoLineBreak(s: string) {
    forall i :: 0 <= i < |s| ==> !IsLineBreak(s[i])
  }

  /** `p` occurs in `s` starting at index `i`. */
  predicate OccursAt(s: string, p: string, i: nat) {
    i + |p| <= |s| && s[i..i + |p|] == p
  }

  /** Python's `p in s` on strings. */
  predicate Contains(s: string, p: string) {
    exists i: nat :: i <= |s| && OccursAt(s, p, i)
  }

  /** Only substring tests are used, so a match survives any surrounding text. */
  lemma ContainsInContext(s: string, p: string, before: string, after: string)
    requires Contains(s, p)
    ensures Contains(before + s + after, p)
  {
    var i: nat :| i <= |s| && OccursAt(s, p, i);
    assert i + |p| <= |s|;
    var t := before + s + after;
    assert t[|before| + i..|before| + i + |p|] == s[i..i + |p|];
    assert OccursAt(t, p, |before| + i);
  }

  /** A pattern that does not contain the character `c` cannot straddle it. */
  lemma ContainsAcross(x: string, c: char, y: string, p: string)
    requires c !in p
    requires Contains(x + [c] + y, p)
    ensures Contains(x, p) || Contains(y, p)
  {
    var s := x + [c] + y;
    var i: nat :| i <= |s| && OccursAt(s, p, i);
    assert i + |p| <= |s| && s[i..i + |p|] == p;
    assert s[|x|] == c;
    assert forall j :: 0 <= j < |p| ==> p[j] == s[i + j];
    assert i + |p| <= |x| || i > |x|;
    if i + |p| <= |x| {
      assert s[i..i + |p|] == x[i..i + |p|];
      assert OccursAt(x, p, i);
    } else {
      assert s[i..i + |p|] == y[i - |x| - 1..i - |x| - 1 + |p|];
      assert OccursAt(y, p, i - |x| - 1);
    }
  }

  /** Leading whitespace removed (`lstrip()`). */
  function TrimStart(s: string): (r: string)
    ensures |r| <= |s| && (r != [] ==> r[|r| - 1] == s[|s| - 1])
    ensures r == [] || !IsSpace(r[0])
    ensures forall i :: 0 <= i < |s| - |r| ==> IsSpace(s[i])
  {
    if s != [] && IsSpace(s[0]) then TrimStart(s[1..]) else s
  }

  /** Trailing whitespace removed (`rstrip()`). */
  function TrimEnd(s: string): (r: string)
    ensures |r| <= |s| && (r != [] ==> r[0] == s[0])
    ensures r == [] || !IsSpace(r[|r| - 1])
    ensures forall i :: |r| <= i < |s| ==> IsSpace(s[i])
  {
    if s != [] && IsSpace(s[|s| - 1]) then TrimEnd(s[..|s| - 1]) else s
  }

  /** Python's `s.strip()`. */
  function Strip(s: string): string {
    TrimEnd(TrimStart(s))
  }

  /** A non-empty string that `strip()` leaves alone starts and ends with non-whitespace. */
  lemma StrippedEnds(s: string)
    requires s != [] && Strip(s) == s
    ensures !IsSpace(s[0]) && !IsSpace(s[|s| - 1])
  {
    var u := TrimStart(s);
    assert u != [] && u[0] == s[0];
  }

  /** `strip()` leaves a string alone when both its ends are non-whitespace. */
  lemma StripFixes(s: string)
    requires s != [] && !IsSpace(s[0]) && !IsSpace(s[|s| - 1])
    ensures Strip(s) == s
  {
    assert TrimStart(s) == s;
  }

  /** A pattern holding a character that the text lacks does not occur in it. */
  lemma AbsentCharBlocks(s: string, p: string, c: char)
    requires c in p && c !in s
    ensures !Contains(s, p)
  {
    var k :| 0 <= k < |p| && p[k] == c;
    forall i: nat | i <= |s|
      ensures !OccursAt(s, p, i)
    {
      if i + |p| <= |s| {
        assert s[i..i + |p|][k] == s[i + k] != c;
      }
    }
  }

  /** `lstrip` keeps a suffix of its argument. */
  lemma {:induction false} TrimStartIsSuffix(s: string)
    ensures TrimStart(s) == s[|s| - |TrimStart(s)|..]
    decreases |s|
  {
    if s != [] && IsSpace(s[0]) {
      TrimStartIsSuffix(s[1..]);
    }
  }

  /** `rstrip` keeps a prefix of its argument. */
  lemma {:induction false} TrimEndIsPrefix(s: string)
    ensures TrimEnd(s) == s[..|TrimEnd(s)|]
    decreases |s|
  {
    if s != [] && IsSpace(s[|s| - 1]) {
      TrimEndIsPrefix(s[..|s| - 1]);
    }
  }

  /** `lstrip` removes a whitespace run and stops at the first non-whitespace character. */
  lemma {:induction false} TrimStartSpaces(w: string, b: string)
    requires forall i :: 0 <= i < |w| ==> IsSpace(w[i])
    requires b == [] || !IsSpace(b[0])
    ensures TrimStart(w + b) == b
    decreases |w|
  {
    if w == [] {
      assert w + b == b;
    } else {
      assert (w + b)[1..] == w[1..] + b;
      TrimStartSpaces(w[1..], b);
    }
  }

  /** `lstrip` of a string ending in non-whitespace never reaches what follows it. */
  lemma {:induction false} TrimStartAppend(a: string, t: string)
    requires a != [] && !IsSpace(a[|a| - 1])
    ensures TrimStart(a + t) == TrimStart(a) + t
    decreases |a|
  {
    if IsSpace(a[0]) {
      assert (a + t)[1..] == a[1..] + t;
      TrimStartAppend(a[1..], t);
    }
  }

  /** A string is blank (`s.strip() == ""`) exactly when every character is whitespace. */
  lemma StripEmptyIffBlank(s: string)
    ensures Strip(s) == [] <==> forall i :: 0 <= i < |s| ==> IsSpace(s[i])
  {
    var u := TrimStart(s);
    if Strip(s) != [] {
      TrimStartIsSuffix(s);
      assert u != [];
      assert u[0] == s[|s| - |u|];
    }
  }

  function LowerChar(c: char): char {
    if 'A' <= c <= 'Z' then (c as int + 32) as char else c
  }

  /** Python's `s.lower()` on the ASCII letters. */
  function Lower(s: string): (r: string)
    ensures |r| == |s|
    ensures forall i :: 0 <= i < |s| ==> r[i] == LowerChar(s[i])
  {
    seq(|s|, i requires 0 <= i < |s| => LowerChar(s[i]))
  }

  lemma LowerConcat(a: string, b: string)
    ensures Lower(a + b) == Lower(a) + Lower(b)
  {
  }

  /** Python's `sep.join(xs)`. */
  function Join(xs: seq<string>, sep: string): string {
    if xs == [] then "" else if |xs| == 1 then xs[0] else xs[0] + sep + Join(xs[1..], sep)
  }

  /** Python's `s.split(c)` for a one-character separator. */
  function Split(s: string, c: char): (parts: seq<string>)
    ensures |parts| >= 1
  {
    if s == [] then [""]
    else
      var rest := Split(s[1..], c);
      if s[0] == c then [""] + rest else [[s[0]] + rest[0]] + rest[1..]
  }

  /** No part of a split contains the separator. */
  lemma {:induction false} SplitPartsLackSeparator(s: string, c: char)
    ensures forall k :: 0 <= k < |Split(s, c)| ==> c !in Split(s, c)[k]
  {
    if s != [] {
      SplitPartsLackSeparator(s[1..], c);
    }
  }

  /** A separator-free head is split off as the first part. */
  lemma {:induction false} SplitAfter(a: string, b: string, c: char)
    requires c !in a
    ensures Split(a + [c] + b, c) == [a] + Split(b, c)
  {
    var s := a + [c] + b;
    if a == [] {
      assert s[1..] == b;
    } else {
      assert s[1..] == a[1..] + [c] + b;
      SplitAfter(a[1..], b, c);
      assert [a[0]] + a[1..] == a;
    }
  }

  /** A split has one more part than the string has separators. */
  lemma {:induction false} SplitCount(s: string, c: char)
    ensures |Split(s, c)| == multiset(s)[c] + 1
  {
    if s != [] {
      SplitCount(s[1..], c);
      assert s == [s[0]] + s[1..];
      assert multiset(s) == multiset([s[0]]) + multiset(s[1..]);
    }
  }

  /** Joining the parts with the separator gives back the original string. */
  lemma {:induction false} JoinSplit(s: string, c: char)
    ensures Join(Split(s, c), [c]) == s
  {
    if s != [] {
      var rest := Split(s[1..], c);
      JoinSplit(s[1..], c);
      if s[0] == c {
        assert Split(s, c) == [""] + rest;
      } else {
        var parts := Split(s, c);
        assert parts == [[s[0]] + rest[0]] + rest[1..];
        if |rest| == 1 {
          assert Join(parts, [c]) == [s[0]] + rest[0];
        } else {
          assert Join(rest, [c]) == rest[0] + [c] + Join(rest[1..], [c]);
          assert parts[1..] == rest[1..];
          assert Join(parts, [c]) == [s[0]] + rest[0] + [c] + Join(rest[1..], [c]);
        }
      }
    }
  }

  /** Index of the first line boundary in `s`, or `|s|` when there is none. */
  function LineEnd(s: string): (i: nat)
    ensures i <= |s|
    ensures forall j :: 0 <= j < i ==> !IsLineBreak(s[j])
    ensures i < |s| ==> IsLineBreak(s[i])
  {
    if s == [] || IsLineBreak(s[0]) then 0 else 1 + LineEnd(s[1..])
  }

  /**
   * Python's `s.splitlines()`: lines without their terminators; `\r\n` is one
   * boundary and a final terminator does not start an empty line.
   */
  function SplitLines(s: string): seq<string>
    decreases |s|
  {
    if s == [] then []
    else
      var i := LineEnd(s);
      if i == |s| then [s]
      else
        var next := if s[i] == '\r' && i + 1 < |s| && s[i + 1] == '\n' then i + 2 else i + 1;
        [s[..i]] + SplitLines(s[next..])
  }

  /** The lines `splitlines` produces contain no line boundary. */
  lemma {:induction false} SplitLinesHaveNoBreaks(s: string)
    ensures forall k :: 0 <= k < |SplitLines(s)| ==> NoLineBreak(SplitLines(s)[k])
    decreases |s|
  {
    if s != [] {
      var i := LineEnd(s);
      if i < |s| {
        var next := if s[i] == '\r' && i + 1 < |s| && s[i + 1] == '\n' then i + 2 else i + 1;
        SplitLinesHaveNoBreaks(s[next..]);
      }
    }
  }

  lemma {:induction false} LineEndAfterLine(l: string, rest: string)
    requires NoLineBreak(l)
    ensures LineEnd(l + rest) == |l| + LineEnd(rest)
  {
    if l != [] {
      assert (l + rest)[1..] == l[1..] + rest;
      LineEndAfterLine(l[1..], rest);
    } else {
      assert l + rest == rest;
    }
  }

  /** A break-free line followed by a newline is split off as the first line. */
  lemma SplitLinesAfterLine(l: string, rest: string)
    requires NoLineBreak(l)
    ensures SplitLines(l + "\n" + rest) == [l] + SplitLines(rest)
  {
    var s := l + "\n" + rest;
    assert s == l + ("\n" + rest);
    LineEndAfterLine(l, "\n" + rest);
    assert LineEnd(s) == |l|;
    assert s[..|l|] == l;
    assert s[|l| + 1..] == rest;
  }

  /**
   * Splitting the newline-join of break-free lines gives the lines back, provided
   * the last line is not empty (`splitlines` drops a final empty line).
   */
  lemma {:induction false} SplitLinesJoin(ls: seq<string>)
    requires forall k :: 0 <= k < |ls| ==> NoLineBreak(ls[k])
    requires ls != [] ==> ls[|ls| - 1] != ""
    ensures SplitLines(Join(ls, "\n")) == ls
  {
    if |ls| == 1 {
      LineEndAfterLine(ls[0], "");
      assert ls[0] + "" == ls[0];
    } else if |ls| > 1 {
      assert Join(ls, "\n") == ls[0] + "\n" + Join(ls[1..], "\n");
      SplitLinesAfterLine(ls[0], Join(ls[1..], "\n"));
      SplitLinesJoin(ls[1..]);
      assert [ls[0]] + ls[1..] == ls;
    }
  }

  /** Lines written after newline-joined header lines split back into the header lines, then the lines. */
  lemma PrefixedSplitLines(pre: seq<string>, ls: seq<string>)
    requires forall k :: 0 <= k < |pre| ==> NoLineBreak(pre[k])
    requires forall k :: 0 <= k < |ls| ==> NoLineBreak(ls[k])
    requires ls != [] && ls[|ls| - 1] != ""
    ensures SplitLines(if pre == [] then Join(ls, "\n") else Join(pre, "\n") + "\n" + Join(ls, "\n")) == pre + ls
  {
    var all := pre + ls;
    if pre != [] {
      JoinAppend(pre, ls, "\n");
    } else {
      assert all == ls;
    }
    forall k | 0 <= k < |all| ensures NoLineBreak(all[k]) {
      if k >= |pre| {
        assert all[k] == ls[k - |pre|];
      }
    }
    assert all[|all| - 1] == ls[|ls| - 1];
    SplitLinesJoin(all);
  }

  /** A pattern free of `'\n'` that occurs in no line does not occur in their join. */
  lemma {:induction false} JoinAvoids(ls: seq<string>, p: string)
    requires p != [] && '\n' !in p
    requires forall k :: 0 <= k < |ls| ==> !Contains(ls[k], p)
    ensures !Contains(Join(ls, "\n"), p)
  {
    if |ls| > 1 {
      JoinAvoids(ls[1..], p);
      var rest := Join(ls[1..], "\n");
      assert Join(ls, "\n") == ls[0] + ['\n'] + rest;
      if Contains(Join(ls, "\n"), p) {
        ContainsAcross(ls[0], '\n', rest, p);
      }
    } else if |ls| == 1 {
      assert Join(ls, "\n") == ls[0];
      assert !Contains(ls[0], p);
    }
  }

  /** Python's `xs[k:]`, including negative and out-of-range `k`. */
  function SliceFrom<T>(xs: seq<T>, k: int): (r: seq<T>)
    ensures k >= 0 ==> r == xs[if k <= |xs| then k else |xs|..]
    ensures k < 0 ==> r == xs[if -k <= |xs| then |xs| + k else 0..]
  {
    if k >= 0 then (if k <= |xs| then xs[k..] else [])
    else if -k <= |xs| then xs[|xs| + k..] else xs
  }

  /** The elements of `xs` satisfying `f`, in order: a list comprehension with a condition. */
  function Filter<T>(f: T -> bool, xs: seq<T>): (r: seq<T>)
    ensures |r| <= |xs|
  {
    if xs == [] then [] else Filter(f, xs[..|xs| - 1]) + (if f(xs[|xs| - 1]) then [xs[|xs| - 1]] else [])
  }

  /** The kept elements satisfy `f` and come from `xs`; every element of `xs` satisfying `f` is kept. */
  lemma {:induction false} FilterMembers<T>(f: T -> bool, xs: seq<T>)
    ensures forall i :: 0 <= i < |Filter(f, xs)| ==> f(Filter(f, xs)[i]) && Filter(f, xs)[i] in xs
    ensures forall x :: x in xs && f(x) ==> x in Filter(f, xs)
    decreases |xs|
  {
    if xs != [] {
      var init := xs[..|xs| - 1];
      FilterMembers(f, init);
      assert xs == init + [xs[|xs| - 1]];
      assert forall x :: x in xs ==> x in init || x == xs[|xs| - 1];
    }
  }

  /** Nothing is kept when no element satisfies `f`. */
  lemma {:induction false} FilterNone<T>(f: T -> bool, xs: seq<T>)
    requires forall i :: 0 <= i < |xs| ==> !f(xs[i])
    ensures Filter(f, xs) == []
    decreases |xs|
  {
    if xs != [] {
      FilterNone(f, xs[..|xs| - 1]);
    }
  }

  lemma FilterAppend<T>(f: T -> bool, xs: seq<T>, x: T)
    ensures Filter(f, xs + [x]) == Filter(f, xs) + (if f(x) then [x] else [])
  {
    assert (xs + [x])[..|xs|] == xs;
  }

  lemma {:induction false} FilterConcat<T>(f: T -> bool, xs: seq<T>, ys: seq<T>)
    ensures Filter(f, xs + ys) == Filter(f, xs) + Filter(f, ys)
    decreases |ys|
  {
    if ys == [] {
      assert xs + ys == xs;
    } else {
      var init, last := ys[..|ys| - 1], ys[|ys| - 1];
      assert ys == init + [last];
      assert xs + ys == (xs + init) + [last];
      FilterAppend(f, xs + init, last);
      FilterConcat(f, xs, init);
      FilterAppend(f, init, last);
    }
  }

  lemma {:induction false} JoinAppend(xs: seq<string>, ys: seq<string>, sep: string)
    requires xs != [] && ys != []
    ensures Join(xs + ys, sep) == Join(xs, sep) + sep + Join(ys, sep)
    decreases |xs|
  {
    assert (xs + ys)[0] == xs[0];
    if |xs| == 1 {
      assert (xs + ys)[1..] == ys;
    } else {
      assert (xs + ys)[1..] == xs[1..] + ys;
      JoinAppend(xs[1..], ys, sep);
    }
  }

  function Digit(d: nat): char
    requires d < 10
  {
    ('0' as int + d) as char
  }

  /** Python's `str(n)` for a natural number. */
  function NatToString(n: nat): (s: string)
    ensures |s| >= 1
    ensures forall i :: 0 <= i < |s| ==> '0' <= s[i] <= '9'
  {
    if n < 10 then [Digit(n)] else NatToString(n / 10) + [Digit(n % 10)]
  }

  /** Python's `str(i)` for an integer. */
  function IntToString(i: int): string {
    if i < 0 then "-" + NatToString(-i) else NatToString(i)
  }

  /** Distinct naturals have distinct decimal renderings. */
  lemma {:induction false} NatToStringInjective(a: nat, b: nat)
    requires NatToString(a) == NatToString(b)
    ensures a == b
    decreases a
  {
    if a >= 10 && b >= 10 {
      var sa := NatToString(a);
      assert NatToString(a / 10) == sa[..|sa| - 1] == NatToString(b / 10);
      assert Digit(a % 10) == sa[|sa| - 1] == Digit(b % 10);
      NatToStringInjective(a / 10, b / 10);
    }
  }
}
