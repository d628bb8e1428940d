/**
 * String helpers the rest of the model is built on: ASCII case folding and
 * whitespace, stripping, substring search, decimal rendering of integers and
 * the file-name rules of Python's pathlib (name, suffix, stem).
 */
module Text {

  import opened Wrappers

  // ---------------------------------------------------------------- case

  /** `str.lower` on one character, restricted to ASCII letters. */
  function LowerChar(c: char): char {
    if 'A' <= c <= 'Z' then (c as int + 32) as char else c
  }

  /** Lower-casing a lower-cased character changes nothing, and only '.' lowers to '.'. */
  lemma LowerCharFacts(c: char)
    ensures LowerChar(LowerChar(c)) == LowerChar(c)
    ensures LowerChar(c) == '.' <==> c == '.'
  {
  }

  function Lower(s: string): (r: string)
    ensures |r| == |s|
    ensures forall i :: 0 <= i < |s| ==> r[i] == LowerChar(s[i])
  {
    if s == [] then [] else [LowerChar(s[0])] + Lower(s[1..])
  }

  /** Lower-casing twice is lower-casing once. */
  lemma LowerIdempotent(s: string)
    ensures Lower(Lower(s)) == Lower(s)
  {
    forall i | 0 <= i < |s| ensures Lower(Lower(s))[i] == Lower(s)[i] {
      LowerCharFacts(s[i]);
    }
  }

  // ---------------------------------------------------------------- stripping

  /** The characters Python's `str.strip()` removes, restricted to ASCII. */
  predicate IsSpace(c: char) {
    c == ' ' || '\t' <= c <= '\r' || '\U{1c}' <= c <= '\U{1f}'
  }

  predicate IsDot(c: char) { c == '.' }

  predicate IsQuote(c: char) { c == '"' }

  /** Removes the longest prefix whose characters all satisfy `p`. */
  function LStrip(s: string, p: char -> bool): (r: string)
    ensures |r| <= |s| && r == s[|s| - |r|..]
    ensures forall i :: 0 <= i < |s| - |r| ==> p(s[i])
    ensures r != [] ==> !p(r[0])
  {
    if s != [] && p(s[0]) then
      var r := LStrip(s[1..], p);
      assert s[1..][|s| - 1 - |r|..] == s[|s| - |r|..];
      assert forall i :: 1 <= i < |s| - |r| ==> s[i] == s[1..][i - 1];
      r
    else s
  }

  /** Removes the longest suffix whose characters all satisfy `p`. */
  function RStrip(s: string, p: char -> bool): (r: string)
    ensures |r| <= |s| && r == s[..|r|]
    ensures forall i :: |r| <= i < |s| ==> p(s[i])
    ensures r != [] ==> !p(r[|r| - 1])
  {
    if s != [] && p(s[|s| - 1]) then RStrip(s[..|s| - 1], p) else s
  }

  /**
   * `str.strip(chars)`: the right strip of the left strip. What is left is a
   * slice of `s` that neither starts nor ends with a stripped character.
   */
  function Strip(s: string, p: char -> bool): (r: string)
    ensures r == RStrip(LStrip(s, p), p)
    ensures |r| <= |s|
    ensures r != [] ==> !p(r[0]) && !p(r[|r| - 1])
    ensures exists k {:trigger s[k..]} :: 0 <= k <= |s| - |r| && r == s[k..][..|r|]
  {
    var t := LStrip(s, p);
    var r := RStrip(t, p);
    assert r == s[|s| - |t|..][..|r|];
    r
  }

  /**
   * `Strip` removes stripped characters only: with `k` the length of the
   * prefix the left strip removed, everything before and after the kept
   * slice is a stripped character.
   */
  lemma StripRemovesOnlyPadding(s: string, p: char -> bool)
    ensures var k := |s| - |LStrip(s, p)|;
      && 0 <= k <= |s| - |Strip(s, p)| && Strip(s, p) == s[k..][..|Strip(s, p)|]
      && (forall i :: 0 <= i < k ==> p(s[i]))
      && (forall i :: k + |Strip(s, p)| <= i < |s| ==> p(s[i]))
  {
    var t := LStrip(s, p);
    var r := RStrip(t, p);
    var k := |s| - |t|;
    assert t == s[k..];
    assert r == t[..|r|];
    forall i | k + |r| <= i < |s| ensures p(s[i]) {
      assert |r| <= i - k < |t|;
      assert s[i] == t[i - k];
    }
  }

  /** A string whose two end characters are not stripped is left as it is. */
  lemma StripKeepsUnpaddedText(s: string, p: char -> bool)
    requires s != [] && !p(s[0]) && !p(s[|s| - 1])
    ensures Strip(s, p) == s
  {
    assert LStrip(s, p) == s;
    assert RStrip(s, p) == s;
  }

  // ---------------------------------------------------------------- search

  predicate StartsWith(s: string, prefix: string) {
    |prefix| <= |s| && s[..|prefix|] == prefix
  }

  predicate EndsWith(s: string, suffix: string) {
    |suffix| <= |s| && s[|s| - |suffix|..] == suffix
  }

  /** Python's `sub in s`. */
  function Contains(s: string, sub: string): (r: bool)
    ensures r <==> exists i {:trigger s[i..]} :: 0 <= i <= |s| - |sub| && s[i..][..|sub|] == sub
  {
    if StartsWith(s, sub) then
      assert s[0..][..|sub|] == sub;
      true
    else if |s| <= |sub| then
      false
    else
      var r := Contains(s[1..], sub);
      assert forall i :: 1 <= i <= |s| - |sub| ==> s[i..] == s[1..][i - 1..];
      r
  }

  /** `sep.join(parts)`. */
  function Join(parts: seq<string>, sep: string): string {
    if parts == [] then ""
    else if |parts| == 1 then parts[0]
    else parts[0] + sep + Join(parts[1..], sep)
  }

  // ---------------------------------------------------------------- numbers

  predicate IsDigit(c: char) { '0' <= c <= '9' }

  function DigitChar(d: nat): (c: char)
    requires d < 10
    ensures IsDigit(c)
  {
    ('0' as int + d) as char
  }

  /** `str(n)` for a non-negative integer. */
  function NatToString(n: nat): (r: string)
    ensures |r| >= 1
    ensures forall i :: 0 <= i < |r| ==> IsDigit(r[i])
  {
    if n < 10 then [DigitChar(n)] else NatToString(n / 10) + [DigitChar(n % 10)]
  }

  /** `str(i)` for any integer. */
  function IntToString(i: int): string {
    if i < 0 then "-" + NatToString(-i) else NatToString(i)
  }

  /** The value of a string of decimal digits, as `int(s)` reads it. */
  function DigitsValue(s: string): nat
    requires forall i :: 0 <= i < |s| ==> IsDigit(s[i])
  {
    if s == [] then 0
    else
      assert IsDigit(s[|s| - 1]);
      10 * DigitsValue(s[..|s| - 1]) + (s[|s| - 1] as int - '0' as int)
  }

  /** Reading back what NatToString writes gives the number again. */
  lemma {:induction false} DigitsValueOfNatToString(n: nat)
    ensures DigitsValue(NatToString(n)) == n
  {
    if n >= 10 {
      var s := NatToString(n);
      assert s[..|s| - 1] == NatToString(n / 10);
      DigitsValueOfNatToString(n / 10);
    }
  }

  /** Different numbers are written differently. */
  lemma NatToStringInjective(a: nat, b: nat)
    requires NatToString(a) == NatToString(b)
    ensures a == b
  {
    DigitsValueOfNatToString(a);
    DigitsValueOfNatToString(b);
  }

  // ---------------------------------------------------------------- paths

  /** Index of the last `c` in `s`, or -1 (`str.rfind`). */
  function RFind(s: string, c: char): (r: int)
    ensures -1 <= r < |s|
    ensures r >= 0 ==> s[r] == c
    ensures forall j :: r < j < |s| ==> s[j] != c
  {
    if s == [] then -1
    else if s[|s| - 1] == c then |s| - 1
    else RFind(s[..|s| - 1], c)
  }

  /** `PurePosixPath(path).name`: the part after the last '/'. */
  function FileName(path: string): (r: string)
  {
    path[RFind(path, '/') + 1..]
  }

  /** The file name is the slash-free tail of the path, and the path's last slash sits right before it. */
  lemma FileNameIsLastComponent(path: string)
    ensures |FileName(path)| <= |path| && FileName(path) == path[|path| - |FileName(path)|..]
    ensures forall i :: 0 <= i < |FileName(path)| ==> FileName(path)[i] != '/'
    ensures |FileName(path)| < |path| ==> path[|path| - |FileName(path)| - 1] == '/'
  {
  }

  /** `PurePath.suffix`: from the last dot of the name, unless that dot is first or last. */
  function NameSuffix(name: string): (r: string)
  {
    var i := RFind(name, '.');
    if 0 < i < |name| - 1 then name[i..] else ""
  }

  /**
   * A suffix is a tail of the name made of one dot and at least one more
   * character, none of them a dot, and something comes before it.
   */
  lemma NameSuffixShape(name: string)
    ensures |NameSuffix(name)| <= |name| && NameSuffix(name) == name[|name| - |NameSuffix(name)|..]
    ensures NameSuffix(name) != [] ==> 2 <= |NameSuffix(name)| < |name| && NameSuffix(name)[0] == '.'
    ensures forall i :: 1 <= i < |NameSuffix(name)| ==> NameSuffix(name)[i] != '.'
  {
  }


  /** `PurePath.stem`: the name without its suffix. */
  function NameStem(name: string): (r: string)
    ensures r + NameSuffix(name) == name
  {
    name[..|name| - |NameSuffix(name)|]
  }

  /** `path.suffix.lower().lstrip('.')`, literally: the extension the source compares with its format list. */
  function SuffixExtension(path: string): string {
    LStrip(Lower(NameSuffix(FileName(path))), IsDot)
  }

  /**
   * The same extension found in one backward pass: `tail` holds the
   * characters already passed, none of them a dot or a slash. A dot ends the
   * pass with the lower-cased tail, unless the dot is the first or the last
   * character of the file name.
   */
  function ExtensionScan(s: string, tail: string): string
    decreases |s|
  {
    if s == [] || s[|s| - 1] == '/' then ""
    else if s[|s| - 1] == '.' then
      if tail != [] && |s| >= 2 && s[|s| - 2] != '/' then Lower(tail) else ""
    else ExtensionScan(s[..|s| - 1], [s[|s| - 1]] + tail)
  }

  /** The extension of a path, lower-cased and without its dot ("" when the name has no suffix). */
  function Extension(path: string): (r: string)
    ensures forall i :: 0 <= i < |r| ==> r[i] != '.' && LowerChar(r[i]) == r[i]
  {
    ScanShape(path, []);
    ExtensionScan(path, [])
  }

  predicate DotFreeLowerCase(r: string) {
    forall i :: 0 <= i < |r| ==> r[i] != '.' && LowerChar(r[i]) == r[i]
  }

  /** What the pass returns is lower-case and holds no dot. */
  lemma {:induction false} ScanShape(s: string, tail: string)
    requires forall i :: 0 <= i < |tail| ==> tail[i] != '.'
    ensures DotFreeLowerCase(ExtensionScan(s, tail))
    decreases |s|
  {
    if s == [] || s[|s| - 1] == '/' {
    } else if s[|s| - 1] == '.' {
      forall i | 0 <= i < |tail|
        ensures Lower(tail)[i] != '.' && LowerChar(Lower(tail)[i]) == Lower(tail)[i]
      {
        LowerCharFacts(tail[i]);
      }
    } else {
      var longer := [s[|s| - 1]] + tail;
      assert forall i :: 0 <= i < |longer| ==> longer[i] != '.';
      ScanShape(s[..|s| - 1], longer);
    }
  }

  /** The backward pass computes exactly `path.suffix.lower().lstrip('.')`. */
  lemma ExtensionIsPathSuffix(path: string)
    ensures Extension(path) == SuffixExtension(path)
  {
    ScanAgrees(path, []);
    assert path + [] == path;
  }

  /** Characters appended after the last `c` do not move it. */
  lemma {:induction false} RFindSkips(s: string, tail: string, c: char)
    requires forall i :: 0 <= i < |tail| ==> tail[i] != c
    ensures RFind(s + tail, c) == RFind(s, c)
    decreases |tail|
  {
    if tail == [] {
      assert s + tail == s;
    } else {
      var p := s + tail;
      var shorter := tail[..|tail| - 1];
      assert p[..|p| - 1] == s + shorter;
      RFindSkips(s, shorter, c);
    }
  }

  /** A name that holds no dot has no suffix. */
  lemma NoDotNoSuffix(name: string)
    requires forall i :: 0 <= i < |name| ==> name[i] != '.'
    ensures NameSuffix(name) == ""
  {
    RFindSkips([], name, '.');
    assert [] + name == name;
  }

  /** Induction on the characters passed: each case below is one step of the pass. */
  lemma {:induction false} ScanAgrees(s: string, tail: string)
    requires forall i :: 0 <= i < |tail| ==> tail[i] != '.' && tail[i] != '/'
    ensures ExtensionScan(s, tail) == SuffixExtension(s + tail)
    decreases |s|
  {
    if s == [] || s[|s| - 1] == '/' {
      ScanAgreesAtNameStart(s, tail);
    } else if s[|s| - 1] == '.' {
      ScanAgreesAtDot(s, tail);
    } else {
      var shorter := s[..|s| - 1];
      var longer := [s[|s| - 1]] + tail;
      assert shorter + longer == s + tail;
      ScanAgrees(shorter, longer);
    }
  }

  /** The pass reaches the start of the name without meeting a dot: no suffix. */
  lemma ScanAgreesAtNameStart(s: string, tail: string)
    requires forall i :: 0 <= i < |tail| ==> tail[i] != '.' && tail[i] != '/'
    requires s == [] || s[|s| - 1] == '/'
    ensures SuffixExtension(s + tail) == ""
  {
    var k := NameOfAppend(s, tail);
    assert k == |s|;
    assert s[k..] + tail == tail;
    NoDotNoSuffix(tail);
  }

  /** The pass meets the last dot of the name. */
  lemma ScanAgreesAtDot(s: string, tail: string)
    requires forall i :: 0 <= i < |tail| ==> tail[i] != '.' && tail[i] != '/'
    requires s != [] && s[|s| - 1] == '.'
    ensures SuffixExtension(s + tail) == if tail != [] && |s| >= 2 && s[|s| - 2] != '/' then Lower(tail) else ""
  {
    SuffixAtDot(s, tail);
    if tail != [] && |s| >= 2 && s[|s| - 2] != '/' {
      DotThenTail(tail);
    }
  }

  /** The suffix of a name whose last dot is followed by `tail`. */
  lemma SuffixAtDot(s: string, tail: string)
    requires forall i :: 0 <= i < |tail| ==> tail[i] != '.' && tail[i] != '/'
    requires s != [] && s[|s| - 1] == '.'
    ensures NameSuffix(FileName(s + tail)) == if tail != [] && |s| >= 2 && s[|s| - 2] != '/' then ['.'] + tail else ""
  {
    var k := NameOfAppend(s, tail);
    var name := s[k..] + tail;
    RFindSkips(s[k..], tail, '.');
    var i := RFind(name, '.');
    assert i == |s| - 1 - k;
    if tail != [] && |s| >= 2 && s[|s| - 2] != '/' {
      assert 0 < i < |name| - 1;
      DropOfAppend(s[k..], tail, i);
      assert s[k..][i..] == ['.'];
    } else {
      assert !(0 < i < |name| - 1);
    }
  }

  /** Appending slash-free characters to a path appends them to its file name; `k` is where the name starts. */
  lemma NameOfAppend(s: string, tail: string) returns (k: nat)
    requires forall i :: 0 <= i < |tail| ==> tail[i] != '/'
    ensures k == RFind(s, '/') + 1 && k <= |s|
    ensures FileName(s + tail) == s[k..] + tail
  {
    RFindSkips(s, tail, '/');
    k := RFind(s, '/') + 1;
    DropOfAppend(s, tail, k);
  }

  /** Dropping a prefix of the first part of a concatenation. */
  lemma DropOfAppend(a: string, b: string, k: nat)
    requires k <= |a|
    ensures (a + b)[k..] == a[k..] + b
  {
  }

  /** A suffix "." + tail, lower-cased and stripped of dots, is the lower-cased tail. */
  lemma DotThenTail(tail: string)
    requires tail != [] && tail[0] != '.'
    ensures LStrip(Lower(['.'] + tail), IsDot) == Lower(tail)
  {
    var suffix := ['.'] + tail;
    assert suffix[1..] == tail;
    var lowered := Lower(suffix);
    assert lowered == ['.'] + Lower(tail);
    assert lowered[1..] == Lower(tail);
    LowerCharFacts(tail[0]);
  }
}
