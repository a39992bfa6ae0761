/** Shared value types and the Python string operations the parsers are built from.
    Strings are sequences of Unicode code points, as Python's `str` is. */
module Common {

  datatype Option<+T> = None | Some(value: T)

  /** The Python exceptions the modelled code can raise. */
  datatype Error = ValueError | IndexError | KeyError | ParsingError | RuntimeError | AttributeError

  datatype Result<+T> = Ok(value: T) | Err(error: Error)

  /** Characters for which Python's `str.isspace()` holds; a `\s` in a `str` pattern matches
      exactly these. */
  predicate IsSpace(c: char) {
    c == ' ' || ('\t' <= c <= '\r') || ('\U{1C}' <= c <= '\U{1F}') || c == '\U{85}'
    || c == '\U{A0}' || c == '\U{1680}' || ('\U{2000}' <= c <= '\U{200A}')
    || c == '\U{2028}' || c == '\U{2029}' || c == '\U{202F}' || c == '\U{205F}'
    || c == '\U{3000}'
  }

  /** Characters at which `str.splitlines()` ends a line (all of them are also spaces). */
  predicate IsLineBreak(c: char) {
    ('\n' <= c <= '\r') || ('\U{1C}' <= c <= '\U{1E}') || c == '\U{85}'
    || c == '\U{2028}' || c == '\U{2029}'
  }

  predicate IsDigit(c: char) { '0' <= c <= '9' }

  predicate IsAsciiLetter(c: char) { ('A' <= c <= 'Z') || ('a' <= c <= 'z') }

  predicate AllSpace(s: string) { forall i :: 0 <= i < |s| ==> IsSpace(s[i]) }

  predicate AllDigits(s: string) { forall i :: 0 <= i < |s| ==> IsDigit(s[i]) }

  /** `sub` occurs in `s` starting at index `i`. */
  predicate OccursAt(s: string, sub: string, i: int) {
    0 <= i <= |s| - |sub| && s[i..i + |sub|] == sub
  }

  /** `sub in s` */
  predicate Contains(s: string, sub: string) {
    exists i | 0 <= i <= |s| - |sub| :: OccursAt(s, sub, i)
  }

  /** Number of leading spaces of `s`. */
  function LeadingSpaces(s: string): (n: nat)
    ensures n <= |s|
  {
    SpacesFrom(s, 0)
  }

  /** Number of spaces in the run that starts at index `i`. */
  function SpacesFrom(s: string, i: nat): (n: nat)
    requires i <= |s|
    ensures i + n <= |s|
    decreases |s| - i
  {
    if i == |s| || !IsSpace(s[i]) then 0 else 1 + SpacesFrom(s, i + 1)
  }

  /** Number of trailing spaces of `s`. */
  function TrailingSpaces(s: string): (n: nat)
    ensures n <= |s|
  {
    SpacesBefore(s, |s|)
  }

  /** Number of spaces in the run that ends just before index `j`. */
  function SpacesBefore(s: string, j: nat): (n: nat)
    requires j <= |s|
    ensures n <= j
  {
    if j == 0 || !IsSpace(s[j - 1]) then 0 else 1 + SpacesBefore(s, j - 1)
  }

  /** The run counted from `i` is made of spaces, and the character after it is not one. */
  lemma {:induction false} SpacesFromSpec(s: string, i: nat)
    requires i <= |s|
    ensures forall k :: i <= k < i + SpacesFrom(s, i) ==> IsSpace(s[k])
    ensures i + SpacesFrom(s, i) < |s| ==> !IsSpace(s[i + SpacesFrom(s, i)])
    decreases |s| - i
  {
    if i < |s| && IsSpace(s[i]) {
      SpacesFromSpec(s, i + 1);
    }
  }

  /** The run counted back from `j` is made of spaces, and the character before it is not one. */
  lemma {:induction false} SpacesBeforeSpec(s: string, j: nat)
    requires j <= |s|
    ensures forall k :: j - SpacesBefore(s, j) <= k < j ==> IsSpace(s[k])
    ensures SpacesBefore(s, j) < j ==> !IsSpace(s[j - 1 - SpacesBefore(s, j)])
  {
    if j > 0 && IsSpace(s[j - 1]) {
      SpacesBeforeSpec(s, j - 1);
    }
  }

  /** `str.lstrip()` */
  function LStrip(s: string): string { s[LeadingSpaces(s)..] }

  /** `str.rstrip()` */
  function RStrip(s: string): string { s[..|s| - TrailingSpaces(s)] }

  /** `str.strip()`: the text between the first and the last non-space character. */
  function Strip(s: string): (r: string)
    ensures |r| <= |s|
  {
    var a := LeadingSpaces(s);
    var b := |s| - TrailingSpaces(s);
    if a < b then s[a..b] else []
  }

  /** The stripped text is empty exactly for blank strings; otherwise it neither starts nor
      ends with a space. */
  lemma StripSpec(s: string)
    ensures Strip(s) == [] <==> AllSpace(s)
    ensures Strip(s) != [] ==> !IsSpace(Strip(s)[0]) && !IsSpace(Strip(s)[|Strip(s)| - 1])
  {
    SpacesFromSpec(s, 0);
    SpacesBeforeSpec(s, |s|);
    var a, b := LeadingSpaces(s), |s| - TrailingSpaces(s);
    if a < b {
      assert Strip(s)[0] == s[a] && Strip(s)[|Strip(s)| - 1] == s[b - 1];
    }
  }

  /** The stripped text is the part of `s` that starts after the leading blanks, and only
      blanks follow it. */
  lemma StripWithin(s: string)
    ensures var a := LeadingSpaces(s);
      a + |Strip(s)| <= |s| && s[a..a + |Strip(s)|] == Strip(s)
    ensures forall i :: 0 <= i < LeadingSpaces(s) ==> IsSpace(s[i])
    ensures forall i :: LeadingSpaces(s) + |Strip(s)| <= i < |s| ==> IsSpace(s[i])
  {
    SpacesFromSpec(s, 0);
    SpacesBeforeSpec(s, |s|);
  }

  /** A non-empty sequence is its front followed by its last element. */
  lemma FrontLast<T>(s: seq<T>)
    requires s != []
    ensures s[..|s| - 1] + [s[|s| - 1]] == s
  {
  }

  /** `list(map(f, xs))` */
  function MapSeq<A, B>(f: A -> B, xs: seq<A>): (ys: seq<B>)
    ensures |ys| == |xs|
  {
    seq(|xs|, k requires 0 <= k < |xs| => f(xs[k]))
  }

  /** Mapping one more element appends its image. */
  lemma MapSeqSnoc<A, B>(f: A -> B, xs: seq<A>, i: nat)
    requires i < |xs|
    ensures MapSeq(f, xs[..i + 1]) == MapSeq(f, xs[..i]) + [f(xs[i])]
  {
    var a, b := MapSeq(f, xs[..i + 1]), MapSeq(f, xs[..i]) + [f(xs[i])];
    forall k | 0 <= k < |a|
      ensures a[k] == b[k]
    {
      assert xs[..i + 1][k] == if k < i then xs[..i][k] else xs[i];
    }
  }

  /** `str.lower()` on one character: ASCII and the Latin-1 capitals (Ä, Ö, Ü, ...). */
  function LowerChar(c: char): char {
    if 'A' <= c <= 'Z' || ('\U{C0}' <= c <= '\U{DE}' && c != '\U{D7}') then (c as int + 32) as char else c
  }

  function Lower(s: string): (r: string)
    ensures |r| == |s| && forall i :: 0 <= i < |s| ==> r[i] == LowerChar(s[i])
  {
    seq(|s|, i requires 0 <= i < |s| => LowerChar(s[i]))
  }

  /** `str.split(sep)` with a one-character separator: one more piece than there are
      separators, and an empty string gives `[""]`. */
  function Split(s: string, sep: char): (parts: seq<string>)
    ensures |parts| >= 1
  {
    if s == [] then [[]]
    else
      var rest := Split(s[1..], sep);
      if s[0] == sep then [[]] + rest else [[s[0]] + rest[0]] + rest[1..]
  }

  /** No piece holds the separator. */
  lemma {:induction false} SplitPieces(s: string, sep: char)
    ensures forall k :: 0 <= k < |Split(s, sep)| ==> sep !in Split(s, sep)[k]
  {
    if s != [] {
      SplitPieces(s[1..], sep);
      var rest := Split(s[1..], sep);
      if s[0] != sep {
        assert sep !in [s[0]] + rest[0];
      }
    }
  }

  /** A string without the separator is one piece. */
  lemma {:induction false} SplitNoSep(s: string, sep: char)
    requires sep !in s
    ensures Split(s, sep) == [s]
  {
    if s != [] {
      SplitNoSep(s[1..], sep);
      assert s == [s[0]] + s[1..];
    }
  }

  /** The text before the first separator is the first piece; the rest is split on. */
  lemma {:induction false} SplitAt(a: string, b: string, sep: char)
    requires sep !in a
    ensures Split(a + [sep] + b, sep) == [a] + Split(b, sep)
  {
    if a == [] {
      assert ([sep] + b)[1..] == b;
    } else {
      SplitAt(a[1..], b, sep);
      assert (a + [sep] + b)[1..] == a[1..] + [sep] + b;
      assert a == [a[0]] + a[1..];
    }
  }

  /** `sep.join(parts)` */
  function Join(parts: seq<string>, sep: string): string {
    if parts == [] then []
    else if |parts| == 1 then parts[0]
    else parts[0] + sep + Join(parts[1..], sep)
  }

  /** Splitting on a separator and joining with it again gives back the string. */
  lemma {:induction false} SplitJoin(s: string, sep: char)
    ensures Join(Split(s, sep), [sep]) == s
  {
    if s != [] {
      SplitJoin(s[1..], sep);
      var rest := Split(s[1..], sep);
      if s[0] == sep {
        assert s == [sep] + s[1..];
      } else if |rest| == 1 {
        assert s == [s[0]] + s[1..];
      } else {
        assert Join(rest, [sep]) == rest[0] + [sep] + Join(rest[1..], [sep]);
        assert s == [s[0]] + s[1..];
      }
    }
  }

  /** `s.replace(pat, rep)`: non-overlapping occurrences, left to right. */
  function ReplaceAll(s: string, pat: string, rep: string): string
    requires pat != []
    decreases |s|
  {
    if |s| < |pat| then s
    else if pat <= s then rep + ReplaceAll(s[|pat|..], pat, rep)
    else [s[0]] + ReplaceAll(s[1..], pat, rep)
  }

  /** Removing every occurrence of a one-character pattern leaves none of it behind. */
  lemma {:induction false} RemoveCharGone(s: string, c: char)
    ensures c !in ReplaceAll(s, [c], [])
    decreases |s|
  {
    if |s| >= 1 {
      if [c] <= s {
        RemoveCharGone(s[1..], c);
      } else {
        RemoveCharGone(s[1..], c);
        assert s[0] != c;
      }
    }
  }

  /** `re.sub(r"\s+", " ", s)`: every run of spaces becomes one blank. */
  function CollapseSpaces(s: string): (r: string)
    ensures forall i :: 0 <= i < |r| && IsSpace(r[i]) ==> r[i] == ' '
    ensures forall i :: 0 <= i < |r| - 1 && IsSpace(r[i]) ==> !IsSpace(r[i + 1])
    ensures s != [] && !IsSpace(s[0]) ==> r != [] && r[0] == s[0]
    decreases |s|
  {
    if s == [] then []
    else if IsSpace(s[0]) then
      var t := LStrip(s);
      var rest := CollapseSpaces(t);
      SpacesFromSpec(s, 0);
      assert t == [] || !IsSpace(t[0]);
      " " + rest
    else [s[0]] + CollapseSpaces(s[1..])
  }

  /** Normalises a Python slice bound against a length (negative bounds count from the end). */
  function SliceBound(i: int, n: nat): (b: nat)
    ensures b <= n
    ensures 0 <= i <= n ==> b == i
  {
    if i < 0 then (if i + n < 0 then 0 else i + n) else if i > n then n else i
  }

  /** `s[start:stop]` with Python's slicing rules. */
  function PySlice<T>(s: seq<T>, start: int, stop: int): (r: seq<T>)
    ensures |r| <= |s|
    ensures 0 <= start <= stop <= |s| ==> r == s[start..stop]
  {
    var a := SliceBound(start, |s|);
    var b := SliceBound(stop, |s|);
    if a < b then s[a..b] else []
  }

  /** `int(s)` for a string of ASCII digits. */
  function DigitsValue(s: string): (v: nat)
    requires AllDigits(s)
  {
    if s == [] then 0 else DigitsValue(s[..|s| - 1]) * 10 + (s[|s| - 1] as int - '0' as int)
  }

  /** `str(n)` for a natural number. */
  function NatToString(n: nat): (s: string)
    ensures s != [] && AllDigits(s)
    ensures n > 0 ==> s[0] != '0'
    decreases n
  {
    var d := [('0' as int + n % 10) as char];
    if n < 10 then d
    else
      var s := NatToString(n / 10) + d;
      assert s[0] == NatToString(n / 10)[0];
      s
  }

  /** `int(str(n)) == n` */
  lemma {:induction false} NatToStringRoundTrip(n: nat)
    ensures DigitsValue(NatToString(n)) == n
    decreases n
  {
    if n >= 10 {
      NatToStringRoundTrip(n / 10);
      var s := NatToString(n);
      assert s[..|s| - 1] == NatToString(n / 10);
    }
  }

  /** `str.splitlines()`: lines without their terminators; `\r\n` ends one line; a final
      terminator does not start an empty line. */
  function SplitLines(s: string): (lines: seq<string>)
    ensures forall k, i :: 0 <= k < |lines| && 0 <= i < |lines[k]| ==> !IsLineBreak(lines[k][i])
    decreases |s|
  {
    if s == [] then []
    else
      var e := LineEnd(s, 0);
      if e == |s| then [s]
      else
        var t := if s[e] == '\r' && e + 1 < |s| && s[e + 1] == '\n' then 2 else 1;
        [s[..e]] + SplitLines(s[e + t..])
  }

  /** Index of the first line break at or after `i`, or `|s|`. */
  function LineEnd(s: string, i: nat): (e: nat)
    requires i <= |s|
    ensures i <= e <= |s|
    ensures e < |s| ==> IsLineBreak(s[e])
    ensures forall j :: i <= j < e ==> !IsLineBreak(s[j])
    decreases |s| - i
  {
    if i == |s| || IsLineBreak(s[i]) then i else LineEnd(s, i + 1)
  }

  /** Character classes that regular expressions are built from (`\d` read as ASCII digits). */
  datatype CharClass = Digit | Letter | Comma | Space | DecimalMark

  predicate InClass(c: char, cls: CharClass) {
    match cls
    case Digit => IsDigit(c)
    case Letter => IsAsciiLetter(c)
    case Comma => c == ','
    case Space => IsSpace(c)
    case DecimalMark => c == ',' || c == '.'
  }

  /** Index of the first character at or after `i` in class `cls`, or `|w|`. */
  function FirstIn(w: string, i: nat, cls: CharClass): (j: nat)
    requires i <= |w|
    ensures i <= j <= |w| && (j < |w| ==> InClass(w[j], cls)) && forall k :: i <= k < j ==> !InClass(w[k], cls)
    decreases |w| - i
  {
    if i == |w| || InClass(w[i], cls) then i else FirstIn(w, i + 1, cls)
  }

  /** End of the run of characters in class `cls` that starts at `i`. */
  function RunEnd(w: string, i: nat, cls: CharClass): (j: nat)
    requires i <= |w|
    ensures i <= j <= |w| && (j < |w| ==> !InClass(w[j], cls)) && forall k :: i <= k < j ==> InClass(w[k], cls)
    decreases |w| - i
  {
    if i == |w| || !InClass(w[i], cls) then i else RunEnd(w, i + 1, cls)
  }

  /** A run of digits is a digit string. */
  lemma SliceDigits(w: string, i: nat, j: nat)
    requires i <= j <= |w| && forall k :: i <= k < j ==> InClass(w[k], Digit)
    ensures AllDigits(w[i..j])
  {
    assert forall k :: 0 <= k < j - i ==> w[i..j][k] == w[i + k];
  }

  /** The value of the digit at `k`, or 0 past the end or at a non-digit. */
  function DigitAt(s: string, k: nat): int {
    if k < |s| && IsDigit(s[k]) then s[k] as int - '0' as int else 0
  }

  /** The decimal comma form of an amount of cents. */
  function FormatPrice(cents: nat): string {
    NatToString(cents / 100) + "," + [('0' as int + cents % 100 / 10) as char, ('0' as int + cents % 10) as char]
  }

  /** An amount of cents is its euros, tenths and hundredths. */
  lemma CentsDigits(cents: nat)
    ensures cents == cents / 100 * 100 + cents % 100 / 10 * 10 + cents % 10
  {
    var q := cents / 100;
    var rem := cents % 100;
    assert rem % 10 == cents % 10 by {
      assert cents == (q * 10) * 10 + rem;
    }
  }

  /** The integer part of a formatted price runs up to its comma. */
  lemma FormatPriceParts(cents: nat)
    ensures var e := NatToString(cents / 100); var t := FormatPrice(cents);
      t[..|e|] == e && |t| == |e| + 3 && t[|e|] == ','
      && RunEnd(t, 0, Digit) == |e| && FirstIn(t, 0, Comma) == |e| && FirstIn(t, 0, DecimalMark) == |e|
  {
    var e := NatToString(cents / 100);
    var t := FormatPrice(cents);
    assert t[..|e|] == e;
    assert t[|e|] == ',';
    assert forall k :: 0 <= k < |e| ==>
      t[k] == e[k] && InClass(t[k], Digit) && !InClass(t[k], Comma) && !InClass(t[k], DecimalMark);
    assert !InClass(t[|e|], Digit) && InClass(t[|e|], Comma) && InClass(t[|e|], DecimalMark);
  }
}
