/** The Python string operations the bot relies on, restated over `seq<char>`:
    `str.strip()`, `re.search(r'\d', s)`, `s.split(p)[1]`, the substring test
    `sub in s`, `str(n)` for a natural number, `s.replace(a, b)` for one character
    and `str.title()`. Whitespace, digits and letter case are ASCII only (see `IsSpace`
    and `HasDigit` for what that leaves out). */
module Strings {

  /** The whitespace this model trims: space, tab, line feed, vertical tab, form feed and
      carriage return. Python's `str.strip()` also removes the separators `\x1c`-`\x1f`,
      `\x85` and the Unicode spaces, which are not modelled. */
  predicate IsSpace(c: char) {
    c == ' ' || c == '\t' || c == '\n' || c == '\U{B}' || c == '\U{C}' || c == '\r'
  }

  /** The number of whitespace characters `s` starts with. */
  function LeadingSpaces(s: string): (n: nat)
    ensures n <= |s|
    ensures forall i :: 0 <= i < n ==> IsSpace(s[i])
    ensures n < |s| ==> !IsSpace(s[n])
  {
    if s != [] && IsSpace(s[0]) then 1 + LeadingSpaces(s[1..]) else 0
  }

  /** The number of whitespace characters `s` ends with. */
  function TrailingSpaces(s: string): (n: nat)
    ensures n <= |s|
    ensures forall i :: |s| - n <= i < |s| ==> IsSpace(s[i])
    ensures n < |s| ==> !IsSpace(s[|s| - 1 - n])
  {
    if s != [] && IsSpace(s[|s| - 1]) then 1 + TrailingSpaces(s[..|s| - 1]) else 0
  }

  /** Python's `s.strip()`: the infix of `s` between its leading and its trailing whitespace. */
  function Strip(s: string): (r: string)
    ensures |r| <= |s|
    ensures r != [] ==> !IsSpace(r[0]) && !IsSpace(r[|r| - 1])
    ensures r == [] <==> forall i :: 0 <= i < |s| ==> IsSpace(s[i])
    ensures s == [] || (!IsSpace(s[0]) && !IsSpace(s[|s| - 1])) ==> r == s
    ensures LeadingSpaces(s) + |r| <= |s|
    ensures forall j :: 0 <= j < |r| ==> r[j] == s[LeadingSpaces(s) + j]
    ensures forall i :: LeadingSpaces(s) + |r| <= i < |s| ==> IsSpace(s[i])
  {
    var a := LeadingSpaces(s);
    var t := s[a..];
    var r := t[..|t| - TrailingSpaces(t)];
    SpacesAfterInfix(s, a, |r|);
    r
  }

  /** Whitespace that follows the first `k` characters of the suffix from `a` follows the
      slice from `a` to `a + k` in `s` itself. */
  lemma SpacesAfterInfix(s: string, a: nat, k: nat)
    requires a + k <= |s|
    requires forall i :: k <= i < |s| - a ==> IsSpace(s[a..][i])
    ensures forall i :: a + k <= i < |s| ==> IsSpace(s[i])
  {
    forall i | a + k <= i < |s| ensures IsSpace(s[i]) {
      assert s[i] == s[a..][i - a];
    }
  }

  /** Stripping twice is stripping once. */
  lemma StripIdempotent(s: string)
    ensures Strip(Strip(s)) == Strip(s)
  {
  }

  /** Python's `re.search(r'\d', s) is not None`, for the ASCII digits 0-9 only; the other
      Unicode decimal digits that `\d` also matches are not modelled. */
  predicate HasDigit(s: string) {
    exists i :: 0 <= i < |s| && '0' <= s[i] <= '9'
  }

  /** `p` occurs in `s` starting at index `i`. */
  predicate OccursAt(s: string, p: string, i: int) {
    0 <= i && i + |p| <= |s| && s[i..i + |p|] == p
  }

  /** Python's `sub in s`. */
  predicate Contains(s: string, sub: string) {
    exists i :: 0 <= i <= |s| && OccursAt(s, sub, i)
  }

  /** An occurrence at `i` in `s` is one at `i - 1` in `s` without its first element. */
  lemma OccursShift(s: string, p: string, i: int)
    requires 1 <= i && s != []
    ensures OccursAt(s, p, i) <==> OccursAt(s[1..], p, i - 1)
  {
    if i + |p| <= |s| {
      var a, b := s[i..i + |p|], s[1..][i - 1..i - 1 + |p|];
      assert |a| == |b| && forall k :: 0 <= k < |a| ==> a[k] == s[i + k] == b[k];
    }
  }

  /** The text of `s` before the first occurrence of `p` (all of `s` when `p` does not occur). */
  function BeforeFirst(s: string, p: string): (r: string)
    requires p != []
    ensures |r| <= |s| && r == s[..|r|]
    ensures forall i :: 0 <= i < |r| ==> !OccursAt(s, p, i)
    ensures r == s || OccursAt(s, p, |r|)
    decreases |s|
  {
    if |s| < |p| then s
    else if s[..|p|] == p then []
    else
      var rest := BeforeFirst(s[1..], p);
      assert forall i :: 1 <= i <= |rest| + 1 ==> (OccursAt(s, p, i) <==> OccursAt(s[1..], p, i - 1)) by {
        forall i | 1 <= i <= |rest| + 1 {
          OccursShift(s, p, i);
        }
      }
      assert [s[0]] + rest == s[..|rest| + 1];
      [s[0]] + rest
  }

  /** Python's `s.split(p)[1]` for a callback payload that starts with the prefix `p`:
      the text after the prefix, up to the next occurrence of the prefix. */
  function AfterPrefix(s: string, p: string): (r: string)
    requires p != [] && p <= s
    ensures |p| + |r| <= |s| && r == s[|p|..|p| + |r|]
  {
    BeforeFirst(s[|p|..], p)
  }

  /** A payload built as prefix plus key gives the key back, as long as the key
      does not itself contain the prefix. */
  lemma AfterPrefixOfJoined(p: string, key: string)
    requires p != []
    requires forall i :: !OccursAt(key, p, i)
    ensures p <= p + key && AfterPrefix(p + key, p) == key
  {
    assert (p + key)[|p|..] == key;
  }

  /** A key shorter than the prefix cannot contain it. */
  lemma ShortKeyHasNoOccurrence(p: string, key: string)
    requires |key| < |p|
    ensures forall i :: !OccursAt(key, p, i)
  {
  }

  /** The decimal digit for `d`. */
  function Digit(d: nat): char
    requires d < 10
  {
    "0123456789"[d]
  }

  /** Python's `str(n)` for a natural number: its decimal digits, without leading zeros. */
  function DecimalString(n: nat): (r: string)
    ensures r != []
    ensures forall i :: 0 <= i < |r| ==> '0' <= r[i] <= '9'
  {
    if n < 10 then [Digit(n)] else DecimalString(n / 10) + [Digit(n % 10)]
  }

  /** The number a string of decimal digits denotes. */
  function DecimalValue(s: string): nat
    requires forall i :: 0 <= i < |s| ==> '0' <= s[i] <= '9'
  {
    if s == [] then 0 else DecimalValue(s[..|s| - 1]) * 10 + (s[|s| - 1] as int - '0' as int)
  }

  /** Reading the digits back gives the number: `DecimalString` loses nothing. */
  lemma {:induction false} DecimalRoundTrip(n: nat)
    ensures DecimalValue(DecimalString(n)) == n
  {
    if n >= 10 {
      var s := DecimalString(n);
      assert s[..|s| - 1] == DecimalString(n / 10);
      DecimalRoundTrip(n / 10);
    }
  }

  /** Python's `s.replace(a, b)` for single characters. */
  function ReplaceChar(s: string, a: char, b: char): (r: string)
    ensures |r| == |s|
    ensures forall i :: 0 <= i < |s| ==> r[i] == (if s[i] == a then b else s[i])
  {
    if s == [] then [] else [if s[0] == a then b else s[0]] + ReplaceChar(s[1..], a, b)
  }

  predicate IsUpper(c: char) { 'A' <= c <= 'Z' }
  predicate IsLower(c: char) { 'a' <= c <= 'z' }
  predicate IsLetter(c: char) { IsUpper(c) || IsLower(c) }

  function ToUpper(c: char): char {
    if IsLower(c) then (c as int - 'a' as int + 'A' as int) as char else c
  }

  function ToLower(c: char): char {
    if IsUpper(c) then (c as int - 'A' as int + 'a' as int) as char else c
  }

  /** The case `str.title()` gives to `c` when the character before it is (or is not) a letter. */
  function TitleChar(c: char, afterLetter: bool): char {
    if IsLetter(c) then (if afterLetter then ToLower(c) else ToUpper(c)) else c
  }

  /** `str.title()` applied to `s` when the text before `s` ended in a letter (or not). */
  function TitleFrom(s: string, afterLetter: bool): (r: string)
    ensures |r| == |s|
    ensures forall i :: 0 <= i < |s| ==>
      r[i] == TitleChar(s[i], if i == 0 then afterLetter else IsLetter(s[i - 1]))
  {
    if s == [] then [] else [TitleChar(s[0], afterLetter)] + TitleFrom(s[1..], IsLetter(s[0]))
  }

  /** Python's `s.title()`: every letter that starts a word is upper case, every other letter lower case. */
  function Title(s: string): (r: string)
    ensures |r| == |s|
    ensures forall i :: 0 <= i < |s| && IsLetter(s[i]) && (i == 0 || !IsLetter(s[i - 1])) ==> r[i] == ToUpper(s[i])
    ensures forall i :: 0 < i < |s| && IsLetter(s[i]) && IsLetter(s[i - 1]) ==> r[i] == ToLower(s[i])
    ensures forall i :: 0 <= i < |s| && !IsLetter(s[i]) ==> r[i] == s[i]
  {
    var r := TitleFrom(s, false);
    assert forall i :: 0 <= i < |s| && !IsLetter(s[i]) ==> r[i] == s[i] by {
      forall i | 0 <= i < |s| && !IsLetter(s[i]) ensures r[i] == s[i] {
        assert r[i] == TitleChar(s[i], if i == 0 then false else IsLetter(s[i - 1]));
      }
    }
    r
  }

  /** The first index of `c` in `t`. */
  function IndexOf(t: string, c: char): (k: nat)
    requires c in t
    ensures k < |t| && t[k] == c
    ensures forall i :: 0 <= i < k ==> t[i] != c
  {
    if t[0] == c then 0 else 1 + IndexOf(t[1..], c)
  }

  /** `"\n".join(parts)`. */
  function JoinLines(parts: seq<string>): (r: string)
    ensures parts == [] ==> r == []
    ensures parts != [] ==> parts[0] <= r
    ensures |parts| == 1 ==> r == parts[0]
  {
    if parts == [] then []
    else if |parts| == 1 then parts[0]
    else parts[0] + "\n" + JoinLines(parts[1..])
  }

  /** `s.split("\n")`: the pieces between newlines, always at least one. */
  function SplitLines(s: string): (r: seq<string>)
    ensures |r| >= 1
    ensures forall i :: 0 <= i < |r| ==> '\n' !in r[i]
    decreases |s|
  {
    if '\n' !in s then [s]
    else
      var k := IndexOf(s, '\n');
      [s[..k]] + SplitLines(s[k + 1..])
  }

  /** No part holds a newline. */
  predicate NoNewlines(parts: seq<string>) {
    forall i :: 0 <= i < |parts| ==> '\n' !in parts[i]
  }

  /** Joining lines that hold no newline can be undone by splitting on newlines. */
  lemma {:induction false} SplitJoinLines(parts: seq<string>)
    requires parts != []
    requires NoNewlines(parts)
    ensures SplitLines(JoinLines(parts)) == parts
  {
    if |parts| > 1 {
      var p, tail := parts[0], parts[1..];
      assert NoNewlines(tail) by {
        forall i | 0 <= i < |tail| ensures '\n' !in tail[i] {
          assert tail[i] == parts[i + 1];
        }
      }
      SplitJoinLines(tail);
      assert SplitLines(JoinLines(parts)) == [p] + SplitLines(JoinLines(tail)) by {
        assert JoinLines(parts) == p + "\n" + JoinLines(tail);
        SplitFirstLine(p, JoinLines(tail));
      }
      assert parts == [p] + tail;
    }
  }

  /** Splitting a line without a newline, a newline and a rest gives that line followed by
      the pieces of the rest. */
  lemma SplitFirstLine(p: string, rest: string)
    requires '\n' !in p
    ensures SplitLines(p + "\n" + rest) == [p] + SplitLines(rest)
  {
    var s := p + "\n" + rest;
    assert s[|p|] == '\n';
    assert forall i :: 0 <= i < |p| ==> s[i] == p[i];
    var k := IndexOf(s, '\n');
    assert k == |p|;
    assert s[..k] == p;
    assert s[k + 1..] == rest;
  }

  /** A text that lacks one of the characters of `p` holds no occurrence of `p`. */
  lemma NoOccurrenceWithoutChar(key: string, p: string, c: char)
    requires c in p && c !in key
    ensures forall i :: !OccursAt(key, p, i)
  {
  }
}
