/** Text operations of JavaScript and Python that the model needs, on `seq<char>`.
    Only ASCII letters are case-folded and only ASCII spacing counts as white space. */
module Strings {

  /** The white-space characters that JavaScript's `trim()` strips. */
  predicate IsSpace(c: char) {
    c == ' ' || c == '\t' || c == '\n' || c == '\r' || c == '\U{B}' || c == '\U{C}'
  }

  /** The white-space characters Python's `str.split()` splits on: those of
      `trim()` and the four separators 0x1C to 0x1F. */
  predicate IsPythonSpace(c: char) {
    IsSpace(c) || '\U{1C}' <= c <= '\U{1F}'
  }

  /** `s` with its leading white space removed. */
  function TrimStart(s: string): (r: string)
    ensures |r| <= |s| && r == s[|s| - |r|..]
    ensures r == [] || !IsSpace(r[0])
    ensures forall i :: 0 <= i < |s| - |r| ==> IsSpace(s[i])
  {
    if s != [] && IsSpace(s[0]) then TrimStart(s[1..]) else s
  }

  /** `s` with its trailing white space removed. */
  function TrimEnd(s: string): (r: string)
    ensures |r| <= |s| && r == s[..|r|]
    ensures r == [] || !IsSpace(r[|r| - 1])
    ensures forall i :: |r| <= i < |s| ==> IsSpace(s[i])
  {
    if s != [] && IsSpace(s[|s| - 1]) then TrimEnd(s[..|s| - 1]) else s
  }

  /** JavaScript `s.trim()`. */
  function Trim(s: string): (r: string)
    ensures |r| <= |s|
    ensures r == [] || (!IsSpace(r[0]) && !IsSpace(r[|r| - 1]))
  {
    TrimEnd(TrimStart(s))
  }

  /** Trimming only removes characters: what is left is a slice of `s`. */
  lemma TrimKeepsChars(s: string)
    ensures forall c :: c in Trim(s) ==> c in s
  {
    var t := TrimStart(s);
    var i := |s| - |t|;
    assert Trim(s) == t[..|Trim(s)|];
    assert t[..|Trim(s)|] == s[i..i + |Trim(s)|];
  }

  /** `!s.trim()`: the text is empty or only white space. */
  predicate IsBlank(s: string) {
    Trim(s) == []
  }

  /** A string is blank exactly when every character is white space. */
  lemma {:induction false} BlankIffAllSpace(s: string)
    ensures IsBlank(s) <==> forall i :: 0 <= i < |s| ==> IsSpace(s[i])
  {
    var t := TrimStart(s);
    if !forall i :: 0 <= i < |s| ==> IsSpace(s[i]) {
      var k :| 0 <= k < |s| && !IsSpace(s[k]);
      assert t[k - (|s| - |t|)] == s[k];
    }
  }

  /** ASCII `toLowerCase()` of one character. */
  function LowerChar(c: char): (d: char)
    ensures 'A' <= c <= 'Z' ==> 'a' <= d <= 'z'
    ensures !('A' <= c <= 'Z') ==> d == c
  {
    if 'A' <= c <= 'Z' then (c as int - 'A' as int + 'a' as int) as char else c
  }

  /** `s.toLowerCase()`, folding the ASCII letters. */
  function Lower(s: string): (r: string)
    ensures |r| == |s|
    ensures forall i :: 0 <= i < |s| ==> r[i] == LowerChar(s[i])
  {
    if s == [] then [] else [LowerChar(s[0])] + Lower(s[1..])
  }

  /** `s.startsWith(p)`. */
  predicate StartsWith(s: string, p: string) {
    |p| <= |s| && s[..|p|] == p
  }

  /** `s.endsWith(p)`. */
  predicate EndsWith(s: string, p: string) {
    |p| <= |s| && s[|s| - |p|..] == p
  }

  /** `s.includes(t)`, scanning from the left. */
  function Contains(s: string, t: string): (b: bool)
    ensures StartsWith(s, t) ==> b
    ensures b ==> |t| <= |s|
    decreases |s|
  {
    StartsWith(s, t) || (s != [] && Contains(s[1..], t))
  }

  /** `Contains` finds `t` exactly when it occurs at some position of `s`. */
  lemma {:induction false} ContainsIffOccurs(s: string, t: string)
    ensures Contains(s, t) <==> exists i :: 0 <= i <= |s| && StartsWith(s[i..], t)
    decreases |s|
  {
    if StartsWith(s, t) {
      assert s[0..] == s;
    } else if s == [] {
    } else {
      ContainsIffOccurs(s[1..], t);
      if exists i :: 0 <= i <= |s| && StartsWith(s[i..], t) {
        var i :| 0 <= i <= |s| && StartsWith(s[i..], t);
        assert i != 0 by { assert s[0..] == s; }
        assert s[1..][i - 1..] == s[i..];
      }
      if Contains(s[1..], t) {
        var j :| 0 <= j <= |s[1..]| && StartsWith(s[1..][j..], t);
        assert s[1..][j..] == s[j + 1..];
      }
    }
  }

  /** JavaScript `s.split(sep)` for a non-empty separator: the pieces between the
      occurrences of `sep`, found from the left. There is always at least one piece. */
  function SplitOn(s: string, sep: string): (parts: seq<string>)
    requires |sep| > 0
    ensures |parts| >= 1
    decreases |s|
  {
    if |s| < |sep| then [s]
    else if s[..|sep|] == sep then [[]] + SplitOn(s[|sep|..], sep)
    else
      var rest := SplitOn(s[1..], sep);
      [[s[0]] + rest[0]] + rest[1..]
  }

  /** `parts.join(sep)`. */
  function Join(parts: seq<string>, sep: string): (s: string)
    requires |parts| >= 1
  {
    if |parts| == 1 then parts[0] else parts[0] + sep + Join(parts[1..], sep)
  }

  /** Splitting loses nothing: joining the pieces with the separator restores the text. */
  lemma {:induction false} JoinSplit(s: string, sep: string)
    requires |sep| > 0
    ensures Join(SplitOn(s, sep), sep) == s
    decreases |s|
  {
    if |s| < |sep| {
    } else if s[..|sep|] == sep {
      JoinSplit(s[|sep|..], sep);
      var rest := SplitOn(s[|sep|..], sep);
      assert SplitOn(s, sep) == [[]] + rest;
      assert ([[]] + rest)[1..] == rest;
      assert s == [] + sep + s[|sep|..];
    } else {
      JoinSplit(s[1..], sep);
      var rest := SplitOn(s[1..], sep);
      var parts := [[s[0]] + rest[0]] + rest[1..];
      assert SplitOn(s, sep) == parts;
      if |rest| == 1 {
        assert s == [s[0]] + s[1..];
      } else {
        assert parts[1..] == rest[1..];
        assert Join(rest, sep) == rest[0] + sep + Join(rest[1..], sep);
        assert s == [s[0]] + s[1..];
      }
    }
  }

  /** A text without the separator comes back as one piece. */
  lemma {:induction false} SplitWithoutSeparator(s: string, sep: string)
    requires |sep| > 0 && !Contains(s, sep)
    ensures SplitOn(s, sep) == [s]
    decreases |s|
  {
    if |s| >= |sep| {
      SplitWithoutSeparator(s[1..], sep);
      assert [s[0]] + s[1..] == s;
    }
  }

  /** Splitting on a character the text does not contain gives the text back. */
  lemma {:induction false} SplitCharAbsent(s: string, c: char)
    requires c !in s
    ensures SplitOn(s, [c]) == [s]
    decreases |s|
  {
    if |s| >= 1 {
      assert s[..1] == [s[0]];
      SplitCharAbsent(s[1..], c);
      assert [s[0]] + s[1..] == s;
    }
  }

  /** Splitting on a character: the text before its first occurrence is the first
      piece, and the rest is split in turn. */
  lemma {:induction false} SplitCharHead(a: string, c: char, e: string)
    requires c !in a
    ensures SplitOn(a + [c] + e, [c]) == [a] + SplitOn(e, [c])
    decreases |a|
  {
    var s := a + [c] + e;
    if a == [] {
      assert s[..1] == [c];
      assert s[1..] == e;
    } else {
      assert s[..1] == [a[0]];
      assert s[1..] == a[1..] + [c] + e;
      SplitCharHead(a[1..], c, e);
      assert [a[0]] + a[1..] == a;
    }
  }

  /** Splitting on a character: the text after its last occurrence is the last
      piece, and there are at least two pieces. */
  lemma {:induction false} SplitCharLast(a: string, c: char, e: string)
    requires c !in e
    ensures |SplitOn(a + [c] + e, [c])| >= 2
    ensures SplitOn(a + [c] + e, [c])[|SplitOn(a + [c] + e, [c])| - 1] == e
    decreases |a|
  {
    var s := a + [c] + e;
    if a == [] {
      assert s[..1] == [c];
      assert s[1..] == e;
      SplitCharAbsent(e, c);
    } else {
      assert s[1..] == a[1..] + [c] + e;
      SplitCharLast(a[1..], c, e);
      if s[..1] != [c] {
        var rest := SplitOn(s[1..], [c]);
        assert SplitOn(s, [c]) == [[s[0]] + rest[0]] + rest[1..];
      }
    }
  }

  /** No piece of a split on a character contains that character. */
  lemma {:induction false} SplitCharPiecesFree(s: string, c: char)
    ensures forall k :: 0 <= k < |SplitOn(s, [c])| ==> c !in SplitOn(s, [c])[k]
    decreases |s|
  {
    if |s| >= 1 {
      SplitCharPiecesFree(s[1..], c);
      if s[..1] != [c] {
        var rest := SplitOn(s[1..], [c]);
        assert s[0] != c by { assert s[..1] == [s[0]]; }
        assert forall k :: 1 <= k < |rest| ==> rest[1..][k - 1] == rest[k];
      } else {
        assert s[1..] == s[|[c]|..];
      }
    }
  }

  /** Lower-casing twice is lower-casing once. */
  lemma LowerIdempotent(s: string)
    ensures Lower(Lower(s)) == Lower(s)
  {
    assert forall i :: 0 <= i < |s| ==> LowerChar(LowerChar(s[i])) == LowerChar(s[i]);
  }

  /** Python `s.split()` with no argument, first word only: the leading run of
      non-space characters after any leading white space. */
  function FirstWord(s: string): (w: string)
    ensures forall i :: 0 <= i < |w| ==> !IsPythonSpace(w[i])
    ensures |w| <= |s|
    ensures w == [] <==> forall i :: 0 <= i < |s| ==> IsPythonSpace(s[i])
  {
    if s != [] && IsPythonSpace(s[0]) then FirstWord(s[1..]) else PrefixUntilSpace(s)
  }

  /** `not s.split()`: the text has no word, which by `FirstWord`'s contract means
      that every character is Python white space. */
  predicate IsPythonBlank(s: string) {
    FirstWord(s) == []
  }

  /** The longest prefix of `s` without Python white space. */
  function PrefixUntilSpace(s: string): (w: string)
    ensures |w| <= |s| && w == s[..|w|]
    ensures forall i :: 0 <= i < |w| ==> !IsPythonSpace(w[i])
    ensures |w| == |s| || IsPythonSpace(s[|w|])
  {
    if s == [] || IsPythonSpace(s[0]) then [] else [s[0]] + PrefixUntilSpace(s[1..])
  }

  /** The decimal digit for `d`. */
  function DigitChar(d: nat): (c: char)
    requires d < 10
    ensures '0' <= c <= '9'
  {
    ('0' as int + d) as char
  }

  /** The decimal digits of `n`, as JavaScript's template literals print a whole number. */
  function NatToString(n: nat): (s: string)
    ensures |s| >= 1
    ensures forall i :: 0 <= i < |s| ==> '0' <= s[i] <= '9'
    decreases n
  {
    if n < 10 then [DigitChar(n)] else NatToString(n / 10) + [DigitChar(n % 10)]
  }

  /** The value of a string of decimal digits. */
  function DigitsValue(s: string): (n: nat)
    requires forall i :: 0 <= i < |s| ==> '0' <= s[i] <= '9'
  {
    if s == [] then 0 else DigitsValue(s[..|s| - 1]) * 10 + (s[|s| - 1] as int - '0' as int)
  }

  /** Printing a number and reading its digits back gives the number. */
  lemma {:induction false} NatToStringRoundTrip(n: nat)
    ensures DigitsValue(NatToString(n)) == n
    decreases n
  {
    if n >= 10 {
      NatToStringRoundTrip(n / 10);
      var s := NatToString(n);
      assert s[..|s| - 1] == NatToString(n / 10);
    }
  }
}
