/**
 * ASCII models of the JavaScript string primitives the application relies on:
 * `toLowerCase`, `toUpperCase`, `trim`, `includes` and `replace` with a string
 * pattern. Case mapping touches only 'A'..'Z' / 'a'..'z' and whitespace is the
 * ASCII set (space, tab, line feed, vertical tab, form feed, carriage return).
 */
module Text {

  predicate IsWhitespace(c: char) {
    c == ' ' || c == '\t' || c == '\n' || c == '\r' || c == '\U{0B}' || c == '\U{0C}'
  }

  /** Every character of `s` is whitespace (the empty string included). */
  ghost predicate Blank(s: string) {
    forall k :: 0 <= k < |s| ==> IsWhitespace(s[k])
  }

  predicate IsUpper(c: char) { 'A' <= c <= 'Z' }

  predicate IsLower(c: char) { 'a' <= c <= 'z' }

  function LowerChar(c: char): char {
    if IsUpper(c) then (c as int + 32) as char else c
  }

  function UpperChar(c: char): char {
    if IsLower(c) then (c as int - 32) as char else c
  }

  /** `s.toLowerCase()` over ASCII. */
  function ToLower(s: string): (r: string)
    ensures |r| == |s|
    ensures forall k :: 0 <= k < |s| ==> r[k] == LowerChar(s[k])
  {
    if s == [] then [] else [LowerChar(s[0])] + ToLower(s[1..])
  }

  /** `s.toUpperCase()` over ASCII. */
  function ToUpper(s: string): (r: string)
    ensures |r| == |s|
    ensures forall k :: 0 <= k < |s| ==> r[k] == UpperChar(s[k])
  {
    if s == [] then [] else [UpperChar(s[0])] + ToUpper(s[1..])
  }

  /** Lower-casing twice is lower-casing once. */
  lemma ToLowerIdempotent(s: string)
    ensures ToLower(ToLower(s)) == ToLower(s)
  {
    var once := ToLower(s);
    forall k | 0 <= k < |s|
      ensures ToLower(once)[k] == once[k]
    {
      assert once[k] == LowerChar(s[k]);
    }
  }

  /** Lower-casing forgets any earlier upper-casing: case does not survive `ToLower`. */
  lemma ToLowerOfToUpper(s: string)
    ensures ToLower(ToUpper(s)) == ToLower(s)
  {
    var up := ToUpper(s);
    forall k | 0 <= k < |s|
      ensures ToLower(up)[k] == ToLower(s)[k]
    {
      assert up[k] == UpperChar(s[k]);
    }
  }

  /** The number of whitespace characters `s` starts with. */
  function LeadingBlanks(s: string): (n: nat)
    ensures n <= |s|
    ensures forall k :: 0 <= k < n ==> IsWhitespace(s[k])
    ensures n < |s| ==> !IsWhitespace(s[n])
  {
    if s == [] || !IsWhitespace(s[0]) then 0 else 1 + LeadingBlanks(s[1..])
  }

  /** The number of whitespace characters `s` ends with. */
  function TrailingBlanks(s: string): (n: nat)
    ensures n <= |s|
    ensures forall k :: |s| - n <= k < |s| ==> IsWhitespace(s[k])
    ensures n < |s| ==> !IsWhitespace(s[|s| - 1 - n])
  {
    if s == [] || !IsWhitespace(s[|s| - 1]) then 0 else 1 + TrailingBlanks(s[..|s| - 1])
  }

  /**
   * `s.trim()`: the slice of `s` between its leading and its trailing
   * whitespace; empty exactly when `s` is all whitespace.
   */
  function Trim(s: string): (r: string)
    ensures r == [] <==> Blank(s)
    ensures r != [] ==> !IsWhitespace(r[0]) && !IsWhitespace(r[|r| - 1])
    ensures r != [] ==> r == s[LeadingBlanks(s)..|s| - TrailingBlanks(s)]
  {
    var i := LeadingBlanks(s);
    if i == |s| then [] else s[i..|s| - TrailingBlanks(s)]
  }

  /** A trimmed string is its own trim. */
  lemma TrimIdempotent(s: string)
    ensures Trim(Trim(s)) == Trim(s)
  {
    var t := Trim(s);
    if t != [] {
      assert LeadingBlanks(t) == 0 && TrailingBlanks(t) == 0;
    }
  }

  /** `sub` occurs in `s` starting at index `i`. */
  ghost predicate OccursAt(s: string, sub: string, i: int) {
    0 <= i && i + |sub| <= |s| && s[i..i + |sub|] == sub
  }

  /** The reference meaning of `s.includes(sub)`. */
  ghost predicate Occurs(s: string, sub: string) {
    exists i :: OccursAt(s, sub, i)
  }

  /** `s.includes(sub)`, computed by scanning. */
  function Contains(s: string, sub: string): (b: bool)
    ensures sub == [] ==> b
    ensures b ==> |sub| <= |s|
    decreases |s|
  {
    if sub <= s then true else if s == [] then false else Contains(s[1..], sub)
  }

  /** Occurrences in the tail of `s` are the occurrences in `s` shifted by one. */
  lemma OccursInTail(s: string, sub: string, i: int)
    requires s != [] && 0 <= i
    ensures OccursAt(s[1..], sub, i) <==> OccursAt(s, sub, i + 1)
  {
    if i + |sub| <= |s| - 1 {
      assert s[1..][i..i + |sub|] == s[i + 1..i + 1 + |sub|];
    }
  }

  /** The scan agrees with the reference meaning of `includes`. */
  lemma {:induction false} ContainsIff(s: string, sub: string)
    ensures Contains(s, sub) <==> Occurs(s, sub)
    decreases |s|
  {
    if sub <= s {
      assert OccursAt(s, sub, 0);
    } else if s == [] {
      assert forall i :: !OccursAt(s, sub, i);
    } else {
      ContainsIff(s[1..], sub);
      assert !OccursAt(s, sub, 0);
      if Occurs(s[1..], sub) {
        var i :| OccursAt(s[1..], sub, i);
        OccursInTail(s, sub, i);
      }
      if Occurs(s, sub) {
        var i :| OccursAt(s, sub, i);
        OccursInTail(s, sub, i - 1);
      }
    }
  }

  /** `s.replace(pattern, replacement)` with a string pattern: only the first occurrence is replaced. */
  function ReplaceFirst(s: string, pattern: string, replacement: string): (r: string)
    ensures |r| == |s| || (|pattern| <= |s| && |r| == |s| - |pattern| + |replacement|)
    decreases |s|
  {
    if pattern <= s then replacement + s[|pattern|..]
    else if s == [] then s
    else [s[0]] + ReplaceFirst(s[1..], pattern, replacement)
  }

  /** Without an occurrence nothing is replaced. */
  lemma {:induction false} ReplaceFirstAbsent(s: string, pattern: string, replacement: string)
    requires !Occurs(s, pattern)
    ensures ReplaceFirst(s, pattern, replacement) == s
    decreases |s|
  {
    if pattern <= s {
      assert OccursAt(s, pattern, 0);
    } else if s != [] {
      if Occurs(s[1..], pattern) {
        var i :| OccursAt(s[1..], pattern, i);
        OccursInTail(s, pattern, i);
      }
      ReplaceFirstAbsent(s[1..], pattern, replacement);
    }
  }

  /** With a first occurrence at `i`, exactly that occurrence is replaced. */
  lemma {:induction false} ReplaceFirstAt(s: string, pattern: string, replacement: string, i: nat)
    requires OccursAt(s, pattern, i)
    requires forall j :: 0 <= j < i ==> !OccursAt(s, pattern, j)
    ensures ReplaceFirst(s, pattern, replacement) == s[..i] + replacement + s[i + |pattern|..]
    decreases i
  {
    if i == 0 {
      assert s[..|pattern|] == pattern;
    } else {
      assert !OccursAt(s, pattern, 0);
      forall j | 0 <= j < i - 1 ensures !OccursAt(s[1..], pattern, j) {
        OccursInTail(s, pattern, j);
      }
      OccursInTail(s, pattern, i - 1);
      ReplaceFirstAt(s[1..], pattern, replacement, i - 1);
      assert [s[0]] + s[1..][..i - 1] == s[..i];
      assert s[1..][i - 1 + |pattern|..] == s[i + |pattern|..];
    }
  }
}
