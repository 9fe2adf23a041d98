/** Character and string helpers shared by the models: decimal rendering and
    parsing, ASCII case mapping, blank tests, substring search and splitting. */
module Text {
  import opened Wrappers

  predicate IsDigit(c: char) { '0' <= c <= '9' }

  predicate AllDigits(s: string) { forall i :: 0 <= i < |s| ==> IsDigit(s[i]) }

  function DigitChar(d: nat): (c: char)
    requires d < 10
    ensures IsDigit(c) && c as int - '0' as int == d
  {
    ('0' as int + d) as char
  }

  /** Decimal rendering of a natural number, as `String.valueOf` or template
      literals print it (no leading zeros). */
  function NatToString(n: nat): (s: string)
    ensures |s| >= 1 && AllDigits(s)
    ensures |s| > 1 ==> s[0] != '0'
  {
    if n < 10 then [DigitChar(n)] else NatToString(n / 10) + [DigitChar(n % 10)]
  }

  /** Decimal rendering of a signed integer. */
  function IntToString(i: int): (s: string)
    ensures |s| >= 1
    ensures i >= 0 <==> s[0] != '-'
  {
    if i >= 0 then NatToString(i) else "-" + NatToString(-i)
  }

  /** Value of a non-empty string of decimal digits. */
  function DigitsValue(s: string): nat
    requires AllDigits(s)
  {
    if s == [] then 0 else DigitsValue(s[..|s| - 1]) * 10 + (s[|s| - 1] as int - '0' as int)
  }

  /** Strict decimal parse: `None` unless `s` is a non-empty run of digits. */
  function ParseNat(s: string): (r: Option<nat>)
    ensures r.Some? <==> |s| > 0 && AllDigits(s)
  {
    if |s| > 0 && AllDigits(s) then Some(DigitsValue(s)) else None
  }

  /** Parsing the rendering of `n` gives `n` back. */
  lemma {:induction false} ParseNatToString(n: nat)
    ensures ParseNat(NatToString(n)) == Some(n)
  {
    if n >= 10 {
      ParseNatToString(n / 10);
      var s := NatToString(n);
      assert s[..|s| - 1] == NatToString(n / 10);
      assert s[|s| - 1] == DigitChar(n % 10);
      assert DigitsValue(s) == DigitsValue(NatToString(n / 10)) * 10 + n % 10;
    }
  }

  /** ASCII lower-casing of one character. */
  function LowerChar(c: char): (r: char)
    ensures !('A' <= r <= 'Z')
  {
    if 'A' <= c <= 'Z' then (c as int + 32) as char else c
  }

  /** ASCII upper-casing of one character. */
  function UpperChar(c: char): (r: char)
    ensures !('a' <= r <= 'z')
  {
    if 'a' <= c <= 'z' then (c as int - 32) as char else c
  }

  function ToLower(s: string): (r: string)
    ensures |r| == |s| && forall i :: 0 <= i < |s| ==> r[i] == LowerChar(s[i])
  {
    if s == [] then [] else [LowerChar(s[0])] + ToLower(s[1..])
  }

  /** A string without upper-case letters is its own lower-casing. */
  lemma LowerIdentity(s: string)
    requires forall i :: 0 <= i < |s| ==> !('A' <= s[i] <= 'Z')
    ensures ToLower(s) == s
  {
  }

  function ToUpper(s: string): (r: string)
    ensures |r| == |s| && forall i :: 0 <= i < |s| ==> r[i] == UpperChar(s[i])
  {
    if s == [] then [] else [UpperChar(s[0])] + ToUpper(s[1..])
  }

  predicate IsUpperWord(s: string) { forall i :: 0 <= i < |s| ==> 'A' <= s[i] <= 'Z' }

  /** An upper-case word is its own upper-casing, and so is its lower-casing. */
  lemma UpperOfLower(s: string)
    requires IsUpperWord(s)
    ensures ToUpper(s) == s && ToUpper(ToLower(s)) == s
  {
    assert forall i :: 0 <= i < |s| ==> UpperChar(LowerChar(s[i])) == s[i];
  }

  /** An ASCII white-space character. Kotlin's `isBlank()` and `trim()` also
      accept the other Unicode spaces; the JavaScript `trim()` set is
      `JsValues.JsSpace`. */
  predicate IsSpace(c: char) { c == ' ' || c == '\t' || c == '\n' || c == '\r' || c == '\U{B}' || c == '\U{C}' }

  /** `s.trim()` is empty. */
  predicate IsBlank(s: string) { forall i :: 0 <= i < |s| ==> IsSpace(s[i]) }

  /** `p` is a prefix of `s`. */
  predicate IsPrefix(p: string, s: string) { |p| <= |s| && s[..|p|] == p }

  /** `sub` occurs in `s` (JavaScript `includes`, Kotlin `contains`). */
  predicate Contains(s: string, sub: string)
    decreases |s|
  {
    IsPrefix(sub, s) || (|s| > 0 && Contains(s[1..], sub))
  }

  /** Index-based characterisation of `Contains`. */
  lemma {:induction false} ContainsAt(s: string, sub: string, i: nat)
    requires i + |sub| <= |s| && s[i..i + |sub|] == sub
    ensures Contains(s, sub)
    decreases i
  {
    if i > 0 {
      assert s[1..][i - 1..i - 1 + |sub|] == sub;
      ContainsAt(s[1..], sub, i - 1);
    }
  }

  /** Index of the first `c` in `s`, or `|s|` when absent. */
  function IndexOf(s: string, c: char): (k: nat)
    ensures k <= |s|
    ensures forall j :: 0 <= j < k ==> s[j] != c
    ensures k < |s| ==> s[k] == c
  {
    if s == [] then 0 else if s[0] == c then 0 else 1 + IndexOf(s[1..], c)
  }

  /** The first `c` in `a + b` is the head of `b` when `a` holds none. */
  lemma {:induction false} IndexOfFirst(a: string, b: string, c: char)
    requires c !in a && |b| > 0 && b[0] == c
    ensures IndexOf(a + b, c) == |a|
  {
    if a != [] {
      assert (a + b)[1..] == a[1..] + b;
      IndexOfFirst(a[1..], b, c);
    }
  }

  /** `s.split(c)` in JavaScript and Kotlin: the pieces between occurrences
      of `c`; an input without `c` is one piece. */
  function Split(s: string, c: char): (parts: seq<string>)
    ensures |parts| >= 1
    ensures forall p :: p in parts ==> c !in p
    decreases |s|
  {
    var k := IndexOf(s, c);
    if k == |s| then [s] else [s[..k]] + Split(s[k + 1..], c)
  }

  /** A piece without the separator is split off whole. */
  lemma SplitFirst(a: string, b: string, c: char)
    requires c !in a
    ensures Split(a + [c] + b, c) == [a] + Split(b, c)
  {
    var s := a + [c] + b;
    assert s == a + ([c] + b);
    IndexOfFirst(a, [c] + b, c);
    assert IndexOf(s, c) == |a| < |s|;
    assert s[..|a|] == a && s[|a| + 1..] == b;
  }

  /** A string without the separator is one piece. */
  lemma SplitNone(a: string, c: char)
    requires c !in a
    ensures Split(a, c) == [a]
  {
  }

  /** Pieces joined back with the separator. */
  function Join(parts: seq<string>, c: char): string
  {
    if parts == [] then "" else if |parts| == 1 then parts[0] else parts[0] + [c] + Join(parts[1..], c)
  }

  /** Splitting and joining on the same separator gives the input back. */
  lemma {:induction false} JoinSplit(s: string, c: char)
    ensures Join(Split(s, c), c) == s
    decreases |s|
  {
    var k := IndexOf(s, c);
    if k < |s| {
      var head, rest := s[..k], Split(s[k + 1..], c);
      var parts := [head] + rest;
      assert Split(s, c) == parts;
      assert parts[0] == head && parts[1..] == rest && |parts| > 1;
      assert Join(parts, c) == head + [c] + Join(rest, c);
      JoinSplit(s[k + 1..], c);
      assert s == head + [c] + s[k + 1..];
    } else {
      assert Split(s, c) == [s];
    }
  }

  /** Joining pieces that hold no separator and splitting again gives the
      pieces back. */
  lemma {:induction false} SplitJoin(parts: seq<string>, c: char)
    requires |parts| >= 1 && forall i :: 0 <= i < |parts| ==> c !in parts[i]
    ensures Split(Join(parts, c), c) == parts
    decreases |parts|
  {
    if |parts| == 1 {
      SplitNone(parts[0], c);
    } else {
      SplitJoin(parts[1..], c);
      SplitFirst(parts[0], Join(parts[1..], c), c);
      assert parts == [parts[0]] + parts[1..];
    }
  }
}
