/**
 * The string primitives the task list relies on: JavaScript's `toLowerCase`,
 * `trim` and `includes`, and the decimal rendering a template literal gives
 * an integer.
 */
module Text {

  /** Lower-case mapping of one character, for the Basic Latin, Latin-1 and
      basic Cyrillic upper-case letters (each maps to exactly one character).
      Every other character is left as it is. */
  function LowerChar(c: char): (r: char)
    ensures IsUpper(c) ==> r as int == c as int + (if 0x400 <= c as int <= 0x40F then 0x50 else 0x20)
    ensures !IsUpper(c) ==> r == c
    ensures !IsUpper(r)
  {
    if 'A' <= c <= 'Z' then (c as int + 0x20) as char
    else if 0xC0 <= c as int <= 0xDE && c as int != 0xD7 then (c as int + 0x20) as char
    else if 0x410 <= c as int <= 0x42F then (c as int + 0x20) as char
    else if 0x400 <= c as int <= 0x40F then (c as int + 0x50) as char
    else c
  }

  /** The upper-case letters LowerChar changes. */
  predicate IsUpper(c: char) {
    'A' <= c <= 'Z'
    || (0xC0 <= c as int <= 0xDE && c as int != 0xD7)
    || 0x400 <= c as int <= 0x42F
  }

  /** `s.toLowerCase()`, character by character. */
  function ToLower(s: string): (r: string)
    ensures |r| == |s|
    ensures forall i :: 0 <= i < |s| ==> r[i] == LowerChar(s[i])
  {
    if s == [] then [] else [LowerChar(s[0])] + ToLower(s[1..])
  }

  /** Lower-casing twice is lower-casing once. */
  lemma ToLowerIdempotent(s: string)
    ensures ToLower(ToLower(s)) == ToLower(s)
  {
  }

  /** The WhiteSpace and LineTerminator characters that `trim` removes. */
  predicate IsWhitespace(c: char) {
    var n := c as int;
    (0x09 <= n <= 0x0D) || n == 0x20 || n == 0xA0 || n == 0x1680
    || (0x2000 <= n <= 0x200A) || n == 0x2028 || n == 0x2029
    || n == 0x202F || n == 0x205F || n == 0x3000 || n == 0xFEFF
  }

  predicate AllWhitespace(s: string) {
    forall k :: 0 <= k < |s| ==> IsWhitespace(s[k])
  }

  /** Drops leading whitespace: the result is a suffix of `s`. */
  function TrimStart(s: string): (r: string)
    ensures |r| <= |s| && r == s[|s| - |r|..]
    ensures AllWhitespace(s[..|s| - |r|])
    ensures r == [] || !IsWhitespace(r[0])
  {
    if s != [] && IsWhitespace(s[0]) then
      var tail := s[1..];
      var r := TrimStart(tail);
      assert forall k :: 1 <= k < |s| - |r| ==> s[k] == tail[..|tail| - |r|][k - 1];
      assert forall k :: 0 <= k < |s| - |r| ==> IsWhitespace(s[k]);
      r
    else s
  }

  /** Drops trailing whitespace: the result is a prefix of `s`. */
  function TrimEnd(s: string): (r: string)
    ensures |r| <= |s| && r == s[..|r|]
    ensures AllWhitespace(s[|r|..])
    ensures r == [] || !IsWhitespace(r[|r| - 1])
  {
    if s != [] && IsWhitespace(s[|s| - 1]) then
      var init := s[..|s| - 1];
      var r := TrimEnd(init);
      assert forall k :: |r| <= k < |s| - 1 ==> s[k] == init[|r|..][k - |r|];
      assert forall k :: |r| <= k < |s| ==> IsWhitespace(s[k]);
      r
    else s
  }

  /** `r` is `s` with whitespace-only text removed before offset `i` and
      after offset `i + |r|`. */
  predicate StrippedAt(s: string, r: string, i: int) {
    0 <= i <= |s| - |r| && r == s[i..i + |r|]
    && AllWhitespace(s[..i]) && AllWhitespace(s[i + |r|..])
  }

  /** `s.trim()`: the slice of `s` between its leading and trailing
      whitespace. It is empty exactly when `s` is all whitespace. */
  function Trim(s: string): (r: string)
    ensures exists i :: StrippedAt(s, r, i)
    ensures r == [] || (!IsWhitespace(r[0]) && !IsWhitespace(r[|r| - 1]))
    ensures r == [] <==> AllWhitespace(s)
  {
    var t := TrimStart(s);
    TrimStripped(s, t, TrimEnd(t));
    TrimEnd(t)
  }

  lemma TrimStripped(s: string, t: string, r: string)
    requires t == TrimStart(s) && r == TrimEnd(t)
    ensures StrippedAt(s, r, |s| - |t|)
    ensures r == [] <==> AllWhitespace(s)
  {
    var i := |s| - |t|;
    SliceOfSuffix(s, t, r, i);
    assert AllWhitespace(s[..i]);
    assert AllWhitespace(s[i + |r|..]);
    if r == [] {
      forall k | 0 <= k < |s|
        ensures IsWhitespace(s[k])
      {
        if k < i {
          assert s[k] == s[..i][k];
        } else {
          assert s[k] == t[k - i];
        }
      }
    } else {
      assert s[i] == r[0];
    }
  }

  lemma SliceOfSuffix(s: string, t: string, r: string, i: nat)
    requires i <= |s| && t == s[i..] && |r| <= |t| && r == t[..|r|]
    ensures r == s[i..i + |r|] && s[i + |r|..] == t[|r|..]
  {
  }

  /** Trimming a trimmed string changes nothing. */
  lemma TrimIdempotent(s: string)
    ensures Trim(Trim(s)) == Trim(s)
  {
  }

  /** `h.includes(n)`: `n` occurs in `h` as a contiguous block. */
  function Contains(h: string, n: string): (r: bool)
    ensures r ==> |n| <= |h|
    ensures |n| <= |h| && h[..|n|] == n ==> r
    decreases |h|
  {
    |n| <= |h| && (h[..|n|] == n || (h != [] && Contains(h[1..], n)))
  }

  /** `n` occurs in `h` at offset `i`. */
  predicate OccursAt(h: string, n: string, i: int) {
    0 <= i <= |h| - |n| && h[i..i + |n|] == n
  }

  /** Contains agrees with the definition by position, in both directions. */
  lemma ContainsAt(h: string, n: string)
    ensures Contains(h, n) <==> exists i :: OccursAt(h, n, i)
  {
    if Contains(h, n) {
      var i := ContainsWitness(h, n);
    }
    forall i | OccursAt(h, n, i)
      ensures Contains(h, n)
    {
      OccursContains(h, n, i);
    }
  }

  lemma {:induction false} ContainsWitness(h: string, n: string) returns (i: nat)
    requires Contains(h, n)
    ensures OccursAt(h, n, i)
    decreases |h|
  {
    if h[..|n|] == n {
      i := 0;
    } else {
      var j := ContainsWitness(h[1..], n);
      assert h[j + 1..j + 1 + |n|] == h[1..][j..j + |n|];
      i := j + 1;
    }
  }

  lemma {:induction false} OccursContains(h: string, n: string, i: int)
    requires OccursAt(h, n, i)
    ensures Contains(h, n)
    decreases i
  {
    if i > 0 {
      assert h[1..][i - 1..i - 1 + |n|] == h[i..i + |n|];
      OccursContains(h[1..], n, i - 1);
    }
  }

  /** The empty string occurs in every string. */
  lemma ContainsEmpty(h: string)
    ensures Contains(h, "")
  {
  }

  /** Value of one decimal digit character. */
  function DigitChar(d: nat): (c: char)
    requires d < 10
    ensures '0' <= c <= '9' && c as int - '0' as int == d
  {
    ('0' as int + d) as char
  }

  /** The decimal rendering of `n`, as `${n}` produces it. */
  function Decimal(n: nat): (r: string)
    ensures 1 <= |r|
    ensures forall k :: 0 <= k < |r| ==> '0' <= r[k] <= '9'
    ensures r[0] == '0' ==> n == 0
  {
    if n < 10 then [DigitChar(n)] else Decimal(n / 10) + [DigitChar(n % 10)]
  }

  /** Reads a string of decimal digits back as a number. */
  function ParseDecimal(s: string): nat
    requires forall k :: 0 <= k < |s| ==> '0' <= s[k] <= '9'
  {
    if s == [] then 0
    else ParseDecimal(s[..|s| - 1]) * 10 + (s[|s| - 1] as int - '0' as int)
  }

  /** Decimal is undone by ParseDecimal. */
  lemma {:induction false} DecimalRoundTrip(n: nat)
    ensures ParseDecimal(Decimal(n)) == n
  {
    if n >= 10 {
      var r := Decimal(n);
      assert r[..|r| - 1] == Decimal(n / 10);
      DecimalRoundTrip(n / 10);
    }
  }

  /** Different numbers have different decimal renderings. */
  lemma DecimalInjective(a: nat, b: nat)
    requires Decimal(a) == Decimal(b)
    ensures a == b
  {
    DecimalRoundTrip(a);
    DecimalRoundTrip(b);
  }
}
