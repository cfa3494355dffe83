/**
 * The string operations the components apply to user text and record fields:
 * `toLowerCase`, `includes` on strings, the emptiness test `!s.trim()`, and the
 * decimal rendering of an index inside a template literal.
 */
module Text {

  // ---------------------------------------------------------------- case folding

  /** Lower-cases one character; only the ASCII letters A-Z have a lower-case form here. */
  function LowerChar(c: char): char
  {
    if 'A' <= c <= 'Z' then (c as int + 32) as char else c
  }

  /** `toLowerCase`, character by character. */
  function Lower(s: string): (r: string)
    ensures |r| == |s|
    ensures forall i | 0 <= i < |s| :: r[i] == LowerChar(s[i])
  {
    seq(|s|, i requires 0 <= i < |s| => LowerChar(s[i]))
  }

  /** Lower-casing distributes over concatenation. */
  lemma LowerConcat(a: string, b: string)
    ensures Lower(a + b) == Lower(a) + Lower(b)
  {
    assert forall i | 0 <= i < |a + b| :: Lower(a + b)[i] == (Lower(a) + Lower(b))[i];
  }

  /** Lower-casing twice is lower-casing once. */
  lemma LowerIdempotent(s: string)
    ensures Lower(Lower(s)) == Lower(s)
  {
    assert forall i | 0 <= i < |s| :: Lower(Lower(s))[i] == Lower(s)[i];
  }

  // ---------------------------------------------------------------- substring test

  /** `h.includes(n)`: `n` occurs contiguously somewhere in `h`. */
  function Contains(h: string, n: string): bool
    decreases |h|
  {
    if |n| > |h| then false
    else if h[..|n|] == n then true
    else Contains(h[1..], n)
  }

  lemma {:induction false} ContainsExtendRight(b: string, c: string, n: string)
    requires Contains(b, n)
    ensures Contains(b + c, n)
    decreases |b|
  {
    assert (b + c)[..|n|] == b[..|n|];
    if b[..|n|] != n {
      assert (b + c)[1..] == b[1..] + c;
      ContainsExtendRight(b[1..], c, n);
    }
  }

  lemma {:induction false} ContainsExtendLeft(a: string, b: string, n: string)
    requires Contains(b, n)
    ensures Contains(a + b, n)
    decreases |a|
  {
    if a == [] {
      assert a + b == b;
    } else {
      assert (a + b)[1..] == a[1..] + b;
      ContainsExtendLeft(a[1..], b, n);
    }
  }

  /** A string that occurs in `b` occurs in any string built around `b`. */
  lemma ContainsInfix(a: string, b: string, c: string, n: string)
    requires Contains(b, n)
    ensures Contains(a + b + c, n)
  {
    ContainsExtendRight(b, c, n);
    ContainsExtendLeft(a, b + c, n);
    assert a + b + c == a + (b + c);
  }

  // ---------------------------------------------------------------- trim

  /** The characters `String.prototype.trim` removes: ECMAScript WhiteSpace and LineTerminator. */
  predicate IsWhiteSpace(c: char)
  {
    var u := c as int;
    (0x09 <= u <= 0x0D) || u == 0x20 || u == 0xA0 || u == 0x1680 ||
    (0x2000 <= u <= 0x200A) || u == 0x2028 || u == 0x2029 || u == 0x202F ||
    u == 0x205F || u == 0x3000 || u == 0xFEFF
  }

  /** Every character is white space (the empty string included). */
  predicate IsBlank(s: string)
  {
    forall i | 0 <= i < |s| :: IsWhiteSpace(s[i])
  }

  function TrimStart(s: string): (r: string)
    ensures r == [] || !IsWhiteSpace(r[0])
  {
    if s != [] && IsWhiteSpace(s[0]) then TrimStart(s[1..]) else s
  }

  function TrimEnd(s: string): string
  {
    if s != [] && IsWhiteSpace(s[|s| - 1]) then TrimEnd(s[..|s| - 1]) else s
  }

  /** `String.prototype.trim`: drop leading, then trailing, white space. */
  function Trim(s: string): string
  {
    TrimEnd(TrimStart(s))
  }

  lemma {:induction false} TrimStartEmpty(s: string)
    ensures TrimStart(s) == [] <==> IsBlank(s)
  {
    if s != [] && IsWhiteSpace(s[0]) {
      TrimStartEmpty(s[1..]);
      assert forall i | 1 <= i < |s| :: s[i] == s[1..][i - 1];
    }
  }

  lemma {:induction false} TrimEndEmpty(s: string)
    ensures TrimEnd(s) == [] <==> IsBlank(s)
  {
    if s != [] && IsWhiteSpace(s[|s| - 1]) {
      TrimEndEmpty(s[..|s| - 1]);
    }
  }

  /** `s.trim()` is empty (falsy) exactly when `s` consists of white space only. */
  lemma TrimEmptyIffBlank(s: string)
    ensures Trim(s) == [] <==> IsBlank(s)
  {
    TrimStartEmpty(s);
    var t := TrimStart(s);
    TrimEndEmpty(t);
    if t != [] {
      assert !IsWhiteSpace(t[0]);
    }
  }

  // ---------------------------------------------------------------- decimal numbers

  function DigitChar(d: nat): (c: char)
    requires d < 10
    ensures '0' <= c <= '9'
  {
    "0123456789"[d]
  }

  function DigitValue(c: char): nat
  {
    if '0' <= c <= '9' then c as int - '0' as int else 0
  }

  /** The decimal text of a non-negative integer, as a template literal renders it. */
  function NatToString(n: nat): (s: string)
    ensures s != []
    ensures forall i | 0 <= i < |s| :: '0' <= s[i] <= '9'
  {
    if n < 10 then [DigitChar(n)] else NatToString(n / 10) + [DigitChar(n % 10)]
  }

  /** Reads a string of decimal digits back as a number. */
  function ParseDigits(s: string): nat
  {
    if s == [] then 0 else ParseDigits(s[..|s| - 1]) * 10 + DigitValue(s[|s| - 1])
  }

  /** Reading back the decimal text of `n` gives `n`. */
  lemma {:induction false} ParseNatToString(n: nat)
    ensures ParseDigits(NatToString(n)) == n
  {
    if n >= 10 {
      var s := NatToString(n);
      assert s[..|s| - 1] == NatToString(n / 10);
      ParseNatToString(n / 10);
    }
  }

  /** Distinct indices render as distinct texts. */
  lemma NatToStringInjective(m: nat, n: nat)
    requires NatToString(m) == NatToString(n)
    ensures m == n
  {
    ParseNatToString(m);
    ParseNatToString(n);
  }

  /** In `a + sep + s` with no `sep` in `s`, the last separator stands right before `s`. */
  lemma LastSeparator(a: string, s: string, sep: char)
    requires sep !in s
    ensures var w := a + [sep] + s;
      w[|w| - 1 - |s|] == sep && forall i | |w| - |s| <= i < |w| :: w[i] != sep
  {
    var w := a + [sep] + s;
    forall i | |w| - |s| <= i < |w| ensures w[i] != sep {
      assert w[i] == s[i - (|w| - |s|)];
    }
  }

  /**
   * A string of the form `a + sep + s`, where `s` holds no `sep`, splits at its
   * last separator in one way only.
   */
  lemma SplitAtLastSeparator(a: string, s: string, b: string, t: string, sep: char)
    requires sep !in s && sep !in t
    requires a + [sep] + s == b + [sep] + t
    ensures a == b && s == t
  {
    var w := a + [sep] + s;
    LastSeparator(a, s, sep);
    LastSeparator(b, t, sep);
    assert |s| == |t|;
    assert s == w[|w| - |s|..];
    assert a == w[..|a|];
  }
}
