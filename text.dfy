/** String helpers the source takes from JavaScript: `String.includes`,
    `String.toLowerCase`, and the decimal text of a `bigint` (`BigInt(s)`
    and `n.toString()`). */
module Text {
  import opened Wrappers

  predicate OccursAt(s: string, sub: string, i: int) {
    0 <= i <= |s| - |sub| && s[i..i + |sub|] == sub
  }

  /** `s.includes(sub)`. */
  predicate Contains(s: string, sub: string) {
    exists i | 0 <= i <= |s| - |sub| :: OccursAt(s, sub, i)
  }

  lemma ContainsWitness(s: string, pre: string, sub: string, post: string)
    requires s == pre + sub + post
    ensures Contains(s, sub)
  {
    assert OccursAt(s, sub, |pre|) by {
      assert s[|pre|..|pre| + |sub|] == sub;
    }
  }

  function LowerChar(c: char): (d: char)
    ensures 'A' <= c <= 'Z' ==> 'a' <= d <= 'z'
    ensures !('A' <= c <= 'Z') ==> d == c
  {
    if 'A' <= c <= 'Z' then (c as int - 'A' as int + 'a' as int) as char else c
  }

  /** `s.toLowerCase()`, restricted to the ASCII letters. */
  function ToLower(s: string): (r: string)
    ensures |r| == |s|
    ensures forall i | 0 <= i < |s| :: r[i] == LowerChar(s[i])
  {
    if s == [] then [] else [LowerChar(s[0])] + ToLower(s[1..])
  }

  predicate IsLower(s: string) {
    forall i | 0 <= i < |s| :: !('A' <= s[i] <= 'Z')
  }

  /** Lower-casing is idempotent and leaves no upper-case letter, so a stored
      lower-cased email is found again by lower-casing any casing of it. */
  lemma ToLowerIdempotent(s: string)
    ensures IsLower(ToLower(s))
    ensures ToLower(ToLower(s)) == ToLower(s)
    ensures IsLower(s) ==> ToLower(s) == s
  {
  }

  // ---- integer texts ---------------------------------------------------------

  predicate IsDigit(c: char) { '0' <= c <= '9' }

  /** The value of `c` as a digit of a base up to 16 (either case for the
      letters), and 16 when it is a digit of none. */
  function DigitValue(c: char): (d: nat)
    ensures d <= 16
    ensures d < 10 <==> IsDigit(c)
  {
    if '0' <= c <= '9' then c as int - '0' as int
    else if 'a' <= c <= 'f' then c as int - 'a' as int + 10
    else if 'A' <= c <= 'F' then c as int - 'A' as int + 10
    else 16
  }

  function DigitChar(d: nat): (c: char)
    requires d < 10
    ensures IsDigit(c) && DigitValue(c) == d
  {
    ('0' as int + d) as char
  }

  /** Every character of `s` is a digit of `base`. */
  predicate Digits(s: string, base: nat) {
    forall i | 0 <= i < |s| :: DigitValue(s[i]) < base
  }

  /** The value of a run of digits of `base`, read left to right. */
  function DigitsValue(s: string, base: nat): nat
    requires Digits(s, base)
    decreases |s|
  {
    if s == [] then 0 else DigitsValue(s[..|s| - 1], base) * base + DigitValue(s[|s| - 1])
  }

  /** Digits of a natural number, most significant first: there is a
      leading zero only in the text of zero itself. */
  function NatDigits(n: nat): (s: string)
    ensures |s| > 0 && Digits(s, 10)
    ensures s[0] == '0' <==> n == 0
    decreases n
  {
    if n < 10 then [DigitChar(n)] else NatDigits(n / 10) + [DigitChar(n % 10)]
  }

  /** `n.toString()` for a `bigint`: the canonical decimal text, digits for
      a natural number and a minus sign before them otherwise, with no
      leading zero but in "0". */
  function DecimalString(n: int): (s: string)
    ensures |s| > 0
    ensures n >= 0 ==> Digits(s, 10) && (s[0] == '0' ==> s == "0")
    ensures n < 0 ==> |s| > 1 && s[0] == '-' && Digits(s[1..], 10) && s[1] != '0'
  {
    if n < 0 then "-" + NatDigits(-n) else NatDigits(n)
  }

  /** `StrWhiteSpaceChar` of ECMAScript: white space and line terminators. */
  predicate IsJsWhitespace(c: char) {
    c as int in {0x09, 0x0A, 0x0B, 0x0C, 0x0D, 0x20, 0xA0, 0x1680, 0x2028, 0x2029, 0x202F, 0x205F, 0x3000, 0xFEFF}
    || 0x2000 <= c as int <= 0x200A
  }

  predicate AllWhitespace(s: string) {
    forall i | 0 <= i < |s| :: IsJsWhitespace(s[i])
  }

  function TrimStart(s: string): (r: string)
    ensures |r| <= |s| && r == s[|s| - |r|..]
    ensures r != [] ==> !IsJsWhitespace(r[0])
    decreases |s|
  {
    if |s| > 0 && IsJsWhitespace(s[0]) then TrimStart(s[1..]) else s
  }

  function TrimEnd(s: string): (r: string)
    ensures |r| <= |s| && r == s[..|r|]
    ensures r != [] ==> !IsJsWhitespace(r[|r| - 1])
    decreases |s|
  {
    if |s| > 0 && IsJsWhitespace(s[|s| - 1]) then TrimEnd(s[..|s| - 1]) else s
  }

  /** `s.trim()`, with ECMAScript's white space. */
  function Trim(s: string): string {
    TrimEnd(TrimStart(s))
  }

  /** The base a prefix letter after "0" selects: `x`, `o` or `b` in either
      case, and 0 for any other character. */
  function Radix(c: char): nat {
    if c == 'x' || c == 'X' then 16 else if c == 'o' || c == 'O' then 8 else if c == 'b' || c == 'B' then 2 else 0
  }

  /** `BigInt(s)` on a string, as ECMAScript's StringToBigInt reads it:
      surrounding white space is ignored and a text of nothing else is 0; a
      "0x", "0o" or "0b" prefix in either case reads hexadecimal, octal or
      binary digits without a sign; otherwise an optional sign precedes
      decimal digits. `None` is the `SyntaxError` it throws on anything else. */
  function ParseBigInt(s: string): (r: Option<int>)
    ensures Trim(s) == [] ==> r == Some(0)
    ensures |s| > 0 && Digits(s, 10) ==> r == Some(DigitsValue(s, 10))
    ensures |s| > 1 && s[0] == '-' && Digits(s[1..], 10) ==> r.Some? && r.value + DigitsValue(s[1..], 10) == 0
    ensures |s| > 2 && s[0] == '0' && Radix(s[1]) != 0 && Digits(s[2..], Radix(s[1]))
            ==> r == Some(DigitsValue(s[2..], Radix(s[1])))
  {
    NoWhitespaceAtEnds(s);
    ParseTrimmed(Trim(s))
  }

  /** `BigInt` on a text without surrounding white space. */
  function ParseTrimmed(t: string): Option<int> {
    if t == [] then Some(0)
    else if |t| > 2 && t[0] == '0' && Radix(t[1]) != 0 && Digits(t[2..], Radix(t[1])) then
      Some(DigitsValue(t[2..], Radix(t[1])))
    else if |t| > 1 && (t[0] == '-' || t[0] == '+') && Digits(t[1..], 10) then
      var v: int := DigitsValue(t[1..], 10);
      Some(if t[0] == '-' then -v else v)
    else if Digits(t, 10) then Some(DigitsValue(t, 10))
    else None
  }

  /** A text that starts with a digit of any base or a minus sign and ends
      with a digit is its own trimmed form. */
  lemma NoWhitespaceAtEnds(s: string)
    ensures |s| > 0 && DigitValue(s[|s| - 1]) < 16 && (DigitValue(s[0]) < 16 || s[0] == '-') ==> Trim(s) == s
  {
  }

  /** Trimming the start skips any white space put before the text. */
  lemma {:induction false} TrimStartSkipsWhitespace(w: string, s: string)
    requires AllWhitespace(w)
    ensures TrimStart(w + s) == TrimStart(s)
    decreases |w|
  {
    if w == [] {
      assert w + s == s;
    } else {
      assert IsJsWhitespace(w[0]) && (w + s)[0] == w[0];
      assert TrimStart(w + s) == TrimStart((w + s)[1..]);
      assert (w + s)[1..] == w[1..] + s;
      TrimStartSkipsWhitespace(w[1..], s);
    }
  }

  /** White space before a text does not change what `BigInt` reads. */
  lemma LeadingWhitespaceIgnored(w: string, s: string)
    requires AllWhitespace(w)
    ensures ParseBigInt(w + s) == ParseBigInt(s)
  {
    TrimStartSkipsWhitespace(w, s);
  }

  lemma {:induction false} NatDigitsRoundTrip(n: nat)
    ensures DigitsValue(NatDigits(n), 10) == n
    decreases n
  {
    if n >= 10 {
      var s := NatDigits(n / 10) + [DigitChar(n % 10)];
      assert s[..|s| - 1] == NatDigits(n / 10);
      NatDigitsRoundTrip(n / 10);
    }
  }

  /** Reading back the decimal text of any integer gives that integer: the
      `toJSON` renderings of amounts and balances lose nothing. */
  lemma DecimalRoundTrip(n: int)
    ensures ParseBigInt(DecimalString(n)) == Some(n)
  {
    var s := DecimalString(n);
    if n < 0 {
      var digits := NatDigits(-n);
      assert s == "-" + digits;
      assert s[1..] == digits;
      NatDigitsRoundTrip(-n);
      assert DigitsValue(s[1..], 10) == -n;
      var r := ParseBigInt(s);
      assert r.Some? && r.value + DigitsValue(s[1..], 10) == 0;
    } else {
      assert s == NatDigits(n);
      NatDigitsRoundTrip(n);
      assert DigitsValue(s, 10) == n;
    }
  }

  /** Distinct integers have distinct decimal texts. */
  lemma DecimalStringInjective(a: int, b: int)
    requires DecimalString(a) == DecimalString(b)
    ensures a == b
  {
    DecimalRoundTrip(a);
    DecimalRoundTrip(b);
  }
}
