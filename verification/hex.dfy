/** Lowercase hexadecimal text: the `{:x}` rendering of an unsigned integer
    and the two-digits-per-byte rendering of `hex::encode` (which is also how
    an md5 digest prints under `{:x}`). */
module Hex {
  import opened Prelude

  predicate IsHexDigit(c: char) {
    '0' <= c <= '9' || 'a' <= c <= 'f'
  }

  /** Only the characters `0-9a-f`; in particular no `0x` prefix and no upper case. */
  predicate IsLowerHex(s: string) {
    forall i :: 0 <= i < |s| ==> IsHexDigit(s[i])
  }

  /** What `{:x}` prints for an integer: at least one digit, and no leading
      zero unless the number itself is zero. */
  predicate IsCanonical(s: string) {
    |s| > 0 && IsLowerHex(s) && (|s| > 1 ==> s[0] != '0')
  }

  function DigitChar(d: nat): (c: char)
    requires d < 16
    ensures IsHexDigit(c)
    ensures c == '0' <==> d == 0
  {
    if d < 10 then ('0' as int + d) as char else ('a' as int + d - 10) as char
  }

  function DigitValue(c: char): (d: nat)
    requires IsHexDigit(c)
    ensures d < 16
    ensures d == 0 <==> c == '0'
  {
    if c <= '9' then c as int - '0' as int else c as int - 'a' as int + 10
  }

  lemma DigitRoundTrip(d: nat, c: char)
    requires d < 16 && IsHexDigit(c)
    ensures DigitValue(DigitChar(d)) == d
    ensures DigitChar(DigitValue(c)) == c
  {
  }

  /** `format!("{:x}", n)` for an unsigned integer `n`. */
  function FormatInt(n: nat): (s: string)
    ensures IsCanonical(s)
    ensures s[0] == '0' <==> n == 0
    decreases n
  {
    if n < 16 then [DigitChar(n)] else FormatInt(n / 16) + [DigitChar(n % 16)]
  }

  /** The value of a hexadecimal numeral, most significant digit first. */
  function ParseInt(s: string): nat
    requires IsLowerHex(s)
    decreases |s|
  {
    if |s| == 0 then 0 else ParseInt(s[..|s| - 1]) * 16 + DigitValue(s[|s| - 1])
  }

  lemma FormatZero()
    ensures FormatInt(0) == "0"
  {
  }

  /** Formatting loses nothing: the text parses back to the number. */
  lemma {:induction false} ParseFormat(n: nat)
    ensures ParseInt(FormatInt(n)) == n
    decreases n
  {
    var s := FormatInt(n);
    if n < 16 {
      assert s[..|s| - 1] == [];
      DigitRoundTrip(n, s[0]);
    } else {
      assert s[..|s| - 1] == FormatInt(n / 16);
      ParseFormat(n / 16);
      DigitRoundTrip(n % 16, s[|s| - 1]);
    }
  }

  /** A canonical numeral other than "0" denotes a positive number. */
  lemma {:induction false} CanonicalPositive(s: string)
    requires IsCanonical(s) && s[0] != '0'
    ensures ParseInt(s) > 0
    decreases |s|
  {
    if |s| > 1 {
      var p := s[..|s| - 1];
      assert p[0] == s[0];
      CanonicalPositive(p);
    } else {
      assert s[..|s| - 1] == [];
    }
  }

  /** Every canonical numeral is what `{:x}` prints for its value, so
      `FormatInt` is a bijection between numbers and canonical numerals. */
  lemma {:induction false} FormatParse(s: string)
    requires IsCanonical(s)
    ensures FormatInt(ParseInt(s)) == s
    decreases |s|
  {
    var last := s[|s| - 1];
    DigitRoundTrip(0, last);
    if |s| == 1 {
      assert s[..0] == [];
      assert s == [last];
    } else {
      var p := s[..|s| - 1];
      assert p[0] == s[0];
      CanonicalPositive(p);
      FormatParse(p);
      var n := ParseInt(s);
      assert n / 16 == ParseInt(p) && n % 16 == DigitValue(last);
      assert s == p + [last];
    }
  }

  /** Equal values print identically, and canonical texts of equal value are equal. */
  lemma CanonicalInjective(s: string, t: string)
    requires IsCanonical(s) && IsCanonical(t) && ParseInt(s) == ParseInt(t)
    ensures s == t
  {
    FormatParse(s);
    FormatParse(t);
  }

  /** `hex::encode(bytes)`: two lowercase digits per byte, high nibble first. */
  function EncodeBytes(b: seq<byte>): (s: string)
    ensures |s| == 2 * |b|
    ensures IsLowerHex(s)
    decreases |b|
  {
    if |b| == 0 then "" else [DigitChar(b[0] / 16), DigitChar(b[0] % 16)] + EncodeBytes(b[1..])
  }

  /** The inverse of `EncodeBytes` on even-length lowercase hex. */
  function DecodeBytes(s: string): (b: seq<byte>)
    requires IsLowerHex(s) && |s| % 2 == 0
    ensures |b| == |s| / 2
    decreases |s|
  {
    if |s| == 0 then [] else [DigitValue(s[0]) * 16 + DigitValue(s[1])] + DecodeBytes(s[2..])
  }

  lemma {:induction false} DecodeEncode(b: seq<byte>)
    ensures DecodeBytes(EncodeBytes(b)) == b
    decreases |b|
  {
    if |b| > 0 {
      var s := EncodeBytes(b);
      DigitRoundTrip(b[0] / 16, s[0]);
      DigitRoundTrip(b[0] % 16, s[1]);
      assert s[2..] == EncodeBytes(b[1..]);
      DecodeEncode(b[1..]);
      assert b == [b[0]] + b[1..];
    }
  }

  lemma {:induction false} EncodeDecode(s: string)
    requires IsLowerHex(s) && |s| % 2 == 0
    ensures EncodeBytes(DecodeBytes(s)) == s
    decreases |s|
  {
    if |s| > 0 {
      var b := DecodeBytes(s);
      var v := DigitValue(s[0]) * 16 + DigitValue(s[1]);
      assert b[0] == v && b[1..] == DecodeBytes(s[2..]);
      assert v / 16 == DigitValue(s[0]) && v % 16 == DigitValue(s[1]);
      DigitRoundTrip(0, s[0]);
      DigitRoundTrip(0, s[1]);
      EncodeDecode(s[2..]);
      assert s == [s[0], s[1]] + s[2..];
    }
  }

  /** Two byte strings print identically exactly when they are equal. */
  lemma EncodeInjective(a: seq<byte>, b: seq<byte>)
    ensures EncodeBytes(a) == EncodeBytes(b) <==> a == b
  {
    DecodeEncode(a);
    DecodeEncode(b);
  }
}
