/**
 * The pieces of Go's text formatting the client relies on, written out
 * concretely: `[]byte(s)` and `len(s)` (UTF-8), `%d` and `strconv` for
 * integers and booleans, and `hex.EncodeToString`.
 */
module GoFmt {
  import opened Wrappers

  newtype byte = x: int | 0 <= x < 256

  newtype int64 = x: int | -0x8000_0000_0000_0000 <= x < 0x8000_0000_0000_0000

  /** Go's `/` on integers: the quotient truncated toward zero. */
  function GoQuotient(a: int, b: int): (q: int)
    requires b > 0
    ensures a >= 0 ==> q == a / b
    ensures a < 0 ==> q <= 0 && b * q - b < a <= b * q
  {
    if a >= 0 then a / b else
      var p := (-a) / b;
      assert b * p <= -a < b * p + b;
      -p
  }

  // ---------------------------------------------------------------------
  // Character classes

  predicate IsDigit(c: char) { '0' <= c <= '9' }

  predicate IsLetter(c: char) { 'a' <= c <= 'z' || 'A' <= c <= 'Z' }

  /** The class `[a-zA-Z0-9]`. */
  predicate IsAlnum(c: char) { IsLetter(c) || IsDigit(c) }

  /** The class `[0-9a-f]`. */
  predicate IsLowerHex(c: char) { '0' <= c <= '9' || 'a' <= c <= 'f' }

  predicate AllDigits(s: string) { forall i :: 0 <= i < |s| ==> IsDigit(s[i]) }

  predicate AllAlnum(s: string) { forall i :: 0 <= i < |s| ==> IsAlnum(s[i]) }

  predicate AllLowerHex(s: string) { forall i :: 0 <= i < |s| ==> IsLowerHex(s[i]) }

  // ---------------------------------------------------------------------
  // UTF-8: Go strings are byte strings; a Dafny string is a sequence of
  // Unicode scalar values, so `[]byte(s)` is the UTF-8 encoding of s.

  /**
   * The UTF-8 encoding of one character: one byte below 0x80, two below
   * 0x800, three below 0x10000 and four above; `CodePoint` reads it back.
   */
  function Utf8Char(c: char): (bs: seq<byte>)
    ensures |bs| == if c as int < 0x80 then 1 else if c as int < 0x800 then 2
                     else if c as int < 0x1_0000 then 3 else 4
    ensures c as int < 0x80 ==> bs[0] as int == c as int
    ensures LeadLength(bs[0]) == |bs| && forall i :: 1 <= i < |bs| ==> IsContinuation(bs[i])
    ensures CodePoint(bs) == c as int
  {
    var cp := c as int;
    if cp < 0x80 then [cp as byte]
    else if cp < 0x800 then TwoBytes(cp)
    else if cp < 0x1_0000 then ThreeBytes(cp)
    else FourBytes(cp)
  }

  function TwoBytes(cp: int): (bs: seq<byte>)
    requires 0x80 <= cp < 0x800
    ensures |bs| == 2 && LeadLength(bs[0]) == 2 && IsContinuation(bs[1]) && CodePoint(bs) == cp
  {
    var hi, lo := cp / 64, cp % 64;
    assert 2 <= hi < 32 && cp == hi * 64 + lo;
    [(0xC0 + hi) as byte, (0x80 + lo) as byte]
  }

  function ThreeBytes(cp: int): (bs: seq<byte>)
    requires 0x800 <= cp < 0x1_0000
    ensures |bs| == 3 && LeadLength(bs[0]) == 3 && IsContinuation(bs[1]) && IsContinuation(bs[2])
    ensures CodePoint(bs) == cp
  {
    var hi, mid, lo := cp / 4096, (cp / 64) % 64, cp % 64;
    assert 0 <= hi < 16 && cp / 64 == hi * 64 + mid && cp == (cp / 64) * 64 + lo;
    [(0xE0 + hi) as byte, (0x80 + mid) as byte, (0x80 + lo) as byte]
  }

  function FourBytes(cp: int): (bs: seq<byte>)
    requires 0x1_0000 <= cp < 0x11_0000
    ensures |bs| == 4 && LeadLength(bs[0]) == 4
    ensures IsContinuation(bs[1]) && IsContinuation(bs[2]) && IsContinuation(bs[3])
    ensures CodePoint(bs) == cp
  {
    var top, hi, mid, lo := cp / 262144, (cp / 4096) % 64, (cp / 64) % 64, cp % 64;
    assert 0 <= top < 5 && cp / 4096 == top * 64 + hi;
    assert cp / 64 == (cp / 4096) * 64 + mid && cp == (cp / 64) * 64 + lo;
    [(0xF0 + top) as byte, (0x80 + hi) as byte, (0x80 + mid) as byte, (0x80 + lo) as byte]
  }

  /** The length a UTF-8 sequence announces in its first byte (0 for a byte that cannot start one). */
  function LeadLength(b: byte): nat
  {
    if b < 0x80 then 1 else if 0xC0 <= b < 0xE0 then 2 else if 0xE0 <= b < 0xF0 then 3
    else if 0xF0 <= b < 0xF8 then 4 else 0
  }

  /** A byte of the form 10xxxxxx. */
  predicate IsContinuation(b: byte) { 0x80 <= b < 0xC0 }

  /** The code point one UTF-8 sequence encodes: the payload bits of each byte, in order. */
  function CodePoint(bs: seq<byte>): int
    requires 1 <= |bs| <= 4
  {
    var lead := bs[0] as int;
    if |bs| == 1 then lead
    else if |bs| == 2 then (lead - 0xC0) * 64 + (bs[1] as int - 0x80)
    else if |bs| == 3 then (lead - 0xE0) * 4096 + (bs[1] as int - 0x80) * 64 + (bs[2] as int - 0x80)
    else (lead - 0xF0) * 262144 + (bs[1] as int - 0x80) * 4096 + (bs[2] as int - 0x80) * 64
         + (bs[3] as int - 0x80)
  }

  predicate IsAscii(s: string) { forall i :: 0 <= i < |s| ==> s[i] as int < 0x80 }

  /** `[]byte(s)`; its length is Go's `len(s)`. */
  function Utf8(s: string): (bs: seq<byte>)
    ensures |s| <= |bs| <= 4 * |s|
    ensures IsAscii(s) ==> |bs| == |s| && forall i :: 0 <= i < |s| ==> bs[i] as int == s[i] as int
  {
    if s == [] then [] else Utf8Char(s[0]) + Utf8(s[1..])
  }

  /** Encoding a concatenation encodes each part: `len(a + b) == len(a) + len(b)` in bytes. */
  lemma {:induction false} Utf8Concat(a: string, b: string)
    ensures Utf8(a + b) == Utf8(a) + Utf8(b)
  {
    if a != [] {
      assert (a + b)[0] == a[0] && (a + b)[1..] == a[1..] + b;
      Utf8Concat(a[1..], b);
    } else {
      assert a + b == b;
    }
  }

  // ---------------------------------------------------------------------
  // Decimal integers: `%d`, `strconv.Itoa`

  function DigitChar(d: nat): (c: char)
    requires d < 10
    ensures IsDigit(c)
  {
    ('0' as int + d) as char
  }

  function DigitValue(c: char): (d: nat)
    requires IsDigit(c)
    ensures d < 10 && DigitChar(d) == c
  {
    c as int - '0' as int
  }

  /** The shortest decimal numeral of n: digits only, and no leading zero. */
  function Digits(n: nat): (s: string)
    ensures 1 <= |s| && AllDigits(s)
    ensures s[0] == '0' ==> n == 0 && |s| == 1
    decreases n
  {
    if n < 10 then [DigitChar(n)] else Digits(n / 10) + [DigitChar(n % 10)]
  }

  /** `fmt.Sprintf("%d", n)`: a '-' sign for negatives, then the digits. */
  function Decimal(n: int): (s: string)
    ensures n >= 0 ==> s == Digits(n)
    ensures n < 0 ==> |s| >= 2 && s[0] == '-' && AllDigits(s[1..]) && s[1] != '0'
  {
    if n < 0 then "-" + Digits(-n) else Digits(n)
  }

  function ParseDigits(s: string): nat
    requires AllDigits(s)
  {
    if s == [] then 0 else 10 * ParseDigits(s[..|s| - 1]) + DigitValue(s[|s| - 1])
  }

  /** Reads a numeral in the form `Decimal` writes: an optional '-', then digits. */
  function ParseDecimal(s: string): Option<int>
  {
    if |s| >= 2 && s[0] == '-' && AllDigits(s[1..]) then Some(0 - ParseDigits(s[1..]))
    else if |s| >= 1 && AllDigits(s) then Some(ParseDigits(s))
    else None
  }

  lemma {:induction false} ParseDigitsOfDigits(n: nat)
    ensures ParseDigits(Digits(n)) == n
    decreases n
  {
    var s := Digits(n);
    if n >= 10 {
      ParseDigitsOfDigits(n / 10);
      assert s[..|s| - 1] == Digits(n / 10);
      assert DigitValue(s[|s| - 1]) == n % 10;
    }
  }

  /** `%d` loses nothing: the numeral reads back as the number it was made from. */
  lemma ParseDecimalOfDecimal(n: int)
    ensures ParseDecimal(Decimal(n)) == Some(n)
  {
    var s := Decimal(n);
    if n < 0 {
      var d := Digits(-n);
      ParseDigitsOfDigits(-n);
      assert s == "-" + d && s[1..] == d;
      assert !AllDigits(s) by { assert !IsDigit(s[0]); }
    } else {
      ParseDigitsOfDigits(n);
      assert s[0] != '-';
    }
  }

  lemma DecimalInjective(m: int, n: int)
    requires Decimal(m) == Decimal(n)
    ensures m == n
  {
    ParseDecimalOfDecimal(m);
    ParseDecimalOfDecimal(n);
  }

  /** A non-negative number prints as digits only, with no sign. */
  lemma DecimalOfNonNegative(n: int)
    requires n >= 0
    ensures 1 <= |Decimal(n)| && AllDigits(Decimal(n))
  {
  }

  // ---------------------------------------------------------------------
  // Booleans: `strconv.FormatBool`

  function FormatBool(b: bool): (s: string)
    ensures s == "true" || s == "false"
  {
    if b then "true" else "false"
  }

  function ParseBool(s: string): Option<bool>
  {
    if s == "true" then Some(true) else if s == "false" then Some(false) else None
  }

  lemma ParseBoolOfFormatBool(b: bool)
    ensures ParseBool(FormatBool(b)) == Some(b)
  {
  }

  // ---------------------------------------------------------------------
  // Lower-case hexadecimal: `hex.EncodeToString`

  function HexDigit(d: nat): (c: char)
    requires d < 16
    ensures IsLowerHex(c)
  {
    if d < 10 then ('0' as int + d) as char else ('a' as int + d - 10) as char
  }

  function HexValue(c: char): (d: nat)
    requires IsLowerHex(c)
    ensures d < 16 && HexDigit(d) == c
  {
    if c <= '9' then c as int - '0' as int else c as int - 'a' as int + 10
  }

  /** Two hex digits per byte, high nibble first, lower case. */
  function Hex(bs: seq<byte>): (s: string)
    ensures |s| == 2 * |bs|
    ensures AllLowerHex(s)
  {
    if bs == [] then []
    else [HexDigit(bs[0] as int / 16), HexDigit(bs[0] as int % 16)] + Hex(bs[1..])
  }

  /** The decoder matching `Hex` (`hex.DecodeString` restricted to lower case). */
  function Unhex(s: string): Option<seq<byte>>
    decreases |s|
  {
    if s == [] then Some([])
    else if |s| < 2 || !IsLowerHex(s[0]) || !IsLowerHex(s[1]) then None
    else
      match Unhex(s[2..])
      case None => None
      case Some(rest) => Some([(16 * HexValue(s[0]) + HexValue(s[1])) as byte] + rest)
  }

  lemma {:induction false} UnhexOfHex(bs: seq<byte>)
    ensures Unhex(Hex(bs)) == Some(bs)
  {
    if bs != [] {
      var s := Hex(bs);
      assert s[2..] == Hex(bs[1..]);
      UnhexOfHex(bs[1..]);
      assert HexValue(s[0]) == bs[0] as int / 16;
      assert HexValue(s[1]) == bs[0] as int % 16;
      assert [bs[0]] + bs[1..] == bs;
    }
  }

  /** Different byte strings never share a hex encoding. */
  lemma HexInjective(a: seq<byte>, b: seq<byte>)
    requires Hex(a) == Hex(b)
    ensures a == b
  {
    UnhexOfHex(a);
    UnhexOfHex(b);
  }
}
