/**
 The base64 codec the gateway calls for request ids: the URL-safe alphabet of section 5 of
 RFC 4648 and, as section 3.2 of that RFC permits, no padding.  Three bytes are four characters,
 so lengths divisible by three never need padding.
 */
module Base64Url {
  import opened Wrappers

  type Byte = x: int | 0 <= x < 256
  type Digit = x: int | 0 <= x < 64

  // the alphabet

  predicate InAlphabet(c: char) {
    'A' <= c <= 'Z' || 'a' <= c <= 'z' || '0' <= c <= '9' || c == '-' || c == '_'
  }

  function DigitToChar(d: Digit): (c: char)
    ensures InAlphabet(c)
  {
    if d < 26 then 'A' + d as char
    else if d < 52 then 'a' + (d - 26) as char
    else if d < 62 then '0' + (d - 52) as char
    else if d == 62 then '-'
    else '_'
  }

  function CharToDigit(c: char): Digit
    requires InAlphabet(c)
  {
    if 'A' <= c <= 'Z' then (c - 'A') as int
    else if 'a' <= c <= 'z' then (c - 'a') as int + 26
    else if '0' <= c <= '9' then (c - '0') as int + 52
    else if c == '-' then 62
    else 63
  }

  lemma AlphabetIsABijection()
    ensures forall d: Digit :: CharToDigit(DigitToChar(d)) == d
    ensures forall c :: InAlphabet(c) ==> DigitToChar(CharToDigit(c)) == c
  {
  }

  /** The table of RFC 4648: capitals, small letters and figures, each in order, then minus and underscore. */
  lemma AlphabetOfRfc4648(d: Digit)
    ensures DigitToChar(0) == 'A' && DigitToChar(26) == 'a' && DigitToChar(52) == '0'
    ensures DigitToChar(62) == '-' && DigitToChar(63) == '_'
    ensures d !in {25, 51, 61, 62, 63} ==> DigitToChar(d + 1) as int == DigitToChar(d) as int + 1
  {
  }

  function Text(digits: seq<Digit>): (s: string)
    ensures |s| == |digits|
  {
    seq(|digits|, i requires 0 <= i < |digits| => DigitToChar(digits[i]))
  }

  predicate AllInAlphabet(s: string) {
    forall i :: 0 <= i < |s| ==> InAlphabet(s[i])
  }

  function Digits(s: string): (digits: seq<Digit>)
    requires AllInAlphabet(s)
    ensures |digits| == |s|
  {
    seq(|s|, i requires 0 <= i < |s| => CharToDigit(s[i]))
  }

  lemma TextDigits(digits: seq<Digit>, s: string)
    requires AllInAlphabet(s)
    ensures AllInAlphabet(Text(digits)) && Digits(Text(digits)) == digits
    ensures Text(Digits(s)) == s
  {
    AlphabetIsABijection();
  }

  // regrouping three bytes as four digits of six bits

  function Sextets(b0: Byte, b1: Byte, b2: Byte): (digits: seq<Digit>)
    ensures |digits| == 4
  {
    [b0 / 4, b0 % 4 * 16 + b1 / 16, b1 % 16 * 4 + b2 / 64, b2 % 64]
  }

  function Octets(d0: Digit, d1: Digit, d2: Digit, d3: Digit): (b: seq<Byte>)
    ensures |b| == 3
  {
    var b: seq<Byte> := [d0 * 4 + d1 / 16, d1 % 16 * 16 + d2 / 4, d2 % 4 * 64 + d3];
    b
  }

  lemma OctetsSextets(b0: Byte, b1: Byte, b2: Byte)
    ensures var d := Sextets(b0, b1, b2); Octets(d[0], d[1], d[2], d[3]) == [b0, b1, b2]
  {
    Split(b0 % 4, b1 / 16, 16);
    Split(b1 % 16, b2 / 64, 4);
    assert b0 / 4 * 4 + b0 % 4 == b0 && b1 / 16 * 16 + b1 % 16 == b1 && b2 / 64 * 64 + b2 % 64 == b2;
  }

  lemma SextetsOctets(d0: Digit, d1: Digit, d2: Digit, d3: Digit)
    ensures var b := Octets(d0, d1, d2, d3); Sextets(b[0], b[1], b[2]) == [d0, d1, d2, d3]
  {
    Split(d0, d1 / 16, 4);
    Split(d1 % 16, d2 / 4, 16);
    Split(d2 % 4, d3, 64);
    Regroup(d0, d1, d2, d3, d0 * 4 + d1 / 16, d1 % 16 * 16 + d2 / 4, d2 % 4 * 64 + d3);
    hide Sextets;
  }

  /** Three bytes with the bits of four digits in their places. */
  lemma Regroup(d0: Digit, d1: Digit, d2: Digit, d3: Digit, b0: Byte, b1: Byte, b2: Byte)
    requires b0 / 4 == d0 && b0 % 4 == d1 / 16
    requires b1 / 16 == d1 % 16 && b1 % 16 == d2 / 4
    requires b2 / 64 == d2 % 4 && b2 % 64 == d3
    ensures Sextets(b0, b1, b2) == [d0, d1, d2, d3]
  {
    assert d1 / 16 * 16 + d1 % 16 == d1;
    assert d2 / 4 * 4 + d2 % 4 == d2;
  }

  lemma Split(high: nat, low: nat, radix: nat)
    requires radix in {4, 16, 64} && low < radix
    ensures (high * radix + low) / radix == high && (high * radix + low) % radix == low
  {
    if radix == 4 {
      assert (high * 4 + low) / 4 == high;
    } else if radix == 16 {
      assert (high * 16 + low) / 16 == high;
    } else {
      assert (high * 64 + low) / 64 == high;
    }
  }

  lemma BlocksOfThree(n: nat)
    requires n > 0 && n % 3 == 0
    ensures n >= 3 && (n - 3) % 3 == 0 && n / 3 * 4 == (n - 3) / 3 * 4 + 4
  {
  }

  lemma BlocksOfFour(n: nat)
    requires n > 0 && n % 4 == 0
    ensures n >= 4 && (n - 4) % 4 == 0 && n / 4 * 3 == (n - 4) / 4 * 3 + 3
  {
  }

  function ToDigits(b: seq<Byte>): (digits: seq<Digit>)
    requires |b| % 3 == 0
    ensures |digits| == |b| / 3 * 4 && |digits| % 4 == 0
  {
    if b == [] then []
    else
      BlocksOfThree(|b|);
      Sextets(b[0], b[1], b[2]) + ToDigits(b[3..])
  }

  function ToBytes(digits: seq<Digit>): (b: seq<Byte>)
    requires |digits| % 4 == 0
    ensures |b| == |digits| / 4 * 3 && |b| % 3 == 0
  {
    if digits == [] then []
    else
      BlocksOfFour(|digits|);
      Octets(digits[0], digits[1], digits[2], digits[3]) + ToBytes(digits[4..])
  }

  lemma {:induction false} ToBytesToDigits(b: seq<Byte>)
    requires |b| % 3 == 0
    ensures ToBytes(ToDigits(b)) == b
  {
    if b == [] {
    } else {
      ToBytesToDigits(b[3..]);
      OctetsSextets(b[0], b[1], b[2]);
      assert ToDigits(b)[4..] == ToDigits(b[3..]);
      assert b == [b[0], b[1], b[2]] + b[3..];
    }
  }

  lemma {:induction false} ToDigitsToBytes(digits: seq<Digit>)
    requires |digits| % 4 == 0
    ensures ToDigits(ToBytes(digits)) == digits
  {
    if digits == [] {
    } else {
      ToDigitsToBytes(digits[4..]);
      SextetsOctets(digits[0], digits[1], digits[2], digits[3]);
      assert ToBytes(digits)[3..] == ToBytes(digits[4..]);
      assert digits == [digits[0], digits[1], digits[2], digits[3]] + digits[4..];
    }
  }

  // the codec

  function Encode(b: seq<Byte>): string
    requires |b| % 3 == 0
  {
    Text(ToDigits(b))
  }

  function Decode(s: string): Result<seq<Byte>> {
    if |s| % 4 == 0 && AllInAlphabet(s) then Success(ToBytes(Digits(s))) else Failure(MalformedText)
  }

  /** Decoding undoes encoding, for every byte string whose length is divisible by three. */
  lemma DecodeEncode(b: seq<Byte>)
    requires |b| % 3 == 0
    ensures Decode(Encode(b)) == Success(b)
  {
    TextDigits(ToDigits(b), []);
    ToBytesToDigits(b);
  }

  /** Encoding undoes decoding: the decodable texts and those byte strings are in bijection. */
  lemma EncodeDecode(s: string, b: seq<Byte>)
    requires |b| % 3 == 0
    ensures Decode(s) == Success(b) <==> Encode(b) == s
  {
    if Decode(s) == Success(b) {
      ToDigitsToBytes(Digits(s));
      TextDigits([], s);
    } else if Encode(b) == s {
      DecodeEncode(b);
    }
  }

  /** No padding: the text is exactly four thirds as long and stays inside the alphabet. */
  lemma EncodeShape(b: seq<Byte>)
    requires |b| % 3 == 0
    ensures |Encode(b)| == |b| / 3 * 4
    ensures AllInAlphabet(Encode(b)) && '=' !in Encode(b)
  {
    TextDigits(ToDigits(b), []);
  }

  lemma {:induction false} DigitsOfBlock(b: seq<Byte>, i: nat)
    requires |b| % 3 == 0 && i < |b| / 3
    ensures ToDigits(b)[4 * i..4 * i + 4] == Sextets(b[3 * i], b[3 * i + 1], b[3 * i + 2])
  {
    if i == 0 {
    } else {
      DigitsOfBlock(b[3..], i - 1);
      assert ToDigits(b)[4..] == ToDigits(b[3..]);
      assert ToDigits(b)[4 * i..4 * i + 4] == ToDigits(b)[4..][4 * (i - 1)..4 * (i - 1) + 4];
    }
  }

  /** Every block of three bytes is encoded on its own. */
  lemma EncodeBlock(b: seq<Byte>, i: nat)
    requires |b| % 3 == 0 && i < |b| / 3
    ensures |Encode(b)| == |b| / 3 * 4
    ensures Encode(b)[4 * i..4 * i + 4] == Text(Sextets(b[3 * i], b[3 * i + 1], b[3 * i + 2]))
  {
    DigitsOfBlock(b, i);
    assert Text(ToDigits(b))[4 * i..4 * i + 4] == Text(ToDigits(b)[4 * i..4 * i + 4]);
  }
}
