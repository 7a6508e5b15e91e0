// Hexadecimal text: the digit tables, and go-ethereum's strict hexutil decoders.
module Hex {
  import opened Base

  predicate IsDigit(ch: char) { '0' <= ch <= '9' }
  predicate IsLowerHex(ch: char) { 'a' <= ch <= 'f' }
  predicate IsUpperHex(ch: char) { 'A' <= ch <= 'F' }
  predicate IsHexChar(ch: char) { IsDigit(ch) || IsLowerHex(ch) || IsUpperHex(ch) }

  predicate AllHex(s: string) { forall i | 0 <= i < |s| :: IsHexChar(s[i]) }

  function CharValue(ch: char): (v: nat)
    requires IsHexChar(ch)
    ensures v < 16
  {
    if IsDigit(ch) then ch as int - '0' as int
    else if IsLowerHex(ch) then ch as int - 'a' as int + 10
    else ch as int - 'A' as int + 10
  }

  function DigitChar(v: nat): (ch: char)
    requires v < 16
    ensures IsDigit(ch) || IsLowerHex(ch)
    ensures CharValue(ch) == v
  {
    if v < 10 then ('0' as int + v) as char else ('a' as int + v - 10) as char
  }

  // The sixteen digits, in order and in either case.
  lemma DigitsInOrder()
    ensures forall i | 0 <= i < 16 ::
              && IsHexChar("0123456789abcdef"[i]) && CharValue("0123456789abcdef"[i]) == i
              && IsHexChar("0123456789ABCDEF"[i]) && CharValue("0123456789ABCDEF"[i]) == i
  {
  }

  // ASCII lower case.
  function ToLowerChar(ch: char): char {
    if 'A' <= ch <= 'Z' then (ch as int + 32) as char else ch
  }

  function ToLower(s: string): (t: string)
    ensures |t| == |s|
  {
    seq(|s|, i requires 0 <= i < |s| => ToLowerChar(s[i]))
  }

  predicate HasPrefix0x(s: string) {
    |s| >= 2 && s[0] == '0' && (s[1] == 'x' || s[1] == 'X')
  }

  function DecodePairs(s: string): (b: seq<Byte>)
    requires |s| % 2 == 0 && AllHex(s)
    ensures |b| == |s| / 2
  {
    if |s| == 0 then [] else [CharValue(s[0]) * 16 + CharValue(s[1])] + DecodePairs(s[2..])
  }

  function EncodePairs(b: seq<Byte>): (s: string)
    ensures |s| == 2 * |b| && AllHex(s)
  {
    if |b| == 0 then ""
    else
      var rest := EncodePairs(b[1..]);
      [DigitChar(b[0] / 16), DigitChar(b[0] % 16)] + rest
  }

  lemma {:induction false} DecodeEncodePairs(b: seq<Byte>)
    ensures DecodePairs(EncodePairs(b)) == b
  {
    if |b| > 0 {
      var s := EncodePairs(b);
      assert s[2..] == EncodePairs(b[1..]);
      DecodeEncodePairs(b[1..]);
      assert b == [b[0]] + b[1..];
    }
  }

  lemma {:induction false} DecodePairsConcat(s: string, t: string)
    requires |s| % 2 == 0 && |t| % 2 == 0 && AllHex(s) && AllHex(t)
    ensures AllHex(s + t) && DecodePairs(s + t) == DecodePairs(s) + DecodePairs(t)
  {
    if |s| == 0 {
      assert s + t == t;
    } else {
      assert (s + t)[2..] == s[2..] + t;
      DecodePairsConcat(s[2..], t);
    }
  }

  // hexutil.Decode
  function HexutilDecode(s: string): Option<seq<Byte>> {
    if !HasPrefix0x(s) || |s| % 2 != 0 || !AllHex(s[2..]) then None else Some(DecodePairs(s[2..]))
  }

  function NumberOf(s: string): nat
    requires AllHex(s)
  {
    if |s| == 0 then 0 else NumberOf(s[..|s| - 1]) * 16 + CharValue(s[|s| - 1])
  }

  // hexutil.DecodeBig: a prefix, at least one digit, no leading zero, at most 256 bits.
  function HexutilDecodeBig(s: string): Option<nat> {
    if !HasPrefix0x(s) || |s| == 2 || (|s| > 3 && s[2] == '0') || |s| > 66 || !AllHex(s[2..]) then None
    else Some(NumberOf(s[2..]))
  }

  // A number's own digits, without leading zeros.
  function Digits(n: nat): (s: string)
    ensures |s| > 0 && AllHex(s)
  {
    if n < 16 then [DigitChar(n)] else Digits(n / 16) + [DigitChar(n % 16)]
  }

  function QuantityText(n: nat): string { "0x" + Digits(n) }

  lemma {:induction false} NumberOfDigits(n: nat)
    ensures NumberOf(Digits(n)) == n
    ensures n > 0 ==> CharValue(Digits(n)[0]) > 0
  {
    var s := Digits(n);
    if n < 16 {
      assert NumberOf(s) == NumberOf(s[..0]) * 16 + n;
    } else {
      NumberOfDigits(n / 16);
      assert s[..|s| - 1] == Digits(n / 16);
    }
  }

  function Pow16(k: nat): nat { if k == 0 then 1 else 16 * Pow16(k - 1) }

  lemma {:induction false} FewDigits(n: nat, k: nat)
    requires k > 0 && n < Pow16(k)
    ensures |Digits(n)| <= k
  {
    if n >= 16 {
      FewDigits(n / 16, k - 1);
    }
  }

  lemma Pow16Of64()
    ensures Pow16(64) == TWO256
  {
    assert Pow16(8) == TWO32;
    assert Pow16(16) == TWO64;
    assert Pow16(24) == TWO32 * TWO64;
    assert Pow16(32) == TWO128;
    assert Pow16(40) == TWO32 * TWO128;
    assert Pow16(48) == TWO64 * TWO128;
    assert Pow16(56) == TWO32 * TWO64 * TWO128;
  }

  // A number printed this way decodes to itself.
  lemma QuantityDecodes(n: Uint256)
    ensures HexutilDecodeBig(QuantityText(n)) == Some(n)
  {
    var s := QuantityText(n);
    NumberOfDigits(n);
    Pow16Of64();
    FewDigits(n, 64);
    assert s[2..] == Digits(n) && s[2] == Digits(n)[0];
    if n > 0 {
      assert s[2] != '0';
    } else {
      assert |s| == 3;
    }
  }

  // Printed bytes decode to themselves.
  lemma PrintedDecodes(b: seq<Byte>)
    ensures HexutilDecode("0x" + EncodePairs(b)) == Some(b)
  {
    assert ("0x" + EncodePairs(b))[2..] == EncodePairs(b);
    DecodeEncodePairs(b);
  }

  // The fixed-size patterns of the bundle schema: 0x followed by n hex digits.
  predicate IsHexOf(s: string, n: nat) {
    |s| == n + 2 && s[0] == '0' && s[1] == 'x' && AllHex(s[2..])
  }

  lemma HexOfDecodes(s: string, n: nat)
    requires IsHexOf(s, 2 * n)
    ensures HexutilDecode(s).Some? && |HexutilDecode(s).value| == n
  {
  }
}
