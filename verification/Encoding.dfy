// The scaffold's hex and bytes32 text helpers.
module Encoding {
  import opened Base
  import opened Hex
  import Utf8

  datatype HexError = OddLength | NonHex | TooLong

  // The text after an optional 0x or 0X.
  function Strip(s: string): string {
    if HasPrefix0x(s) then s[2..] else s
  }

  // What a hex text denotes; an absent text is empty.
  function BytesOf(h: Option<string>): Result<seq<Byte>, HexError> {
    match h
    case None => Ok([])
    case Some(s) =>
      var digits := Strip(s);
      if |digits| % 2 != 0 then Err(OddLength)
      else if !AllHex(digits) then Err(NonHex)
      else Ok(DecodePairs(digits))
  }

  function HexOf(b: seq<Byte>): string { "0x" + EncodePairs(b) }

  lemma {:induction false} PairAt(s: string, i: nat)
    requires |s| % 2 == 0 && AllHex(s) && i < |s| / 2
    ensures DecodePairs(s)[i] == CharValue(s[2 * i]) * 16 + CharValue(s[2 * i + 1])
  {
    if i > 0 {
      PairAt(s[2..], i - 1);
    }
  }

  lemma {:induction false} EncodePairsAppend(b: seq<Byte>, x: Byte)
    ensures EncodePairs(b + [x]) == EncodePairs(b) + [DigitChar(x / 16), DigitChar(x % 16)]
  {
    if |b| == 0 {
      assert [x][1..] == [];
    } else {
      assert (b + [x])[1..] == b[1..] + [x];
      EncodePairsAppend(b[1..], x);
    }
  }

  // The digits spell the bytes, two to a byte and the high one first.
  predicate Spells(digits: string, b: seq<Byte>) {
    && |digits| == 2 * |b| && AllHex(digits)
    && forall i | 0 <= i < |b| :: b[i] == CharValue(digits[2 * i]) * 16 + CharValue(digits[2 * i + 1])
  }

  lemma SpellsItsPairs(digits: string)
    requires |digits| % 2 == 0 && AllHex(digits)
    ensures Spells(digits, DecodePairs(digits))
  {
    forall i | 0 <= i < |digits| / 2
      ensures DecodePairs(digits)[i] == CharValue(digits[2 * i]) * 16 + CharValue(digits[2 * i + 1])
    {
      PairAt(digits, i);
    }
  }

  // A text denotes exactly the bytes that it spells bare, after 0x or after 0X.
  lemma DenotesExactly(s: string, b: seq<Byte>)
    ensures BytesOf(Some(s)) == Ok(b) <==>
            exists digits :: Spells(digits, b) && (s == digits || s == "0x" + digits || s == "0X" + digits)
  {
    if BytesOf(Some(s)) == Ok(b) {
      SpellsItsPairs(Strip(s));
      assert Spells(Strip(s), b);
    }
    forall digits | Spells(digits, b) && (s == digits || s == "0x" + digits || s == "0X" + digits)
      ensures BytesOf(Some(s)) == Ok(b)
    {
      assert Strip(s) == digits;
      SpellsItsPairs(digits);
      assert DecodePairs(digits) == b;
    }
  }

  method HexToBytes(h: Option<string>) returns (r: Result<seq<Byte>, HexError>)
    ensures r == BytesOf(h)
  {
    if h == None {
      return Ok([]);
    }
    var s := h.value;
    if |s| >= 2 && s[0] == '0' && (s[1] == 'x' || s[1] == 'X') {
      s := s[2..];
    }
    if |s| == 0 {
      return Ok([]);
    }
    if |s| % 2 != 0 {
      return Err(OddLength);
    }
    if !AllHex(s) {
      return Err(NonHex);
    }
    var out := new Byte[|s| / 2](_ => 0);
    for i := 0 to out.Length
      invariant forall k | 0 <= k < i :: out[k] == DecodePairs(s)[k]
    {
      PairAt(s, i);
      out[i] := CharValue(s[2 * i]) * 16 + CharValue(s[2 * i + 1]);
    }
    assert out[..] == DecodePairs(s);
    return Ok(out[..]);
  }

  method BytesToHex(b: seq<Byte>) returns (s: string)
    ensures s == HexOf(b)
  {
    s := "0x";
    for i := 0 to |b|
      invariant s == HexOf(b[..i])
    {
      assert b[..i + 1] == b[..i] + [b[i]];
      EncodePairsAppend(b[..i], b[i]);
      s := s + [DigitChar(b[i] / 16), DigitChar(b[i] % 16)];
    }
    assert b[..|b|] == b;
  }

  // --- round trips ---

  lemma BytesRoundTrip(b: seq<Byte>)
    ensures BytesOf(Some(HexOf(b))) == Ok(b)
  {
    assert Strip(HexOf(b)) == EncodePairs(b);
    DecodeEncodePairs(b);
  }

  lemma {:induction false} EncodeDecodePairs(s: string)
    requires |s| % 2 == 0 && AllHex(s)
    ensures EncodePairs(DecodePairs(s)) == ToLower(s)
  {
    if |s| > 0 {
      EncodeDecodePairs(s[2..]);
      var b := DecodePairs(s);
      var hi, lo := CharValue(s[0]), CharValue(s[1]);
      assert b[0] == hi * 16 + lo && b[0] / 16 == hi && b[0] % 16 == lo;
      assert b[1..] == DecodePairs(s[2..]);
      assert ToLower(s) == [ToLowerChar(s[0]), ToLowerChar(s[1])] + ToLower(s[2..]);
    }
  }

  // Re-printing an accepted text gives its lower-case, 0x-prefixed form.
  lemma TextNormalises(s: string)
    requires BytesOf(Some(s)).Ok?
    ensures AllHex(Strip(s)) && HexOf(BytesOf(Some(s)).value) == "0x" + ToLower(Strip(s))
  {
    EncodeDecodePairs(Strip(s));
  }

  // --- bytes32 identifiers ---

  function Padded(b: seq<Byte>): (p: seq<Byte>)
    requires |b| <= 32
    ensures |p| == 32
  {
    b + seq(32 - |b|, _ => 0)
  }

  // b without its trailing zero bytes.
  function Trimmed(b: seq<Byte>): seq<Byte> {
    if |b| > 0 && b[|b| - 1] == 0 then Trimmed(b[..|b| - 1]) else b
  }

  function Bytes32HexOf(s: string): Result<string, HexError> {
    var encoded := Utf8.Encode(s);
    if |encoded| > 32 then Err(TooLong) else Ok(HexOf(Padded(encoded)))
  }

  function TextOf(h: string): string {
    match BytesOf(Some(h))
    case Err(_) => ""
    case Ok(b) => Utf8.TextOf(Trimmed(b))
  }

  method StringToBytes32Hex(s: string) returns (r: Result<string, HexError>)
    ensures r == Bytes32HexOf(s)
    ensures var n := |Utf8.Encode(s)|;
            if n > 32 then r == Err(TooLong)
            else r.Ok? && BytesOf(Some(r.value)) == Ok(Utf8.Encode(s) + seq(32 - n, _ => 0))
  {
    var encoded := Utf8.Encode(s);
    if |encoded| > 32 {
      return Err(TooLong);
    }
    var padded := new Byte[32](_ => 0);
    for i := 0 to |encoded|
      invariant forall k | 0 <= k < 32 :: padded[k] == if k < i then encoded[k] else 0
    {
      padded[i] := encoded[i];
    }
    assert padded[..] == Padded(encoded);
    var text := BytesToHex(padded[..]);
    BytesRoundTrip(padded[..]);
    return Ok(text);
  }

  method Bytes32HexToString(h: string) returns (text: string)
    ensures text == TextOf(h)
  {
    var r := HexToBytes(Some(h));
    if r.Err? {
      return "";
    }
    var b := r.value;
    var end: nat := |b|;
    assert b[..end] == b;
    while end > 0 && b[end - 1] == 0
      invariant end <= |b|
      invariant Trimmed(b[..end]) == Trimmed(b)
    {
      assert b[..end][..end - 1] == b[..end - 1];
      end := end - 1;
    }
    return Utf8.TextOf(b[..end]);
  }

  lemma {:induction false} TrimZeros(b: seq<Byte>, n: nat)
    ensures Trimmed(b + seq(n, _ => 0)) == Trimmed(b)
  {
    var p := b + seq(n, _ => 0);
    if n == 0 {
      assert p == b;
    } else {
      assert p[..|p| - 1] == b + seq(n - 1, _ => 0);
      TrimZeros(b, n - 1);
    }
  }

  // Trimming takes away zeros alone, and all of them.
  lemma {:induction false} TrimsExactly(b: seq<Byte>) returns (n: nat)
    ensures b == Trimmed(b) + seq(n, _ => 0)
    ensures |Trimmed(b)| > 0 ==> Trimmed(b)[|Trimmed(b)| - 1] != 0
  {
    n := 0;
    if |b| > 0 && b[|b| - 1] == 0 {
      var k := TrimsExactly(b[..|b| - 1]);
      n := k + 1;
      assert seq(n, _ => 0) == seq(k, _ => 0) + [0 as Byte];
      assert b == b[..|b| - 1] + [0];
    }
  }

  // Padding then trimming returns exactly the strings of at most 32 bytes that do
  // not end in a zero byte.
  lemma Bytes32RoundTrip(b: seq<Byte>)
    requires |b| <= 32
    ensures Trimmed(Padded(b)) == b <==> (|b| == 0 || b[|b| - 1] != 0)
  {
    TrimZeros(b, 32 - |b|);
    if |b| > 0 && b[|b| - 1] == 0 {
      TrimmedShrinks(b[..|b| - 1]);
    }
  }

  lemma {:induction false} TrimmedShrinks(b: seq<Byte>)
    ensures |Trimmed(b)| <= |b|
  {
    if |b| > 0 && b[|b| - 1] == 0 {
      TrimmedShrinks(b[..|b| - 1]);
    }
  }

  // s without its trailing NUL characters.
  function WithoutNuls(s: string): (t: string)
    ensures |t| <= |s| && (t == s <==> |s| == 0 || s[|s| - 1] != '\0')
  {
    if |s| > 0 && s[|s| - 1] == '\0' then WithoutNuls(s[..|s| - 1]) else s
  }

  // Zero bytes of UTF-8 are NUL characters and nothing else.
  lemma {:induction false} TrimmedEncoding(s: string)
    ensures Trimmed(Utf8.Encode(s)) == Utf8.Encode(WithoutNuls(s))
  {
    if |s| > 0 {
      var front, last := s[..|s| - 1], s[|s| - 1];
      assert s == front + [last];
      Utf8.EncodeAppend(front, last);
      Utf8.LeadBytes(last);
      var b := Utf8.Encode(s);
      assert b[|b| - 1] == Utf8.EncodeChar(last)[|Utf8.EncodeChar(last)| - 1];
      if last == '\0' {
        assert b[..|b| - 1] == Utf8.Encode(front);
        TrimmedEncoding(front);
      }
    }
  }

  // What comes back: the string without trailing NULs and one leading byte order mark.
  lemma ReadBack(s: string)
    requires |Utf8.Encode(s)| <= 32
    ensures Bytes32HexOf(s).Ok? && TextOf(Bytes32HexOf(s).value) == Utf8.TextOf(Utf8.Encode(WithoutNuls(s)))
  {
    var encoded := Utf8.Encode(s);
    BytesRoundTrip(Padded(encoded));
    TrimZeros(encoded, 32 - |encoded|);
    TrimmedEncoding(s);
  }

  // A string survives the trip through bytes32 exactly if it neither ends in a NUL nor
  // starts with a byte order mark.
  lemma StringRoundTrip(s: string)
    requires |Utf8.Encode(s)| <= 32
    ensures Bytes32HexOf(s).Ok?
    ensures TextOf(Bytes32HexOf(s).value) == s <==>
              |s| == 0 || (s[|s| - 1] != '\0' && s[0] != Utf8.BYTE_ORDER_MARK)
  {
    ReadBack(s);
    Utf8.TextOfEncoded(WithoutNuls(s));
  }
}
