// UTF-8, as Go measures strings and as the browser's TextEncoder and TextDecoder
// convert them: malformed input decodes to replacement characters.
module Utf8 {
  import opened Base

  const REPLACEMENT: char := '\U{FFFD}'
  const BYTE_ORDER_MARK: char := '\U{FEFF}'

  function EncodeChar(ch: char): (b: seq<Byte>)
    ensures 1 <= |b| <= 4
  {
    var n := ch as int;
    if n < 0x80 then [n]
    else if n < 0x800 then [0xC0 + n / 0x40, 0x80 + n % 0x40]
    else if n < 0x1_0000 then [0xE0 + n / 0x1000, 0x80 + n / 0x40 % 0x40, 0x80 + n % 0x40]
    else [0xF0 + n / 0x4_0000, 0x80 + n / 0x1000 % 0x40, 0x80 + n / 0x40 % 0x40, 0x80 + n % 0x40]
  }

  function Encode(s: string): (b: seq<Byte>)
    ensures |b| >= |s|
  {
    if |s| == 0 then [] else EncodeChar(s[0]) + Encode(s[1..])
  }

  // One character of each length, as in the examples of RFC 3629.
  lemma OneOfEachLength()
    ensures EncodeChar('\U{41}') == [0x41] && EncodeChar('\U{391}') == [0xCE, 0x91]
    ensures EncodeChar('\U{2262}') == [0xE2, 0x89, 0xA2] && EncodeChar('\U{233B4}') == [0xF0, 0xA3, 0x8E, 0xB4]
  {
  }

  // --- decoding ---

  // How many continuation bytes a lead byte asks for; none if it cannot lead.
  function Needed(lead: Byte): nat {
    if 0xC2 <= lead <= 0xDF then 1
    else if 0xE0 <= lead <= 0xEF then 2
    else if 0xF0 <= lead <= 0xF4 then 3
    else 0
  }

  // The first continuation byte may be restricted: no overlong forms, no surrogates,
  // nothing past the last scalar value.
  predicate MayFollow(lead: Byte, b: Byte) {
    && 0x80 <= b <= 0xBF && (lead == 0xE0 ==> b >= 0xA0) && (lead == 0xED ==> b <= 0x9F)
    && (lead == 0xF0 ==> b >= 0x90) && (lead == 0xF4 ==> b <= 0x8F)
  }

  predicate IsContinuation(b: Byte) { 0x80 <= b <= 0xBF }

  // How many of the bytes asked for are there.
  function Present(b: seq<Byte>): (k: nat)
    requires |b| > 0
    ensures k <= Needed(b[0]) && k < |b|
    ensures k > 0 ==> MayFollow(b[0], b[1])
    ensures forall i | 1 <= i <= k :: IsContinuation(b[i])
  {
    var need := Needed(b[0]);
    if need == 0 || |b| < 2 || !MayFollow(b[0], b[1]) then 0
    else if need == 1 || |b| < 3 || !IsContinuation(b[2]) then 1
    else if need == 2 || |b| < 4 || !IsContinuation(b[3]) then 2
    else 3
  }

  function CharOf(b: seq<Byte>): char
    requires |b| > 0 && Needed(b[0]) > 0 && Present(b) == Needed(b[0])
  {
    var lead, low := b[0] as int, b[1] as int - 0x80;
    if Needed(b[0]) == 1 then ((lead - 0xC0) * 0x40 + low) as char
    else if Needed(b[0]) == 2 then ((lead - 0xE0) * 0x1000 + low * 0x40 + (b[2] as int - 0x80)) as char
    else ((lead - 0xF0) * 0x4_0000 + low * 0x1000 + (b[2] as int - 0x80) * 0x40 + (b[3] as int - 0x80)) as char
  }

  // The first character, and the number of bytes it takes.
  function First(b: seq<Byte>): (r: (char, nat))
    requires |b| > 0
    ensures 1 <= r.1 <= |b|
  {
    if b[0] < 0x80 then (b[0] as char, 1)
    else if Needed(b[0]) > 0 && Present(b) == Needed(b[0]) then (CharOf(b), 1 + Present(b))
    else (REPLACEMENT, 1 + Present(b))
  }

  function Decode(b: seq<Byte>): string
    decreases |b|
  {
    if |b| == 0 then "" else [First(b).0] + Decode(b[First(b).1..])
  }

  // --- round trip ---

  lemma LeadBytes(ch: char)
    ensures var b, n := EncodeChar(ch), ch as int;
            && (n < 0x80 <==> |b| == 1) && (n >= 0x80 ==> b[0] >= 0x80 && Needed(b[0]) == |b| - 1)
            && (|b| > 1 ==> MayFollow(b[0], b[1])) && forall i | 1 <= i < |b| :: IsContinuation(b[i])
  {
    var n := ch as int;
    if 0x800 <= n < 0x1_0000 {
      Digits(n);
    } else if n >= 0x1_0000 {
      Digits(n);
      Digits(n / 0x40);
    }
  }

  lemma Digits(n: nat)
    ensures n == n / 0x40 * 0x40 + n % 0x40 && n / 0x40 / 0x40 == n / 0x1000
    ensures n / 0x40 == n / 0x1000 * 0x40 + n / 0x40 % 0x40
  {
  }

  lemma CharOfEncoded(ch: char)
    requires ch as int >= 0x80
    ensures var e := EncodeChar(ch); Needed(e[0]) > 0 && Present(e) == Needed(e[0]) == |e| - 1 && CharOf(e) == ch
  {
    LeadBytes(ch);
    var n := ch as int;
    Digits(n);
    Digits(n / 0x40);
  }

  // Only the bytes a character takes decide what it is.
  lemma FirstLooksNoFurther(e: seq<Byte>, rest: seq<Byte>)
    requires |e| > 1 && Needed(e[0]) == |e| - 1 && Present(e) == |e| - 1
    ensures First(e + rest) == (CharOf(e), |e|)
  {
    var b := e + rest;
    assert forall i | 0 <= i < |e| :: b[i] == e[i];
  }

  lemma FirstOfEncoded(ch: char, rest: seq<Byte>)
    ensures First(EncodeChar(ch) + rest) == (ch, |EncodeChar(ch)|)
  {
    if ch as int >= 0x80 {
      CharOfEncoded(ch);
      FirstLooksNoFurther(EncodeChar(ch), rest);
    }
  }

  lemma {:induction false} DecodeEncode(s: string)
    ensures Decode(Encode(s)) == s
  {
    if |s| > 0 {
      var rest := Encode(s[1..]);
      FirstOfEncoded(s[0], rest);
      assert Encode(s)[|EncodeChar(s[0])|..] == rest;
      DecodeEncode(s[1..]);
      assert s == [s[0]] + s[1..];
    }
  }

  // --- the byte order mark ---

  predicate StartsWithMark(b: seq<Byte>) { |b| >= 3 && b[0] == 0xEF && b[1] == 0xBB && b[2] == 0xBF }

  // TextDecoder drops one leading mark.
  function TextOf(b: seq<Byte>): string { if StartsWithMark(b) then Decode(b[3..]) else Decode(b) }

  lemma MarkIsTheMark(s: string)
    ensures StartsWithMark(Encode(s)) <==> |s| > 0 && s[0] == BYTE_ORDER_MARK
  {
    if |s| > 0 {
      var e, n := EncodeChar(s[0]), s[0] as int;
      var b := Encode(s);
      LeadBytes(s[0]);
      assert b[0] == e[0];
      if b[0] == 0xEF {
        assert |e| == 3 && b[1] == e[1] && b[2] == e[2];
        Digits(n);
        Digits(n / 0x40);
      }
    }
  }

  lemma TextOfEncoded(s: string)
    ensures TextOf(Encode(s)) == if |s| > 0 && s[0] == BYTE_ORDER_MARK then s[1..] else s
  {
    MarkIsTheMark(s);
    DecodeEncode(s);
    if |s| > 0 && s[0] == BYTE_ORDER_MARK {
      assert EncodeChar(s[0]) == [0xEF, 0xBB, 0xBF];
      assert Encode(s)[3..] == Encode(s[1..]);
      DecodeEncode(s[1..]);
    }
  }

  lemma {:induction false} EncodeAppend(s: string, ch: char)
    ensures Encode(s + [ch]) == Encode(s) + EncodeChar(ch)
  {
    if |s| == 0 {
      assert s + [ch] == [ch] && [ch][1..] == "";
    } else {
      assert (s + [ch])[1..] == s[1..] + [ch];
      EncodeAppend(s[1..], ch);
    }
  }
}
