// The static part of the Solidity Contract ABI encoding ("Formal Specification
// of the Encoding"): elementary words and nested tuples of them.
module Abi {
  import opened Base
  import opened Bytes
  import opened Records

  // An elementary static type is the bound its word stays below: 2^8 for uint8,
  // 2^160 for address, 3 for a three-valued enum, 2 for bool.
  datatype Ty = Elementary(bound: nat) | Tuple(fields: seq<Ty>)
  datatype Val = Word(n: nat) | Record(fields: seq<Val>)

  ghost predicate WellFormed(ty: Ty) {
    match ty
    case Elementary(bound) => bound <= TWO256
    case Tuple(fields) => forall t | t in fields :: WellFormed(t)
  }

  predicate InRange(ty: Ty, v: Val)
    decreases ty, 1
  {
    match (ty, v)
    case (Elementary(bound), Word(n)) => n < bound
    case (Tuple(ts), Record(vs)) => AllInRange(ts, vs)
    case _ => false
  }

  predicate AllInRange(ts: seq<Ty>, vs: seq<Val>)
    decreases ts, 0
  {
    |ts| == |vs| && (|ts| == 0 || (InRange(ts[0], vs[0]) && AllInRange(ts[1..], vs[1..])))
  }

  function Encode(v: Val): seq<Byte>
    decreases v, 1
  {
    match v
    case Word(n) => ToBytes(n, 32)
    case Record(vs) => EncodeAll(vs)
  }

  function EncodeAll(vs: seq<Val>): seq<Byte>
    decreases vs, 0
  {
    if |vs| == 0 then [] else Encode(vs[0]) + EncodeAll(vs[1..])
  }

  // Decoding consumes the value's bytes and returns what follows them.
  function Decode(ty: Ty, b: seq<Byte>): Option<(Val, seq<Byte>)>
    decreases ty, 1
  {
    match ty
    case Elementary(bound) =>
      if |b| < 32 || FromBytes(b[..32]) >= bound then None
      else Some((Word(FromBytes(b[..32])), b[32..]))
    case Tuple(ts) =>
      match DecodeAll(ts, b)
      case None => None
      case Some((vs, rest)) => Some((Record(vs), rest))
  }

  function DecodeAll(ts: seq<Ty>, b: seq<Byte>): Option<(seq<Val>, seq<Byte>)>
    decreases ts, 0
  {
    if |ts| == 0 then Some(([], b)) else
      match Decode(ts[0], b)
      case None => None
      case Some((v, mid)) =>
        match DecodeAll(ts[1..], mid)
        case None => None
        case Some((vs, rest)) => Some(([v] + vs, rest))
  }

  // The leaves of a value, left to right, and their plain concatenation.
  function Flatten(v: Val): seq<nat>
    decreases v, 1
  {
    match v
    case Word(n) => [n]
    case Record(vs) => FlattenAll(vs)
  }

  function FlattenAll(vs: seq<Val>): seq<nat>
    decreases vs, 0
  {
    if |vs| == 0 then [] else Flatten(vs[0]) + FlattenAll(vs[1..])
  }

  function EncodeWords(ws: seq<nat>): (b: seq<Byte>)
    ensures |b| == 32 * |ws|
  {
    if |ws| == 0 then [] else ToBytes(ws[0], 32) + EncodeWords(ws[1..])
  }

  lemma {:induction false} EncodeWordsConcat(a: seq<nat>, b: seq<nat>)
    ensures EncodeWords(a + b) == EncodeWords(a) + EncodeWords(b)
  {
    if |a| == 0 {
      assert a + b == b;
    } else {
      EncodeWordsConcat(a[1..], b);
      assert (a + b)[1..] == a[1..] + b;
      ConcatAssoc(ToBytes(a[0], 32), EncodeWords(a[1..]), EncodeWords(b));
    }
  }

  // Nesting static tuples leaves no trace on the wire.
  lemma {:induction false} EncodeIsFlat(v: Val)
    ensures Encode(v) == EncodeWords(Flatten(v))
    decreases v, 1
  {
    match v
    case Word(n) =>
      assert EncodeWords([n]) == ToBytes(n, 32) + EncodeWords([]);
    case Record(vs) => EncodeAllIsFlat(vs);
  }

  lemma {:induction false} EncodeAllIsFlat(vs: seq<Val>)
    ensures EncodeAll(vs) == EncodeWords(FlattenAll(vs))
    decreases vs, 0
  {
    if |vs| > 0 {
      EncodeIsFlat(vs[0]);
      EncodeAllIsFlat(vs[1..]);
      EncodeWordsConcat(Flatten(vs[0]), FlattenAll(vs[1..]));
    }
  }

  // Round trip, with anything after the value left untouched.
  lemma {:induction false} DecodeEncode(ty: Ty, v: Val, rest: seq<Byte>)
    requires WellFormed(ty) && InRange(ty, v)
    ensures Decode(ty, Encode(v) + rest) == Some((v, rest))
    decreases ty, 1
  {
    match (ty, v)
    case (Elementary(bound), Word(n)) =>
      Pow256Of32();
      FromToBytes(n, 32);
      var b := Encode(v) + rest;
      assert b[..32] == ToBytes(n, 32) && b[32..] == rest;
    case (Tuple(ts), Record(vs)) => DecodeEncodeAll(ts, vs, rest);
  }

  lemma {:induction false} DecodeEncodeAll(ts: seq<Ty>, vs: seq<Val>, rest: seq<Byte>)
    requires (forall t | t in ts :: WellFormed(t)) && AllInRange(ts, vs)
    ensures DecodeAll(ts, EncodeAll(vs) + rest) == Some((vs, rest))
    decreases ts, 0
  {
    if |ts| == 0 {
      assert EncodeAll(vs) + rest == rest;
    } else {
      var tail := EncodeAll(vs[1..]) + rest;
      ConcatAssoc(Encode(vs[0]), EncodeAll(vs[1..]), rest);
      DecodeEncode(ts[0], vs[0], tail);
      DecodeEncodeAll(ts[1..], vs[1..], rest);
      assert [vs[0]] + vs[1..] == vs;
    }
  }

  // What decodes is in range and is the encoding of the result: no two byte
  // strings decode to the same value.
  lemma {:induction false} EncodeDecode(ty: Ty, b: seq<Byte>)
    requires Decode(ty, b).Some?
    ensures var (v, rest) := Decode(ty, b).value; InRange(ty, v) && b == Encode(v) + rest
    decreases ty, 1
  {
    match ty
    case Elementary(bound) =>
      ToFromBytes(b[..32]);
      assert b == b[..32] + b[32..];
    case Tuple(ts) => EncodeDecodeAll(ts, b);
  }

  lemma {:induction false} EncodeDecodeAll(ts: seq<Ty>, b: seq<Byte>)
    requires DecodeAll(ts, b).Some?
    ensures var (vs, rest) := DecodeAll(ts, b).value; AllInRange(ts, vs) && b == EncodeAll(vs) + rest
    decreases ts, 0
  {
    if |ts| == 0 {
      assert b == [] + b;
    } else {
      var (v, mid) := Decode(ts[0], b).value;
      EncodeDecode(ts[0], b);
      EncodeDecodeAll(ts[1..], mid);
      var (vs, rest) := DecodeAll(ts[1..], mid).value;
      assert ([v] + vs)[1..] == vs;
      ConcatAssoc(Encode(v), EncodeAll(vs), rest);
    }
  }

  // Flat word access, used by the fixed layouts below.
  function WordAt(b: seq<Byte>, i: nat): nat
    requires 32 * i + 32 <= |b|
  {
    FromBytes(b[32 * i..32 * i + 32])
  }

  lemma SliceBeyond(p: seq<Byte>, r: seq<Byte>, lo: nat, hi: nat)
    requires |p| <= lo <= hi <= |p| + |r|
    ensures (p + r)[lo..hi] == r[lo - |p|..hi - |p|]
  {
  }

  lemma {:induction false} WordAtEncode(ws: seq<nat>, rest: seq<Byte>, i: nat)
    requires i < |ws| && ws[i] < TWO256
    ensures 32 * i + 32 <= |EncodeWords(ws) + rest|
    ensures WordAt(EncodeWords(ws) + rest, i) == ws[i]
  {
    var b := EncodeWords(ws) + rest;
    var b' := EncodeWords(ws[1..]) + rest;
    assert b == ToBytes(ws[0], 32) + b';
    if i == 0 {
      Pow256Of32();
      FromToBytes(ws[0], 32);
      assert b[0..32] == ToBytes(ws[0], 32);
    } else {
      WordAtEncode(ws[1..], rest, i - 1);
      SliceBeyond(ToBytes(ws[0], 32), b', 32 * i, 32 * i + 32);
      assert 32 * i - 32 == 32 * (i - 1);
    }
  }

  // Word lists are recovered from their encoding, so distinct inputs have
  // distinct preimages.
  lemma {:induction false} EncodeWordsInjective(a: seq<nat>, b: seq<nat>)
    requires |a| == |b| && EncodeWords(a) == EncodeWords(b)
    requires forall i | 0 <= i < |a| :: a[i] < TWO256 && b[i] < TWO256
    ensures a == b
  {
    forall i | 0 <= i < |a| ensures a[i] == b[i] {
      WordAtEncode(a, [], i);
      WordAtEncode(b, [], i);
      assert EncodeWords(a) + [] == EncodeWords(b) + [];
    }
  }

  function OutcomeCode(o: Outcome): Byte {
    match o
    case Pass => 0
    case Fail => 1
    case Inconclusive => 2
  }

  function IdentityWords(v: VerdictIdentity): (ws: seq<nat>)
    ensures |ws| == 10
  {
    [v.schemaVersion, v.escrowAddress, v.chainId, v.jobId, v.attempt, v.instructionId, v.specHash,
     v.privateBundleHash, v.artifactAddress, v.artifactBlock]
  }

  function OutcomeWords(v: VerdictOutcome): (ws: seq<nat>)
    ensures |ws| == 10
  {
    [v.artifactCodeHash, v.randomRound, v.randomValueHash, v.engineVersionHash, OutcomeCode(v.outcome),
     v.passedCount, v.executedCount, v.reportHash, v.issuedAt, v.expiresAt]
  }

  function VerdictWords(v: VerdictV1): (ws: seq<nat>)
    ensures |ws| == 20
  {
    IdentityWords(v.id) + OutcomeWords(v.result)
  }

  function WordsToVals(ws: seq<nat>): (vs: seq<Val>)
    ensures |vs| == |ws|
  {
    if |ws| == 0 then [] else [Word(ws[0])] + WordsToVals(ws[1..])
  }

  lemma {:induction false} FlattenWords(ws: seq<nat>)
    ensures FlattenAll(WordsToVals(ws)) == ws
  {
    if |ws| > 0 {
      FlattenWords(ws[1..]);
      var vs := WordsToVals(ws);
      assert vs[1..] == WordsToVals(ws[1..]);
      assert Flatten(vs[0]) == [ws[0]];
    }
  }

  // The verdict as Solidity and Go declare it: a tuple of two tuples.
  function VerdictVal(v: VerdictV1): Val {
    Record([Record(WordsToVals(IdentityWords(v.id))), Record(WordsToVals(OutcomeWords(v.result)))])
  }

  function EncodeVerdict(v: VerdictV1): seq<Byte> {
    Encode(VerdictVal(v))
  }

  // The two-level verdict is byte for byte the flat 20-word, 640-byte tuple.
  lemma VerdictIsFlat(v: VerdictV1)
    ensures EncodeVerdict(v) == EncodeWords(VerdictWords(v))
    ensures |EncodeVerdict(v)| == 640
  {
    var a := Record(WordsToVals(IdentityWords(v.id)));
    var b := Record(WordsToVals(OutcomeWords(v.result)));
    EncodeIsFlat(VerdictVal(v));
    FlattenWords(IdentityWords(v.id));
    FlattenWords(OutcomeWords(v.result));
    assert [a, b][1..] == [b] && [b][1..] == [];
    assert FlattenAll([]) == [];
    assert FlattenAll([b]) == Flatten(b);
    assert FlattenAll([a, b]) == Flatten(a) + Flatten(b);
    assert Flatten(VerdictVal(v)) == VerdictWords(v);
  }

  function FieldBound(i: nat): nat {
    if i == 0 then 0x100
    else if i == 1 || i == 8 then TWO160
    else if i == 4 || i == 18 || i == 19 then TWO64
    else if i == 14 then 3
    else if i == 15 || i == 16 then TWO32
    else TWO256
  }

  // The first twenty words, each in range for its field.
  predicate Fits(d: seq<Byte>)
    requires |d| >= 640
  {
    forall i: nat | i < 20 :: WordAt(d, i) < FieldBound(i)
  }

  function IdentityAt(d: seq<Byte>): VerdictIdentity
    requires |d| >= 640 && Fits(d)
  {
    VerdictIdentity(WordAt(d, 0), WordAt(d, 1), WordAt(d, 2), WordAt(d, 3), WordAt(d, 4), WordAt(d, 5),
                    WordAt(d, 6), WordAt(d, 7), WordAt(d, 8), WordAt(d, 9))
  }

  function OutcomeAt(d: seq<Byte>): VerdictOutcome
    requires |d| >= 640 && Fits(d)
  {
    var code := WordAt(d, 14);
    VerdictOutcome(WordAt(d, 10), WordAt(d, 11), WordAt(d, 12), WordAt(d, 13),
                   if code == 0 then Pass else if code == 1 then Fail else Inconclusive,
                   WordAt(d, 15), WordAt(d, 16), WordAt(d, 17), WordAt(d, 18), WordAt(d, 19))
  }

  // abi.decode(data, (VerdictV1)): too little data, a value too wide for its
  // field or an unknown outcome is rejected; bytes past the tuple are ignored.
  function DecodeVerdict(d: seq<Byte>): Option<VerdictV1> {
    if |d| < 640 || !Fits(d) then None else Some(VerdictV1(IdentityAt(d), OutcomeAt(d)))
  }

  // Encoding in Go and decoding in Solidity meet.
  lemma DecodeEncodeVerdict(v: VerdictV1, rest: seq<Byte>)
    ensures DecodeVerdict(EncodeVerdict(v) + rest) == Some(v)
  {
    VerdictIsFlat(v);
    var ws := VerdictWords(v);
    var d := EncodeVerdict(v) + rest;
    forall i: nat | i < 20 ensures WordAt(d, i) == ws[i] && ws[i] < FieldBound(i) {
      assert ws[i] < FieldBound(i) by { VerdictWordBounds(v, i); }
      WordAtEncode(ws, rest, i);
    }
    assert forall i: nat | i < 20 :: WordAt(d, i) < FieldBound(i);
  }

  // Conversely, data that decodes is the encoding of the result and a tail.
  lemma EncodeDecodeVerdict(d: seq<Byte>)
    requires DecodeVerdict(d).Some?
    ensures d == EncodeVerdict(DecodeVerdict(d).value) + d[640..]
  {
    var v := DecodeVerdict(d).value;
    var ws := VerdictWords(v);
    VerdictIsFlat(v);
    forall i: nat | i < 20 ensures ws[i] == WordAt(d, i) {
      assert WordAt(d, i) < FieldBound(i);
      if i < 10 {
        assert ws[i] == IdentityWords(v.id)[i];
      } else {
        assert ws[i] == OutcomeWords(v.result)[i - 10];
      }
    }
    EncodeReadWords(d, ws);
    assert d == d[..640] + d[640..];
  }

  lemma WordAtDrop(d: seq<Byte>, i: nat)
    requires 32 * i + 64 <= |d|
    ensures WordAt(d[32..], i) == WordAt(d, i + 1)
  {
    assert d[32 * (i + 1)..32 * (i + 1) + 32] == d[32..][32 * i..32 * i + 32];
  }

  lemma {:induction false} EncodeReadWords(d: seq<Byte>, ws: seq<nat>)
    requires 32 * |ws| <= |d|
    requires forall i: nat | i < |ws| :: ws[i] == WordAt(d, i)
    ensures EncodeWords(ws) == d[..32 * |ws|]
  {
    if |ws| > 0 {
      var d', ws' := d[32..], ws[1..];
      forall i: nat | i < |ws'| ensures ws'[i] == WordAt(d', i) {
        WordAtDrop(d, i);
      }
      EncodeReadWords(d', ws');
      FirstWord(d, ws[0]);
      SplitFirstWord(d, 32 * |ws|);
    }
  }

  lemma FirstWord(d: seq<Byte>, w: nat)
    requires 32 <= |d| && w == WordAt(d, 0)
    ensures ToBytes(w, 32) == d[0..32]
  {
    ToFromBytes(d[0..32]);
  }

  lemma SplitFirstWord(d: seq<Byte>, n: nat)
    requires 32 <= n <= |d|
    ensures d[..n] == d[0..32] + d[32..][..n - 32]
  {
  }

  lemma VerdictWordBounds(v: VerdictV1, i: nat)
    requires i < 20
    ensures VerdictWords(v)[i] < FieldBound(i) <= TWO256
  {
    if i < 10 {
      assert VerdictWords(v)[i] == IdentityWords(v.id)[i];
    } else {
      assert VerdictWords(v)[i] == OutcomeWords(v.result)[i - 10];
    }
  }

  function InstructionWords(m: WorkProofInstruction): (ws: seq<nat>)
    ensures |ws| == 14
  {
    [m.chainId, m.escrowAddress, m.jobId, m.attempt, m.specHash, m.privateBundleHash, m.ciphertextHash,
     m.artifactAddress, m.artifactBlock, m.artifactCodeHash, m.randomRound, m.randomValueHash,
     m.engineVersionHash, m.expiresAt]
  }

  function EncodeInstruction(m: WorkProofInstruction): (b: seq<Byte>)
    ensures |b| == 448
  {
    EncodeWords(InstructionWords(m))
  }

  // Two instructions with the same wire form are the same instruction.
  lemma EncodeInstructionInjective(m: WorkProofInstruction, n: WorkProofInstruction)
    requires EncodeInstruction(m) == EncodeInstruction(n)
    ensures m == n
  {
    EncodeWordsInjective(InstructionWords(m), InstructionWords(n));
    var a, b := InstructionWords(m), InstructionWords(n);
    assert forall i | 0 <= i < 14 :: a[i] == b[i];
    assert a[0] == b[0] && a[1] == b[1] && a[2] == b[2] && a[3] == b[3] && a[4] == b[4] && a[5] == b[5] &&
      a[6] == b[6] && a[7] == b[7] && a[8] == b[8] && a[9] == b[9] && a[10] == b[10] && a[11] == b[11] &&
      a[12] == b[12] && a[13] == b[13];
  }

  // --- the fixed layouts as types of the general codec ---

  predicate Below(ws: seq<nat>, bounds: seq<nat>) {
    |ws| == |bounds| && forall i | 0 <= i < |ws| :: ws[i] < bounds[i]
  }

  function Elementaries(bounds: seq<nat>): (ts: seq<Ty>)
    ensures |ts| == |bounds|
  {
    if |bounds| == 0 then [] else [Elementary(bounds[0])] + Elementaries(bounds[1..])
  }

  lemma {:induction false} ElementariesWellFormed(bounds: seq<nat>)
    requires forall i | 0 <= i < |bounds| :: bounds[i] <= TWO256
    ensures forall t | t in Elementaries(bounds) :: WellFormed(t)
  {
    if |bounds| > 0 {
      ElementariesWellFormed(bounds[1..]);
    }
  }

  lemma {:induction false} WordsInRange(ws: seq<nat>, bounds: seq<nat>)
    requires Below(ws, bounds)
    ensures AllInRange(Elementaries(bounds), WordsToVals(ws))
  {
    if |ws| > 0 {
      WordsInRange(ws[1..], bounds[1..]);
    }
  }

  // The values in range of a row of elementary types are rows of words within bounds.
  lemma {:induction false} InRangeWords(vs: seq<Val>, bounds: seq<nat>)
    requires AllInRange(Elementaries(bounds), vs)
    ensures Below(FlattenAll(vs), bounds) && vs == WordsToVals(FlattenAll(vs))
  {
    if |vs| > 0 {
      var ts := Elementaries(bounds);
      assert ts[0] == Elementary(bounds[0]) && ts[1..] == Elementaries(bounds[1..]);
      InRangeWords(vs[1..], bounds[1..]);
      assert vs[0].Word? && FlattenAll(vs) == [vs[0].n] + FlattenAll(vs[1..]);
      assert vs == [vs[0]] + vs[1..];
    }
  }

  function IdentityBounds(): (bs: seq<nat>)
    ensures |bs| == 10
  {
    [0x100, TWO160, TWO256, TWO256, TWO64, TWO256, TWO256, TWO256, TWO160, TWO256]
  }

  function OutcomeBounds(): (bs: seq<nat>)
    ensures |bs| == 10
  {
    [TWO256, TWO256, TWO256, TWO256, 3, TWO32, TWO32, TWO256, TWO64, TWO64]
  }

  // Both sides declare the verdict as a tuple of two tuples.
  function VerdictTy(): Ty {
    PairTy(IdentityBounds(), OutcomeBounds())
  }

  function PairTy(a: seq<nat>, b: seq<nat>): Ty { Tuple([Tuple(Elementaries(a)), Tuple(Elementaries(b))]) }

  function PairVal(ws: seq<nat>, xs: seq<nat>): Val { Record([Record(WordsToVals(ws)), Record(WordsToVals(xs))]) }

  function IdentityOf(ws: seq<nat>): (v: VerdictIdentity)
    requires Below(ws, IdentityBounds())
    ensures IdentityWords(v) == ws
  {
    VerdictIdentity(ws[0], ws[1], ws[2], ws[3], ws[4], ws[5], ws[6], ws[7], ws[8], ws[9])
  }

  function OutcomeOf(ws: seq<nat>): (v: VerdictOutcome)
    requires Below(ws, OutcomeBounds())
    ensures OutcomeWords(v) == ws
  {
    VerdictOutcome(ws[0], ws[1], ws[2], ws[3], if ws[4] == 0 then Pass else if ws[4] == 1 then Fail else Inconclusive,
                   ws[5], ws[6], ws[7], ws[8], ws[9])
  }

  lemma TwoInRange(s: Ty, t: Ty, vs: seq<Val>)
    ensures AllInRange([s, t], vs) <==> |vs| == 2 && InRange(s, vs[0]) && InRange(t, vs[1])
  {
    if |vs| == 2 {
      assert [s, t][1..] == [t] && vs[1..] == [vs[1]];
      assert [t][1..] == [] && [vs[1]][1..] == [];
      assert AllInRange([t], [vs[1]]) <==> InRange(t, vs[1]) && AllInRange([], []);
    }
  }

  lemma PairInRange(a: seq<nat>, b: seq<nat>, ws: seq<nat>, xs: seq<nat>)
    requires Below(ws, a) && Below(xs, b)
    requires (forall i | 0 <= i < |a| :: a[i] <= TWO256) && forall i | 0 <= i < |b| :: b[i] <= TWO256
    ensures WellFormed(PairTy(a, b)) && InRange(PairTy(a, b), PairVal(ws, xs))
  {
    ElementariesWellFormed(a);
    ElementariesWellFormed(b);
    WordsInRange(ws, a);
    WordsInRange(xs, b);
    TwoInRange(Tuple(Elementaries(a)), Tuple(Elementaries(b)), PairVal(ws, xs).fields);
  }

  lemma InRangePair(val: Val, a: seq<nat>, b: seq<nat>) returns (ws: seq<nat>, xs: seq<nat>)
    requires InRange(PairTy(a, b), val)
    ensures Below(ws, a) && Below(xs, b) && val == PairVal(ws, xs)
  {
    TwoInRange(Tuple(Elementaries(a)), Tuple(Elementaries(b)), val.fields);
    var x, y := val.fields[0].fields, val.fields[1].fields;
    InRangeWords(x, a);
    InRangeWords(y, b);
    ws, xs := FlattenAll(x), FlattenAll(y);
    assert val.fields == [Record(x), Record(y)];
  }

  lemma VerdictBelow(v: VerdictV1)
    ensures Below(IdentityWords(v.id), IdentityBounds()) && Below(OutcomeWords(v.result), OutcomeBounds())
    ensures forall i | 0 <= i < 10 :: IdentityBounds()[i] <= TWO256 && OutcomeBounds()[i] <= TWO256
  {
  }

  lemma VerdictInRange(v: VerdictV1)
    ensures WellFormed(VerdictTy()) && InRange(VerdictTy(), VerdictVal(v))
  {
    VerdictBelow(v);
    PairInRange(IdentityBounds(), OutcomeBounds(), IdentityWords(v.id), OutcomeWords(v.result));
  }

  // Every value of the declared type is a verdict.
  lemma InRangeIsVerdict(val: Val) returns (v: VerdictV1)
    requires InRange(VerdictTy(), val)
    ensures val == VerdictVal(v)
  {
    var ws, xs := InRangePair(val, IdentityBounds(), OutcomeBounds());
    v := VerdictV1(IdentityOf(ws), OutcomeOf(xs));
  }

  // The contract's decoding is the general one at the declared type.
  lemma DecodersAgree(d: seq<Byte>)
    ensures DecodeVerdict(d).Some? <==> Decode(VerdictTy(), d).Some?
    ensures DecodeVerdict(d).Some? ==>
              Decode(VerdictTy(), d) == Some((VerdictVal(DecodeVerdict(d).value), d[640..]))
  {
    if DecodeVerdict(d).Some? {
      var v := DecodeVerdict(d).value;
      EncodeDecodeVerdict(d);
      VerdictInRange(v);
      DecodeEncode(VerdictTy(), VerdictVal(v), d[640..]);
    }
    if Decode(VerdictTy(), d).Some? {
      var (val, rest) := Decode(VerdictTy(), d).value;
      EncodeDecode(VerdictTy(), d);
      var v := InRangeIsVerdict(val);
      DecodeEncodeVerdict(v, rest);
    }
  }

  // The instruction's fourteen fields, as the escrow encodes and the engine decodes them.
  function InstructionBounds(): (bs: seq<nat>)
    ensures |bs| == 14
  {
    [TWO256, TWO160, TWO256, TWO64, TWO256, TWO256, TWO256, TWO160, TWO256, TWO256, TWO256, TWO256, TWO256, TWO64]
  }

  function InstructionTy(): Ty { Tuple(Elementaries(InstructionBounds())) }

  function InstructionVal(m: WorkProofInstruction): Val { Record(WordsToVals(InstructionWords(m))) }

  function InstructionOf(ws: seq<nat>): (m: WorkProofInstruction)
    requires Below(ws, InstructionBounds())
    ensures InstructionWords(m) == ws
  {
    WorkProofInstruction(ws[0], ws[1], ws[2], ws[3], ws[4], ws[5], ws[6], ws[7], ws[8], ws[9], ws[10], ws[11],
                         ws[12], ws[13])
  }

  lemma InstructionInRange(m: WorkProofInstruction)
    ensures WellFormed(InstructionTy()) && InRange(InstructionTy(), InstructionVal(m))
    ensures Encode(InstructionVal(m)) == EncodeInstruction(m)
  {
    ElementariesWellFormed(InstructionBounds());
    WordsInRange(InstructionWords(m), InstructionBounds());
    EncodeIsFlat(InstructionVal(m));
    FlattenWords(InstructionWords(m));
  }

  lemma DecodedInstruction(d: seq<Byte>)
    requires Decode(InstructionTy(), d).Some?
    ensures var (v, rest) := Decode(InstructionTy(), d).value;
            && v.Record? && Below(FlattenAll(v.fields), InstructionBounds())
            && v == InstructionVal(InstructionOf(FlattenAll(v.fields)))
            && d == EncodeInstruction(InstructionOf(FlattenAll(v.fields))) + rest
  {
    EncodeDecode(InstructionTy(), d);
    var (v, rest) := Decode(InstructionTy(), d).value;
    InRangeWords(v.fields, InstructionBounds());
    InstructionInRange(InstructionOf(FlattenAll(v.fields)));
  }

  function DecodeInstruction(d: seq<Byte>): Option<WorkProofInstruction> {
    match Decode(InstructionTy(), d)
    case None => None
    case Some((v, _)) =>
      DecodedInstruction(d);
      Some(InstructionOf(FlattenAll(v.fields)))
  }

  // What the escrow sends is what the engine reads.
  lemma DecodeEncodeInstruction(m: WorkProofInstruction, rest: seq<Byte>)
    ensures DecodeInstruction(EncodeInstruction(m) + rest) == Some(m)
  {
    InstructionInRange(m);
    DecodeEncode(InstructionTy(), InstructionVal(m), rest);
    FlattenWords(InstructionWords(m));
    var d := EncodeInstruction(m) + rest;
    DecodedInstruction(d);
    SameWordsSameInstruction(m, DecodeInstruction(d).value);
  }

  lemma SameWordsSameInstruction(m: WorkProofInstruction, n: WorkProofInstruction)
    requires InstructionWords(m) == InstructionWords(n)
    ensures m == n
  {
    EncodeInstructionInjective(m, n);
  }

  // And nothing else reads as that instruction.
  lemma EncodeDecodeInstruction(d: seq<Byte>)
    requires DecodeInstruction(d).Some?
    ensures EncodeInstruction(DecodeInstruction(d).value) <= d
  {
    DecodedInstruction(d);
  }

  // abi.encode of one uint256, as lockRandomness and the verifier both hash it.
  function EncodeUint256(n: Uint256): seq<Byte> {
    ToBytes(n, 32)
  }

  // --- which field stands where ---

  lemma WordsStandInOrder(ws: seq<nat>, i: nat)
    requires i < |ws| && forall k | 0 <= k < |ws| :: ws[k] < TWO256
    ensures WordAt(EncodeWords(ws), i) == ws[i]
  {
    WordAtEncode(ws, [], i);
    assert EncodeWords(ws) + [] == EncodeWords(ws);
  }

  lemma VerdictWordAt(v: VerdictV1, i: nat)
    requires i < 20
    ensures |EncodeVerdict(v)| == 640 && WordAt(EncodeVerdict(v), i) == VerdictWords(v)[i]
  {
    VerdictIsFlat(v);
    forall k: nat | k < 20 ensures VerdictWords(v)[k] < TWO256 {
      VerdictWordBounds(v, k);
    }
    WordsStandInOrder(VerdictWords(v), i);
  }

  // The identity in words 0 to 9.
  lemma IdentityLayout(v: VerdictV1)
    ensures |EncodeVerdict(v)| == 640
    ensures var d := EncodeVerdict(v);
            && WordAt(d, 0) == v.id.schemaVersion && WordAt(d, 1) == v.id.escrowAddress
            && WordAt(d, 2) == v.id.chainId && WordAt(d, 3) == v.id.jobId && WordAt(d, 4) == v.id.attempt
            && WordAt(d, 5) == v.id.instructionId && WordAt(d, 6) == v.id.specHash
            && WordAt(d, 7) == v.id.privateBundleHash && WordAt(d, 8) == v.id.artifactAddress
            && WordAt(d, 9) == v.id.artifactBlock
  {
    forall i: nat | i < 10 ensures |EncodeVerdict(v)| == 640 && WordAt(EncodeVerdict(v), i) == IdentityWords(v.id)[i] {
      VerdictWordAt(v, i);
    }
  }

  // The outcome in words 10 to 19: 0 is PASS, 1 FAIL and 2 INCONCLUSIVE.
  lemma OutcomeLayout(v: VerdictV1)
    ensures |EncodeVerdict(v)| == 640
    ensures var d := EncodeVerdict(v);
            && WordAt(d, 10) == v.result.artifactCodeHash && WordAt(d, 11) == v.result.randomRound
            && WordAt(d, 12) == v.result.randomValueHash && WordAt(d, 13) == v.result.engineVersionHash
            && (WordAt(d, 14) == 0 <==> v.result.outcome == Pass)
            && (WordAt(d, 14) == 1 <==> v.result.outcome == Fail)
            && (WordAt(d, 14) == 2 <==> v.result.outcome == Inconclusive)
            && WordAt(d, 15) == v.result.passedCount && WordAt(d, 16) == v.result.executedCount
            && WordAt(d, 17) == v.result.reportHash && WordAt(d, 18) == v.result.issuedAt
            && WordAt(d, 19) == v.result.expiresAt
  {
    VerdictIsFlat(v);
    forall i: nat | 10 <= i < 20
      ensures |EncodeVerdict(v)| == 640 && WordAt(EncodeVerdict(v), i) == OutcomeWords(v.result)[i - 10]
    {
      VerdictWordAt(v, i);
    }
  }

  // The instruction's fourteen fields, one to a word.
  lemma InstructionLayout(m: WorkProofInstruction)
    ensures var d := EncodeInstruction(m);
            && WordAt(d, 0) == m.chainId && WordAt(d, 1) == m.escrowAddress && WordAt(d, 2) == m.jobId
            && WordAt(d, 3) == m.attempt && WordAt(d, 4) == m.specHash && WordAt(d, 5) == m.privateBundleHash
            && WordAt(d, 6) == m.ciphertextHash && WordAt(d, 7) == m.artifactAddress
            && WordAt(d, 8) == m.artifactBlock && WordAt(d, 9) == m.artifactCodeHash
            && WordAt(d, 10) == m.randomRound && WordAt(d, 11) == m.randomValueHash
            && WordAt(d, 12) == m.engineVersionHash && WordAt(d, 13) == m.expiresAt
  {
    forall i: nat | i < 14 ensures WordAt(EncodeInstruction(m), i) == InstructionWords(m)[i] {
      WordsStandInOrder(InstructionWords(m), i);
    }
  }

  // A number on its own is its 32 bytes, big-endian.
  lemma Uint256Layout(n: Uint256)
    ensures |EncodeUint256(n)| == 32 && FromBytes(EncodeUint256(n)) == n
  {
    Pow256Of32();
    FromToBytes(n, 32);
  }
}
