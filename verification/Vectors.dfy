// Executing one test vector against the deployed artifact, and what its
// three-valued outcome says about the artifact itself.
module Vectors {
  import opened Base
  import opened Bytes
  import opened Hex
  import opened Bundle

  datatype CallMsg = CallMsg(
    from: Address, to: Address, data: seq<Byte>, gas: int, value: Option<nat>)

  // What comes back for an eth_call: data, a revert, some other JSON-RPC error reply of
  // the node (an internal error, a rate limit, its own timeout), or nothing usable.
  datatype CallAnswer = Returned(data: seq<Byte>) | Reverted(message: string) | NodeError(message: string) | NoAnswer

  // The chain as one RPC endpoint shows it.
  datatype View = View(
    call: (CallMsg, nat) -> CallAnswer,
    code: (Address, nat) -> Option<seq<Byte>>,
    storage: (Address, seq<Byte>, nat) -> Option<seq<Byte>>)

  // The chain itself: every call returns or reverts, and everything can be read.
  ghost predicate IsChain(truth: View) {
    && (forall m, block :: truth.call(m, block).Returned? || truth.call(m, block).Reverted?)
    && (forall a, block :: truth.code(a, block).Some?)
    && (forall a, slot, block :: truth.storage(a, slot, block).Some?)
  }

  // An endpoint that may report an error or fail to answer, anywhere, but whose data
  // and reverts are the chain's.
  ghost predicate Honest(view: View, truth: View) {
    && IsChain(truth)
    && (forall m, block ::
          var answer := view.call(m, block);
          answer.NodeError? || answer.NoAnswer? || answer == truth.call(m, block))
    && (forall a, block :: view.code(a, block).None? || view.code(a, block) == truth.code(a, block))
    && (forall a, slot, block ::
          view.storage(a, slot, block).None? || view.storage(a, slot, block) == truth.storage(a, slot, block))
  }

  // Where and with which limits vectors run.
  datatype Target = Target(artifact: Address, block: nat, gasCap: int, maxResponseBytes: int)

  datatype VectorOutcome = VectorOutcome(id: string, passed: bool, skipped: bool)

  function Skip(v: Vector): VectorOutcome { VectorOutcome(v.id, false, true) }
  function Verdict(v: Vector, passed: bool): VectorOutcome { VectorOutcome(v.id, passed, false) }

  // --- decoding a vector's fields ---

  // Absent (Some(None)), a number, or malformed (None).
  function ParseCallValue(s: string): Option<Option<nat>> {
    if s == "" then Some(None)
    else match HexutilDecodeBig(s)
      case None => None
      case Some(n) => Some(Some(n))
  }

  // common.HexToAddress on a schema-checked address.
  function HexToAddress(s: string): Address {
    if IsAddress(s) then FromBytes(DecodePairs(s[2..])) % TWO160 else ZERO_ADDRESS
  }

  function GasOf(cap: int): int { if cap > 0 then cap else 0 }

  function CallOf(t: Target, v: Vector): Option<CallMsg> {
    match (HexutilDecode(v.calldata), ParseCallValue(v.value))
    case (Some(data), Some(value)) =>
      Some(CallMsg(HexToAddress(v.caller), t.artifact, data, GasOf(t.gasCap), value))
    case _ => None
  }

  // A quantity of whole bytes is the number those bytes spell.
  lemma {:induction false} QuantityIsItsBytes(s: string)
    requires |s| % 2 == 0 && AllHex(s)
    ensures NumberOf(s) == FromBytes(DecodePairs(s))
  {
    if |s| > 0 {
      var n := |s| - 2;
      var front, pair := s[..n], s[n..];
      assert s == front + pair && s[..|s| - 1][..n] == front;
      DecodePairsConcat(front, pair);
      QuantityIsItsBytes(front);
      var v := CharValue(s[n]) * 16 + CharValue(s[n + 1]);
      assert pair[2..] == [] && DecodePairs(pair) == [v];
      assert (DecodePairs(front) + [v])[..|DecodePairs(front)|] == DecodePairs(front);
    }
  }

  // A printed message decodes to itself, addressed to the artifact.
  lemma PrintedCallDecodes(t: Target, v: Vector, from: Address, data: seq<Byte>, value: Uint256)
    requires v.calldata == "0x" + EncodePairs(data) && v.caller == "0x" + EncodePairs(ToBytes(from, 20))
    requires v.value == QuantityText(value)
    ensures CallOf(t, v)
         == Some(CallMsg(from, t.artifact, data, if t.gasCap > 0 then t.gasCap else 0, Some(value)))
  {
    PrintedDecodes(data);
    QuantityDecodes(value);
    PrintedAddress(from);
  }

  lemma PrintedAddress(from: Address)
    ensures HexToAddress("0x" + EncodePairs(ToBytes(from, 20))) == from
  {
    var s := "0x" + EncodePairs(ToBytes(from, 20));
    assert s[2..] == EncodePairs(ToBytes(from, 20));
    DecodeEncodePairs(ToBytes(from, 20));
    assert Pow256(8) == TWO64;
    assert Pow256(16) == TWO128;
    FromToBytes(from, 20);
  }

  const SUPPORTS_INTERFACE_SELECTOR: seq<Byte> := [0x01, 0xff, 0xc9, 0xa7]

  function SupportsInterfaceCall(t: Target, v: Vector): Option<CallMsg> {
    match HexutilDecode(v.interfaceId)
    case None => None
    case Some(id) =>
      if |id| != 4 then None
      else Some(CallMsg(ZERO_ADDRESS, t.artifact,
                        SUPPORTS_INTERFACE_SELECTOR + id + seq(28, _ => 0), GasOf(t.gasCap), None))
  }

  // The interface question: the selector, the printed id, and zeros to a full word.
  lemma SupportsInterfaceBytes(t: Target, v: Vector, id: seq<Byte>)
    requires |id| == 4 && v.interfaceId == "0x" + EncodePairs(id)
    ensures SupportsInterfaceCall(t, v).Some?
    ensures var m := SupportsInterfaceCall(t, v).value;
            && m.from == ZERO_ADDRESS && m.to == t.artifact && m.value == None
            && m.data == [0x01, 0xff, 0xc9, 0xa7] + id + seq(28, _ => 0)
  {
    PrintedDecodes(id);
  }

  // A canonically encoded ABI bool: 32 bytes, all zero but a last 0 or 1.
  function DecodeCanonicalBool(b: seq<Byte>): Option<bool> {
    if |b| == 32 && (forall i | 0 <= i < 31 :: b[i] == 0) && b[31] <= 1 then Some(b[31] == 1) else None
  }

  function EncodeBool(x: bool): seq<Byte> {
    ToBytes(if x then 1 else 0, 32)
  }

  function SlotOf(v: Vector): Option<seq<Byte>> {
    match HexutilDecode(v.slot)
    case Some(slot) => if |slot| == 32 then Some(slot) else None
    case None => None
  }

  predicate Contains(s: string, sub: string) {
    sub <= s || (|s| > 0 && Contains(s[1..], sub))
  }

  predicate StandsAt(s: string, sub: string, i: nat) {
    i + |sub| <= |s| && s[i..i + |sub|] == sub
  }

  lemma StandsFirst(s: string, sub: string)
    ensures StandsAt(s, sub, 0) <==> sub <= s
  {
    assert |sub| <= |s| ==> s[0..|sub|] == s[..|sub|];
  }

  lemma StandsLater(s: string, sub: string, i: nat)
    requires |s| > 0
    ensures StandsAt(s, sub, i + 1) <==> StandsAt(s[1..], sub, i)
  {
    assert i + 1 + |sub| <= |s| ==> s[i + 1..i + 1 + |sub|] == s[1..][i..i + |sub|];
  }

  // Some stretch of the text is the part.
  lemma {:induction false} ContainsExactly(s: string, sub: string)
    ensures Contains(s, sub) <==> exists i: nat :: StandsAt(s, sub, i)
  {
    StandsFirst(s, sub);
    if |s| > 0 {
      ContainsExactly(s[1..], sub);
      if i: nat :| StandsAt(s[1..], sub, i) {
        StandsLater(s, sub, i);
      }
      if i: nat :| StandsAt(s, sub, i) && i > 0 {
        StandsLater(s, sub, i - 1);
      }
    }
  }

  // strings.TrimPrefix(s, "0x")
  function Trim0x(s: string): string {
    if |s| >= 2 && s[0] == '0' && s[1] == 'x' then s[2..] else s
  }

  // Any revert, or one whose message shows the expected selector or pattern.
  predicate RevertMatches(v: Vector, message: string) {
    if v.expectedRevertSelector != "" then
      Contains(ToLower(message), ToLower(Trim0x(v.expectedRevertSelector)))
    else v.expectedRevertPattern == "" || Contains(message, v.expectedRevertPattern)
  }

  // An expected selector is looked for in any letter case and without its 0x, and
  // before any pattern; a pattern as it stands; with neither, every revert will do.
  lemma RevertMatchesExactly(v: Vector, message: string)
    ensures v.expectedRevertSelector == "" && v.expectedRevertPattern == "" ==> RevertMatches(v, message)
    ensures v.expectedRevertSelector == "" && v.expectedRevertPattern != "" ==>
              (RevertMatches(v, message) <==> exists i: nat :: StandsAt(message, v.expectedRevertPattern, i))
    ensures IsBytes4(v.expectedRevertSelector) ==>
              (RevertMatches(v, message) <==>
                 exists i: nat :: StandsAt(ToLower(message), ToLower(v.expectedRevertSelector[2..]), i))
  {
    ContainsExactly(message, v.expectedRevertPattern);
    ContainsExactly(ToLower(message), ToLower(Trim0x(v.expectedRevertSelector)));
  }

  // --- the five executors ---

  function ExecuteEthCallEquals(view: View, t: Target, v: Vector): VectorOutcome {
    match (CallOf(t, v), HexutilDecode(v.expectedReturn))
    case (Some(m), Some(expected)) =>
      (match view.call(m, t.block)
       case Returned(result) =>
         if |result| > t.maxResponseBytes then Skip(v) else Verdict(v, result == expected)
       case _ => Skip(v))
    case _ => Skip(v)
  }

  // isEVMRevert: any JSON-RPC error reply counts as a revert.
  function RevertOf(answer: CallAnswer): Option<string> {
    match answer
    case Reverted(message) => Some(message)
    case NodeError(message) => Some(message)
    case _ => None
  }

  function ExecuteEthCallReverts(view: View, t: Target, v: Vector): VectorOutcome {
    match CallOf(t, v)
    case None => Skip(v)
    case Some(m) =>
      var answer := view.call(m, t.block);
      if answer.Returned? then Verdict(v, false)
      else
        match RevertOf(answer)
        case None => Skip(v)
        case Some(message) => Verdict(v, RevertMatches(v, message))
  }

  function ExecuteErc165(view: View, t: Target, v: Vector): VectorOutcome {
    match SupportsInterfaceCall(t, v)
    case None => Skip(v)
    case Some(m) =>
      match view.call(m, t.block)
      case Returned(result) =>
        (match DecodeCanonicalBool(result)
         case None => Skip(v)
         case Some(supports) => Verdict(v, supports == (v.expected == Some(true))))
      case _ => Skip(v)
  }

  function ExecuteCodeSizeRange(view: View, t: Target, v: Vector): VectorOutcome {
    match view.code(t.artifact, t.block)
    case None => Skip(v)
    case Some(code) => Verdict(v, v.minBytes <= |code| <= v.maxBytes)
  }

  function ExecuteStorageAtEquals(view: View, t: Target, v: Vector): VectorOutcome {
    match (SlotOf(v), HexutilDecode(v.expectedValue))
    case (Some(slot), Some(expected)) =>
      (match view.storage(t.artifact, slot, t.block)
       case None => Skip(v)
       case Some(value) => Verdict(v, value == expected))
    case _ => Skip(v)
  }

  function ExecuteVector(view: View, t: Target, v: Vector): (o: VectorOutcome)
    ensures !(o.passed && o.skipped)
  {
    match v.kind
    case EthCallEquals => ExecuteEthCallEquals(view, t, v)
    case EthCallReverts => ExecuteEthCallReverts(view, t, v)
    case Erc165SupportsInterface => ExecuteErc165(view, t, v)
    case CodeSizeRange => ExecuteCodeSizeRange(view, t, v)
    case StorageAtEquals => ExecuteStorageAtEquals(view, t, v)
    case UnknownKind(_) => Skip(v)
  }

  // --- what a vector asks of the chain, in its own terms ---

  // The artifact, at its submission block, does what the vector requires.
  ghost predicate Holds(truth: View, t: Target, v: Vector) {
    match v.kind
    case EthCallEquals =>
      exists m, expected ::
        && CallOf(t, v) == Some(m) && HexutilDecode(v.expectedReturn) == Some(expected)
        && truth.call(m, t.block) == Returned(expected) && |expected| <= t.maxResponseBytes
    case EthCallReverts =>
      exists m, message ::
        CallOf(t, v) == Some(m) && truth.call(m, t.block) == Reverted(message) && RevertMatches(v, message)
    case Erc165SupportsInterface =>
      exists m ::
        SupportsInterfaceCall(t, v) == Some(m)
        && truth.call(m, t.block) == Returned(EncodeBool(v.expected == Some(true)))
    case CodeSizeRange =>
      exists code :: truth.code(t.artifact, t.block) == Some(code) && v.minBytes <= |code| <= v.maxBytes
    case StorageAtEquals =>
      exists slot, value ::
        && SlotOf(v) == Some(slot) && HexutilDecode(v.expectedValue) == Some(value)
        && truth.storage(t.artifact, slot, t.block) == Some(value)
    case UnknownKind(_) => false
  }

  lemma {:induction false} ZeroBytes(w: nat, i: nat)
    requires i < w
    ensures ToBytes(0, w)[i] == 0
  {
    if i < w - 1 {
      ZeroBytes(w - 1, i);
    }
  }

  lemma CanonicalBoolIsAbi(b: seq<Byte>, x: bool)
    ensures DecodeCanonicalBool(b) == Some(x) <==> b == EncodeBool(x)
  {
    var n := if x then 1 else 0;
    assert n / 256 == 0 && n % 256 == n;
    var e := EncodeBool(x);
    assert e == ToBytes(0, 31) + [n];
    forall i | 0 <= i < 31 ensures e[i] == 0 {
      ZeroBytes(31, i);
    }
  }

  // A pass proves the requirement and a failure refutes it; a skip is silent.
  ghost predicate IsEvidence(o: VectorOutcome, truth: View, t: Target, v: Vector) {
    && (o.passed ==> Holds(truth, t, v))
    && (!o.passed && !o.skipped ==> !Holds(truth, t, v))
  }

  // The vector expects a revert, and its call was answered by an error of the node.
  predicate TakenForRevert(view: View, t: Target, v: Vector) {
    v.kind.EthCallReverts? && CallOf(t, v).Some? && view.call(CallOf(t, v).value, t.block).NodeError?
  }

  lemma OutcomeIsEvidence(view: View, truth: View, t: Target, v: Vector)
    requires Honest(view, truth) && !TakenForRevert(view, t, v)
    ensures IsEvidence(ExecuteVector(view, t, v), truth, t, v)
  {
    match v.kind
    case EthCallReverts =>
      if CallOf(t, v).Some? {
        assert view.call(CallOf(t, v).value, t.block) == NoAnswer
            || view.call(CallOf(t, v).value, t.block) == truth.call(CallOf(t, v).value, t.block);
      }
    case Erc165SupportsInterface =>
      if SupportsInterfaceCall(t, v).Some? {
        var answer := view.call(SupportsInterfaceCall(t, v).value, t.block);
        if answer.Returned? {
          CanonicalBoolIsAbi(answer.data, true);
          CanonicalBoolIsAbi(answer.data, false);
        }
      }
    case _ =>
  }

  // --- when a vector is decided, exactly ---

  // What the vector asked for was answered: with data or a revert, not an error.
  predicate Answered(view: View, t: Target, v: Vector) {
    match v.kind
    case EthCallEquals => CallOf(t, v).Some? && IsAnswer(view.call(CallOf(t, v).value, t.block))
    case EthCallReverts => CallOf(t, v).Some? && IsAnswer(view.call(CallOf(t, v).value, t.block))
    case Erc165SupportsInterface =>
      SupportsInterfaceCall(t, v).Some? && IsAnswer(view.call(SupportsInterfaceCall(t, v).value, t.block))
    case CodeSizeRange => view.code(t.artifact, t.block).Some?
    case StorageAtEquals => SlotOf(v).Some? && view.storage(t.artifact, SlotOf(v).value, t.block).Some?
    case UnknownKind(_) => false
  }

  predicate IsAnswer(answer: CallAnswer) { answer.Returned? || answer.Reverted? }

  // Why an executor must not decide: fields that do not decode, no usable answer, a
  // response over the cap, or one that is no bool.
  ghost predicate Undecidable(view: View, t: Target, v: Vector) {
    || !FieldsDecode(t, v)
    || match v.kind
       case EthCallEquals =>
         var answer := view.call(CallOf(t, v).value, t.block);
         !answer.Returned? || |answer.data| > t.maxResponseBytes
       case EthCallReverts => view.call(CallOf(t, v).value, t.block).NoAnswer?
       case Erc165SupportsInterface =>
         var answer := view.call(SupportsInterfaceCall(t, v).value, t.block);
         !answer.Returned? || (answer.data != EncodeBool(false) && answer.data != EncodeBool(true))
       case CodeSizeRange => view.code(t.artifact, t.block).None?
       case StorageAtEquals => view.storage(t.artifact, SlotOf(v).value, t.block).None?
  }

  // A vector is skipped exactly then.
  lemma SkippedExactly(view: View, t: Target, v: Vector)
    ensures ExecuteVector(view, t, v).id == v.id
    ensures ExecuteVector(view, t, v).skipped <==> Undecidable(view, t, v)
  {
    if v.kind.Erc165SupportsInterface? && SupportsInterfaceCall(t, v).Some? {
      var answer := view.call(SupportsInterfaceCall(t, v).value, t.block);
      if answer.Returned? {
        CanonicalBoolIsAbi(answer.data, true);
        CanonicalBoolIsAbi(answer.data, false);
      }
    }
  }

  // On an honest view that answered, it passes exactly if its requirement holds.
  lemma PassedExactly(view: View, truth: View, t: Target, v: Vector)
    requires Honest(view, truth) && Answered(view, t, v)
    ensures ExecuteVector(view, t, v).passed <==> Holds(truth, t, v)
  {
    match v.kind
    case Erc165SupportsInterface =>
      var answer := view.call(SupportsInterfaceCall(t, v).value, t.block);
      if answer.Returned? {
        CanonicalBoolIsAbi(answer.data, true);
        CanonicalBoolIsAbi(answer.data, false);
      }
    case _ =>
  }

  // An error of the node is judged by its message, like a revert.
  lemma TakenIsJudged(view: View, t: Target, v: Vector)
    requires TakenForRevert(view, t, v)
    ensures ExecuteVector(view, t, v).passed <==>
            RevertMatches(v, view.call(CallOf(t, v).value, t.block).message)
  {
  }

  // The chain's own response that cannot be judged: a call that should return reverts,
  // returns more than the cap, or returns no bool where one is due.
  ghost predicate BadResponse(truth: View, t: Target, v: Vector) {
    match v.kind
    case EthCallEquals =>
      && CallOf(t, v).Some?
      && var answer := truth.call(CallOf(t, v).value, t.block);
         !answer.Returned? || |answer.data| > t.maxResponseBytes
    case Erc165SupportsInterface =>
      && SupportsInterfaceCall(t, v).Some?
      && var answer := truth.call(SupportsInterfaceCall(t, v).value, t.block);
         !answer.Returned? || (answer.data != EncodeBool(false) && answer.data != EncodeBool(true))
    case _ => false
  }

  // So a validated vector with a canonical value, on an honest endpoint that answers,
  // is decided, and rightly, unless the artifact's own response cannot be judged.
  lemma ValidVectorIsDecided(view: View, truth: View, t: Target, v: Vector)
    requires VectorOk(v) && (v.kind.EthCallEquals? || v.kind.EthCallReverts? ==> CanonicalValue(v.value))
    requires Honest(view, truth) && Answered(view, t, v)
    ensures var o := ExecuteVector(view, t, v);
            (o.skipped <==> BadResponse(truth, t, v)) && (o.passed <==> Holds(truth, t, v))
  {
    ValidVectorDecodes(t, v);
    SkippedExactly(view, t, v);
    PassedExactly(view, truth, t, v);
  }

  // --- when an outcome is evidence, exactly ---

  // A chain that agrees with a view wherever the view answers, and on which every
  // other call ends the same way.
  function Completed(view: View, otherwise: CallAnswer): View {
    View((m: CallMsg, block: nat) =>
           if view.call(m, block).Returned? || view.call(m, block).Reverted? then view.call(m, block) else otherwise,
         (a: Address, block: nat) => if view.code(a, block).Some? then view.code(a, block) else Some([]),
         (a: Address, slot: seq<Byte>, block: nat) =>
           if view.storage(a, slot, block).Some? then view.storage(a, slot, block) else Some([]))
  }

  lemma CompletedIsHonest(view: View, otherwise: CallAnswer)
    requires otherwise.Returned? || otherwise.Reverted?
    ensures Honest(view, Completed(view, otherwise))
  {
  }

  // On the chain where every unanswered call returns, the revert did not happen.
  lemma QuietChainRefutes(view: View, t: Target, v: Vector)
    requires TakenForRevert(view, t, v)
    ensures Honest(view, Completed(view, Returned([]))) && !Holds(Completed(view, Returned([])), t, v)
  {
    CompletedIsHonest(view, Returned([]));
  }

  // A message every expectation of the vector is content with.
  function MatchingMessage(v: Vector): string {
    if v.expectedRevertSelector != "" then Trim0x(v.expectedRevertSelector) else v.expectedRevertPattern
  }

  // What a vector reports is evidence about every chain its endpoint may be an honest
  // view of, if and only if it did not take an error of the node for a revert.
  lemma EvidenceExactly(view: View, t: Target, v: Vector)
    ensures (forall truth | Honest(view, truth) :: IsEvidence(ExecuteVector(view, t, v), truth, t, v))
       <==> !TakenForRevert(view, t, v)
  {
    if TakenForRevert(view, t, v) {
      var message := MatchingMessage(v);
      assert RevertMatches(v, message);
      var quiet, loud := Completed(view, Returned([])), Completed(view, Reverted(message));
      QuietChainRefutes(view, t, v);
      CompletedIsHonest(view, Reverted(message));
      assert Holds(loud, t, v);
      var o := ExecuteVector(view, t, v);
      assert !IsEvidence(o, quiet, t, v) || !IsEvidence(o, loud, t, v);
    } else {
      forall truth | Honest(view, truth) ensures IsEvidence(ExecuteVector(view, t, v), truth, t, v) {
        OutcomeIsEvidence(view, truth, t, v);
      }
    }
  }

  function PlainRevert(): Vector {
    Vector("v", EthCallReverts, "0x", "0x" + seq(40, _ => '0'), "0x0", "", "", "", "", None, 0, 0, "", "")
  }

  // A node that answers every call with an internal error.
  function NodeDown(): View {
    View((m: CallMsg, block: nat) => NodeError("internal error"), (a: Address, block: nat) => None,
         (a: Address, slot: seq<Byte>, block: nat) => None)
  }

  // Whatever the chain, a plain revert expectation passes on such a node.
  lemma NodeDownPasses(t: Target, v: Vector)
    requires v.kind.EthCallReverts? && CallOf(t, v).Some?
    requires v.expectedRevertSelector == "" && v.expectedRevertPattern == ""
    ensures ExecuteVector(NodeDown(), t, v) == Verdict(v, true)
  {
  }

  // Such an input: a valid vector, and a chain on which no call reverts.
  lemma NodeErrorPasses(t: Target) returns (view: View, truth: View, v: Vector)
    ensures VectorOk(v) && Honest(view, truth)
    ensures ExecuteVector(view, t, v).passed && !Holds(truth, t, v)
  {
    view, v := NodeDown(), PlainRevert();
    truth := Completed(view, Returned([]));
    PlainRevertIsValid(t);
    NodeDownPasses(t, v);
    QuietChainRefutes(view, t, v);
  }

  lemma PlainRevertIsValid(t: Target)
    ensures VectorOk(PlainRevert()) && CallOf(t, PlainRevert()).Some?
  {
    var v := PlainRevert();
    assert v.caller[2..] == seq(40, _ => '0') && v.value[2..] == "0" && v.calldata[2..] == "";
    assert IsHexOf(v.value, |v.value| - 2);
  }

  // --- which validated vectors can be malformed ---

  // The engine rejects a msg.value with a leading zero, which the schema allows.
  predicate CanonicalValue(s: string) {
    |s| <= 3 || s[2] != '0'
  }

  predicate FieldsDecode(t: Target, v: Vector) {
    match v.kind
    case EthCallEquals => CallOf(t, v).Some? && HexutilDecode(v.expectedReturn).Some?
    case EthCallReverts => CallOf(t, v).Some?
    case Erc165SupportsInterface => SupportsInterfaceCall(t, v).Some?
    case CodeSizeRange => true
    case StorageAtEquals => SlotOf(v).Some? && HexutilDecode(v.expectedValue).Some?
    case UnknownKind(_) => false
  }

  // A validated vector's fields all decode, except exactly when it is a call
  // whose value is written with a leading zero.
  lemma ValidVectorDecodes(t: Target, v: Vector)
    requires VectorOk(v)
    ensures FieldsDecode(t, v) <==> (v.kind.EthCallEquals? || v.kind.EthCallReverts? ==> CanonicalValue(v.value))
  {
    match v.kind
    case EthCallEquals =>
    case EthCallReverts =>
    case Erc165SupportsInterface => HexOfDecodes(v.interfaceId, 4);
    case StorageAtEquals => HexOfDecodes(v.slot, 32);
    case _ =>
  }

  // Such a vector exists, so a schema-valid bundle can hold a vector that is
  // skipped whatever the chain answers.
  lemma LeadingZeroIsSkipped()
    ensures var v := Vector("v", EthCallReverts, "0x", "0x" + seq(40, _ => '0'), "0x01", "", "", "", "", None, 0, 0,
                            "", "");
            VectorOk(v) && forall view, t :: ExecuteVector(view, t, v).skipped
  {
    var v := Vector("v", EthCallReverts, "0x", "0x" + seq(40, _ => '0'), "0x01", "", "", "", "", None, 0, 0, "", "");
    assert v.caller[2..] == seq(40, _ => '0');
    assert v.value[2..] == "01";
    assert v.calldata[2..] == "";
    assert IsHexOf(v.value, |v.value| - 2);
    assert HexutilDecodeBig(v.value).None?;
  }
}
