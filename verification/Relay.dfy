// The relayer: polling the proxy with exponential backoff, checking what comes
// back, and turning it into a settlement call.
module Relay {
  import opened Base
  import opened Bytes
  import opened Hex
  import R = Records
  import M = EscrowMachine

  // --- action responses ---

  datatype Body = Body(
    signature: Option<string>, id: Option<string>, submissionTag: string, status: int,
    opType: Option<string>, opCommand: Option<string>, data: Option<string>,
    additionalResultStatus: Option<string>, version: Option<string>, log: Option<string>)

  datatype Reply = NotFound | HttpError(status: nat) | MalformedJson | NoResult | Response(body: Body)

  datatype ActionResult = ActionResult(
    data: string, opType: string, opCommand: string, submissionTag: string, status: int, signature: string)

  datatype Error =
    | BadInstruction | Http | Malformed | MissingResult | NoSignature | BadId | WrongId | WrongTag | WrongStatus
    | WrongOpType | WrongOpCommand | BadData | BadAdditional | BadVersion | BadLog | TimedOut

  function OrEmpty(s: Option<string>): string { if s.Some? then s.value else "" }

  predicate IsHexText(s: string) { |s| >= 2 && s[0] == '0' && s[1] == 'x' && AllHex(s[2..]) }

  // asciiToBytes32: hex of the text, right-padded with zero digits.
  function AsciiToBytes32(text: seq<Byte>): Option<string> {
    if |text| > 32 then None else Some("0x" + EncodePairs(text) + seq(64 - 2 * |text|, _ => '0'))
  }

  const WORKPROOF_TEXT: seq<Byte> := [0x57, 0x4f, 0x52, 0x4b, 0x50, 0x52, 0x4f, 0x4f, 0x46]
  const VERIFY_TEXT: seq<Byte> := [0x56, 0x45, 0x52, 0x49, 0x46, 0x59]
  const SUBMISSION_TAG: string := "threshold"

  // The operation a relayer accepts results of, as padded texts.
  datatype Operation = Operation(opType: string, opCommand: string)

  function WorkProofVerify(): Operation {
    Operation(AsciiToBytes32(WORKPROOF_TEXT).value, AsciiToBytes32(VERIFY_TEXT).value)
  }

  // validateActionResponse, check by check: who signed what, where it is routed,
  // what it carries.
  function IdentityError(body: Body, instructionId: string): Option<Error> {
    if !IsHexOf(OrEmpty(body.signature), 130) then Some(NoSignature)
    else if !IsHexOf(OrEmpty(body.id), 64) then Some(BadId)
    else if instructionId != "" && ToLower(body.id.value) != ToLower(instructionId) then Some(WrongId)
    else None
  }

  function RoutingError(body: Body, op: Operation): Option<Error> {
    if body.submissionTag != SUBMISSION_TAG then Some(WrongTag)
    else if body.status != 1 then Some(WrongStatus)
    else if ToLower(OrEmpty(body.opType)) != ToLower(op.opType) then Some(WrongOpType)
    else if ToLower(OrEmpty(body.opCommand)) != ToLower(op.opCommand) then Some(WrongOpCommand)
    else None
  }

  function PayloadError(body: Body): Option<Error> {
    if !IsHexText(OrEmpty(body.data)) || body.data == Some("0x") then Some(BadData)
    else if body.additionalResultStatus.Some? && !IsHexText(body.additionalResultStatus.value) then Some(BadAdditional)
    else if OrEmpty(body.version) == "" then Some(BadVersion)
    else if body.log.None? then Some(BadLog)
    else None
  }

  function ValidateResponse(body: Body, op: Operation, instructionId: string): Result<ActionResult, Error> {
    var identity, routing, payload := IdentityError(body, instructionId), RoutingError(body, op), PayloadError(body);
    if identity.Some? then Err(identity.value)
    else if routing.Some? then Err(routing.value)
    else if payload.Some? then Err(payload.value)
    else Ok(ActionResult(OrEmpty(body.data), OrEmpty(body.opType), OrEmpty(body.opCommand), body.submissionTag,
                         body.status, OrEmpty(body.signature)))
  }

  // --- what the escrow reads out of an action ---

  // The bytes a 0x or 0X text of whole bytes spells.
  function TextBytes(s: string): Option<seq<Byte>> { HexutilDecode(s) }

  // cast, which turns the texts into a transaction, is not part of this model. It is
  // taken to read a text only as the bytes it spells, and to read every 0x text that
  // spells any; whether it reads 0X texts is left open.
  ghost predicate ReadsHex(parse: string -> Option<seq<Byte>>) {
    forall t {:trigger parse(t)} ::
      && (parse(t).Some? ==> parse(t) == TextBytes(t))
      && (IsHexText(t) && |t| % 2 == 0 ==> parse(t).Some?)
  }

  // Readers of both kinds.
  function ReadSmall(t: string): Option<seq<Byte>> { if IsHexText(t) then TextBytes(t) else None }

  lemma BothReadHex()
    ensures ReadsHex(TextBytes) && ReadsHex(ReadSmall)
  {
  }

  lemma ReadsAs(parse: string -> Option<seq<Byte>>, t: string)
    requires ReadsHex(parse)
    ensures parse(t).Some? ==> parse(t) == TextBytes(t)
    ensures IsHexText(t) ==> (parse(t).Some? <==> |t| % 2 == 0)
  {
    assert parse(t).Some? ==> parse(t) == TextBytes(t);
  }

  lemma LowerKeepsHex(s: string, t: string)
    requires ToLower(s) == ToLower(t) && IsHexText(t)
    ensures |s| == |t| && HasPrefix0x(s) && AllHex(s[2..])
    ensures forall i | 2 <= i < |s| :: IsHexChar(s[i]) && IsHexChar(t[i]) && CharValue(s[i]) == CharValue(t[i])
  {
    assert |ToLower(s)| == |s| && |ToLower(t)| == |t|;
    forall i | 0 <= i < |s| ensures ToLowerChar(s[i]) == ToLowerChar(t[i]) {
      assert ToLower(s)[i] == ToLower(t)[i];
    }
    forall i | 2 <= i < |s| ensures IsHexChar(t[i]) && IsHexChar(s[i]) && CharValue(s[i]) == CharValue(t[i]) {
      assert t[2..][i - 2] == t[i];
    }
    assert forall k | 0 <= k < |s[2..]| :: s[2..][k] == s[k + 2];
  }

  lemma {:induction false} SameDigitsSameBytes(s: string, t: string)
    requires |s| == |t| && |s| % 2 == 0 && AllHex(s) && AllHex(t)
    requires forall i | 0 <= i < |s| :: CharValue(s[i]) == CharValue(t[i])
    ensures DecodePairs(s) == DecodePairs(t)
  {
    if |s| > 0 {
      SameDigitsSameBytes(s[2..], t[2..]);
    }
  }

  // Texts that agree up to letter case denote the same bytes.
  lemma CaseDoesNotMatter(s: string, t: string)
    requires ToLower(s) == ToLower(t) && IsHexText(t) && |t| % 2 == 0
    ensures TextBytes(s) == TextBytes(t) && TextBytes(t).Some?
  {
    LowerKeepsHex(s, t);
    assert forall i | 0 <= i < |s[2..]| :: s[2..][i] == s[i + 2] && t[2..][i] == t[i + 2];
    SameDigitsSameBytes(s[2..], t[2..]);
  }

  lemma {:induction false} ZeroDigits(n: nat)
    ensures AllHex(seq(2 * n, _ => '0')) && DecodePairs(seq(2 * n, _ => '0')) == seq(n, _ => 0)
  {
    if n > 0 {
      var z := seq(2 * n, _ => '0');
      assert z[2..] == seq(2 * (n - 1), _ => '0');
      ZeroDigits(n - 1);
      assert seq(n, _ => 0) == [0] + seq(n - 1, _ => 0);
    }
  }

  // asciiToBytes32 spells the text's bytes, zero-padded to 32, and refuses longer ones.
  lemma AsciiBytes(text: seq<Byte>)
    ensures AsciiToBytes32(text).Some? <==> |text| <= 32
    ensures |text| <= 32 ==>
              && IsHexOf(AsciiToBytes32(text).value, 64)
              && TextBytes(AsciiToBytes32(text).value) == Some(text + seq(32 - |text|, _ => 0))
  {
    if |text| > 32 {
      return;
    }
    var h, z := EncodePairs(text), seq(64 - 2 * |text|, _ => '0');
    ZeroDigits(32 - |text|);
    DecodePairsConcat(h, z);
    DecodeEncodePairs(text);
    assert AsciiToBytes32(text).value[2..] == h + z;
  }

  lemma ZeroWords()
    ensures Pow256(23) == 0x10000000000000000000000000000000000000000000000
    ensures Pow256(26) == 0x10000000000000000000000000000000000000000000000000000
  {
    assert Pow256(8) == TWO64;
    assert Pow256(16) == TWO128;
  }

  // Both operation names, as the big-endian words the escrow compares.
  lemma OperationWords()
    ensures FromBytes(WORKPROOF_TEXT + seq(23, _ => 0)) == R.OP_TYPE
    ensures FromBytes(VERIFY_TEXT + seq(26, _ => 0)) == R.OP_COMMAND
  {
    WorkproofNumber();
    VerifyNumber();
    FromBytesShift(WORKPROOF_TEXT, 23);
    FromBytesShift(VERIFY_TEXT, 26);
    ZeroWords();
  }

  lemma WorkproofNumber()
    ensures FromBytes(WORKPROOF_TEXT) == 0x574f524b50524f4f46
  {
    var t := WORKPROOF_TEXT;
    assert t[..0] == [] && t[..9] == t;
    ThreeMore(t, 0, 0);
    ThreeMore(t, 3, 0x574f52);
    ThreeMore(t, 6, 0x574f524b5052);
  }

  lemma VerifyNumber()
    ensures FromBytes(VERIFY_TEXT) == 0x564552494659
  {
    var t := VERIFY_TEXT;
    assert t[..0] == [] && t[..6] == t;
    ThreeMore(t, 0, 0);
    ThreeMore(t, 3, 0x564552);
  }

  lemma ThreeMore(t: seq<Byte>, k: nat, n: nat)
    requires k + 3 <= |t| && FromBytes(t[..k]) == n
    ensures FromBytes(t[..k + 3]) == ((n * 0x100 + t[k] as int) * 0x100 + t[k + 1] as int) * 0x100 + t[k + 2] as int
  {
    FromBytesSnoc(t, k);
    FromBytesSnoc(t, k + 1);
    FromBytesSnoc(t, k + 2);
  }

  lemma FromBytesSnoc(t: seq<Byte>, k: nat)
    requires k < |t|
    ensures FromBytes(t[..k + 1]) == FromBytes(t[..k]) * 256 + t[k]
  {
    assert t[..k + 1][..k] == t[..k];
  }

  lemma {:induction false} FromBytesShift(b: seq<Byte>, n: nat)
    ensures FromBytes(b + seq(n, _ => 0)) == FromBytes(b) * Pow256(n)
  {
    var p := b + seq(n, _ => 0);
    if n == 0 {
      assert p == b;
    } else {
      assert p[..|p| - 1] == b + seq(n - 1, _ => 0);
      FromBytesShift(b, n - 1);
    }
  }

  // The settlement call made from an action: the numbers and bytes its texts are read
  // as. What a 65-byte signature stands for is the chain's to say.
  function SettlementCall(id: nat, a: ActionResult, parse: string -> Option<seq<Byte>>,
                          read: seq<Byte> -> M.Signature, live: Bytes32): Option<M.Call>
  {
    match (parse(a.data), parse(a.opType), parse(a.opCommand), parse(a.signature))
    case (Some(data), Some(opType), Some(opCommand), Some(signature)) =>
      if |opType| != 32 || |opCommand| != 32 || a.status < 0 || a.status > 255 then None
      else Some(M.SettleAttempt(id, data, FromBytes(opType) % TWO256, FromBytes(opCommand) % TWO256,
                                TagBytes(a.submissionTag), a.status, read(signature), live))
    case _ => None
  }

  function TagBytes(s: string): seq<Byte> {
    seq(|s|, i requires 0 <= i < |s| => s[i] as int % 256)
  }

  predicate SpellsWord(s: string, w: Bytes32) {
    TextBytes(s).Some? && |TextBytes(s).value| == 32 && FromBytes(TextBytes(s).value) == w
  }

  lemma TypeTextIsTheWord(s: string)
    requires ToLower(s) == ToLower(WorkProofVerify().opType)
    ensures SpellsWord(s, R.OP_TYPE)
  {
    AsciiBytes(WORKPROOF_TEXT);
    CaseDoesNotMatter(s, WorkProofVerify().opType);
    OperationWords();
  }

  lemma CommandTextIsTheWord(s: string)
    requires ToLower(s) == ToLower(WorkProofVerify().opCommand)
    ensures SpellsWord(s, R.OP_COMMAND)
  {
    AsciiBytes(VERIFY_TEXT);
    CaseDoesNotMatter(s, WorkProofVerify().opCommand);
    OperationWords();
  }

  lemma ThresholdTag()
    ensures TagBytes(SUBMISSION_TAG) == R.THRESHOLD_TAG
  {
  }

  // A response to the instruction asked for, completed and routed as expected, with
  // a signature and data of the right shape.
  ghost predicate Acceptable(body: Body, op: Operation, instructionId: string) {
    && (exists signature :: body.signature == Some(signature) && IsHexOf(signature, 130))
    && (exists id :: body.id == Some(id) && IsHexOf(id, 64)
                     && (instructionId == "" || ToLower(id) == ToLower(instructionId)))
    && body.submissionTag == SUBMISSION_TAG && body.status == 1
    && ToLower(OrEmpty(body.opType)) == ToLower(op.opType)
    && ToLower(OrEmpty(body.opCommand)) == ToLower(op.opCommand)
    && (exists data :: body.data == Some(data) && IsHexText(data) && |data| > 2)
    && (body.additionalResultStatus.Some? ==> IsHexText(body.additionalResultStatus.value))
    && (exists version :: body.version == Some(version) && version != "")
    && body.log.Some?
  }

  // Exactly those are accepted, and what is passed on is what they hold.
  lemma AcceptsExactly(body: Body, op: Operation, instructionId: string)
    ensures ValidateResponse(body, op, instructionId).Ok? <==> Acceptable(body, op, instructionId)
    ensures ValidateResponse(body, op, instructionId).Ok? ==>
              ValidateResponse(body, op, instructionId).value ==
              ActionResult(OrEmpty(body.data), OrEmpty(body.opType), OrEmpty(body.opCommand), body.submissionTag,
                           body.status, OrEmpty(body.signature))
  {
    var data := OrEmpty(body.data);
    assert |data| == 2 && IsHexText(data) ==> data == "0x";
    if ValidateResponse(body, op, instructionId).Ok? {
      assert body.signature == Some(OrEmpty(body.signature)) && body.id == Some(OrEmpty(body.id));
      assert body.data == Some(data) && body.version == Some(OrEmpty(body.version));
    }
  }

  // The call carries the action's own data and signature and the job's id, with the
  // status, tag and operation that the escrow wants.
  predicate CarriesAction(call: M.Call, id: nat, a: ActionResult, read: seq<Byte> -> M.Signature) {
    && call.SettleAttempt? && call.id == id
    && call.status == 1 && call.submissionTag == R.THRESHOLD_TAG
    && call.opType == R.OP_TYPE && call.opCommand == R.OP_COMMAND
    && Some(call.data) == TextBytes(a.data) && call.data != []
    && TextBytes(a.signature).Some? && |TextBytes(a.signature).value| == 65
    && call.signature == read(TextBytes(a.signature).value)
  }

  // What comes of an action: a call that carries it, exactly if its data has whole
  // bytes and its operation can be read.
  predicate IsRouted(call: Option<M.Call>, id: nat, a: ActionResult, parse: string -> Option<seq<Byte>>,
                     read: seq<Byte> -> M.Signature, live: Bytes32)
  {
    && (call.Some? <==> |a.data| % 2 == 0 && parse(a.opType).Some? && parse(a.opCommand).Some?)
    && (call.Some? ==> CarriesAction(call.value, id, a, read) && call.value.liveCodeHash == live)
  }

  // Anything the relayer accepts passes the escrow's routing guards, whatever letter
  // case the proxy used for its digits.
  lemma AcceptedActionIsRouted(body: Body, instructionId: string, id: nat, parse: string -> Option<seq<Byte>>,
                               read: seq<Byte> -> M.Signature, live: Bytes32)
    requires ValidateResponse(body, WorkProofVerify(), instructionId).Ok? && ReadsHex(parse)
    ensures var a := ValidateResponse(body, WorkProofVerify(), instructionId).value;
            IsRouted(SettlementCall(id, a, parse, read, live), id, a, parse, read, live)
  {
    AcceptsExactly(body, WorkProofVerify(), instructionId);
    RoutedCall(id, ValidateResponse(body, WorkProofVerify(), instructionId).value, parse, read, live);
  }

  lemma RoutedCall(id: nat, a: ActionResult, parse: string -> Option<seq<Byte>>, read: seq<Byte> -> M.Signature,
                   live: Bytes32)
    requires ToLower(a.opType) == ToLower(WorkProofVerify().opType)
    requires ToLower(a.opCommand) == ToLower(WorkProofVerify().opCommand)
    requires a.submissionTag == SUBMISSION_TAG && a.status == 1 && IsHexText(a.data) && |a.data| > 2
    requires IsHexOf(a.signature, 130) && ReadsHex(parse)
    ensures IsRouted(SettlementCall(id, a, parse, read, live), id, a, parse, read, live)
  {
    TypeTextIsTheWord(a.opType);
    CommandTextIsTheWord(a.opCommand);
    BuiltCall(id, a, parse, read, live);
  }

  lemma BuiltCall(id: nat, a: ActionResult, parse: string -> Option<seq<Byte>>, read: seq<Byte> -> M.Signature,
                  live: Bytes32)
    requires SpellsWord(a.opType, R.OP_TYPE) && SpellsWord(a.opCommand, R.OP_COMMAND)
    requires a.submissionTag == SUBMISSION_TAG && a.status == 1 && IsHexText(a.data) && |a.data| > 2
    requires IsHexOf(a.signature, 130) && ReadsHex(parse)
    ensures IsRouted(SettlementCall(id, a, parse, read, live), id, a, parse, read, live)
  {
    ThresholdTag();
    HexOfDecodes(a.signature, 65);
    ReadsAs(parse, a.data);
    ReadsAs(parse, a.opType);
    ReadsAs(parse, a.opCommand);
    ReadsAs(parse, a.signature);
  }

  // The operation is spelt with a small x; its digits may be in either case.
  predicate SmallPrefixes(a: ActionResult) { IsHexText(a.opType) && IsHexText(a.opCommand) }

  lemma NotByReadSmall(id: nat, a: ActionResult, read: seq<Byte> -> M.Signature, live: Bytes32)
    requires |a.data| % 2 != 0 || !SmallPrefixes(a)
    ensures SettlementCall(id, a, ReadSmall, read, live) == None
  {
  }

  lemma SubmittableByAll(id: nat, a: ActionResult, read: seq<Byte> -> M.Signature, live: Bytes32)
    requires SpellsWord(a.opType, R.OP_TYPE) && SpellsWord(a.opCommand, R.OP_COMMAND)
    requires a.submissionTag == SUBMISSION_TAG && a.status == 1 && IsHexText(a.data) && |a.data| > 2
    requires IsHexOf(a.signature, 130)
    ensures (forall parse | ReadsHex(parse) :: SettlementCall(id, a, parse, read, live).Some?)
            <==> |a.data| % 2 == 0 && SmallPrefixes(a)
  {
    if |a.data| % 2 == 0 && SmallPrefixes(a) {
      forall parse | ReadsHex(parse) ensures SettlementCall(id, a, parse, read, live).Some? {
        BuiltCall(id, a, parse, read, live);
        ReadsAs(parse, a.opType);
        ReadsAs(parse, a.opCommand);
      }
    } else {
      BothReadHex();
      NotByReadSmall(id, a, read, live);
    }
  }

  // So an accepted action can be submitted whatever cast makes of 0X exactly if its data
  // has whole bytes and its operation is spelt with 0x.
  lemma SubmittableExactly(body: Body, instructionId: string, id: nat, read: seq<Byte> -> M.Signature, live: Bytes32)
    requires ValidateResponse(body, WorkProofVerify(), instructionId).Ok?
    ensures var a := ValidateResponse(body, WorkProofVerify(), instructionId).value;
            (forall parse | ReadsHex(parse) :: SettlementCall(id, a, parse, read, live).Some?)
            <==> |a.data| % 2 == 0 && SmallPrefixes(a)
  {
    var a := ValidateResponse(body, WorkProofVerify(), instructionId).value;
    AcceptsExactly(body, WorkProofVerify(), instructionId);
    TypeTextIsTheWord(a.opType);
    CommandTextIsTheWord(a.opCommand);
    SubmittableByAll(id, a, read, live);
  }

  // A completed response with these texts and nothing more.
  function PlainBody(said: Operation, signature: string, id: string, data: string, version: string, log: string): Body {
    Body(Some(signature), Some(id), SUBMISSION_TAG, 1, Some(said.opType), Some(said.opCommand), Some(data), None,
         Some(version), Some(log))
  }

  lemma PlainBodyIsFetched(op: Operation, said: Operation, signature: string, id: string, data: string,
                           version: string, log: string)
    requires ToLower(said.opType) == ToLower(op.opType) && ToLower(said.opCommand) == ToLower(op.opCommand)
    requires IsHexOf(signature, 130) && IsHexOf(id, 64) && IsHexText(data) && |data| > 2 && version != ""
    ensures var body := PlainBody(said, signature, id, data, version, log);
            && ValidateResponse(body, op, id)
               == Ok(ActionResult(data, said.opType, said.opCommand, SUBMISSION_TAG, 1, signature))
            && Fetch(Response(body), op, id) == Action(ValidateResponse(body, op, id).value)
  {
    AcceptsExactly(PlainBody(said, signature, id, data, version, log), op, id);
  }

  // One with this data, to instruction zero.
  function ZeroBody(said: Operation, data: string): Body {
    PlainBody(said, "0x" + seq(130, _ => '0'), ZeroId(), data, "1", "")
  }

  function ZeroId(): string { "0x" + seq(64, _ => '0') }

  lemma ZeroText(n: nat)
    ensures IsHexOf("0x" + seq(n, _ => '0'), n)
  {
    assert ("0x" + seq(n, _ => '0'))[2..] == seq(n, _ => '0');
  }

  // A response with a single digit of data is fetched, and cannot be submitted.
  lemma OddDataIsAccepted(parse: string -> Option<seq<Byte>>, read: seq<Byte> -> M.Signature, live: Bytes32)
    requires ReadsHex(parse)
    ensures var op := WorkProofVerify();
            var fetched := Fetch(Response(ZeroBody(op, "0x1")), op, ZeroId());
            fetched.Action? && SettlementCall(0, fetched.action, parse, read, live) == None
  {
    OddDataIsFetched(WorkProofVerify());
    ReadsAs(parse, "0x1");
  }

  lemma OddDataIsFetched(op: Operation)
    ensures IsHexText("0x1")
    ensures var fetched := Fetch(Response(ZeroBody(op, "0x1")), op, ZeroId());
            fetched.Action? && fetched.action.data == "0x1"
  {
    assert "0x1"[2..] == "1";
    ZeroText(130);
    ZeroText(64);
    PlainBodyIsFetched(op, op, "0x" + seq(130, _ => '0'), ZeroId(), "0x1", "1", "");
  }

  // The same operation with its op type spelt 0X.
  function LargePrefix(op: Operation): Operation
    requires IsHexText(op.opType)
  {
    op.(opType := "0X" + op.opType[2..])
  }

  lemma LargePrefixIsFetched(op: Operation)
    requires IsHexText(op.opType)
    ensures var fetched := Fetch(Response(ZeroBody(LargePrefix(op), "0x11")), op, ZeroId());
            fetched.Action? && fetched.action.opType == LargePrefix(op).opType
  {
    var small, large := op.opType, LargePrefix(op).opType;
    forall i | 0 <= i < |small| ensures ToLower(large)[i] == ToLower(small)[i] {
      assert i >= 2 ==> large[i] == small[i];
    }
    assert "0x11"[2..] == "11";
    ZeroText(130);
    ZeroText(64);
    PlainBodyIsFetched(op, LargePrefix(op), "0x" + seq(130, _ => '0'), ZeroId(), "0x11", "1", "");
  }

  // One whose op type starts 0X is fetched too, and cannot if cast reads only 0x.
  lemma LargePrefixIsAccepted(read: seq<Byte> -> M.Signature, live: Bytes32)
    ensures var op := WorkProofVerify();
            && IsHexText(op.opType)
            && var fetched := Fetch(Response(ZeroBody(LargePrefix(op), "0x11")), op, ZeroId());
               fetched.Action? && SettlementCall(0, fetched.action, ReadSmall, read, live) == None
  {
    var op := WorkProofVerify();
    AsciiBytes(WORKPROOF_TEXT);
    LargePrefixIsFetched(op);
    NotByReadSmall(0, Fetch(Response(ZeroBody(LargePrefix(op), "0x11")), op, ZeroId()).action, read, live);
  }

  // --- polling ---

  function Pow2(k: nat): nat { if k == 0 then 1 else 2 * Pow2(k - 1) }

  // initial after k doublings
  function Doubled(initial: nat, k: nat): nat { if k == 0 then initial else 2 * Doubled(initial, k - 1) }

  lemma {:induction false} DoubledIsPower(initial: nat, k: nat)
    ensures Doubled(initial, k) == initial * Pow2(k)
  {
    if k > 0 {
      DoubledIsPower(initial, k - 1);
      assert initial * Pow2(k) == 2 * (initial * Pow2(k - 1));
    }
  }

  // The k-th wait: the first is as asked, later ones double up to the maximum.
  function Wait(initial: nat, max: nat, k: nat): nat { if k == 0 then initial else Min(max, Doubled(initial, k)) }

  // In numbers: the initial interval, then its doublings up to the maximum.
  lemma WaitsInNumbers(initial: nat, max: nat, k: nat)
    ensures Wait(initial, max, k) == if k == 0 then initial else Min(max, initial * Pow2(k))
  {
    DoubledIsPower(initial, k);
  }

  function TotalWait(initial: nat, max: nat, k: nat): nat {
    if k == 0 then 0 else TotalWait(initial, max, k - 1) + Wait(initial, max, k - 1)
  }

  // From the doubling that reaches the cap on, every wait is the cap.
  lemma {:induction false} TotalWaitGrows(initial: nat, max: nat, cap: nat, k: nat)
    requires Doubled(initial, cap) >= max && k >= cap
    ensures Doubled(initial, k) >= max && TotalWait(initial, max, k) >= max * (k - cap)
  {
    if k > cap {
      TotalWaitGrows(initial, max, cap, k - 1);
      assert max * (k - cap) == max * (k - 1 - cap) + max by { Distribute(max, k - cap, 1); }
    }
  }

  function CeilDiv(a: nat, b: nat): nat
    requires b > 0
  {
    (a + b - 1) / b
  }

  lemma EnoughWaits(timeout: nat, max: nat, n: nat)
    requires max > 0 && n >= CeilDiv(timeout, max)
    ensures max * n >= timeout
  {
    var q := CeilDiv(timeout, max);
    assert timeout + max - 1 == max * q + (timeout + max - 1) % max;
    assert max * q >= timeout;
    assert max * n >= max * q;
  }

  datatype Fetched = Pending | Failed(error: Error) | Action(action: ActionResult)

  // fetchActionResponse: only a 404 is worth waiting on.
  function Fetch(reply: Reply, op: Operation, instructionId: string): Fetched {
    if !IsHexOf(instructionId, 64) then Failed(BadInstruction)
    else
      match reply
      case NotFound => Pending
      case HttpError(_) => Failed(Http)
      case MalformedJson => Failed(Malformed)
      case NoResult => Failed(MissingResult)
      case Response(body) =>
        match ValidateResponse(body, op, instructionId)
        case Ok(action) => Action(action)
        case Err(e) => Failed(e)
  }

  // A well-formed instruction is waited on exactly while there is nothing under its id;
  // an action is one that is acceptable; everything else fails at once.
  lemma FetchesExactly(reply: Reply, op: Operation, instructionId: string)
    ensures Fetch(reply, op, instructionId).Pending? <==> IsHexOf(instructionId, 64) && reply == NotFound
    ensures Fetch(reply, op, instructionId).Action? <==>
              IsHexOf(instructionId, 64) && reply.Response? && Acceptable(reply.body, op, instructionId)
    ensures !IsHexOf(instructionId, 64) ==> Fetch(reply, op, instructionId) == Failed(BadInstruction)
  {
    if reply.Response? {
      AcceptsExactly(reply.body, op, instructionId);
    }
  }

  function ResultOf(f: Fetched): Result<ActionResult, Error> {
    match f
    case Pending => Err(TimedOut)
    case Failed(e) => Err(e)
    case Action(a) => Ok(a)
  }

  // How the proxy answers each fetch, how long each fetch takes, and how much longer
  // than asked each sleep lasts.
  datatype World = World(fetch: nat -> Fetched, latency: nat -> nat, oversleep: nat -> nat)

  // When fetch k starts, if every fetch before it was pending.
  function Clock(world: World, start: nat, initial: nat, max: nat, k: nat): nat {
    if k == 0 then start
    else
      Clock(world, start, initial, max, k - 1) + world.latency(k - 1) + Wait(initial, max, k - 1)
      + world.oversleep(k - 1)
  }

  // Fetch k is answered with the deadline already passed.
  predicate OutOfTime(world: World, start: nat, timeout: nat, initial: nat, max: nat, k: nat) {
    Clock(world, start, initial, max, k) + world.latency(k) >= start + timeout
  }

  lemma {:induction false} ClockCoversWaits(world: World, start: nat, initial: nat, max: nat, k: nat)
    ensures Clock(world, start, initial, max, k) >= start + TotalWait(initial, max, k)
  {
    if k > 0 {
      ClockCoversWaits(world, start, initial, max, k - 1);
    }
  }

  // While fetches keep finding time left, there have been at most
  // ceil(log2(max / initial)) + ceil(timeout / max) of them: the first term is the
  // least cap whose doubling reaches max.
  lemma PollsAreBounded(world: World, start: nat, timeout: nat, initial: nat, max: nat, p: nat, cap: nat)
    requires 0 < max && Doubled(initial, cap) >= max
    requires forall k | 0 <= k < p :: !OutOfTime(world, start, timeout, initial, max, k)
    ensures p <= cap + CeilDiv(timeout, max)
  {
    if p > cap + CeilDiv(timeout, max) {
      ClockCoversWaits(world, start, initial, max, p - 1);
      TotalWaitGrows(initial, max, cap, p - 1);
      EnoughWaits(timeout, max, p - 1 - cap);
      assert OutOfTime(world, start, timeout, initial, max, p - 1);
    }
  }

  // Fetch k was pending with time left, and was waited after as long as it should be.
  predicate Waited(world: World, start: nat, timeout: nat, initial: nat, max: nat, waits: seq<nat>, k: nat)
    requires k < |waits|
  {
    waits[k] == Wait(initial, max, k) && world.fetch(k) == Pending && !OutOfTime(world, start, timeout, initial, max, k)
  }

  lemma WaitedOnce(world: World, start: nat, timeout: nat, initial: nat, max: nat, waits: seq<nat>)
    requires forall k | 0 <= k < |waits| :: Waited(world, start, timeout, initial, max, waits, k)
    requires world.fetch(|waits|) == Pending && !OutOfTime(world, start, timeout, initial, max, |waits|)
    ensures var longer := waits + [Wait(initial, max, |waits|)];
            forall k | 0 <= k < |longer| :: Waited(world, start, timeout, initial, max, longer, k)
  {
    var longer := waits + [Wait(initial, max, |waits|)];
    forall k | 0 <= k < |longer| ensures Waited(world, start, timeout, initial, max, longer, k) {
      assert k < |waits| ==> Waited(world, start, timeout, initial, max, waits, k);
    }
  }

  lemma BoundForEveryCap(world: World, start: nat, timeout: nat, initial: nat, max: nat, waits: seq<nat>)
    requires forall k | 0 <= k < |waits| :: Waited(world, start, timeout, initial, max, waits, k)
    ensures max > 0 ==> forall cap: nat | Doubled(initial, cap) >= max :: |waits| <= cap + CeilDiv(timeout, max)
  {
    if max > 0 {
      forall k | 0 <= k < |waits| ensures !OutOfTime(world, start, timeout, initial, max, k) {
        assert Waited(world, start, timeout, initial, max, waits, k);
      }
      forall cap: nat | Doubled(initial, cap) >= max ensures |waits| <= cap + CeilDiv(timeout, max) {
        PollsAreBounded(world, start, timeout, initial, max, |waits|, cap);
      }
    }
  }

  // Some fetch is answered, or comes after the deadline.
  ghost predicate Ends(world: World, start: nat, timeout: nat, initial: nat, max: nat) {
    exists n: nat :: world.fetch(n) != Pending || OutOfTime(world, start, timeout, initial, max, n)
  }

  predicate TimePasses(world: World, initial: nat, max: nat, k: nat) {
    world.latency(k) + Wait(initial, max, k) + world.oversleep(k) > 0
  }

  lemma {:induction false} ClockAdvances(world: World, start: nat, initial: nat, max: nat, k: nat)
    requires forall j | 0 <= j < k :: TimePasses(world, initial, max, j)
    ensures Clock(world, start, initial, max, k) >= start + k
  {
    if k > 0 {
      ClockAdvances(world, start, initial, max, k - 1);
      assert TimePasses(world, initial, max, k - 1);
    }
  }

  lemma {:induction false} DoubledIsPositive(initial: nat, k: nat)
    requires initial > 0
    ensures Doubled(initial, k) > 0
  {
    if k > 0 {
      DoubledIsPositive(initial, k - 1);
    }
  }

  // Polling ends if the clock moves on every round, and so with any positive interval
  // and maximum, whichever is the larger.
  lemma PollingEnds(world: World, start: nat, timeout: nat, initial: nat, max: nat)
    requires (0 < initial && 0 < max) || forall k: nat :: TimePasses(world, initial, max, k)
    ensures Ends(world, start, timeout, initial, max)
  {
    forall k: nat ensures TimePasses(world, initial, max, k) {
      if 0 < initial && 0 < max {
        DoubledIsPositive(initial, k);
      }
    }
    ClockAdvances(world, start, initial, max, timeout);
    assert OutOfTime(world, start, timeout, initial, max, timeout);
  }

  // The proxy is polled until it answers, fails, or is still pending at the deadline.
  // The precondition is only that this ever happens.
  method PollActionResponse(world: World, start: nat, timeout: nat, initial: nat, max: nat)
    returns (r: Result<ActionResult, Error>, polls: nat, waits: seq<nat>)
    requires Ends(world, start, timeout, initial, max)
    ensures polls == |waits| + 1
    ensures forall k | 0 <= k < |waits| :: Waited(world, start, timeout, initial, max, waits, k)
    ensures r == ResultOf(world.fetch(polls - 1))
    ensures world.fetch(polls - 1) == Pending ==> OutOfTime(world, start, timeout, initial, max, polls - 1)
    ensures max > 0 ==> forall cap: nat | Doubled(initial, cap) >= max :: polls <= cap + CeilDiv(timeout, max) + 1
  {
    polls, waits := 0, [];
    var now, interval := start, initial;
    var deadline := start + timeout;
    var fetched := world.fetch(0);
    now := now + world.latency(0);
    ghost var n: nat :| world.fetch(n) != Pending || OutOfTime(world, start, timeout, initial, max, n);
    while fetched == Pending && now < deadline
      invariant fetched == world.fetch(polls) && |waits| == polls <= n
      invariant interval == Wait(initial, max, polls)
      invariant forall k | 0 <= k < polls :: Waited(world, start, timeout, initial, max, waits, k)
      invariant now == Clock(world, start, initial, max, polls) + world.latency(polls)
      decreases n - polls
    {
      WaitedOnce(world, start, timeout, initial, max, waits);
      now := now + interval + world.oversleep(polls);
      waits := waits + [interval];
      interval := Min(max, interval * 2);
      polls := polls + 1;
      fetched := world.fetch(polls);
      now := now + world.latency(polls);
    }
    BoundForEveryCap(world, start, timeout, initial, max, waits);
    polls := polls + 1;
    r := ResultOf(fetched);
  }

  lemma FetchedAction(reply: Reply, op: Operation, instructionId: string)
    requires Fetch(reply, op, instructionId).Action?
    ensures reply.Response?
    ensures ValidateResponse(reply.body, op, instructionId) == ResultOf(Fetch(reply, op, instructionId))
    ensures reply.body.id.Some? && ToLower(reply.body.id.value) == ToLower(instructionId)
  {
  }

  // The reply answers the instruction asked for, is accepted, and becomes this call.
  ghost predicate Relays(reply: Reply, instructionId: string, id: nat, parse: string -> Option<seq<Byte>>,
                         read: seq<Byte> -> M.Signature, live: Bytes32, call: Option<M.Call>)
  {
    && reply.Response? && reply.body.id.Some? && ToLower(reply.body.id.value) == ToLower(instructionId)
    && ValidateResponse(reply.body, WorkProofVerify(), instructionId).Ok?
    && var a := ValidateResponse(reply.body, WorkProofVerify(), instructionId).value;
       call == SettlementCall(id, a, parse, read, live) && IsRouted(call, id, a, parse, read, live)
  }

  // The world is one in which a proxy gives these replies about an instruction.
  ghost predicate Shows(world: World, replies: nat -> Reply, instructionId: string) {
    forall k: nat :: world.fetch(k) == Fetch(replies(k), WorkProofVerify(), instructionId)
  }

  // What polling such a proxy returns is an action the escrow will route.
  lemma PolledActionIsRouted(world: World, replies: nat -> Reply, instructionId: string, k: nat, id: nat,
                             parse: string -> Option<seq<Byte>>, read: seq<Byte> -> M.Signature, live: Bytes32)
    requires Shows(world, replies, instructionId) && ResultOf(world.fetch(k)).Ok? && ReadsHex(parse)
    ensures Relays(replies(k), instructionId, id, parse, read, live,
                   SettlementCall(id, ResultOf(world.fetch(k)).value, parse, read, live))
  {
    FetchedAction(replies(k), WorkProofVerify(), instructionId);
    AcceptedActionIsRouted(replies(k).body, instructionId, id, parse, read, live);
  }

  // The relay command: poll, then submit. Ok(None) is an action that cannot be encoded.
  method RelayCommand(world: World, ghost replies: nat -> Reply, instructionId: string, start: nat, timeout: nat,
                      initial: nat, max: nat, id: nat, parse: string -> Option<seq<Byte>>,
                      read: seq<Byte> -> M.Signature, live: Bytes32)
    returns (r: Result<Option<M.Call>, Error>, polls: nat)
    requires Shows(world, replies, instructionId) && Ends(world, start, timeout, initial, max) && ReadsHex(parse)
    ensures polls > 0 && forall j | 0 <= j < polls - 1 :: world.fetch(j) == Pending
    ensures r.Ok? <==> world.fetch(polls - 1).Action?
    ensures r.Ok? ==> Relays(replies(polls - 1), instructionId, id, parse, read, live, r.value)
  {
    var polled, n, waits := PollActionResponse(world, start, timeout, initial, max);
    polls := n;
    forall j | 0 <= j < |waits| ensures world.fetch(j) == Pending {
      assert Waited(world, start, timeout, initial, max, waits, j);
    }
    if polled.Err? {
      return Err(polled.error), polls;
    }
    PolledActionIsRouted(world, replies, instructionId, polls - 1, id, parse, read, live);
    return Ok(SettlementCall(id, polled.value, parse, read, live)), polls;
  }
}
