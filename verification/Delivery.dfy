// The last leg: a response that carries the TEE's verdict, relayed, settles the attempt.
module Delivery {
  import opened Base
  import opened Bytes
  import opened Records
  import opened EscrowMachine
  import opened EscrowInvariant
  import opened Payment
  import opened EndToEnd
  import opened Verifier
  import opened Hex
  import R = Relay
  import Encoding
  import Abi

  // The action's data is the verdict's encoding, in either letter case, its signature is
  // the TEE's over exactly this result, and its operation can be read.
  ghost predicate Delivers(c: Chain, a: R.ActionResult, v: VerdictV1, tee: Address,
                           parse: string -> Option<seq<Byte>>, read: seq<Byte> -> Signature)
  {
    var data := Abi.EncodeVerdict(v);
    && R.TextBytes(a.data) == Some(data) && R.TextBytes(a.signature).Some?
    && read(R.TextBytes(a.signature).value)
       == SignedBy(tee, SignedMessage(data, v.id.instructionId, THRESHOLD_TAG, 1, c.chainId))
    && parse(a.opType).Some? && parse(a.opCommand).Some?
  }

  // What the relayer makes of it is the settlement transaction for the verdict.
  lemma DeliveredVerdictIsSettlement(c: Chain, reply: R.Reply, instructionId: string, id: nat, v: VerdictV1,
                                     tee: Address, parse: string -> Option<seq<Byte>>, read: seq<Byte> -> Signature,
                                     live: Bytes32, call: Option<Call>)
    requires R.Relays(reply, instructionId, id, parse, read, live, call)
    requires Delivers(c, R.ValidateResponse(reply.body, R.WorkProofVerify(), instructionId).value, v, tee, parse, read)
    ensures call == Some(SettlementOf(c, id, v, tee, live))
  {
    Abi.VerdictIsFlat(v);
  }

  // --- what a node sends ---

  // Bytes printed the node's way spell themselves.
  lemma PrintedBytesRead(b: seq<Byte>)
    ensures R.TextBytes(Encoding.HexOf(b)) == Some(b) && IsHexOf(Encoding.HexOf(b), 2 * |b|)
  {
    assert Encoding.HexOf(b)[2..] == EncodePairs(b);
    PrintedDecodes(b);
  }

  // The response with a verdict, its signature and the instruction's id, all printed.
  function Printed(op: R.Operation, v: VerdictV1, signature: seq<Byte>, version: string, log: string): R.Body {
    R.PlainBody(op, Encoding.HexOf(signature), Asked(v), Encoding.HexOf(Abi.EncodeVerdict(v)), version, log)
  }

  function Asked(v: VerdictV1): string { Encoding.HexOf(ToBytes(v.id.instructionId, 32)) }

  lemma PrintedIsFetched(op: R.Operation, v: VerdictV1, signature: seq<Byte>, version: string, log: string)
    requires |signature| == 65 && version != ""
    ensures var body := Printed(op, v, signature, version, log);
            && R.ValidateResponse(body, op, Asked(v)).Ok?
            && R.Fetch(R.Response(body), op, Asked(v)) == R.Action(R.ValidateResponse(body, op, Asked(v)).value)
  {
    PrintedBytesRead(signature);
    PrintedBytesRead(ToBytes(v.id.instructionId, 32));
    PrintedBytesRead(Abi.EncodeVerdict(v));
    Abi.VerdictIsFlat(v);
    R.PlainBodyIsFetched(op, op, Encoding.HexOf(signature), Asked(v), Encoding.HexOf(Abi.EncodeVerdict(v)), version,
                         log);
  }

  lemma PrintedDelivers(c: Chain, op: R.Operation, v: VerdictV1, signature: seq<Byte>, version: string, log: string,
                        tee: Address, parse: string -> Option<seq<Byte>>, read: seq<Byte> -> Signature)
    requires |signature| == 65 && version != ""
    requires parse(op.opType).Some? && parse(op.opCommand).Some?
    requires read(signature) == SettlementOf(c, 0, v, tee, 0).signature
    ensures R.ValidateResponse(Printed(op, v, signature, version, log), op, Asked(v)).Ok?
    ensures Delivers(c, R.ValidateResponse(Printed(op, v, signature, version, log), op, Asked(v)).value, v, tee, parse,
                     read)
  {
    PrintedIsFetched(op, v, signature, version, log);
    PrintedBytesRead(signature);
    PrintedBytesRead(Abi.EncodeVerdict(v));
  }

  // Asked for that instruction, the relayer fetches it, and it becomes the verdict's
  // settlement transaction.
  lemma PrintedVerdictIsSettlement(c: Chain, v: VerdictV1, signature: seq<Byte>, version: string, log: string,
                                   id: nat, tee: Address, parse: string -> Option<seq<Byte>>,
                                   read: seq<Byte> -> Signature, live: Bytes32)
    requires |signature| == 65 && version != "" && R.ReadsHex(parse)
    requires read(signature) == SettlementOf(c, id, v, tee, live).signature
    ensures var op := R.WorkProofVerify(); var reply := R.Response(Printed(op, v, signature, version, log));
            && R.Fetch(reply, op, Asked(v)).Action?
            && Delivers(c, R.Fetch(reply, op, Asked(v)).action, v, tee, parse, read)
            && R.Relays(reply, Asked(v), id, parse, read, live, Some(SettlementOf(c, id, v, tee, live)))
  {
    var op := R.WorkProofVerify();
    var body := Printed(op, v, signature, version, log);
    R.AsciiBytes(R.WORKPROOF_TEXT);
    R.AsciiBytes(R.VERIFY_TEXT);
    PrintedIsFetched(op, v, signature, version, log);
    R.ReadsAs(parse, op.opType);
    R.ReadsAs(parse, op.opCommand);
    PrintedDelivers(c, op, v, signature, version, log, tee, parse, read);
    R.AcceptedActionIsRouted(body, Asked(v), id, parse, read, live);
    DeliveredVerdictIsSettlement(c, R.Response(body), Asked(v), id, v, tee, parse, read, live,
                                 R.SettlementCall(id, R.ValidateResponse(body, op, Asked(v)).value, parse, read, live));
  }

  // So relaying it, by anyone and in time, settles the attempt with its outcome.
  lemma RelayingSettles(c: Chain, s: State, sender: Address, env: Env, dispatchId: Bytes32, m: WorkProofInstruction,
                        reply: R.Reply, instructionId: string, parse: string -> Option<seq<Byte>>,
                        read: seq<Byte> -> Signature, call: Option<Call>)
    requires Inv(c, s) && s.frame.Idle? && sender != ZERO_ADDRESS && sender != c.self
    requires Configured(env, c) && VerdictFor(env, dispatchId, m).Ok? && forall x :: env.keccak(x) != 0
    requires m.jobId < s.core.store.nextJobId && env.job == Some(JobAt(s.core.store, m.jobId))
    requires var j := JobAt(s.core.store, m.jobId); var v := VerdictFor(env, dispatchId, m).value;
             && j.current.instructionId != 0 && s.now <= j.current.timeoutAt
             && j.current.dispatchedAt <= v.result.issuedAt <= s.now
             && R.Relays(reply, instructionId, m.jobId, parse, read, j.current.artifactCodeHash, call)
             && Delivers(c, R.ValidateResponse(reply.body, R.WorkProofVerify(), instructionId).value, v,
                         j.terms.expectedTee, parse, read)
    ensures call.Some? && Begin(c, s, sender, call.value).Ok?
    ensures Begin(c, s, sender, call.value)
         == ApplyOutcome(c, s, m.jobId, VerdictFor(env, dispatchId, m).value.result.outcome)
    ensures SettledAs(c, s, Run(c, s, Settling(sender, call.value)), m.jobId,
                      VerdictFor(env, dispatchId, m).value.result.outcome)
  {
    var j, v := JobAt(s.core.store, m.jobId), VerdictFor(env, dispatchId, m).value;
    DeliveredVerdictIsSettlement(c, reply, instructionId, m.jobId, v, j.terms.expectedTee, parse, read,
                                 j.current.artifactCodeHash, call);
    VerdictSettles(c, s, sender, env, dispatchId, m);
  }
}
