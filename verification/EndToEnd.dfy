// The verifier and the escrow together: what one produces the other accepts.
module EndToEnd {
  import opened Base
  import opened Records
  import opened EscrowMachine
  import opened EscrowInvariant
  import opened EscrowHistory
  import opened EscrowAuthority
  import opened Payment
  import opened Bundle
  import opened Verifier
  import Abi

  // --- producer meets consumer ---

  // The instruction dispatchVerification sends agrees with the job it leaves.
  lemma DispatchedInstructionChecksOut(c: Chain, s: State, id: Uint256, instructionId: Bytes32)
    requires Inv(c, s) && s.frame.Busy? && s.frame.pc == Sending(id)
    requires Dispatched(s, id, instructionId).Ok?
    ensures var j' := JobAt(Dispatched(s, id, instructionId).value.core.store, id);
            var m := InstructionFor(c, id, JobAt(s.core.store, id));
            && CrossCheck(m, j') && j'.current.instructionId == instructionId
            && m.chainId == c.chainId && m.escrowAddress == c.self && m.jobId == id
  {
    UnknownJobIsZero(c, s, id);
  }

  // The verifier is configured for this escrow on this chain.
  predicate Configured(env: Env, c: Chain) {
    env.chainId == c.chainId && env.escrow == c.self
  }

  // The verifier's endpoints answer for the job as it stands, truthfully.
  ghost predicate Reads(env: Env, c: Chain, j: Job) {
    && Configured(env, c) && env.keccak == c.keccak && env.job == Some(j)
    && env.engineVersionHash == j.terms.engineVersionHash
    && (exists code :: env.code(j.current.artifactAddress, j.current.artifactBlock) == Some(code)
                       && c.keccak(code) == j.current.artifactCodeHash)
    && var round := c.rounds(j.current.randomRound);
       env.random(j.current.randomRound) == Some((round.value, round.secure))
  }

  // Producer meets consumer: a verifier that can read the chain while the dispatch
  // window is open finds nothing wrong with the instruction.
  lemma DispatchedPassesPreflight(c: Chain, s: State, id: Uint256, instructionId: Bytes32, env: Env)
    requires Inv(c, s) && s.frame.Busy? && s.frame.pc == Sending(id)
    requires Dispatched(s, id, instructionId).Ok?
    requires var j' := JobAt(Dispatched(s, id, instructionId).value.core.store, id);
             Reads(env, c, j') && env.now <= j'.current.timeoutAt
    ensures Preflight(env, instructionId, InstructionFor(c, id, JobAt(s.core.store, id))).None?
  {
    UnknownJobIsZero(c, s, id);
    DispatchedInstructionChecksOut(c, s, id, instructionId);
    DispatchedJobOk(c, s, id, instructionId);
  }

  // Every verdict echoes the instruction it answers and counts consistently.
  ghost predicate Responds(env: Env, m: WorkProofInstruction, identity: VerdictIdentity, v: VerdictV1) {
    && v.id == identity
    && v.result.artifactCodeHash == m.artifactCodeHash && v.result.randomRound == m.randomRound
    && v.result.randomValueHash == m.randomValueHash
    && v.result.engineVersionHash == env.engineVersionHash && v.result.expiresAt == m.expiresAt
    && v.result.executedCount >= 1 && v.result.passedCount <= v.result.executedCount
    && (v.result.outcome.Pass? <==> v.result.passedCount == v.result.executedCount)
    && (exists report :: v.result.reportHash == env.keccak(report))
    && (v.result.issuedAt == env.now || v.result.issuedAt == env.later)
  }

  lemma RespondResponds(env: Env, m: WorkProofInstruction, identity: VerdictIdentity, outcome: Outcome,
                        passed: Uint32, executed: Uint32, report: seq<Byte>, issuedAt: Uint64)
    requires executed >= 1 && passed <= executed && (outcome.Pass? <==> passed == executed)
    requires issuedAt == env.now || issuedAt == env.later
    ensures Responds(env, m, identity, Respond(env, m, identity, outcome, passed, executed, report, issuedAt))
  {
  }

  lemma InconclusiveResponds(env: Env, m: WorkProofInstruction, identity: VerdictIdentity)
    requires InconclusiveVerdict(env, m, identity).Ok?
    ensures Responds(env, m, identity, InconclusiveVerdict(env, m, identity).value)
  {
    RespondResponds(env, m, identity, Inconclusive, 0, 1, env.report([INFRASTRUCTURE]).value, env.later);
  }

  lemma BundleResponds(env: Env, m: WorkProofInstruction, identity: VerdictIdentity, b: WorkProofBundle)
    requires BundleOk(b) && env.random(m.randomRound).Some? && BundleVerdict(env, m, identity, b).Ok?
    ensures Responds(env, m, identity, BundleVerdict(env, m, identity, b).value)
  {
    ValidBundleBounds(b);
    var selected := SelectedVectors(env, m, b);
    var os := RunVectors(env, m, b, selected);
    RunVectorsExclusive(env, m, b, selected);
    OutcomeMatchesCounts(os);
    match env.report(os)
    case None => InconclusiveResponds(env, m, identity);
    case Some(report) =>
      RespondResponds(env, m, identity, Decide(os), CountPassed(os), |os|, report, env.now);
  }

  lemma VerifyResponds(env: Env, instructionId: Bytes32, m: WorkProofInstruction)
    requires VerdictFor(env, instructionId, m).Ok?
    ensures Preflight(env, instructionId, m).None?
    ensures Responds(env, m, IdentityFrom(m, instructionId), VerdictFor(env, instructionId, m).value)
  {
    match FetchAndDecrypt(env, m)
    case None => InconclusiveResponds(env, m, IdentityFrom(m, instructionId));
    case Some(b) => BundleResponds(env, m, IdentityFrom(m, instructionId), b);
  }

  // Any verdict, PASS, FAIL or INCONCLUSIVE, that the verifier returns about a
  // job passes both of the escrow's binding checks while the job is unchanged.
  lemma VerdictBinds(c: Chain, env: Env, instructionId: Bytes32, m: WorkProofInstruction, j: Job, now: nat)
    requires Configured(env, c) && env.job == Some(j) && VerdictFor(env, instructionId, m).Ok?
    requires forall x :: env.keccak(x) != 0
    requires var v := VerdictFor(env, instructionId, m).value;
             j.current.dispatchedAt <= v.result.issuedAt <= now
    ensures var v := VerdictFor(env, instructionId, m).value;
            && IdentityMatches(c, j, v.id, m.jobId)
            && OutcomeMatches(j, v.result, now, j.current.artifactCodeHash)
  {
    VerifyResponds(env, instructionId, m);
  }

  // The settlement transaction a relayer builds from a signed result.
  function SettlementOf(c: Chain, id: nat, v: VerdictV1, tee: Address, liveCodeHash: Bytes32): Call {
    var data := Abi.EncodeVerdict(v);
    SettleAttempt(id, data, OP_TYPE, OP_COMMAND, THRESHOLD_TAG, 1,
                  SignedBy(tee, SignedMessage(data, v.id.instructionId, THRESHOLD_TAG, 1, c.chainId)),
                  liveCodeHash)
  }

  lemma DecodesItself(v: VerdictV1)
    ensures Abi.DecodeVerdict(Abi.EncodeVerdict(v)) == Some(v)
  {
    Abi.DecodeEncodeVerdict(v, []);
    assert Abi.EncodeVerdict(v) + [] == Abi.EncodeVerdict(v);
  }

  // Verified in Go, encoded, signed by the pinned TEE and submitted in time by
  // anyone, the verdict settles the attempt with its outcome.
  lemma VerdictSettles(c: Chain, s: State, sender: Address, env: Env, instructionId: Bytes32,
                       m: WorkProofInstruction)
    requires Inv(c, s) && s.frame.Idle? && sender != ZERO_ADDRESS && sender != c.self
    requires Configured(env, c) && VerdictFor(env, instructionId, m).Ok? && forall x :: env.keccak(x) != 0
    requires m.jobId < s.core.store.nextJobId && env.job == Some(JobAt(s.core.store, m.jobId))
    requires var j := JobAt(s.core.store, m.jobId); var v := VerdictFor(env, instructionId, m).value;
             && j.current.instructionId != 0 && s.now <= j.current.timeoutAt
             && j.current.dispatchedAt <= v.result.issuedAt <= s.now
    ensures var j := JobAt(s.core.store, m.jobId); var v := VerdictFor(env, instructionId, m).value;
            var call := SettlementOf(c, m.jobId, v, j.terms.expectedTee, j.current.artifactCodeHash);
            && Begin(c, s, sender, call) == ApplyOutcome(c, s, m.jobId, v.result.outcome)
            && Begin(c, s, sender, call).Ok?
            && SettledAs(c, s, Run(c, s, Settling(sender, call)), m.jobId, v.result.outcome)
  {
    var j := JobAt(s.core.store, m.jobId);
    var v := VerdictFor(env, instructionId, m).value;
    UnknownJobIsZero(c, s, m.jobId);
    VerifyResponds(env, instructionId, m);
    VerdictBinds(c, env, instructionId, m, j, s.now);
    DecodesItself(v);
    SettlementAccepted(c, s, m.jobId, v);
    var call := SettlementOf(c, m.jobId, v, j.terms.expectedTee, j.current.artifactCodeHash);
    AcceptedApplies(c, s, sender, call, v);
    SettlingCompletes(c, s, sender, call, m.jobId, v.result.outcome);
  }

  // From the dispatch in s, answered with a non-zero id, any run es leads to a later
  // state in which the window is still open and no verdict on the attempt has been
  // accepted: the verifier read the chain in between.
  ghost predicate OpenRound(c: Chain, s: State, id: Uint256, instructionId: Bytes32, env: Env, es: seq<Event>,
                            later: State) {
    && Inv(c, s) && Hist(c, s) && s.frame.Busy? && s.frame.pc == Sending(id) && instructionId != 0
    && Dispatched(s, id, instructionId).Ok?
    && later == Run(c, Step(c, s, Proceed(instructionId)), es) && later.frame.Idle?
    && var d := Dispatched(s, id, instructionId).value;
       var j' := JobAt(d.core.store, id); var key := (id as nat, j'.current.attempt as nat);
       && later.core.hist.settlements[key] == d.core.hist.settlements[key] && Reads(env, c, j')
       && j'.current.dispatchedAt <= env.now <= env.later <= later.now <= j'.current.timeoutAt
  }

  // Whatever the run did, it left the job as it was.
  lemma RoundStaysOpen(c: Chain, s: State, id: Uint256, instructionId: Bytes32, env: Env, es: seq<Event>, later: State)
    requires OpenRound(c, s, id, instructionId, env, es, later)
    ensures Inv(c, later) && id < later.core.store.nextJobId
    ensures JobAt(later.core.store, id) == JobAt(Dispatched(s, id, instructionId).value.core.store, id)
  {
    var t := Step(c, s, Proceed(instructionId));
    StepKeeps(c, s, Proceed(instructionId));
    StepHist(c, s, Proceed(instructionId));
    WindowIsTheVerifiers(c, t, es, id);
    RunKeeps(c, t, es);
    UnknownJobIsZero(c, later, id);
  }

  // The whole round: dispatched, verified, signed by the pinned TEE and relayed by
  // anyone before the timeout, the attempt is settled with the verifier's outcome.
  lemma DispatchToSettlement(c: Chain, s: State, id: Uint256, instructionId: Bytes32, env: Env, es: seq<Event>,
                             later: State, sender: Address)
    requires OpenRound(c, s, id, instructionId, env, es, later) && env.report([INFRASTRUCTURE]).Some?
    requires (forall x :: c.keccak(x) != 0) && sender != ZERO_ADDRESS && sender != c.self
    ensures var j' := JobAt(later.core.store, id);
            var r := VerdictFor(env, instructionId, InstructionFor(c, id, JobAt(s.core.store, id)));
            && r.Ok?
            && var call := SettlementOf(c, id, r.value, j'.terms.expectedTee, j'.current.artifactCodeHash);
               && Begin(c, later, sender, call).Ok?
               && Begin(c, later, sender, call) == ApplyOutcome(c, later, id, r.value.result.outcome)
               && SettledAs(c, later, Run(c, later, Settling(sender, call)), id, r.value.result.outcome)
  {
    var m := InstructionFor(c, id, JobAt(s.core.store, id));
    RoundStaysOpen(c, s, id, instructionId, env, es, later);
    DispatchedPassesPreflight(c, s, id, instructionId, env);
    DispatchedInstructionChecksOut(c, s, id, instructionId);
    AnswersOrCannotReport(env, instructionId, m);
    VerifyResponds(env, instructionId, m);
    VerdictSettles(c, later, sender, env, instructionId, m);
  }

  lemma AnswersOrCannotReport(env: Env, instructionId: Bytes32, m: WorkProofInstruction)
    requires Preflight(env, instructionId, m).None? && env.report([INFRASTRUCTURE]).Some?
    ensures VerdictFor(env, instructionId, m).Ok?
  {
  }

  lemma AcceptedApplies(c: Chain, s: State, sender: Address, call: Call, v: VerdictV1)
    requires s.frame.Idle? && sender != ZERO_ADDRESS && sender != c.self
    requires call.SettleAttempt? && AcceptedVerdict(c, s, call) == Ok(v)
    ensures Begin(c, s, sender, call) == ApplyOutcome(c, s, call.id, v.result.outcome)
  {
  }

  lemma SettlementAccepted(c: Chain, s: State, id: nat, v: VerdictV1)
    requires s.frame.Idle? && TermsOk(c, JobAt(s.core.store, id).terms)
    requires var j := JobAt(s.core.store, id);
             && j.state.Verifying? && s.now <= j.current.timeoutAt && s.now <= j.terms.graceEnds
             && j.current.instructionId != 0 && Abi.DecodeVerdict(Abi.EncodeVerdict(v)) == Some(v)
             && IdentityMatches(c, j, v.id, id) && OutcomeMatches(j, v.result, s.now, j.current.artifactCodeHash)
    ensures var j := JobAt(s.core.store, id);
            var call := SettlementOf(c, id, v, j.terms.expectedTee, j.current.artifactCodeHash);
            AcceptedVerdict(c, s, call) == Ok(v) && ApplyOutcome(c, s, id, v.result.outcome).Ok?
  {
  }
}
