// A job is paid only for an artifact that passed the tests its client committed to,
// and what such a pass says about the artifact.
module PaidMeansPassed {
  import opened Base
  import opened Records
  import opened EscrowMachine
  import opened EscrowInvariant
  import opened EscrowHistory
  import opened EscrowTheorems
  import opened Selection
  import opened Bundle
  import opened Vectors
  import opened Verifier
  import opened EndToEnd
  import opened Payment
  import Abi

  type Canonicaliser = WorkProofBundle -> Option<seq<Byte>>

  // The endpoint as seen by the k-th executed vector, for every k.
  type Panel = nat -> View

  // --- the tests of one attempt ---

  function TargetFor(j: Job, b: WorkProofBundle): Target {
    Target(j.current.artifactAddress, j.current.artifactBlock, b.gasLimitPerCall, b.maxResponseBytes)
  }

  // What the seed of the job's current attempt selects.
  function SelectedFor(c: Chain, id: Uint256, j: Job, b: WorkProofBundle, random: Uint256): (s: seq<nat>)
    requires BundleOk(b)
    ensures |s| == b.selectionCount >= 1 && IsSelection(|b.vectors|, s) && AllBelow(s, |b.vectors|)
  {
    var seed := TestSeed(c.keccak, random, c.self, id, j.current.attempt, j.terms.specHash,
                         j.current.artifactCodeHash);
    ValidBundleBounds(b);
    SelectIsSelection(c.keccak, seed, |b.vectors|, b.selectionCount);
    var s := Select(c.keccak, seed, |b.vectors|, b.selectionCount);
    assert forall k | 0 <= k < |s| :: s[k] in s;
    s
  }

  function OutcomesOf(c: Chain, id: Uint256, j: Job, b: WorkProofBundle, random: Uint256, views: Panel)
    : (os: seq<VectorOutcome>)
    requires BundleOk(b)
    ensures |os| == |SelectedFor(c, id, j, b, random)|
  {
    var selected := SelectedFor(c, id, j, b, random);
    seq(|selected|, k requires 0 <= k < |selected| =>
      ExecuteVector(views(k), TargetFor(j, b), b.vectors[selected[k]]))
  }

  // The bundle and the random value the job is committed to.
  ghost predicate Opens(c: Chain, canon: Canonicaliser, j: Job, b: WorkProofBundle, random: Uint256) {
    && canon(b).Some? && c.keccak(canon(b).value) == j.terms.privateBundleHash
    && BundleOk(b) && SpecMatches(b, j.terms.specHash)
    && c.keccak(Abi.EncodeUint256(random)) == j.current.randomValueHash
  }

  // Every selected vector passed, none was skipped, and there was at least one.
  ghost predicate Passed(c: Chain, canon: Canonicaliser, id: Uint256, j: Job, views: Panel, b: WorkProofBundle,
                         random: Uint256) {
    && Opens(c, canon, j, b, random)
    && var os := OutcomesOf(c, id, j, b, random, views);
       |os| >= 1 && AllPassed(os) && !AnySkipped(os)
  }

  // Every selected vector holds of the artifact.
  ghost predicate Certifies(c: Chain, canon: Canonicaliser, truth: View, id: Uint256, j: Job, b: WorkProofBundle,
                            random: Uint256) {
    && Opens(c, canon, j, b, random)
    && var selected := SelectedFor(c, id, j, b, random);
       forall k | 0 <= k < |selected| :: Holds(truth, TargetFor(j, b), b.vectors[selected[k]])
  }

  // --- what the TEE signs ---

  // The engine hashes as the chain does and has one canonical form of a bundle.
  ghost predicate RealEngine(env: Env, c: Chain, canon: Canonicaliser) {
    env.keccak == c.keccak && env.canonical == canon
  }

  // The signed data is the encoding of something Verify returned, on a panel of views
  // that deserves some trust: none at all, honesty, whatever a theorem needs.
  ghost predicate IsVerifyOutput(c: Chain, canon: Canonicaliser, trust: Panel -> bool, data: seq<Byte>) {
    exists env, instructionId, m ::
      RealEngine(env, c, canon) && trust(env.views) && VerdictFor(env, instructionId, m).Ok?
      && data == Abi.EncodeVerdict(VerdictFor(env, instructionId, m).value)
  }

  // In these events the TEE signs nothing but Verify's outputs.
  ghost predicate SignsOnlyVerdicts(c: Chain, canon: Canonicaliser, trust: Panel -> bool, tee: Address, e: Event) {
    e.Invoke? && e.call.SettleAttempt? && e.call.signature.SignedBy? && e.call.signature.signer == tee
    && e.call.signature.message.status == 1 ==>
      IsVerifyOutput(c, canon, trust, e.call.signature.message.data)
  }

  lemma FetchedIsCommitted(env: Env, m: WorkProofInstruction)
    requires FetchAndDecrypt(env, m).Some?
    ensures var b := FetchAndDecrypt(env, m).value;
            HashesTo(env, b, m.privateBundleHash) && BundleOk(b) && SpecMatches(b, m.specHash)
  {
  }

  // Only a fetched bundle can lead to a PASS or a FAIL.
  lemma ConclusiveNamesBundle(env: Env, instructionId: Bytes32, m: WorkProofInstruction) returns (b: WorkProofBundle)
    requires VerdictFor(env, instructionId, m).Ok?
    requires !VerdictFor(env, instructionId, m).value.result.outcome.Inconclusive?
    ensures HashesTo(env, b, m.privateBundleHash) && BundleOk(b) && SpecMatches(b, m.specHash)
    ensures env.random(m.randomRound).Some?
    ensures env.keccak(Abi.EncodeUint256(env.random(m.randomRound).value.0)) == m.randomValueHash
    ensures BundleVerdict(env, m, IdentityFrom(m, instructionId), b) == VerdictFor(env, instructionId, m)
  {
    InconclusiveIsInconclusive(env, m, IdentityFrom(m, instructionId));
    b := FetchAndDecrypt(env, m).value;
    FetchedIsCommitted(env, m);
    PassesExactlyAdmissible(env, instructionId, m);
  }

  lemma InconclusiveIsInconclusive(env: Env, m: WorkProofInstruction, identity: VerdictIdentity)
    ensures var r := InconclusiveVerdict(env, m, identity); r.Ok? ==> r.value.result.outcome.Inconclusive?
  {
  }

  // And it is decided by the outcomes of the selected vectors.
  lemma ConclusiveIsDecided(env: Env, m: WorkProofInstruction, identity: VerdictIdentity, b: WorkProofBundle)
    requires BundleOk(b) && env.random(m.randomRound).Some? && BundleVerdict(env, m, identity, b).Ok?
    requires !BundleVerdict(env, m, identity, b).value.result.outcome.Inconclusive?
    ensures Decide(RunVectors(env, m, b, SelectedVectors(env, m, b)))
         == BundleVerdict(env, m, identity, b).value.result.outcome
  {
  }

  // The instruction is about the job's current attempt.
  predicate About(c: Chain, m: WorkProofInstruction, id: Uint256, j: Job) {
    && m.escrowAddress == c.self && m.jobId == id && m.attempt == j.current.attempt
    && m.specHash == j.terms.specHash && m.privateBundleHash == j.terms.privateBundleHash
    && m.artifactAddress == j.current.artifactAddress && m.artifactBlock == j.current.artifactBlock
    && m.artifactCodeHash == j.current.artifactCodeHash
    && m.randomRound == j.current.randomRound && m.randomValueHash == j.current.randomValueHash
  }

  lemma SameOutcomes(c: Chain, env: Env, m: WorkProofInstruction, id: Uint256, j: Job, b: WorkProofBundle)
    requires env.keccak == c.keccak && About(c, m, id, j) && BundleOk(b) && env.random(m.randomRound).Some?
    ensures RunVectors(env, m, b, SelectedVectors(env, m, b))
         == OutcomesOf(c, id, j, b, env.random(m.randomRound).value.0, env.views)
  {
    assert TargetOf(m, b) == TargetFor(j, b);
    assert SelectedVectors(env, m, b) == SelectedFor(c, id, j, b, env.random(m.randomRound).value.0);
  }

  // An accepted verdict is about the job as it stands.
  lemma AcceptedIsAbout(c: Chain, s: State, call: Call, env: Env, instructionId: Bytes32, m: WorkProofInstruction)
    requires call.SettleAttempt? && AcceptedVerdict(c, s, call).Ok? && call.id < TWO256
    requires VerdictFor(env, instructionId, m).Ok?
    requires AcceptedVerdict(c, s, call).value == VerdictFor(env, instructionId, m).value
    ensures About(c, m, call.id, JobAt(s.core.store, call.id))
  {
    AcceptedBinds(c, s, call);
    VerifyResponds(env, instructionId, m);
  }

  // A PASS or FAIL that the escrow accepts from the TEE is what the outcomes of the
  // committed tests add up to.
  lemma AcceptedIsTested(c: Chain, canon: Canonicaliser, trust: Panel -> bool, s: State, sender: Address, call: Call)
    returns (views: Panel, b: WorkProofBundle, random: Uint256)
    requires call.SettleAttempt? && AcceptedVerdict(c, s, call).Ok? && call.id < TWO256
    requires !AcceptedVerdict(c, s, call).value.result.outcome.Inconclusive?
    requires SignsOnlyVerdicts(c, canon, trust, JobAt(s.core.store, call.id).terms.expectedTee, Invoke(sender, call))
    ensures var j := JobAt(s.core.store, call.id);
            && trust(views) && Opens(c, canon, j, b, random)
            && Exclusive(OutcomesOf(c, call.id, j, b, random, views))
            && Decide(OutcomesOf(c, call.id, j, b, random, views))
               == AcceptedVerdict(c, s, call).value.result.outcome
  {
    var j := JobAt(s.core.store, call.id);
    var v := AcceptedVerdict(c, s, call).value;
    AcceptedBinds(c, s, call);
    assert IsVerifyOutput(c, canon, trust, call.data);
    var env, instructionId, m :|
      RealEngine(env, c, canon) && trust(env.views) && VerdictFor(env, instructionId, m).Ok?
      && call.data == Abi.EncodeVerdict(VerdictFor(env, instructionId, m).value);
    DecodesItself(VerdictFor(env, instructionId, m).value);
    assert VerdictFor(env, instructionId, m).value == v;
    AcceptedIsAbout(c, s, call, env, instructionId, m);
    b := ConclusiveNamesBundle(env, instructionId, m);
    views, random := env.views, env.random(m.randomRound).value.0;
    ConclusiveIsDecided(env, m, IdentityFrom(m, instructionId), b);
    RunVectorsExclusive(env, m, b, SelectedVectors(env, m, b));
    SameOutcomes(c, env, m, call.id, j, b);
  }

  lemma AcceptedPassPassed(c: Chain, canon: Canonicaliser, trust: Panel -> bool, s: State, sender: Address, call: Call)
    returns (views: Panel, b: WorkProofBundle, random: Uint256)
    requires call.SettleAttempt? && AcceptedVerdict(c, s, call).Ok? && call.id < TWO256
    requires AcceptedVerdict(c, s, call).value.result.outcome.Pass?
    requires SignsOnlyVerdicts(c, canon, trust, JobAt(s.core.store, call.id).terms.expectedTee, Invoke(sender, call))
    ensures trust(views) && Passed(c, canon, call.id, JobAt(s.core.store, call.id), views, b, random)
  {
    views, b, random := AcceptedIsTested(c, canon, trust, s, sender, call);
    OutcomeMatchesCounts(OutcomesOf(c, call.id, JobAt(s.core.store, call.id), b, random, views));
  }

  // --- over runs ---

  ghost predicate PaidPassed(c: Chain, canon: Canonicaliser, trust: Panel -> bool, tee: Address, core: Core) {
    forall id: Uint256 | id < core.store.nextJobId && JobAt(core.store, id).state.Paid?
      && JobAt(core.store, id).terms.expectedTee == tee ::
      JobPassed(c, canon, trust, id, JobAt(core.store, id))
  }

  // Some panel of trusted views, bundle and random value, all as committed, passed.
  ghost predicate JobPassed(c: Chain, canon: Canonicaliser, trust: Panel -> bool, id: Uint256, j: Job) {
    exists views, b, random :: trust(views) && Passed(c, canon, id, j, views, b, random)
  }

  // Only an accepted PASS moves a job to Paid.
  lemma NewlyPaid(c: Chain, s: State, e: Event, id: nat)
    requires Inv(c, s) && !JobAt(s.core.store, id).state.Paid? && JobAt(Step(c, s, e).core.store, id).state.Paid?
    requires !(s.frame.Busy? && Step(c, s, e) == Rollback(s))
    ensures e.Invoke? && e.call.SettleAttempt? && e.call.id == id && AcceptedVerdict(c, s, e.call).Ok?
    ensures AcceptedVerdict(c, s, e.call).value.result.outcome.Pass?
    ensures JobAt(Step(c, s, e).core.store, id) == JobAt(s.core.store, id).(state := Paid, settled := true)
  {
    match e
    case Invoke(sender, call) => NewlyPaidByCall(c, s, sender, call, id);
    case Proceed(instructionId) => ResumeNeverPays(c, s, instructionId, id);
    case _ =>
  }

  lemma NewlyPaidByCall(c: Chain, s: State, sender: Address, call: Call, id: nat)
    requires !JobAt(s.core.store, id).state.Paid? && Begin(c, s, sender, call).Ok?
    requires JobAt(Begin(c, s, sender, call).value.core.store, id).state.Paid?
    ensures call.SettleAttempt? && call.id == id && AcceptedVerdict(c, s, call).Ok?
    ensures AcceptedVerdict(c, s, call).value.result.outcome.Pass?
    ensures JobAt(Begin(c, s, sender, call).value.core.store, id)
         == JobAt(s.core.store, id).(state := Paid, settled := true)
  {
  }

  lemma ResumeNeverPays(c: Chain, s: State, instructionId: Bytes32, id: nat)
    requires Inv(c, s) && s.frame.Busy? && !JobAt(s.core.store, id).state.Paid?
    requires Resume(c, s, instructionId) != Rollback(s)
    ensures !JobAt(Resume(c, s, instructionId).core.store, id).state.Paid?
  {
  }

  lemma SameTests(c: Chain, canon: Canonicaliser, id: Uint256, j: Job, k: Job, views: Panel, b: WorkProofBundle,
                  random: Uint256)
    requires Passed(c, canon, id, j, views, b, random) && k.terms == j.terms && k.current == j.current
    ensures Passed(c, canon, id, k, views, b, random)
  {
    assert OutcomesOf(c, id, k, b, random, views) == OutcomesOf(c, id, j, b, random, views);
  }

  lemma NewlyPaidPassed(c: Chain, canon: Canonicaliser, trust: Panel -> bool, tee: Address, s: State, e: Event,
                        id: Uint256)
    requires Inv(c, s) && SignsOnlyVerdicts(c, canon, trust, tee, e)
    requires !JobAt(s.core.store, id).state.Paid? && !(s.frame.Busy? && Step(c, s, e) == Rollback(s))
    requires var k := JobAt(Step(c, s, e).core.store, id); k.state.Paid? && k.terms.expectedTee == tee
    ensures JobPassed(c, canon, trust, id, JobAt(Step(c, s, e).core.store, id))
  {
    var j, k := JobAt(s.core.store, id), JobAt(Step(c, s, e).core.store, id);
    NewlyPaid(c, s, e, id);
    var views, b, random := AcceptedPassPassed(c, canon, trust, s, e.sender, e.call);
    SameTests(c, canon, id, j, k, views, b, random);
  }

  lemma StepPaidPassed(c: Chain, canon: Canonicaliser, trust: Panel -> bool, tee: Address, s: State, e: Event)
    requires Inv(c, s) && Hist(c, s) && SignsOnlyVerdicts(c, canon, trust, tee, e)
    requires PaidPassed(c, canon, trust, tee, s.core)
    requires !(s.frame.Busy? && Step(c, s, e) == Rollback(s))
    ensures PaidPassed(c, canon, trust, tee, Step(c, s, e).core)
  {
    var s' := Step(c, s, e);
    StepKeeps(c, s, e);
    StepEvolves(c, s, e);
    forall id: Uint256 | id < s'.core.store.nextJobId && JobAt(s'.core.store, id).state.Paid?
      && JobAt(s'.core.store, id).terms.expectedTee == tee
      ensures JobPassed(c, canon, trust, id, JobAt(s'.core.store, id))
    {
      if JobAt(s.core.store, id).state.Paid? {
        UnknownJobIsZero(c, s, id);
        assert JobEvolves(JobAt(s.core.store, id), JobAt(s'.core.store, id));
      } else {
        NewlyPaidPassed(c, canon, trust, tee, s, e, id);
      }
    }
  }

  lemma {:induction false} RunPaidPassed(c: Chain, canon: Canonicaliser, trust: Panel -> bool, tee: Address, s: State,
                                         es: seq<Event>)
    requires Inv(c, s) && Hist(c, s)
    requires forall i | 0 <= i < |es| :: SignsOnlyVerdicts(c, canon, trust, tee, es[i])
    requires PaidPassed(c, canon, trust, tee, s.core) && PaidPassed(c, canon, trust, tee, Committed(s))
    ensures PaidPassed(c, canon, trust, tee, Run(c, s, es).core)
    decreases |es|
  {
    if |es| > 0 {
      var s' := Step(c, s, es[0]);
      StepKeeps(c, s, es[0]);
      StepHist(c, s, es[0]);
      FrameStable(c, s, es[0]);
      if !(s.frame.Busy? && s' == Rollback(s)) {
        StepPaidPassed(c, canon, trust, tee, s, es[0]);
      }
      RunPaidPassed(c, canon, trust, tee, s', es[1..]);
    }
  }

  lemma NobodyPaidYet(c: Chain, canon: Canonicaliser, trust: Panel -> bool, tee: Address, s: State)
    requires IsInitial(c, s)
    ensures PaidPassed(c, canon, trust, tee, s.core) && Committed(s) == s.core
  {
  }

  lemma PaidJobPassed(c: Chain, canon: Canonicaliser, trust: Panel -> bool, tee: Address, t: State, id: Uint256)
    requires Inv(c, t) && PaidPassed(c, canon, trust, tee, t.core)
    requires var j := JobAt(t.core.store, id); j.state.Paid? && j.terms.expectedTee == tee
    ensures JobPassed(c, canon, trust, id, JobAt(t.core.store, id))
  {
    UnknownJobIsZero(c, t, id);
  }

  // In every run in which a TEE signs only Verify's outputs, whatever its endpoints
  // and oracle told it, a job pinned to that TEE is paid only if every vector that the
  // seed of its current attempt selects from a bundle it committed to passed on its
  // artifact, none was skipped, and there was at least one.
  lemma PaidOnlyIfAllPassed(c: Chain, canon: Canonicaliser, trust: Panel -> bool, tee: Address, s: State,
                            es: seq<Event>, id: Uint256)
    requires ChainOk(c) && IsInitial(c, s)
    requires forall i | 0 <= i < |es| :: SignsOnlyVerdicts(c, canon, trust, tee, es[i])
    requires var j := JobAt(Run(c, s, es).core.store, id); j.state.Paid? && j.terms.expectedTee == tee
    ensures exists views, b, random ::
              trust(views) && Passed(c, canon, id, JobAt(Run(c, s, es).core.store, id), views, b, random)
  {
    Reachable(c, s, es);
    Reachable(c, s, []);
    NobodyPaidYet(c, canon, trust, tee, s);
    RunPaidPassed(c, canon, trust, tee, s, es);
    PaidJobPassed(c, canon, trust, tee, Run(c, s, es), id);
  }

  // --- what a pass says about the artifact ---

  ghost function HonestTo(truth: View): Panel -> bool {
    (views: Panel) => forall k: nat :: Honest(views(k), truth)
  }

  // Honest, and it never reports an error of its own.
  ghost function ReliableOn(truth: View): Panel -> bool {
    (views: Panel) =>
      forall k: nat :: Honest(views(k), truth) && forall m, block :: !views(k).call(m, block).NodeError?
  }

  ghost predicate HoldOrTaken(c: Chain, truth: View, id: Uint256, j: Job, views: Panel, b: WorkProofBundle,
                              random: Uint256)
    requires BundleOk(b)
  {
    var selected := SelectedFor(c, id, j, b, random);
    forall k | 0 <= k < |selected| ::
      || Holds(truth, TargetFor(j, b), b.vectors[selected[k]])
      || TakenForRevert(views(k), TargetFor(j, b), b.vectors[selected[k]])
  }

  lemma PassedHold(c: Chain, canon: Canonicaliser, truth: View, id: Uint256, j: Job, views: Panel, b: WorkProofBundle,
                   random: Uint256)
    requires Passed(c, canon, id, j, views, b, random) && HonestTo(truth)(views)
    ensures HoldOrTaken(c, truth, id, j, views, b, random)
  {
    var selected, os := SelectedFor(c, id, j, b, random), OutcomesOf(c, id, j, b, random, views);
    forall k | 0 <= k < |selected| && !TakenForRevert(views(k), TargetFor(j, b), b.vectors[selected[k]])
      ensures Holds(truth, TargetFor(j, b), b.vectors[selected[k]])
    {
      assert os[k].passed && os[k] == ExecuteVector(views(k), TargetFor(j, b), b.vectors[selected[k]]);
      OutcomeIsEvidence(views(k), truth, TargetFor(j, b), b.vectors[selected[k]]);
    }
  }

  lemma PassedCertifies(c: Chain, canon: Canonicaliser, truth: View, id: Uint256, j: Job, views: Panel,
                        b: WorkProofBundle, random: Uint256)
    requires Passed(c, canon, id, j, views, b, random) && ReliableOn(truth)(views)
    ensures Certifies(c, canon, truth, id, j, b, random)
  {
    PassedHold(c, canon, truth, id, j, views, b, random);
  }

  // If the endpoints were honest, the artifact of a paid job meets every selected
  // vector, except revert expectations answered by an error of the node.
  lemma PaidOnlyIfVerified(c: Chain, canon: Canonicaliser, truth: View, tee: Address, s: State, es: seq<Event>,
                           id: Uint256)
    requires ChainOk(c) && IsInitial(c, s)
    requires forall i | 0 <= i < |es| :: SignsOnlyVerdicts(c, canon, HonestTo(truth), tee, es[i])
    requires var j := JobAt(Run(c, s, es).core.store, id); j.state.Paid? && j.terms.expectedTee == tee
    ensures var j := JobAt(Run(c, s, es).core.store, id);
            exists views, b, random ::
              && HonestTo(truth)(views) && Passed(c, canon, id, j, views, b, random)
              && HoldOrTaken(c, truth, id, j, views, b, random)
  {
    PaidOnlyIfAllPassed(c, canon, HonestTo(truth), tee, s, es, id);
    var j := JobAt(Run(c, s, es).core.store, id);
    var views, b, random :| HonestTo(truth)(views) && Passed(c, canon, id, j, views, b, random);
    PassedHold(c, canon, truth, id, j, views, b, random);
  }

  // If moreover the node reported no errors, it meets all of them.
  lemma PaidOnlyIfCertified(c: Chain, canon: Canonicaliser, truth: View, tee: Address, s: State, es: seq<Event>,
                            id: Uint256)
    requires ChainOk(c) && IsInitial(c, s)
    requires forall i | 0 <= i < |es| :: SignsOnlyVerdicts(c, canon, ReliableOn(truth), tee, es[i])
    requires var j := JobAt(Run(c, s, es).core.store, id); j.state.Paid? && j.terms.expectedTee == tee
    ensures exists b, random :: Certifies(c, canon, truth, id, JobAt(Run(c, s, es).core.store, id), b, random)
  {
    PaidOnlyIfAllPassed(c, canon, ReliableOn(truth), tee, s, es, id);
    var j := JobAt(Run(c, s, es).core.store, id);
    var views, b, random :| ReliableOn(truth)(views) && Passed(c, canon, id, j, views, b, random);
    PassedCertifies(c, canon, truth, id, j, views, b, random);
  }

  // With binding commitments it is the client's own bundle that passed, under the
  // locked round's own value.
  lemma PaidOnlyForCommittedBundle(c: Chain, canon: Canonicaliser, trust: Panel -> bool, tee: Address, s: State,
                                   es: seq<Event>, id: Uint256, committed: WorkProofBundle)
    requires ChainOk(c) && IsInitial(c, s)
    requires forall i | 0 <= i < |es| :: SignsOnlyVerdicts(c, canon, trust, tee, es[i])
    requires var j := JobAt(Run(c, s, es).core.store, id);
             && j.state.Paid? && j.terms.expectedTee == tee
             && (forall b | canon(b).Some? && c.keccak(canon(b).value) == j.terms.privateBundleHash :: b == committed)
             && (forall u: Uint256 | ValueHash(c, u) == j.current.randomValueHash ::
                   u == c.rounds(j.current.randomRound).value)
    ensures var j := JobAt(Run(c, s, es).core.store, id);
            exists views ::
              trust(views) && Passed(c, canon, id, j, views, committed, c.rounds(j.current.randomRound).value)
  {
    PaidOnlyIfAllPassed(c, canon, trust, tee, s, es, id);
    var j := JobAt(Run(c, s, es).core.store, id);
    var views, b, random :| trust(views) && Passed(c, canon, id, j, views, b, random);
    assert b == committed && ValueHash(c, random) == j.current.randomValueHash;
  }

  // Some view of the panel did see the call revert as the vector expects.
  ghost predicate RevertSeen(views: Panel, t: Target, v: Vector) {
    CallOf(t, v).Some?
    && exists i: nat, message ::
         views(i).call(CallOf(t, v).value, t.block) == Reverted(message) && RevertMatches(v, message)
  }

  lemma SeenRevertHolds(truth: View, views: Panel, t: Target, v: Vector)
    requires HonestTo(truth)(views) && v.kind.EthCallReverts? && RevertSeen(views, t, v)
    ensures Holds(truth, t, v)
  {
    var m := CallOf(t, v).value;
    var i: nat, message :| views(i).call(m, t.block) == Reverted(message) && RevertMatches(v, message);
    assert Honest(views(i), truth);
    assert truth.call(m, t.block) == Reverted(message);
  }

  // Some view of the panel got the chain's answer to the call.
  ghost predicate Answered(views: Panel, m: CallMsg, block: nat) {
    exists i: nat :: views(i).call(m, block).Returned? || views(i).call(m, block).Reverted?
  }

  // The chain on which every call that no view saw answered returns.
  ghost function QuietChain(truth: View, views: Panel): View {
    View((m: CallMsg, block: nat) => if Answered(views, m, block) then truth.call(m, block) else Returned([]),
         truth.code, truth.storage)
  }

  lemma QuietChainIsHonest(truth: View, views: Panel)
    requires HonestTo(truth)(views)
    ensures HonestTo(QuietChain(truth, views))(views)
  {
    var quiet := QuietChain(truth, views);
    forall k: nat ensures Honest(views(k), quiet) {
      assert Honest(views(k), truth);
      forall m: CallMsg, block: nat
        ensures views(k).call(m, block).NodeError? || views(k).call(m, block).NoAnswer?
             || views(k).call(m, block) == quiet.call(m, block)
      {
        if views(k).call(m, block).Returned? || views(k).call(m, block).Reverted? {
          assert Answered(views, m, block);
        }
      }
    }
  }

  // There, a revert that no view saw did not happen.
  lemma UnseenRevertFails(truth: View, views: Panel, t: Target, v: Vector)
    requires HonestTo(truth)(views) && v.kind.EthCallReverts? && CallOf(t, v).Some? && !RevertSeen(views, t, v)
    ensures !Holds(QuietChain(truth, views), t, v)
  {
    var m := CallOf(t, v).value;
    if Answered(views, m, t.block) {
      var i: nat :| views(i).call(m, t.block).Returned? || views(i).call(m, t.block).Reverted?;
      assert Honest(views(i), truth);
      assert views(i).call(m, t.block) == truth.call(m, t.block);
    }
  }

  // What a pass proves, exactly: that all selected vectors hold on every chain the
  // panel may be an honest view of, if and only if each of them that took an error of
  // the node for a revert is backed by a view that did see it revert as expected. The
  // panel is one that can be honest at all.
  lemma PassProvesExactly(c: Chain, canon: Canonicaliser, truth: View, id: Uint256, j: Job, views: Panel,
                          b: WorkProofBundle, random: Uint256)
    requires Passed(c, canon, id, j, views, b, random) && HonestTo(truth)(views)
    ensures var selected := SelectedFor(c, id, j, b, random);
            (forall t | HonestTo(t)(views) :: Certifies(c, canon, t, id, j, b, random))
            <==> forall k | 0 <= k < |selected| ::
                   var v := b.vectors[selected[k]];
                   TakenForRevert(views(k), TargetFor(j, b), v) ==> RevertSeen(views, TargetFor(j, b), v)
  {
    var selected := SelectedFor(c, id, j, b, random);
    var target := TargetFor(j, b);
    if forall k | 0 <= k < |selected| ::
         TakenForRevert(views(k), target, b.vectors[selected[k]]) ==> RevertSeen(views, target, b.vectors[selected[k]])
    {
      forall t | HonestTo(t)(views) ensures Certifies(c, canon, t, id, j, b, random) {
        PassedHold(c, canon, t, id, j, views, b, random);
        forall k | 0 <= k < |selected| ensures Holds(t, target, b.vectors[selected[k]]) {
          if TakenForRevert(views(k), target, b.vectors[selected[k]]) {
            SeenRevertHolds(t, views, target, b.vectors[selected[k]]);
          }
        }
      }
    } else {
      var k :| 0 <= k < |selected| && TakenForRevert(views(k), target, b.vectors[selected[k]])
               && !RevertSeen(views, target, b.vectors[selected[k]]);
      QuietChainIsHonest(truth, views);
      UnseenRevertFails(truth, views, target, b.vectors[selected[k]]);
      assert !Certifies(c, canon, QuietChain(truth, views), id, j, b, random);
    }
  }

  // For one endpoint that always answers the same, no such backing is possible.
  lemma SteadyPassProvesExactly(c: Chain, canon: Canonicaliser, id: Uint256, j: Job, view: View, b: WorkProofBundle,
                                random: Uint256)
    requires Passed(c, canon, id, j, (k: nat) => view, b, random)
    ensures var selected := SelectedFor(c, id, j, b, random);
            (forall truth | Honest(view, truth) :: Certifies(c, canon, truth, id, j, b, random))
            <==> forall k | 0 <= k < |selected| :: !TakenForRevert(view, TargetFor(j, b), b.vectors[selected[k]])
  {
    var selected := SelectedFor(c, id, j, b, random);
    forall truth | Honest(view, truth)
      ensures HoldOrTaken(c, truth, id, j, (k: nat) => view, b, random)
    {
      PassedHold(c, canon, truth, id, j, (k: nat) => view, b, random);
    }
    if k :| 0 <= k < |selected| && TakenForRevert(view, TargetFor(j, b), b.vectors[selected[k]]) {
      QuietChainRefutes(view, TargetFor(j, b), b.vectors[selected[k]]);
      assert !Certifies(c, canon, Completed(view, Returned([])), id, j, b, random);
    }
  }

  // And a FAIL refutes: some selected vector of the committed bundle does not hold,
  // unless it was an error of the node that its revert expectation rejected.
  lemma AcceptedFailRefutes(c: Chain, canon: Canonicaliser, truth: View, s: State, sender: Address, call: Call)
    returns (views: Panel, b: WorkProofBundle, random: Uint256, k: nat)
    requires call.SettleAttempt? && AcceptedVerdict(c, s, call).Ok? && call.id < TWO256
    requires AcceptedVerdict(c, s, call).value.result.outcome.Fail?
    requires SignsOnlyVerdicts(c, canon, HonestTo(truth), JobAt(s.core.store, call.id).terms.expectedTee,
                               Invoke(sender, call))
    ensures var j := JobAt(s.core.store, call.id);
            && HonestTo(truth)(views) && Opens(c, canon, j, b, random)
            && !AnySkipped(OutcomesOf(c, call.id, j, b, random, views))
            && var selected := SelectedFor(c, call.id, j, b, random);
               && k < |selected|
               && var v := b.vectors[selected[k]];
                  !Holds(truth, TargetFor(j, b), v) || TakenForRevert(views(k), TargetFor(j, b), v)
  {
    var j := JobAt(s.core.store, call.id);
    views, b, random := AcceptedIsTested(c, canon, HonestTo(truth), s, sender, call);
    var selected, os := SelectedFor(c, call.id, j, b, random), OutcomesOf(c, call.id, j, b, random, views);
    k :| 0 <= k < |os| && !os[k].skipped && !os[k].passed;
    assert os[k] == ExecuteVector(views(k), TargetFor(j, b), b.vectors[selected[k]]);
    if !TakenForRevert(views(k), TargetFor(j, b), b.vectors[selected[k]]) {
      OutcomeIsEvidence(views(k), truth, TargetFor(j, b), b.vectors[selected[k]]);
    }
  }

  // --- the case the engine gets wrong ---

  predicate IsPlainRevert(v: Vector) {
    v.kind.EthCallReverts? && v.expectedRevertSelector == "" && v.expectedRevertPattern == "" && CanonicalValue(v.value)
  }

  predicate AllPlainReverts(b: WorkProofBundle) { forall v | v in b.vectors :: IsPlainRevert(v) }

  // The node answers every call with an error; reports can be built.
  ghost predicate SeesOnlyErrors(env: Env) {
    (forall k: nat :: env.views(k) == NodeDown()) && forall os :: env.report(os).Some?
  }

  // While its node is down, Verify gives a PASS on any bundle of plain revert
  // expectations, whatever the artifact does.
  lemma NodeDownPassesVerify(env: Env, instructionId: Bytes32, m: WorkProofInstruction, b: WorkProofBundle)
    requires Preflight(env, instructionId, m).None? && FetchAndDecrypt(env, m) == Some(b)
    requires AllPlainReverts(b)
    requires SeesOnlyErrors(env)
    ensures VerdictFor(env, instructionId, m).Ok? && VerdictFor(env, instructionId, m).value.result.outcome.Pass?
  {
    FetchedIsCommitted(env, m);
    var selected := SelectedVectors(env, m, b);
    var os := RunVectors(env, m, b, selected);
    forall k | 0 <= k < |os| ensures os[k].passed && !os[k].skipped {
      var v := b.vectors[selected[k]];
      assert v in b.vectors;
      ValidVectorDecodes(TargetOf(m, b), v);
      NodeDownPasses(TargetOf(m, b), v);
    }
    assert Decide(os).Pass?;
    assert VerdictFor(env, instructionId, m) == BundleVerdict(env, m, IdentityFrom(m, instructionId), b);
  }

  // The committed bundle has plain revert expectations only, and the node is down.
  ghost predicate NodeDownOn(c: Chain, s: State, id: Uint256, env: Env, b: WorkProofBundle) {
    && FetchAndDecrypt(env, InstructionFor(c, id, JobAt(s.core.store, id))) == Some(b)
    && AllPlainReverts(b) && SeesOnlyErrors(env)
  }

  // So a whole round with such a bundle ends with the contractor paid.
  lemma NodeDownPays(c: Chain, s: State, id: Uint256, instructionId: Bytes32, env: Env, es: seq<Event>, later: State,
                     sender: Address, b: WorkProofBundle)
    returns (call: Call)
    requires OpenRound(c, s, id, instructionId, env, es, later)
    requires NodeDownOn(c, s, id, env, b)
    requires (forall x :: c.keccak(x) != 0) && sender != ZERO_ADDRESS && sender != c.self
    ensures Begin(c, later, sender, call).Ok? && IsVerdictCall(c, s, id, instructionId, env, later, call)
    ensures SettledAs(c, later, Run(c, later, Settling(sender, call)), id, Pass)
  {
    var v := NodeDownVerdict(c, s, id, instructionId, env, es, later, b);
    call := PassingRoundPays(c, s, id, instructionId, env, es, later, sender, v);
  }

  // The call submits what Verify made of the dispatched instruction.
  ghost predicate IsVerdictCall(c: Chain, s: State, id: Uint256, instructionId: Bytes32, env: Env, later: State,
                                call: Call)
  {
    var r := VerdictFor(env, instructionId, InstructionFor(c, id, JobAt(s.core.store, id)));
    var j := JobAt(later.core.store, id);
    r.Ok? && call == SettlementOf(c, id, r.value, j.terms.expectedTee, j.current.artifactCodeHash)
  }

  lemma PassingRoundPays(c: Chain, s: State, id: Uint256, instructionId: Bytes32, env: Env, es: seq<Event>,
                         later: State, sender: Address, v: VerdictV1)
    returns (call: Call)
    requires OpenRound(c, s, id, instructionId, env, es, later) && env.report([INFRASTRUCTURE]).Some?
    requires (forall x :: c.keccak(x) != 0) && sender != ZERO_ADDRESS && sender != c.self
    requires VerdictFor(env, instructionId, InstructionFor(c, id, JobAt(s.core.store, id))) == Ok(v)
    requires v.result.outcome.Pass?
    ensures Begin(c, later, sender, call).Ok? && IsVerdictCall(c, s, id, instructionId, env, later, call)
    ensures SettledAs(c, later, Run(c, later, Settling(sender, call)), id, Pass)
  {
    DispatchToSettlement(c, s, id, instructionId, env, es, later, sender);
    var j := JobAt(later.core.store, id);
    call := SettlementOf(c, id, v, j.terms.expectedTee, j.current.artifactCodeHash);
  }

  lemma NodeDownVerdict(c: Chain, s: State, id: Uint256, instructionId: Bytes32, env: Env, es: seq<Event>, later: State,
                        b: WorkProofBundle)
    returns (v: VerdictV1)
    requires OpenRound(c, s, id, instructionId, env, es, later) && NodeDownOn(c, s, id, env, b)
    ensures VerdictFor(env, instructionId, InstructionFor(c, id, JobAt(s.core.store, id))) == Ok(v)
    ensures v.result.outcome.Pass? && env.report([INFRASTRUCTURE]).Some?
  {
    var m := InstructionFor(c, id, JobAt(s.core.store, id));
    DispatchedPassesPreflight(c, s, id, instructionId, env);
    NodeDownPassesVerify(env, instructionId, m, b);
    v := VerdictFor(env, instructionId, m).value;
  }

  // One vector, selected alone.
  function SingleVectorBundle(publicSpecHash: string, version: string, v: Vector): WorkProofBundle {
    WorkProofBundle(1, "t", version, COSTON2_CHAIN_ID, publicSpecHash, 1, 1, 21_000, 100, 1, [v])
  }

  // There is such a bundle for every public spec: version v1.0.0, and the vector that
  // lets every revert pass.
  lemma RevertBundleIsValid(publicSpecHash: string) returns (b: WorkProofBundle)
    requires IsBytes32(publicSpecHash)
    ensures BundleOk(b) && b.publicSpecHash == publicSpecHash && AllPlainReverts(b)
  {
    VersionOne();
    PlainRevertIsValid(Target(0, 0, 0, 0));
    SingleVectorIsValid(publicSpecHash, "v1.0.0", PlainRevert());
    b := SingleVectorBundle(publicSpecHash, "v1.0.0", PlainRevert());
  }

  lemma SingleVectorIsValid(publicSpecHash: string, version: string, v: Vector)
    requires IsBytes32(publicSpecHash) && IsVersion(version) && VectorOk(v)
    ensures BundleOk(SingleVectorBundle(publicSpecHash, version, v))
  {
  }

  lemma VersionOne()
    ensures IsVersion("v1.0.0")
  {
    var version := "v1.0.0";
    assert IsNumeral(version[1..2]) && IsNumeral(version[3..4]) && IsNumeral(version[5..]);
    assert 1 < 2 < 4 && version[2] == '.' && version[4] == '.';
  }
}
