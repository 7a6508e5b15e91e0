// A run from deployment to a payment, with the verifier's node down all along: every
// hypothesis of the payment theorems is met, and what was paid for was not verified.
module NodeDownRun {
  import opened Base
  import opened Records
  import opened EscrowMachine
  import opened EscrowInvariant
  import opened EscrowHistory
  import opened Payment
  import opened Deployment
  import opened Bundle
  import opened Vectors
  import opened Verifier
  import opened EndToEnd
  import opened PaidMeansPassed
  import Abi
  import Encoding
  import Delivery

  const ARTIFACT: Address := 3
  const CODE: seq<Byte> := [0x00]
  const CIPHERTEXT: seq<Byte> := [0x01]

  function FirstRound(c: Chain): nat { c.votingRound(0) + 1 }

  function ReadyAt(c: Chain): nat { c.rounds(FirstRound(c)).readyAt }

  // A chain whose first acceptable round is secure and ready within the times a job can
  // name, whose hash is never zero, and on which every valid bundle can be committed to.
  ghost predicate Playable(c: Chain, canon: Canonicaliser) {
    && ChainOk(c) && c.chainId < TWO64 && (forall x :: c.keccak(x) != 0)
    && FirstRound(c) < TWO256 && c.rounds(FirstRound(c)).secure && ReadyAt(c) + 100 < TWO64
    && forall b | BundleOk(b) :: canon(b).Some?
  }

  // Who takes part.
  datatype Parties = Parties(client: Address, contractor: Address, tee: Address)

  predicate Able(c: Chain, p: Parties) {
    && p.client != ZERO_ADDRESS && p.client != c.self && p.contractor != ZERO_ADDRESS && p.contractor != c.self
    && p.tee != ZERO_ADDRESS
  }

  // One token, due within 100 seconds of the round, for the bundle's tests.
  function Terms(c: Chain, canon: Canonicaliser, p: Parties, b: WorkProofBundle): JobTerms
    requires Playable(c, canon) && BundleOk(b)
  {
    JobTerms(p.client, p.contractor, p.tee, 1, 0, 0, 1, 2, ReadyAt(c) + 100, 30, 0, c.keccak(canon(b).value), 0,
             c.keccak(CIPHERTEXT))
  }

  // The attempt once its randomness is locked.
  function Locked(c: Chain): Attempt
    requires FirstRound(c) < TWO256
  {
    Attempt(1, ARTIFACT, 0, c.keccak(CODE), FirstRound(c), FirstRound(c), ValueHash(c, c.rounds(FirstRound(c)).value),
            true, 0, 0, 0)
  }

  // Created, accepted, submitted, and its randomness locked once the round is ready.
  lemma JobReady(c: Chain, canon: Canonicaliser, p: Parties, b: WorkProofBundle) returns (es: seq<Event>, t: State)
    requires Playable(c, canon) && Able(c, p) && BundleOk(b)
    ensures Leads(c, es, t) && t.frame.Idle? && t.now == ReadyAt(c)
    ensures t.core.store.nextJobId == 1 && t.core.hist.payouts == []
    ensures JobAt(t.core.store, 0) == Job(Terms(c, canon, p, b), Locked(c), ReadyToVerify, false)
  {
    es, t := JobCreated(c, Terms(c, canon, p, b));
    var e := Invoke(p.contractor, AcceptJob(0));
    OneMore(c, es, t, e);
    es, t := es + [e], Step(c, t, e);
    e := Invoke(p.contractor, SubmitAttempt(0, ARTIFACT, Some(c.keccak(CODE))));
    OneMore(c, es, t, e);
    es, t := es + [e], Step(c, t, e);
    e := Tick(ReadyAt(c), 0);
    OneMore(c, es, t, e);
    es, t := es + [e], Step(c, t, e);
    e := Invoke(p.client, LockRandomness(0));
    OneMore(c, es, t, e);
    es, t := es + [e], Step(c, t, e);
  }

  // The attempt while its window is open.
  function Open(c: Chain): Attempt
    requires FirstRound(c) < TWO256 && ReadyAt(c) + 100 < TWO64
  {
    Locked(c).(instructionId := 1, dispatchedAt := ReadyAt(c), timeoutAt := ReadyAt(c) + 30)
  }

  // From sending, where the instruction is sent, to t, right after it was answered.
  ghost predicate Sent(c: Chain, canon: Canonicaliser, p: Parties, b: WorkProofBundle, sending: State, t: State)
    requires Playable(c, canon) && BundleOk(b)
  {
    && Inv(c, sending) && Hist(c, sending)
    && sending.frame.Busy? && sending.frame.pc == Sending(0) && sending.now == ReadyAt(c)
    && JobAt(sending.core.store, 0) == Job(Terms(c, canon, p, b), Locked(c), ReadyToVerify, false)
    && Inv(c, t) && t.frame.Idle? && t.now == ReadyAt(c) && t.core.store.nextJobId == 1
    && t.core.hist.payouts == [] && Dispatched(sending, 0, 1) == Ok(t.(frame := sending.frame))
    && JobAt(t.core.store, 0) == Job(Terms(c, canon, p, b), Open(c), Verifying, false)
  }

  lemma JobDispatched(c: Chain, canon: Canonicaliser, p: Parties, b: WorkProofBundle)
    returns (es: seq<Event>, sending: State, t: State)
    requires Playable(c, canon) && Able(c, p) && BundleOk(b)
    ensures Leads(c, es, t) && Sent(c, canon, p, b, sending, t)
  {
    var ready;
    es, ready := JobReady(c, canon, p, b);
    Reachable(c, NewEscrow(), es);
    var e := Invoke(p.client, DispatchVerification(0, Some(TEE_STATUS_PRODUCTION)));
    OneMore(c, es, ready, e);
    sending, es := Step(c, ready, e), es + [e];
    StepKeeps(c, ready, e);
    StepHist(c, ready, e);
    t := Answered(c, canon, p, b, es, sending);
    es := es + [Proceed(1)];
  }

  lemma Answered(c: Chain, canon: Canonicaliser, p: Parties, b: WorkProofBundle, es: seq<Event>, sending: State)
    returns (t: State)
    requires Playable(c, canon) && BundleOk(b) && Leads(c, es, sending) && Inv(c, sending) && Hist(c, sending)
    requires sending.frame.Busy? && sending.frame.pc == Sending(0) && sending.now == ReadyAt(c)
    requires JobAt(sending.core.store, 0) == Job(Terms(c, canon, p, b), Locked(c), ReadyToVerify, false)
    requires sending.core.store.nextJobId == 1 && sending.core.hist.payouts == []
    ensures Leads(c, es + [Proceed(1)], t) && Sent(c, canon, p, b, sending, t)
  {
    OneMore(c, es, sending, Proceed(1));
    t := Step(c, sending, Proceed(1));
    StepKeeps(c, sending, Proceed(1));
    WindowOpens(c, canon, p, b, sending);
  }

  lemma WindowOpens(c: Chain, canon: Canonicaliser, p: Parties, b: WorkProofBundle, sending: State)
    requires Playable(c, canon) && BundleOk(b) && sending.frame.Busy? && sending.now == ReadyAt(c)
    requires JobAt(sending.core.store, 0) == Job(Terms(c, canon, p, b), Locked(c), ReadyToVerify, false)
    ensures Dispatched(sending, 0, 1).Ok?
    ensures var t := Dispatched(sending, 0, 1).value;
            && t.frame == sending.frame && t.now == sending.now
            && t.core.hist.payouts == sending.core.hist.payouts
            && t.core.store.nextJobId == sending.core.store.nextJobId
            && JobAt(t.core.store, 0) == Job(Terms(c, canon, p, b), Open(c), Verifying, false)
  {
  }

  // The verifier, told the truth about everything but the artifact: its node is down.
  function Blind(c: Chain, canon: Canonicaliser, j: Job, b: WorkProofBundle): Env
    requires c.chainId < TWO64 && ReadyAt(c) < TWO64
  {
    Env(c.chainId, c.self, 0, true, c.keccak, Some(j), ReadyAt(c), ReadyAt(c),
        (a: Address, block: nat) => Some(CODE),
        (round: nat) => Some((c.rounds(round).value, c.rounds(round).secure)),
        (hash: Bytes32) => Some(CIPHERTEXT), (ciphertext: seq<Byte>) => Some([]),
        (plaintext: seq<Byte>) => Some(b), canon, (os: seq<VectorOutcome>) => Some([]),
        (k: nat) => NodeDown())
  }

  // The bundle of plain revert expectations for spec hash zero.
  lemma RevertBundle() returns (b: WorkProofBundle)
    ensures BundleOk(b) && SpecMatches(b, 0) && AllPlainReverts(b)
  {
    Delivery.PrintedBytesRead(Abi.EncodeUint256(0));
    b := RevertBundleIsValid(Encoding.HexOf(Abi.EncodeUint256(0)));
  }

  lemma BlindFetches(c: Chain, canon: Canonicaliser, j: Job, b: WorkProofBundle, m: WorkProofInstruction)
    requires Playable(c, canon) && BundleOk(b) && SpecMatches(b, 0)
    requires m.specHash == 0 && m.ciphertextHash == c.keccak(CIPHERTEXT)
    requires m.privateBundleHash == c.keccak(canon(b).value)
    ensures FetchAndDecrypt(Blind(c, canon, j, b), m) == Some(b)
  {
  }

  // The round is open, and the node is down on it.
  lemma BlindRound(c: Chain, canon: Canonicaliser, p: Parties, b: WorkProofBundle, sending: State, t: State)
    requires Playable(c, canon) && Able(c, p) && BundleOk(b) && SpecMatches(b, 0) && AllPlainReverts(b)
    requires Sent(c, canon, p, b, sending, t)
    ensures var env := Blind(c, canon, JobAt(t.core.store, 0), b);
            OpenRound(c, sending, 0, 1, env, [], t) && NodeDownOn(c, sending, 0, env, b)
  {
    var env := Blind(c, canon, JobAt(t.core.store, 0), b);
    assert env.code(ARTIFACT, 0) == Some(CODE);
    BlindFetches(c, canon, JobAt(t.core.store, 0), b, InstructionFor(c, 0, JobAt(sending.core.store, 0)));
  }

  // On no chain without reverts does any of the tests hold.
  lemma NothingHolds(truth: View, target: Target, v: Vector)
    requires IsPlainRevert(v) && forall m, block :: !truth.call(m, block).Reverted?
    ensures !Holds(truth, target, v)
  {
  }

  lemma NodeDownIsHonest(truth: View)
    requires IsChain(truth)
    ensures Honest(NodeDown(), truth)
  {
  }

  // The settling call carries what Verify returned on honest views.
  lemma CallIsSigned(c: Chain, canon: Canonicaliser, truth: View, sender: Address, b: WorkProofBundle, sending: State,
                     t: State, call: Call, tee: Address)
    requires c.chainId < TWO64 && ReadyAt(c) < TWO64 && IsChain(truth)
    requires IsVerdictCall(c, sending, 0, 1, Blind(c, canon, JobAt(t.core.store, 0), b), t, call)
    ensures SignsOnlyVerdicts(c, canon, HonestTo(truth), tee, Invoke(sender, call))
  {
    var env := Blind(c, canon, JobAt(t.core.store, 0), b);
    NodeDownIsHonest(truth);
    assert RealEngine(env, c, canon) && HonestTo(truth)(env.views);
  }

  // A settling transaction, appended to a run that had none.
  lemma Appended(c: Chain, canon: Canonicaliser, truth: View, sender: Address, tee: Address, es: seq<Event>, t: State,
                 call: Call)
    requires Leads(c, es, t) && SignsOnlyVerdicts(c, canon, HonestTo(truth), tee, Invoke(sender, call))
    ensures Run(c, NewEscrow(), es + Settling(sender, call)) == Run(c, t, Settling(sender, call))
    ensures forall e | e in es + Settling(sender, call) :: SignsOnlyVerdicts(c, canon, HonestTo(truth), tee, e)
  {
    RunConcat(c, NewEscrow(), es, Settling(sender, call));
    forall e | e in es + Settling(sender, call)
      ensures SignsOnlyVerdicts(c, canon, HonestTo(truth), tee, e)
    {
      if e in es {
        assert !IsSettlement(e);
      }
    }
  }

  // The tests the job is committed to, and nothing of what the artifact should do holds.
  ghost predicate Unverified(c: Chain, canon: Canonicaliser, truth: View, j: Job, b: WorkProofBundle) {
    var random := c.rounds(j.current.randomRound).value;
    && Opens(c, canon, j, b, random)
    && forall k | 0 <= k < |SelectedFor(c, 0, j, b, random)| ::
         !Holds(truth, TargetFor(j, b), b.vectors[SelectedFor(c, 0, j, b, random)[k]])
  }

  lemma NothingVerified(c: Chain, canon: Canonicaliser, truth: View, p: Parties, b: WorkProofBundle, j: Job)
    requires Playable(c, canon) && BundleOk(b) && SpecMatches(b, 0) && AllPlainReverts(b)
    requires j.terms == Terms(c, canon, p, b) && j.current == Open(c)
    requires forall m, block :: !truth.call(m, block).Reverted?
    ensures Unverified(c, canon, truth, j, b)
  {
    var selected := SelectedFor(c, 0, j, b, c.rounds(j.current.randomRound).value);
    forall k | 0 <= k < |selected| ensures !Holds(truth, TargetFor(j, b), b.vectors[selected[k]]) {
      assert b.vectors[selected[k]] in b.vectors;
      NothingHolds(truth, TargetFor(j, b), b.vectors[selected[k]]);
    }
  }

  // On every such chain, whoever takes part and whatever the artifact does short of
  // reverting, there is a run from deployment in which the TEE signs only what Verify
  // returns on honest views, and after which the contractor has been paid although
  // none of the selected vectors holds.
  lemma UnverifiedIsPaid(c: Chain, canon: Canonicaliser, truth: View, p: Parties)
    returns (es: seq<Event>, b: WorkProofBundle)
    requires Playable(c, canon) && Able(c, p) && IsChain(truth)
    requires forall m, block :: !truth.call(m, block).Reverted?
    ensures IsInitial(c, NewEscrow())
    ensures forall e | e in es :: SignsOnlyVerdicts(c, canon, HonestTo(truth), p.tee, e)
    ensures var t := Run(c, NewEscrow(), es); var j := JobAt(t.core.store, 0);
            && t.frame.Idle? && j.state.Paid? && j.terms.expectedTee == p.tee && j.terms.contractor == p.contractor
            && t.core.hist.payouts == [Payout(0, p.contractor, 1, t.now), Payout(0, c.treasury, 0, t.now)]
            && Unverified(c, canon, truth, j, b)
  {
    b := RevertBundle();
    var sending, t;
    es, sending, t := JobDispatched(c, canon, p, b);
    BlindRound(c, canon, p, b, sending, t);
    var call := NodeDownPays(c, sending, 0, 1, Blind(c, canon, JobAt(t.core.store, 0), b), [], t, p.client, b);
    CallIsSigned(c, canon, truth, p.client, b, sending, t, call, p.tee);
    Appended(c, canon, truth, p.client, p.tee, es, t, call);
    es := es + Settling(p.client, call);
    NothingVerified(c, canon, truth, p, b, JobAt(Run(c, NewEscrow(), es).core.store, 0));
  }
}
