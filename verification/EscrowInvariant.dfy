// What holds in every reachable state of the escrow, in the middle of every
// external call included: the shape of each job, solvency, and what each job
// has been and is about to be paid.
module EscrowInvariant {
  import opened Base
  import opened Records
  import opened Token
  import opened EscrowMachine

  // --- the shape of a job ---

  predicate TermsOk(c: Chain, t: JobTerms) {
    && t.client != ZERO_ADDRESS && t.client != c.self
    && t.contractor != ZERO_ADDRESS && t.expectedTee != ZERO_ADDRESS
    && 0 < t.principal && t.fee * 10 <= t.principal
    && t.createdAt < t.acceptBy < t.submitBy < t.graceEnds
    && MIN_VERIFICATION_TIMEOUT <= t.verificationTimeout <= MAX_VERIFICATION_TIMEOUT
  }

  predicate Terminal(st: JobState) {
    st.Paid? || st.Cancelled? || st.Refunded?
  }

  // The attempt carries a ready, secure round and the hash of its value.
  predicate LockedRound(c: Chain, now: nat, a: Attempt) {
    && a.randomLocked && a.randomRound == a.targetRound
    && c.rounds(a.randomRound).readyAt <= now && c.rounds(a.randomRound).secure
    && a.randomValueHash == ValueHash(c, c.rounds(a.randomRound).value)
  }

  predicate NotDispatched(a: Attempt) {
    a.instructionId == 0 && a.dispatchedAt == 0 && a.timeoutAt == 0
  }

  predicate AttemptOk(c: Chain, now: nat, j: Job) {
    var a, t := j.current, j.terms;
    match j.state
    case Created => a == ZERO_ATTEMPT
    case Cancelled => a == ZERO_ATTEMPT
    case Accepted => a == ZERO_ATTEMPT
    case RandomnessPending =>
      a.attempt >= 1 && !a.randomLocked && a.randomRound == 0 && a.randomValueHash == 0 && NotDispatched(a)
    case ReadyToVerify => a.attempt >= 1 && LockedRound(c, now, a) && NotDispatched(a)
    case Verifying =>
      && a.attempt >= 1 && LockedRound(c, now, a)
      && a.dispatchedAt <= now && a.dispatchedAt < a.timeoutAt
      && a.timeoutAt <= t.graceEnds && a.timeoutAt <= a.dispatchedAt + t.verificationTimeout
    case AwaitingResubmission => a.attempt >= 1 && LockedRound(c, now, a)
    case Retryable => a.attempt >= 1 && LockedRound(c, now, a)
    case RefundPending => a.attempt >= 1 && LockedRound(c, now, a) && now > t.submitBy
    case Paid => a.attempt >= 1 && LockedRound(c, now, a)
    case Refunded => true
  }

  predicate JobOk(c: Chain, now: nat, j: Job) {
    && TermsOk(c, j.terms)
    && (j.settled <==> Terminal(j.state))
    && (j.state.Created? || j.state.Cancelled? || j.state.Refunded? || j.terms.contractor != c.self)
    && AttemptOk(c, now, j)
  }

  // --- money ---

  function JobLocked(j: Job): nat {
    if j.settled then 0 else Refund(j.terms)
  }

  function LockedBy(jobs: map<nat, Job>): nat -> nat {
    (id: nat) => JobLocked(Lookup(jobs, id))
  }

  // Principal and fee of the unsettled jobs below n.
  function Locked(jobs: map<nat, Job>, n: nat): nat {
    SumTo(LockedBy(jobs), n)
  }

  function QueueSum(q: seq<(Address, nat)>): nat {
    if |q| == 0 then 0 else q[0].1 + QueueSum(q[1..])
  }

  // Tokens received for a job not yet recorded, or owed by a job already settled.
  function InFlight(f: Frame): nat {
    if f.Idle? then 0 else
      match f.pc
      case Pulling(_) => 0
      case Pulled(terms) => Refund(terms)
      case Sending(_) => 0
      case Paying(_, queue) => QueueSum(queue)
  }

  function PayoutsOf(p: seq<Payout>, id: nat): seq<(Address, nat)> {
    if |p| == 0 then [] else
      var last := p[|p| - 1];
      PayoutsOf(p[..|p| - 1], id) + (if last.id == id then [(last.to, last.amount)] else [])
  }

  function QueueOf(f: Frame, id: nat): seq<(Address, nat)> {
    if f.Busy? && f.pc.Paying? && f.pc.id == id then f.pc.queue else []
  }

  // What a job pays in total, given its state.
  function Entitled(c: Chain, j: Job): seq<(Address, nat)> {
    match j.state
    case Paid => [(j.terms.contractor, j.terms.principal as nat), (c.treasury, j.terms.fee as nat)]
    case Cancelled => [(j.terms.client, Refund(j.terms))]
    case Refunded => [(j.terms.client, Refund(j.terms))]
    case _ => []
  }

  // --- the invariant ---

  // Exactly the ids handed out so far are in storage, and each job is in shape.
  ghost predicate KeysOk(jobs: map<nat, Job>, next: nat) {
    forall id: nat :: id in jobs <==> id < next
  }

  ghost predicate JobsOk(c: Chain, now: nat, jobs: map<nat, Job>, next: nat) {
    forall id: nat | id < next :: JobOk(c, now, Lookup(jobs, id))
  }

  // The balance is what the unsettled jobs locked, what is in flight, and gifts.
  predicate Solvent(c: Chain, core: Core, flight: nat) {
    BalanceOf(core.token, c.self) == Locked(core.store.jobs, core.store.nextJobId) + flight + core.hist.donated
  }

  ghost predicate CoreInv(c: Chain, core: Core, now: nat, flight: nat) {
    && core.store.protocolFeeBps <= MAX_PROTOCOL_FEE_BPS
    && KeysOk(core.store.jobs, core.store.nextJobId)
    && JobsOk(c, now, core.store.jobs, core.store.nextJobId)
    && Solvent(c, core, flight)
  }

  ghost predicate PayoutInv(c: Chain, core: Core, f: Frame) {
    forall id: nat :: PayoutsOf(core.hist.payouts, id) + QueueOf(f, id) == Entitled(c, JobAt(core.store, id))
  }

  ghost predicate PcOk(c: Chain, core: Core, pc: Pc) {
    match pc
    case Pulling(terms) => TermsOk(c, terms)
    case Pulled(terms) => TermsOk(c, terms)
    case Sending(id) => id < core.store.nextJobId && JobAt(core.store, id).state.ReadyToVerify?
    case Paying(id, queue) =>
      && id < core.store.nextJobId
      && forall x | x in queue :: x.0 != ZERO_ADDRESS && x.0 != c.self
  }

  ghost predicate Inv(c: Chain, s: State) {
    && ChainOk(c)
    && CoreInv(c, s.core, s.now, InFlight(s.frame))
    && PayoutInv(c, s.core, s.frame)
    && (s.frame.Busy? ==>
          && PcOk(c, s.core, s.frame.pc)
          && CoreInv(c, s.frame.saved, s.now, 0) && PayoutInv(c, s.frame.saved, Idle))
  }

  // --- frames of the definitions ---

  lemma LockedPut(jobs: map<nat, Job>, n: nat, id: nat, j: Job)
    requires id < n
    ensures Locked(jobs[id := j], n) + JobLocked(Lookup(jobs, id)) == Locked(jobs, n) + JobLocked(j)
  {
    SumChange(LockedBy(jobs), LockedBy(jobs[id := j]), n, id);
  }

  lemma LockedAtLeast(jobs: map<nat, Job>, n: nat, id: nat)
    requires id < n
    ensures Locked(jobs, n) >= JobLocked(Lookup(jobs, id))
  {
    SumAtLeast(LockedBy(jobs), n, id);
  }

  lemma QueueSumOfTwo(a: (Address, nat), b: (Address, nat))
    ensures QueueSum([a, b]) == a.1 + b.1
  {
    assert [a, b][1..] == [b];
    assert QueueSum([b]) == b.1;
  }

  lemma PayoutsOfAppend(p: seq<Payout>, x: Payout, id: nat)
    ensures PayoutsOf(p + [x], id) == PayoutsOf(p, id) + (if x.id == id then [(x.to, x.amount)] else [])
  {
    assert (p + [x])[..|p|] == p;
  }

  // With no payment pending, every job has paid exactly what it is entitled to.
  lemma IdlePayouts(c: Chain, s: State, id: nat)
    requires Inv(c, s) && s.frame.Idle?
    ensures PayoutsOf(s.core.hist.payouts, id) == Entitled(c, JobAt(s.core.store, id))
  {
    var paid := PayoutsOf(s.core.hist.payouts, id);
    assert paid + QueueOf(s.frame, id) == Entitled(c, JobAt(s.core.store, id));
    assert paid + [] == paid;
  }

  lemma JobOkLater(c: Chain, now: nat, later: nat, j: Job)
    requires JobOk(c, now, j) && now <= later
    ensures JobOk(c, later, j)
  {
  }

  lemma JobsOkLater(c: Chain, now: nat, later: nat, st: Storage)
    requires JobsOk(c, now, st.jobs, st.nextJobId) && now <= later
    ensures JobsOk(c, later, st.jobs, st.nextJobId)
  {
    forall k: nat | k < st.nextJobId ensures JobOk(c, later, Lookup(st.jobs, k)) {
      JobOkLater(c, now, later, Lookup(st.jobs, k));
    }
  }

  // The fee computation never truncates, and the fee is at most a tenth.
  lemma FeeBound(principal: Uint128, bps: Uint16)
    requires bps <= MAX_PROTOCOL_FEE_BPS
    ensures FeeOf(principal, bps) == (principal * bps) / 10_000
    ensures FeeOf(principal, bps) * 10 <= principal
  {
    MulAtMost(principal, bps, 1_000);
    var q := (principal * bps) / 10_000;
    assert 0 <= q * 10_000 <= principal * bps <= principal * 1_000;
    assert 0 <= q < TWO128;
  }

  lemma MulAtMost(a: nat, b: nat, k: nat)
    requires b <= k
    ensures 0 <= a * b <= a * k
  {
  }

  // --- one job changes, its money does not move ---

  lemma PutKeepsCore(c: Chain, core: Core, now: nat, flight: nat, id: nat, j: Job, h: History, flight': nat)
    requires CoreInv(c, core, now, flight) && id < core.store.nextJobId
    requires JobOk(c, now, j) && h.donated == core.hist.donated
    requires flight' + JobLocked(j) == flight + JobLocked(JobAt(core.store, id))
    ensures CoreInv(c, Core(core.store.(jobs := core.store.jobs[id := j]), core.token, h), now, flight')
  {
    LockedPut(core.store.jobs, core.store.nextJobId, id, j);
    var jobs := core.store.jobs[id := j];
    forall k: nat | k < core.store.nextJobId ensures JobOk(c, now, Lookup(jobs, k)) {
      if k != id {
        assert Lookup(jobs, k) == Lookup(core.store.jobs, k);
      }
    }
  }

  // The step of every call that moves no tokens.
  lemma QuietPut(c: Chain, s: State, id: nat, j: Job, h: History)
    requires Inv(c, s) && id < s.core.store.nextJobId && JobOk(c, s.now, j)
    requires j.terms == JobAt(s.core.store, id).terms
    requires !j.settled && !JobAt(s.core.store, id).settled
    requires h.donated == s.core.hist.donated && h.payouts == s.core.hist.payouts
    requires s.frame.Busy? && s.frame.pc == Sending(id) ==> j.state.ReadyToVerify?
    ensures Inv(c, WithHist(PutJob(s, id, j), h))
  {
    var s' := WithHist(PutJob(s, id, j), h);
    PutKeepsCore(c, s.core, s.now, InFlight(s.frame), id, j, h, InFlight(s.frame));
    assert JobOk(c, s.now, JobAt(s.core.store, id));
    forall k: nat
      ensures PayoutsOf(s'.core.hist.payouts, k) + QueueOf(s'.frame, k) == Entitled(c, JobAt(s'.core.store, k))
    {
      assert PayoutsOf(s.core.hist.payouts, k) + QueueOf(s.frame, k) == Entitled(c, JobAt(s.core.store, k));
    }
  }

  lemma UnknownJobIsZero(c: Chain, s: State, id: nat)
    requires Inv(c, s)
    ensures id < s.core.store.nextJobId || JobAt(s.core.store, id) == ZERO_JOB
    ensures id < s.core.store.nextJobId ==> JobOk(c, s.now, JobAt(s.core.store, id))
  {
  }

  // Settling a job hands its locked tokens to the payment queue.
  lemma PayKeeps(c: Chain, s: State, id: nat, j: Job, h: History, queue: seq<(Address, nat)>)
    requires Inv(c, s) && s.frame.Idle? && id < s.core.store.nextJobId && JobOk(c, s.now, j)
    requires j.terms == JobAt(s.core.store, id).terms && j.settled && !JobAt(s.core.store, id).settled
    requires h.donated == s.core.hist.donated && h.payouts == s.core.hist.payouts
    requires queue == Entitled(c, j) && QueueSum(queue) == Refund(j.terms)
    requires forall x | x in queue :: x.0 != ZERO_ADDRESS && x.0 != c.self
    ensures Inv(c, EnterFrom(s, WithHist(PutJob(s, id, j), h), Paying(id, queue)))
  {
    var s' := EnterFrom(s, WithHist(PutJob(s, id, j), h), Paying(id, queue));
    PutKeepsCore(c, s.core, s.now, 0, id, j, h, QueueSum(queue));
    assert JobOk(c, s.now, JobAt(s.core.store, id));
    forall k: nat
      ensures PayoutsOf(s'.core.hist.payouts, k) + QueueOf(s'.frame, k) == Entitled(c, JobAt(s'.core.store, k))
    {
      assert PayoutsOf(s.core.hist.payouts, k) + QueueOf(s.frame, k) == Entitled(c, JobAt(s.core.store, k));
    }
  }

  // --- every event keeps the invariant ---

  lemma CreateJobKeeps(c: Chain, s: State, sender: Address, call: Call)
    requires Inv(c, s) && call.CreateJob? && Begin(c, s, sender, call).Ok?
    ensures Inv(c, Begin(c, s, sender, call).value)
  {
    FeeBound(call.principal, s.core.store.protocolFeeBps);
  }

  lemma AcceptJobKeeps(c: Chain, s: State, sender: Address, id: nat)
    requires Inv(c, s) && Begin(c, s, sender, AcceptJob(id)).Ok?
    ensures Inv(c, Begin(c, s, sender, AcceptJob(id)).value)
  {
    UnknownJobIsZero(c, s, id);
    var j := JobAt(s.core.store, id);
    QuietPut(c, s, id, j.(state := Accepted), s.core.hist);
  }

  lemma CancelKeeps(c: Chain, s: State, sender: Address, id: nat)
    requires Inv(c, s) && Begin(c, s, sender, CancelUnaccepted(id)).Ok?
    ensures Inv(c, Begin(c, s, sender, CancelUnaccepted(id)).value)
  {
    UnknownJobIsZero(c, s, id);
    var j := JobAt(s.core.store, id);
    PayKeeps(c, s, id, j.(state := Cancelled, settled := true), s.core.hist, [(j.terms.client, Refund(j.terms))]);
  }

  lemma SubmitKeeps(c: Chain, s: State, sender: Address, id: nat, artifact: Address, code: Option<Bytes32>)
    requires Inv(c, s) && Begin(c, s, sender, SubmitAttempt(id, artifact, code)).Ok?
    ensures Inv(c, Begin(c, s, sender, SubmitAttempt(id, artifact, code)).value)
  {
    UnknownJobIsZero(c, s, id);
    var s' := Begin(c, s, sender, SubmitAttempt(id, artifact, code)).value;
    QuietPut(c, s, id, JobAt(s'.core.store, id), s'.core.hist);
  }

  lemma LockKeeps(c: Chain, s: State, sender: Address, id: nat)
    requires Inv(c, s) && Begin(c, s, sender, LockRandomness(id)).Ok?
    ensures Inv(c, Begin(c, s, sender, LockRandomness(id)).value)
  {
    UnknownJobIsZero(c, s, id);
    var s' := Begin(c, s, sender, LockRandomness(id)).value;
    QuietPut(c, s, id, JobAt(s'.core.store, id), s'.core.hist);
  }

  lemma DispatchKeeps(c: Chain, s: State, sender: Address, id: nat, status: Option<nat>)
    requires Inv(c, s) && Begin(c, s, sender, DispatchVerification(id, status)).Ok?
    ensures Inv(c, Begin(c, s, sender, DispatchVerification(id, status)).value)
  {
    UnknownJobIsZero(c, s, id);
  }

  lemma ExpireKeeps(c: Chain, s: State, sender: Address, id: nat)
    requires Inv(c, s) && Begin(c, s, sender, ExpireVerification(id)).Ok?
    ensures Inv(c, Begin(c, s, sender, ExpireVerification(id)).value)
  {
    UnknownJobIsZero(c, s, id);
    var s' := Begin(c, s, sender, ExpireVerification(id)).value;
    QuietPut(c, s, id, JobAt(s'.core.store, id), s'.core.hist);
  }

  // What the guards of settleAttempt say about the job.
  lemma AcceptedIsTimely(c: Chain, s: State, call: Call)
    requires call.SettleAttempt? && AcceptedVerdict(c, s, call).Ok?
    ensures s.frame.Idle?
    ensures var j := JobAt(s.core.store, call.id);
            j.state.Verifying? && s.now <= j.current.timeoutAt && s.now <= j.terms.graceEnds
  {
  }

  lemma OutcomeKeeps(c: Chain, s: State, id: nat, o: Outcome)
    requires Inv(c, s) && s.frame.Idle? && JobAt(s.core.store, id).state.Verifying?
    requires ApplyOutcome(c, s, id, o).Ok?
    ensures Inv(c, ApplyOutcome(c, s, id, o).value)
  {
    UnknownJobIsZero(c, s, id);
    var j := JobAt(s.core.store, id);
    var h := s.core.hist.(settlements :=
      s.core.hist.settlements + multiset{(id, j.current.attempt as nat)});
    if o.Pass? {
      var j' := j.(state := Paid, settled := true);
      QueueSumOfTwo((j.terms.contractor, j.terms.principal as nat), (c.treasury, j.terms.fee as nat));
      PayKeeps(c, s, id, j', h, Entitled(c, j'));
    } else {
      QuietPut(c, s, id, j.(state := SettledState(j, o, s.now)), h);
    }
  }

  lemma SettleKeeps(c: Chain, s: State, call: Call)
    requires Inv(c, s) && call.SettleAttempt? && DoSettle(c, s, call).Ok?
    ensures Inv(c, DoSettle(c, s, call).value)
  {
    AcceptedIsTimely(c, s, call);
    OutcomeKeeps(c, s, call.id, AcceptedVerdict(c, s, call).value.result.outcome);
  }

  lemma RefundKeeps(c: Chain, s: State, sender: Address, id: nat)
    requires Inv(c, s) && Begin(c, s, sender, RefundExpired(id)).Ok?
    ensures Inv(c, Begin(c, s, sender, RefundExpired(id)).value)
  {
    UnknownJobIsZero(c, s, id);
    var j := JobAt(s.core.store, id);
    PayKeeps(c, s, id, j.(state := Refunded, settled := true), s.core.hist, [(j.terms.client, Refund(j.terms))]);
  }

  // Ownership, fee, pause and extension id touch no job.
  lemma ConfigKeeps(c: Chain, s: State, st: Storage)
    requires Inv(c, s) && st.jobs == s.core.store.jobs && st.nextJobId == s.core.store.nextJobId
    requires st.protocolFeeBps <= MAX_PROTOCOL_FEE_BPS
    ensures Inv(c, s.(core := s.core.(store := st)))
  {
    forall k: nat ensures JobAt(st, k) == JobAt(s.core.store, k) {}
    forall k: nat
      ensures PayoutsOf(s.core.hist.payouts, k) + QueueOf(s.frame, k) == Entitled(c, JobAt(st, k))
    {
    }
  }

  predicate IsConfigCall(call: Call) {
    IsOwnerCall(call) || call.AcceptOwnership? || call.SetExtensionId?
  }

  lemma ConfigCallShape(c: Chain, s: State, sender: Address, call: Call)
    requires IsConfigCall(call) && Begin(c, s, sender, call).Ok?
    requires s.core.store.protocolFeeBps <= MAX_PROTOCOL_FEE_BPS
    ensures var st := Begin(c, s, sender, call).value.core.store;
            && Begin(c, s, sender, call).value == s.(core := s.core.(store := st))
            && st.jobs == s.core.store.jobs && st.nextJobId == s.core.store.nextJobId
            && st.protocolFeeBps <= MAX_PROTOCOL_FEE_BPS
  {
  }

  lemma ConfigCallKeeps(c: Chain, s: State, sender: Address, call: Call)
    requires Inv(c, s) && IsConfigCall(call) && Begin(c, s, sender, call).Ok?
    ensures Inv(c, Begin(c, s, sender, call).value)
  {
    ConfigCallShape(c, s, sender, call);
    ConfigKeeps(c, s, Begin(c, s, sender, call).value.core.store);
  }

  lemma InvokeKeeps(c: Chain, s: State, sender: Address, call: Call)
    requires Inv(c, s) && Begin(c, s, sender, call).Ok?
    ensures Inv(c, Begin(c, s, sender, call).value)
  {
    match call
    case CreateJob(_, _, _, _, _, _, _, _, _, _, _, _) => CreateJobKeeps(c, s, sender, call);
    case AcceptJob(id) => AcceptJobKeeps(c, s, sender, id);
    case CancelUnaccepted(id) => CancelKeeps(c, s, sender, id);
    case SubmitAttempt(id, artifact, code) => SubmitKeeps(c, s, sender, id, artifact, code);
    case LockRandomness(id) => LockKeeps(c, s, sender, id);
    case DispatchVerification(id, status) => DispatchKeeps(c, s, sender, id, status);
    case ExpireVerification(id) => ExpireKeeps(c, s, sender, id);
    case SettleAttempt(_, _, _, _, _, _, _, _) => SettleKeeps(c, s, call);
    case RefundExpired(id) => RefundKeeps(c, s, sender, id);
    case _ => ConfigCallKeeps(c, s, sender, call);
  }

  lemma RollbackKeeps(c: Chain, s: State)
    requires Inv(c, s) && s.frame.Busy?
    ensures Inv(c, Rollback(s))
  {
  }

  lemma LockedAppend(jobs: map<nat, Job>, id: nat, j: Job)
    ensures Locked(jobs[id := j], id + 1) == Locked(jobs, id) + JobLocked(j)
  {
    SumSame(LockedBy(jobs), LockedBy(jobs[id := j]), id);
  }

  // A new job at the next id, paid for by what was in flight.
  lemma AppendKeepsCore(c: Chain, core: Core, now: nat, flight: nat, j: Job, next: Uint256)
    requires CoreInv(c, core, now, flight) && JobOk(c, now, j)
    requires next == core.store.nextJobId + 1 && JobLocked(j) == flight
    ensures var jobs := core.store.jobs[core.store.nextJobId as nat := j];
            CoreInv(c, core.(store := core.store.(jobs := jobs, nextJobId := next)), now, 0)
  {
    var id: nat := core.store.nextJobId;
    LockedAppend(core.store.jobs, id, j);
    AppendShape(c, now, core.store.jobs, id, j);
  }

  lemma AppendShape(c: Chain, now: nat, jobs: map<nat, Job>, id: nat, j: Job)
    requires KeysOk(jobs, id) && JobsOk(c, now, jobs, id) && JobOk(c, now, j)
    ensures KeysOk(jobs[id := j], id + 1) && JobsOk(c, now, jobs[id := j], id + 1)
  {
    var jobs' := jobs[id := j];
    forall k: nat | k <= id ensures JobOk(c, now, Lookup(jobs', k)) {
      if k != id {
        assert Lookup(jobs', k) == Lookup(jobs, k);
      }
    }
  }

  lemma NewJobPayouts(c: Chain, core: Core, f: Frame, id: nat, j: Job, st: Storage)
    requires PayoutInv(c, core, f) && JobAt(core.store, id) == ZERO_JOB && j.state.Created?
    requires st.jobs == core.store.jobs[id := j] && forall k: nat :: QueueOf(f, k) == []
    ensures PayoutInv(c, core.(store := st), Idle)
  {
    forall k: nat ensures PayoutsOf(core.hist.payouts, k) + QueueOf(Idle, k) == Entitled(c, JobAt(st, k)) {
      assert PayoutsOf(core.hist.payouts, k) + QueueOf(f, k) == Entitled(c, JobAt(core.store, k));
    }
  }

  lemma FinishCreateKeeps(c: Chain, s: State, terms: JobTerms)
    requires Inv(c, s) && s.frame.Busy? && s.frame.pc == Pulled(terms)
    ensures Inv(c, FinishCreate(s, terms))
  {
    var st := s.core.store;
    if st.nextJobId + 1 >= TWO256 {
      RollbackKeeps(c, s);
    } else {
      UnknownJobIsZero(c, s, st.nextJobId);
      var j := ZERO_JOB.(terms := terms);
      AppendKeepsCore(c, s.core, s.now, Refund(terms), j, st.nextJobId + 1);
      NewJobPayouts(c, s.core, s.frame, st.nextJobId, j, FinishCreate(s, terms).core.store);
    }
  }

  lemma PullKeeps(c: Chain, s: State, terms: JobTerms)
    requires Inv(c, s) && s.frame.Busy? && s.frame.pc == Pulling(terms)
    ensures Inv(c, Resume(c, s, 0))
  {
    match TransferFrom(s.core.token, terms.client, c.self, Refund(terms))
    case None => RollbackKeeps(c, s);
    case Some(t) =>
      var s' := Resume(c, s, 0);
      assert BalanceOf(t, c.self) == BalanceOf(s.core.token, c.self) + Refund(terms);
      assert forall k: nat :: PayoutsOf(s'.core.hist.payouts, k) + QueueOf(s'.frame, k)
                           == PayoutsOf(s.core.hist.payouts, k) + QueueOf(s.frame, k);
  }

  lemma DispatchedJobOk(c: Chain, s: State, id: nat, instructionId: Bytes32)
    requires JobOk(c, s.now, JobAt(s.core.store, id)) && JobAt(s.core.store, id).state.ReadyToVerify?
    requires Dispatched(s, id, instructionId).Ok?
    ensures var j' := JobAt(Dispatched(s, id, instructionId).value.core.store, id);
            JobOk(c, s.now, j') && j'.state.Verifying? && j'.terms == JobAt(s.core.store, id).terms
  {
  }

  lemma DispatchedKeeps(c: Chain, s: State, id: nat, instructionId: Bytes32)
    requires Inv(c, s) && s.frame.Busy? && s.frame.pc == Sending(id)
    ensures Inv(c, Resume(c, s, instructionId))
  {
    match Dispatched(s, id, instructionId)
    case Err(_) => RollbackKeeps(c, s);
    case Ok(s') =>
      UnknownJobIsZero(c, s, id);
      DispatchedJobOk(c, s, id, instructionId);
      CloseFrame(c, s);
      QuietPut(c, s.(frame := Idle), id, JobAt(s'.core.store, id), s'.core.hist);
  }

  // A frame with nothing in flight can simply be left.
  lemma CloseFrame(c: Chain, s: State)
    requires Inv(c, s) && InFlight(s.frame) == 0 && forall k: nat :: QueueOf(s.frame, k) == []
    ensures Inv(c, s.(frame := Idle))
  {
    forall k: nat
      ensures PayoutsOf(s.core.hist.payouts, k) + QueueOf(Idle, k) == Entitled(c, JobAt(s.core.store, k))
    {
      assert PayoutsOf(s.core.hist.payouts, k) + QueueOf(s.frame, k) == Entitled(c, JobAt(s.core.store, k));
    }
  }

  lemma MoveHead<T>(p: seq<T>, q: seq<T>)
    requires |q| > 0
    ensures (p + [q[0]]) + q[1..] == p + q
  {
  }

  // A payment leaves the queue and enters the record.
  lemma PayOnePayouts(c: Chain, core: Core, core': Core, f: Frame, f': Frame, id: nat,
                      queue: seq<(Address, nat)>, now: nat)
    requires PayoutInv(c, core, f) && core'.store == core.store && |queue| > 0
    requires f.Busy? && f.pc == Paying(id, queue) && f'.Busy? && f'.pc == Paying(id, queue[1..])
    requires core'.hist.payouts == core.hist.payouts + [Payout(id, queue[0].0, queue[0].1, now)]
    ensures PayoutInv(c, core', f')
  {
    forall k: nat
      ensures PayoutsOf(core'.hist.payouts, k) + QueueOf(f', k) == Entitled(c, JobAt(core'.store, k))
    {
      PayoutsOfAppend(core.hist.payouts, Payout(id, queue[0].0, queue[0].1, now), k);
      assert PayoutsOf(core.hist.payouts, k) + QueueOf(f, k) == Entitled(c, JobAt(core.store, k));
      if k == id {
        MoveHead(PayoutsOf(core.hist.payouts, k), queue);
      }
    }
  }

  lemma PayOneKeeps(c: Chain, s: State, id: nat, queue: seq<(Address, nat)>, t: Ledger)
    requires Inv(c, s) && s.frame.Busy? && s.frame.pc == Paying(id, queue) && |queue| > 0
    requires Transfer(s.core.token, c.self, queue[0].0, queue[0].1) == Some(t)
    ensures Inv(c, Resume(c, s, 0))
  {
    var s' := Resume(c, s, 0);
    assert queue[0] in queue;
    TransferMoves(s.core.token, c.self, queue[0].0, queue[0].1);
    PayOnePayouts(c, s.core, s'.core, s.frame, s'.frame, id, queue, s.now);
    assert forall x | x in queue[1..] :: x in queue;
    assert CoreInv(c, s'.core, s'.now, QueueSum(queue[1..]));
  }

  lemma PaymentKeeps(c: Chain, s: State, id: nat, queue: seq<(Address, nat)>)
    requires Inv(c, s) && s.frame.Busy? && s.frame.pc == Paying(id, queue)
    ensures Inv(c, Resume(c, s, 0))
  {
    if |queue| == 0 {
      CloseFrame(c, s);
    } else {
      match Transfer(s.core.token, c.self, queue[0].0, queue[0].1)
      case None => RollbackKeeps(c, s);
      case Some(t) => PayOneKeeps(c, s, id, queue, t);
    }
  }

  lemma ResumeKeeps(c: Chain, s: State, instructionId: Bytes32)
    requires Inv(c, s) && s.frame.Busy?
    ensures Inv(c, Resume(c, s, instructionId))
  {
    match s.frame.pc
    case Pulling(terms) => PullKeeps(c, s, terms);
    case Pulled(terms) => FinishCreateKeeps(c, s, terms);
    case Sending(id) => DispatchedKeeps(c, s, id, instructionId);
    case Paying(id, queue) => PaymentKeeps(c, s, id, queue);
  }

  lemma TickKeeps(c: Chain, s: State, now: Uint256, height: Uint256)
    requires Inv(c, s)
    ensures Inv(c, Step(c, s, Tick(now, height)))
  {
    if s.frame.Idle? && now >= s.now {
      JobsOkLater(c, s.now, now, s.core.store);
    }
  }

  lemma TokenActKeeps(c: Chain, s: State, a: Action)
    requires Inv(c, s)
    ensures Inv(c, DoTokenAct(c, s, a))
  {
    var t' := Act(s.core.token, c.self, a);
    assert BalanceOf(t', c.self) >= BalanceOf(s.core.token, c.self);
    var s' := DoTokenAct(c, s, a);
    assert forall k: nat :: PayoutsOf(s'.core.hist.payouts, k) == PayoutsOf(s.core.hist.payouts, k);
  }

  lemma StepKeeps(c: Chain, s: State, e: Event)
    requires Inv(c, s)
    ensures Inv(c, Step(c, s, e))
  {
    match e
    case Invoke(sender, call) => if Begin(c, s, sender, call).Ok? { InvokeKeeps(c, s, sender, call); }
    case Proceed(instructionId) => if s.frame.Busy? { ResumeKeeps(c, s, instructionId); }
    case Abort => if s.frame.Busy? { RollbackKeeps(c, s); }
    case Tick(now, height) => TickKeeps(c, s, now, height);
    case TokenAct(a) => TokenActKeeps(c, s, a);
  }

  lemma InitialInv(c: Chain, s: State)
    requires ChainOk(c) && IsInitial(c, s)
    ensures Inv(c, s)
  {
  }

  lemma {:induction false} RunKeeps(c: Chain, s: State, es: seq<Event>)
    requires Inv(c, s)
    ensures Inv(c, Run(c, s, es))
    decreases |es|
  {
    if |es| > 0 {
      StepKeeps(c, s, es[0]);
      RunKeeps(c, Step(c, s, es[0]), es[1..]);
    }
  }
}
