// The escrow's promises, for every run of every deployment: solvency, exactly
// one payout, at-most-once attempts, forced randomness and guaranteed refunds.
module EscrowTheorems {
  import opened Base
  import opened Records
  import opened Token
  import opened EscrowMachine
  import opened EscrowInvariant
  import opened EscrowHistory
  import Abi

  // --- how jobs and histories can change ---

  predicate SameArtifact(a: Attempt, b: Attempt) {
    && b.artifactAddress == a.artifactAddress && b.artifactBlock == a.artifactBlock
    && b.artifactCodeHash == a.artifactCodeHash
    && (a.randomLocked ==>
          b.randomLocked && b.randomRound == a.randomRound && b.randomValueHash == a.randomValueHash)
  }

  // Terms are frozen, attempts only grow, an attempt only moves forward on the
  // same artifact, and a terminal job never changes again.
  predicate JobEvolves(j: Job, k: Job) {
    && k.terms == j.terms
    && (Terminal(j.state) ==> k == j)
    && (k.current.attempt > j.current.attempt
        || (k.current.attempt == j.current.attempt && Phase(k.state) >= Phase(j.state)
            && SameArtifact(j.current, k.current)))
  }

  ghost predicate HistoryGrows(h: History, g: History) {
    && (forall k | k in h.starts :: k in g.starts && g.starts[k] == h.starts[k])
    && (forall k | k in h.locks :: k in g.locks && g.locks[k] == h.locks[k])
    && h.dispatches <= g.dispatches && h.settlements <= g.settlements && h.payouts <= g.payouts
  }

  ghost predicate CoreEvolves(a: Core, b: Core) {
    && a.store.nextJobId <= b.store.nextJobId
    && (forall id: nat | id < a.store.nextJobId :: JobEvolves(JobAt(a.store, id), JobAt(b.store, id)))
    && HistoryGrows(a.hist, b.hist)
  }

  lemma CoreEvolvesTransitive(a: Core, b: Core, d: Core)
    requires CoreEvolves(a, b) && CoreEvolves(b, d)
    ensures CoreEvolves(a, d)
  {
    forall id: nat | id < a.store.nextJobId ensures JobEvolves(JobAt(a.store, id), JobAt(d.store, id)) {
      assert JobEvolves(JobAt(a.store, id), JobAt(b.store, id));
      assert JobEvolves(JobAt(b.store, id), JobAt(d.store, id));
    }
  }

  // What stands if the open transaction reverts.
  function Committed(s: State): Core {
    if s.frame.Busy? then s.frame.saved else s.core
  }

  ghost predicate Progress(s: State) {
    CoreEvolves(Committed(s), s.core)
  }

  lemma PutEvolves(core: Core, id: nat, j: Job, h: History)
    requires id < core.store.nextJobId ==> JobEvolves(JobAt(core.store, id), j)
    requires HistoryGrows(core.hist, h)
    ensures CoreEvolves(core, Core(core.store.(jobs := core.store.jobs[id := j]), core.token, h))
  {
    var jobs := core.store.jobs[id := j];
    forall x: nat | x < core.store.nextJobId ensures JobEvolves(JobAt(core.store, x), Lookup(jobs, x)) {
      if x != id {
        assert Lookup(jobs, x) == JobAt(core.store, x);
      }
    }
  }

  lemma SameJobsEvolve(a: Core, b: Core)
    requires a.store.jobs == b.store.jobs && a.store.nextJobId <= b.store.nextJobId
    requires HistoryGrows(a.hist, b.hist)
    ensures CoreEvolves(a, b)
  {
    assert forall id: nat :: JobAt(b.store, id) == JobAt(a.store, id);
  }

  lemma ApplyOutcomeEvolves(c: Chain, s: State, id: nat, o: Outcome)
    requires Inv(c, s) && JobAt(s.core.store, id).state.Verifying? && ApplyOutcome(c, s, id, o).Ok?
    ensures CoreEvolves(s.core, ApplyOutcome(c, s, id, o).value.core)
  {
    var s' := ApplyOutcome(c, s, id, o).value;
    PutEvolves(s.core, id, JobAt(s'.core.store, id), s'.core.hist);
  }

  lemma SubmitEvolves(c: Chain, s: State, sender: Address, id: nat, artifact: Address, code: Option<Bytes32>)
    requires Inv(c, s) && Hist(c, s) && DoSubmitAttempt(c, s, sender, id, artifact, code).Ok?
    ensures CoreEvolves(s.core, DoSubmitAttempt(c, s, sender, id, artifact, code).value.core)
  {
    var s' := DoSubmitAttempt(c, s, sender, id, artifact, code).value;
    var a := JobAt(s'.core.store, id).current.attempt;
    assert KeyOk(c, s.now, s.core.hist, JobAt(s.core.store, id), id, a);
    PutEvolves(s.core, id, JobAt(s'.core.store, id), s'.core.hist);
  }

  lemma LockHistoryGrows(c: Chain, s: State, id: nat)
    requires Inv(c, s) && Hist(c, s) && DoLockRandomness(c, s, id).Ok?
    ensures HistoryGrows(s.core.hist, DoLockRandomness(c, s, id).value.core.hist)
  {
    UnknownJobIsZero(c, s, id);
    var a := JobAt(s.core.store, id).current.attempt;
    assert KeyOk(c, s.now, s.core.hist, JobAt(s.core.store, id), id, a);
  }

  lemma LockEvolves(c: Chain, s: State, id: nat)
    requires Inv(c, s) && Hist(c, s) && DoLockRandomness(c, s, id).Ok?
    ensures CoreEvolves(s.core, DoLockRandomness(c, s, id).value.core)
  {
    UnknownJobIsZero(c, s, id);
    var s' := DoLockRandomness(c, s, id).value;
    LockHistoryGrows(c, s, id);
    PutEvolves(s.core, id, JobAt(s'.core.store, id), s'.core.hist);
  }

  lemma AcceptEvolves(c: Chain, s: State, sender: Address, id: nat)
    requires Inv(c, s) && DoAcceptJob(s, sender, id).Ok?
    ensures CoreEvolves(s.core, DoAcceptJob(s, sender, id).value.core)
  {
    OneJobEvolves(c, s, DoAcceptJob(s, sender, id).value, id);
  }

  lemma CancelEvolves(c: Chain, s: State, sender: Address, id: nat)
    requires Inv(c, s) && DoCancelUnaccepted(s, sender, id).Ok?
    ensures CoreEvolves(s.core, DoCancelUnaccepted(s, sender, id).value.core)
  {
    OneJobEvolves(c, s, DoCancelUnaccepted(s, sender, id).value, id);
  }

  lemma ExpireEvolves(c: Chain, s: State, id: nat)
    requires Inv(c, s) && DoExpire(s, id).Ok?
    ensures CoreEvolves(s.core, DoExpire(s, id).value.core)
  {
    OneJobEvolves(c, s, DoExpire(s, id).value, id);
  }

  lemma RefundEvolves(c: Chain, s: State, id: nat)
    requires Inv(c, s) && DoRefundExpired(s, id).Ok?
    ensures CoreEvolves(s.core, DoRefundExpired(s, id).value.core)
  {
    UnknownJobIsZero(c, s, id);
    OneJobEvolves(c, s, DoRefundExpired(s, id).value, id);
  }

  lemma SettleEvolves(c: Chain, s: State, call: Call)
    requires Inv(c, s) && call.SettleAttempt? && DoSettle(c, s, call).Ok?
    ensures CoreEvolves(s.core, DoSettle(c, s, call).value.core)
  {
    AcceptedIsTimely(c, s, call);
    ApplyOutcomeEvolves(c, s, call.id, AcceptedVerdict(c, s, call).value.result.outcome);
  }

  lemma ConfigCallEvolves(c: Chain, s: State, sender: Address, call: Call)
    requires IsConfigCall(call) && Begin(c, s, sender, call).Ok?
    ensures CoreEvolves(s.core, Begin(c, s, sender, call).value.core)
  {
    SameJobsEvolve(s.core, Begin(c, s, sender, call).value.core);
  }

  lemma InvokeEvolves(c: Chain, s: State, sender: Address, call: Call)
    requires Inv(c, s) && Hist(c, s) && Begin(c, s, sender, call).Ok?
    ensures CoreEvolves(s.core, Begin(c, s, sender, call).value.core)
  {
    match call
    case CreateJob(_, _, _, _, _, _, _, _, _, _, _, _) => SameJobsEvolve(s.core, s.core);
    case AcceptJob(id) => AcceptEvolves(c, s, sender, id);
    case CancelUnaccepted(id) => CancelEvolves(c, s, sender, id);
    case SubmitAttempt(id, artifact, code) => SubmitEvolves(c, s, sender, id, artifact, code);
    case LockRandomness(id) => LockEvolves(c, s, id);
    case DispatchVerification(_, _) => SameJobsEvolve(s.core, s.core);
    case ExpireVerification(id) => ExpireEvolves(c, s, id);
    case SettleAttempt(_, _, _, _, _, _, _, _) => SettleEvolves(c, s, call);
    case RefundExpired(id) => RefundEvolves(c, s, id);
    case _ => ConfigCallEvolves(c, s, sender, call);
  }

  lemma OneJobEvolves(c: Chain, s: State, s': State, id: nat)
    requires Inv(c, s) && s'.core.hist == s.core.hist && s'.core.token == s.core.token
    requires s'.core.store == s.core.store.(jobs := s.core.store.jobs[id := JobAt(s'.core.store, id)])
    requires id < s.core.store.nextJobId ==> JobEvolves(JobAt(s.core.store, id), JobAt(s'.core.store, id))
    ensures CoreEvolves(s.core, s'.core)
  {
    PutEvolves(s.core, id, JobAt(s'.core.store, id), s.core.hist);
  }

  lemma FinishCreateEvolves(c: Chain, s: State, terms: JobTerms)
    requires s.frame.Busy?
    ensures FinishCreate(s, terms) == Rollback(s) || CoreEvolves(s.core, FinishCreate(s, terms).core)
  {
    var next: nat := s.core.store.nextJobId;
    if next + 1 < TWO256 {
      var s' := FinishCreate(s, terms);
      PutEvolves(s.core, next, JobAt(s'.core.store, next), s.core.hist);
      var put := s.core.(store := s.core.store.(jobs := s'.core.store.jobs));
      SameJobsEvolve(put, s'.core);
      CoreEvolvesTransitive(s.core, put, s'.core);
    }
  }

  lemma DispatchedEvolves(s: State, id: nat, instructionId: Bytes32)
    requires JobAt(s.core.store, id).state.ReadyToVerify? && Dispatched(s, id, instructionId).Ok?
    ensures CoreEvolves(s.core, Dispatched(s, id, instructionId).value.core)
  {
    var s' := Dispatched(s, id, instructionId).value;
    PutEvolves(s.core, id, JobAt(s'.core.store, id), s'.core.hist);
  }

  // A continuation either reverts or evolves the state it found.
  lemma ResumeEvolves(c: Chain, s: State, instructionId: Bytes32)
    requires Inv(c, s) && s.frame.Busy?
    ensures Resume(c, s, instructionId) == Rollback(s)
         || CoreEvolves(s.core, Resume(c, s, instructionId).core)
  {
    var s' := Resume(c, s, instructionId);
    match s.frame.pc
    case Pulled(terms) => FinishCreateEvolves(c, s, terms);
    case Sending(id) => if Dispatched(s, id, instructionId).Ok? { DispatchedEvolves(s, id, instructionId); }
    case Pulling(_) => if s' != Rollback(s) { SameJobsEvolve(s.core, s'.core); }
    case Paying(_, _) => if s' != Rollback(s) { SameJobsEvolve(s.core, s'.core); }
  }

  // An event either reverts the open transaction or evolves the state it found.
  lemma StepEvolves(c: Chain, s: State, e: Event)
    requires Inv(c, s) && Hist(c, s)
    ensures (s.frame.Busy? && Step(c, s, e) == Rollback(s)) || CoreEvolves(s.core, Step(c, s, e).core)
  {
    SameJobsEvolve(s.core, s.core);
    match e
    case Invoke(sender, call) => if Begin(c, s, sender, call).Ok? { InvokeEvolves(c, s, sender, call); }
    case Proceed(instructionId) => if s.frame.Busy? { ResumeEvolves(c, s, instructionId); }
    case Abort =>
    case Tick(_, _) =>
    case TokenAct(a) => SameJobsEvolve(s.core, Step(c, s, e).core);
  }

  lemma StepProgress(c: Chain, s: State, e: Event)
    requires Inv(c, s) && Hist(c, s) && Progress(s)
    ensures var s' := Step(c, s, e); Progress(s') && CoreEvolves(Committed(s), Committed(s'))
  {
    var s' := Step(c, s, e);
    SameJobsEvolve(Committed(s), Committed(s));
    StepEvolves(c, s, e);
    FrameStable(c, s, e);
    if CoreEvolves(s.core, s'.core) {
      CoreEvolvesTransitive(Committed(s), s.core, s'.core);
    }
    SameJobsEvolve(s'.core, s'.core);
  }

  // The rollback point is taken when a transaction starts and never moves.
  lemma FrameStable(c: Chain, s: State, e: Event)
    ensures var s' := Step(c, s, e);
            s'.frame.Busy? ==> s'.frame.saved == Committed(s)
  {
    match e
    case Invoke(sender, call) => if Begin(c, s, sender, call).Ok? { BeginFrame(c, s, sender, call); }
    case _ =>
  }

  lemma BeginFrame(c: Chain, s: State, sender: Address, call: Call)
    requires Begin(c, s, sender, call).Ok?
    ensures var s' := Begin(c, s, sender, call).value;
            && (s.frame.Busy? ==> s'.frame == s.frame)
            && (s'.frame.Busy? ==> s'.frame.saved == Committed(s))
  {
  }

  lemma {:induction false} RunProgress(c: Chain, s: State, es: seq<Event>)
    requires Inv(c, s) && Hist(c, s) && Progress(s)
    ensures var t := Run(c, s, es);
            && Inv(c, t) && Hist(c, t) && Progress(t)
            && CoreEvolves(Committed(s), Committed(t)) && CoreEvolves(Committed(s), t.core)
    decreases |es|
  {
    if |es| == 0 {
      SameJobsEvolve(Committed(s), Committed(s));
    } else {
      var s1 := Step(c, s, es[0]);
      StepKeeps(c, s, es[0]);
      StepHist(c, s, es[0]);
      StepProgress(c, s, es[0]);
      RunProgress(c, s1, es[1..]);
      var t := Run(c, s1, es[1..]);
      CoreEvolvesTransitive(Committed(s), Committed(s1), Committed(t));
      CoreEvolvesTransitive(Committed(s), Committed(s1), t.core);
    }
  }

  // Between transactions of a live deployment.
  ghost predicate Resting(c: Chain, s: State) {
    s.frame.Idle? && Inv(c, s) && Hist(c, s)
  }

  lemma RunFrom(c: Chain, s: State, es: seq<Event>)
    requires Resting(c, s)
    ensures var t := Run(c, s, es); Inv(c, t) && Hist(c, t) && CoreEvolves(s.core, t.core)
  {
    SameJobsEvolve(s.core, s.core);
    RunProgress(c, s, es);
  }

  // --- solvency ---

  // At every point of every run, the balance covers the unsettled jobs and any
  // payout in flight; between transactions it is exactly that plus donations.
  lemma SolventAlways(c: Chain, s: State, es: seq<Event>)
    requires ChainOk(c) && IsInitial(c, s)
    ensures var t := Run(c, s, es); var locked := Locked(t.core.store.jobs, t.core.store.nextJobId);
            && BalanceOf(t.core.token, c.self) == locked + InFlight(t.frame) + t.core.hist.donated
            && (t.frame.Idle? ==> BalanceOf(t.core.token, c.self) == locked + t.core.hist.donated)
  {
    Reachable(c, s, es);
  }

  // --- one payout, in full, to the right parties ---

  // Between transactions a job has paid exactly what its state entitles: the
  // contractor and the treasury, or the client, or nobody; and what it was
  // funded with is either still locked or has all been paid out.
  lemma PaidExactlyOnce(c: Chain, s: State, es: seq<Event>, id: nat)
    requires ChainOk(c) && IsInitial(c, s) && Run(c, s, es).frame.Idle?
    requires id < Run(c, s, es).core.store.nextJobId
    ensures var t := Run(c, s, es); var j := JobAt(t.core.store, id);
            var paid := PayoutsOf(t.core.hist.payouts, id);
            && paid == Entitled(c, j)
            && (j.settled <==> Terminal(j.state))
            && QueueSum(paid) + JobLocked(j) == Refund(j.terms)
  {
    Reachable(c, s, es);
    var t := Run(c, s, es);
    var j := JobAt(t.core.store, id);
    IdlePayouts(c, t, id);
    UnknownJobIsZero(c, t, id);
    if j.state.Paid? {
      QueueSumOfTwo((j.terms.contractor, j.terms.principal as nat), (c.treasury, j.terms.fee as nat));
    } else if Terminal(j.state) {
      assert QueueSum([(j.terms.client, Refund(j.terms))]) == Refund(j.terms);
    }
  }

  // --- conservation over all jobs ---

  function PaidTotal(p: seq<Payout>): nat {
    if |p| == 0 then 0 else PaidTotal(p[..|p| - 1]) + p[|p| - 1].amount
  }

  function PaidBy(p: seq<Payout>): nat -> nat {
    (id: nat) => QueueSum(PayoutsOf(p, id))
  }

  // What jobs were funded with: principal and fee of each.
  function FundedBy(jobs: map<nat, Job>): nat -> nat {
    (id: nat) => Refund(Lookup(jobs, id).terms)
  }

  lemma {:induction false} QueueSumAppend(q: seq<(Address, nat)>, x: (Address, nat))
    ensures QueueSum(q + [x]) == QueueSum(q) + x.1
  {
    if |q| == 0 {
      assert [x][1..] == [];
    } else {
      assert (q + [x])[1..] == q[1..] + [x];
      QueueSumAppend(q[1..], x);
    }
  }

  lemma {:induction false} SumOfNothing(n: nat)
    ensures SumTo(PaidBy([]), n) == 0
  {
    if n > 0 {
      SumOfNothing(n - 1);
    }
  }

  // Every payment is some job's payment, counted once.
  lemma {:induction false} PaidIsPaidByJobs(p: seq<Payout>, n: nat)
    requires forall i | 0 <= i < |p| :: p[i].id < n
    ensures SumTo(PaidBy(p), n) == PaidTotal(p)
  {
    if |p| == 0 {
      SumOfNothing(n);
    } else {
      var front, last := p[..|p| - 1], p[|p| - 1];
      PaidIsPaidByJobs(front, n);
      QueueSumAppend(PayoutsOf(front, last.id), (last.to, last.amount));
      forall k: nat | k < n && k != last.id ensures PaidBy(front)(k) == PaidBy(p)(k) {
        assert PayoutsOf(front, k) + [] == PayoutsOf(front, k);
      }
      SumChange(PaidBy(front), PaidBy(p), n, last.id);
    }
  }

  lemma OnlyJobsPay(c: Chain, s: State, i: nat)
    requires Inv(c, s) && s.frame.Idle? && i < |s.core.hist.payouts|
    ensures s.core.hist.payouts[i].id < s.core.store.nextJobId
  {
    var id := s.core.hist.payouts[i].id;
    PayoutRecorded(s.core.hist.payouts, i);
    IdlePayouts(c, s, id);
    UnknownJobIsZero(c, s, id);
  }

  // Between transactions of any run, everything ever paid out plus everything still
  // locked is everything the jobs were funded with, and the rest of the balance is
  // gifts: nothing more can leave.
  lemma OutgoingIsFunded(c: Chain, s: State, es: seq<Event>)
    requires ChainOk(c) && IsInitial(c, s) && Run(c, s, es).frame.Idle?
    ensures var t := Run(c, s, es); var jobs, n := t.core.store.jobs, t.core.store.nextJobId;
            var paid, funded := PaidTotal(t.core.hist.payouts), SumTo(FundedBy(jobs), n);
            && paid + Locked(jobs, n) == funded
            && BalanceOf(t.core.token, c.self) == funded - paid + t.core.hist.donated
  {
    var t := Run(c, s, es);
    var jobs, n, p := t.core.store.jobs, t.core.store.nextJobId, t.core.hist.payouts;
    Reachable(c, s, es);
    forall i | 0 <= i < |p| ensures p[i].id < n {
      OnlyJobsPay(c, t, i);
    }
    PaidIsPaidByJobs(p, n);
    forall id: nat | id < n ensures FundedBy(jobs)(id) == PaidBy(p)(id) + LockedBy(jobs)(id) {
      PaidExactlyOnce(c, s, es, id);
    }
    SumPlus(PaidBy(p), LockedBy(jobs), FundedBy(jobs), n);
  }

  // A terminal job is final: no later run changes it or pays it again.
  lemma TerminalIsFinal(c: Chain, s: State, es: seq<Event>, id: nat)
    requires Resting(c, s) && id < s.core.store.nextJobId && Terminal(JobAt(s.core.store, id).state)
    ensures var t := Run(c, s, es);
            && JobAt(t.core.store, id) == JobAt(s.core.store, id)
            && (t.frame.Idle? ==> PayoutsOf(t.core.hist.payouts, id) == PayoutsOf(s.core.hist.payouts, id))
  {
    RunFrom(c, s, es);
    var t := Run(c, s, es);
    assert JobEvolves(JobAt(s.core.store, id), JobAt(t.core.store, id));
    IdlePayouts(c, s, id);
    if t.frame.Idle? {
      IdlePayouts(c, t, id);
    }
  }

  // Existing terms are immutable, whoever does whatever.
  lemma TermsAreFrozen(c: Chain, s: State, es: seq<Event>, id: nat)
    requires Resting(c, s) && id < s.core.store.nextJobId
    ensures JobAt(Run(c, s, es).core.store, id).terms == JobAt(s.core.store, id).terms
  {
    RunFrom(c, s, es);
    assert JobEvolves(JobAt(s.core.store, id), JobAt(Run(c, s, es).core.store, id));
  }

  // --- deadlines ---

  // No contractor is paid after graceEnds, no client is refunded before it has
  // passed, and a refund can only be pending once submitBy has passed.
  lemma PaymentsRespectGrace(c: Chain, s: State, es: seq<Event>, i: nat)
    requires ChainOk(c) && IsInitial(c, s) && i < |Run(c, s, es).core.hist.payouts|
    ensures var t := Run(c, s, es); var p := t.core.hist.payouts[i]; var j := JobAt(t.core.store, p.id);
            && (j.state.Paid? ==> p.at <= j.terms.graceEnds)
            && (j.state.Refunded? ==> p.at > j.terms.graceEnds)
  {
    Reachable(c, s, es);
  }

  // A job under verification holds a locked secure round and a dispatch window
  // that wraps no uint64 and ends with the verification timeout or the grace
  // period, whichever is first.
  lemma VerifyingWindow(c: Chain, s: State, es: seq<Event>, id: nat)
    requires ChainOk(c) && IsInitial(c, s)
    ensures var t := Run(c, s, es); var j := JobAt(t.core.store, id);
            && (j.state.Verifying? ==>
                  && j.current.randomLocked && j.current.dispatchedAt < j.current.timeoutAt
                  && j.current.timeoutAt <= j.terms.graceEnds
                  && j.current.timeoutAt <= j.current.dispatchedAt + j.terms.verificationTimeout)
            && (j.state.RefundPending? ==> t.now > j.terms.submitBy)
            && (j.settled <==> Terminal(j.state))
  {
    Reachable(c, s, es);
    UnknownJobIsZero(c, Run(c, s, es), id);
  }

  // Dispatching stores the true time and the earlier of the two deadlines: neither
  // uint64 cast truncates.
  lemma DispatchWindowIsExact(s: State, id: nat, instructionId: Bytes32)
    requires Dispatched(s, id, instructionId).Ok?
    ensures var j := JobAt(s.core.store, id); var k := JobAt(Dispatched(s, id, instructionId).value.core.store, id);
            && k.current.dispatchedAt == s.now
            && k.current.timeoutAt == Min(s.now + j.terms.verificationTimeout, j.terms.graceEnds)
  {
    var j := JobAt(s.core.store, id);
    var k := JobAt(Dispatched(s, id, instructionId).value.core.store, id);
    assert s.now < k.current.timeoutAt < TWO64;
  }

  // --- at most once ---

  lemma AtMostOnce(c: Chain, s: State, es: seq<Event>, id: nat, a: nat)
    requires ChainOk(c) && IsInitial(c, s)
    ensures var h := Run(c, s, es).core.hist; h.settlements[(id, a)] <= h.dispatches[(id, a)] <= 1
  {
    Reachable(c, s, es);
    var t := Run(c, s, es);
    assert KeyOk(c, t.now, t.core.hist, JobAt(t.core.store, id), id, a);
  }

  // Attempt a of the job is over: superseded, expired or settled.
  predicate Closed(j: Job, a: nat) {
    a < j.current.attempt || (a == j.current.attempt && Phase(j.state) >= 5)
  }

  lemma AcceptedBinds(c: Chain, s: State, call: Call)
    requires call.SettleAttempt? && AcceptedVerdict(c, s, call).Ok?
    ensures var v := AcceptedVerdict(c, s, call).value; var j := JobAt(s.core.store, call.id);
            && Abi.DecodeVerdict(call.data) == Some(v) && j.state.Verifying?
            && IdentityMatches(c, j, v.id, call.id) && OutcomeMatches(j, v.result, s.now, call.liveCodeHash)
            && call.signature == SignedBy(j.terms.expectedTee, SignedMessage(
                 call.data, v.id.instructionId, call.submissionTag, call.status, c.chainId))
            && call.status == 1
  {
  }

  lemma ClosedStaysClosed(j: Job, k: Job, a: nat)
    requires JobEvolves(j, k) && Closed(j, a)
    ensures Closed(k, a)
  {
  }

  lemma ClosedRejects(c: Chain, s: State, call: Call, v: VerdictV1)
    requires call.SettleAttempt? && Abi.DecodeVerdict(call.data) == Some(v)
    requires Closed(JobAt(s.core.store, call.id), v.id.attempt)
    ensures AcceptedVerdict(c, s, call).Err?
  {
    if AcceptedVerdict(c, s, call).Ok? {
      AcceptedBinds(c, s, call);
      assert false;
    }
  }

  // A verdict for a closed attempt is rejected in every later state, whoever
  // signed it and whatever else it says.
  lemma ClosedAttemptNeverSettles(c: Chain, s: State, es: seq<Event>, sender: Address, call: Call, v: VerdictV1)
    requires Resting(c, s) && call.SettleAttempt? && call.id < s.core.store.nextJobId
    requires Abi.DecodeVerdict(call.data) == Some(v) && Closed(JobAt(s.core.store, call.id), v.id.attempt)
    ensures Begin(c, Run(c, s, es), sender, call).Err?
    ensures Step(c, Run(c, s, es), Invoke(sender, call)) == Run(c, s, es)
  {
    RunFrom(c, s, es);
    var t := Run(c, s, es);
    ClosedStaysClosed(JobAt(s.core.store, call.id), JobAt(t.core.store, call.id), v.id.attempt);
    ClosedRejects(c, t, call, v);
    RejectedSettlement(c, t, sender, call);
  }

  lemma RejectedSettlement(c: Chain, s: State, sender: Address, call: Call)
    requires call.SettleAttempt? && AcceptedVerdict(c, s, call).Err?
    ensures Begin(c, s, sender, call).Err? && Step(c, s, Invoke(sender, call)) == s
  {
  }

  // --- randomness cannot be steered ---

  lemma LeastSecureUnique(c: Chain, lo: nat, r: nat, r': nat)
    requires LeastSecure(c, lo, r) && LeastSecure(c, lo, r')
    ensures r == r'
  {
  }

  // A submission commits to the round after the current voting round.
  lemma SubmissionFixesStart(c: Chain, s: State, sender: Address, id: nat, artifact: Address,
                             code: Option<Bytes32>)
    requires Begin(c, s, sender, SubmitAttempt(id, artifact, code)).Ok?
    ensures var s' := Begin(c, s, sender, SubmitAttempt(id, artifact, code)).value;
            var k := (id, JobAt(s'.core.store, id).current.attempt as nat);
            k in s'.core.hist.starts && s'.core.hist.starts[k] == c.votingRound(s.now) + 1
  {
  }

  // Whatever round an attempt locks is the first secure one from its start on,
  // and the job carries the hash of that round's value.
  lemma LockedRoundIsForced(c: Chain, s: State, es: seq<Event>, id: nat, a: nat)
    requires ChainOk(c) && IsInitial(c, s) && (id, a) in Run(c, s, es).core.hist.locks
    ensures var t := Run(c, s, es); var h, j := t.core.hist, JobAt(t.core.store, id);
            && (id, a) in h.starts && LeastSecure(c, h.starts[(id, a)], h.locks[(id, a)].0)
            && h.locks[(id, a)].1 == ValueHash(c, c.rounds(h.locks[(id, a)].0).value)
            && (a == j.current.attempt ==>
                  h.locks[(id, a)] == (j.current.randomRound as nat, j.current.randomValueHash))
  {
    Reachable(c, s, es);
    var t := Run(c, s, es);
    assert KeyOk(c, t.now, t.core.hist, JobAt(t.core.store, id), id, a);
  }

  // Two runs from the same submission that both lock it lock the same round and
  // the same value, whoever called lockRandomness, how often, in what order.
  lemma RandomnessCannotBeSteered(c: Chain, s: State, es: seq<Event>, es': seq<Event>, id: nat, a: nat)
    requires Resting(c, s) && (id, a) in s.core.hist.starts
    requires (id, a) in Run(c, s, es).core.hist.locks && (id, a) in Run(c, s, es').core.hist.locks
    ensures Run(c, s, es).core.hist.locks[(id, a)] == Run(c, s, es').core.hist.locks[(id, a)]
  {
    RunFrom(c, s, es);
    RunFrom(c, s, es');
    var t, t' := Run(c, s, es), Run(c, s, es');
    assert KeyOk(c, t.now, t.core.hist, JobAt(t.core.store, id), id, a);
    assert KeyOk(c, t'.now, t'.core.hist, JobAt(t'.core.store, id), id, a);
    LeastSecureUnique(c, s.core.hist.starts[(id, a)], t.core.hist.locks[(id, a)].0, t'.core.hist.locks[(id, a)].0);
  }

  // --- refunds cannot be blocked ---

  // After grace, from any reachable state between transactions, paused or not,
  // anyone can refund any unsettled job, and the client gets everything back.
  lemma RefundAlwaysSucceeds(c: Chain, s: State, id: nat, sender: Address)
    requires Resting(c, s) && id < s.core.store.nextJobId && !JobAt(s.core.store, id).settled
    requires s.now > JobAt(s.core.store, id).terms.graceEnds
    requires sender != ZERO_ADDRESS && sender != c.self
    ensures var j := JobAt(s.core.store, id);
            var t := Run(c, s, [Invoke(sender, RefundExpired(id)), Proceed(0), Proceed(0)]);
            && t.frame.Idle? && JobAt(t.core.store, id) == j.(state := Refunded, settled := true)
            && BalanceOf(t.core.token, j.terms.client)
                 == BalanceOf(s.core.token, j.terms.client) + j.terms.principal + j.terms.fee
  {
    UnknownJobIsZero(c, s, id);
    var j := JobAt(s.core.store, id);
    LockedAtLeast(s.core.store.jobs, s.core.store.nextJobId, id);
    var s1 := Begin(c, s, sender, RefundExpired(id)).value;
    assert s1.frame.pc == Paying(id, [(j.terms.client, Refund(j.terms))]);
    TransferMoves(s1.core.token, c.self, j.terms.client, Refund(j.terms));
    var s2 := Resume(c, s1, 0);
    assert s2.frame.pc == Paying(id, []);
    var es := [Invoke(sender, RefundExpired(id)), Proceed(0), Proceed(0)];
    RunConcat(c, s, [es[0]], [es[1], es[2]]);
    RunConcat(c, s1, [es[1]], [es[2]]);
    assert es == [es[0]] + [es[1], es[2]] && [es[1], es[2]] == [es[1]] + [es[2]];
    assert Run(c, s, [es[0]]) == s1;
    assert Run(c, s1, [es[1]]) == s2;
  }
}
