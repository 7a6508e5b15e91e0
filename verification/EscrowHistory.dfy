// What each attempt has been through, over whole runs: dispatched and settled
// at most once, bound to the first secure round after its submission.
module EscrowHistory {
  import opened Base
  import opened Records
  import opened Token
  import opened EscrowMachine
  import opened EscrowInvariant

  // How far an attempt has come.
  function Phase(st: JobState): nat {
    match st
    case Created => 0
    case Accepted => 1
    case RandomnessPending => 2
    case ReadyToVerify => 3
    case Verifying => 4
    case AwaitingResubmission => 5
    case Retryable => 5
    case RefundPending => 5
    case Paid => 6
    case Cancelled => 6
    case Refunded => 6
  }

  ghost predicate SkippedInsecure(c: Chain, now: nat, lo: nat, hi: nat) {
    forall r: nat | lo <= r < hi :: c.rounds(r).readyAt <= now && !c.rounds(r).secure
  }

  // r is the first secure round from lo on.
  ghost predicate LeastSecure(c: Chain, lo: nat, r: nat) {
    lo <= r && c.rounds(r).secure && forall x: nat | lo <= x < r :: !c.rounds(x).secure
  }

  // The history of attempt a of a job, given the job as it stands.
  ghost predicate KeyOk(c: Chain, now: nat, h: History, j: Job, id: nat, a: nat) {
    var k, attempt := (id, a), j.current.attempt as nat;
    && (k in h.starts ==> 1 <= a <= attempt)
    && (k in h.locks ==>
          k in h.starts && LeastSecure(c, h.starts[k], h.locks[k].0)
          && h.locks[k].1 == ValueHash(c, c.rounds(h.locks[k].0).value))
    && h.settlements[k] <= h.dispatches[k] <= 1
    && (h.dispatches[k] == 1 ==> a < attempt || (a == attempt && Phase(j.state) >= 4))
    && (a == attempt && j.state.Verifying? ==> h.dispatches[k] == 1)
    && (h.settlements[k] == 1 ==> a < attempt || (a == attempt && Phase(j.state) >= 5))
    && (a == attempt && a >= 1 ==>
          && k in h.starts && h.starts[k] <= j.current.targetRound
          && SkippedInsecure(c, now, h.starts[k], j.current.targetRound)
          && (k in h.locks <==> j.current.randomLocked)
          && (k in h.locks ==>
                h.locks[k] == (j.current.randomRound as nat, j.current.randomValueHash)))
  }

  ghost predicate CoreHist(c: Chain, now: nat, core: Core) {
    forall id: nat, a: nat :: KeyOk(c, now, core.hist, JobAt(core.store, id), id, a)
  }

  // Contractors are paid by the end of grace, refunds are made after it.
  predicate OnTime(j: Job, at: nat) {
    (j.state.Paid? ==> at <= j.terms.graceEnds) && (j.state.Refunded? ==> at > j.terms.graceEnds)
  }

  ghost predicate PayoutsOnTime(core: Core) {
    forall i | 0 <= i < |core.hist.payouts| ::
      OnTime(JobAt(core.store, core.hist.payouts[i].id), core.hist.payouts[i].at)
  }

  ghost predicate Hist(c: Chain, s: State) {
    && CoreHist(c, s.now, s.core) && PayoutsOnTime(s.core)
    && (s.frame.Busy? ==>
          && CoreHist(c, s.now, s.frame.saved) && PayoutsOnTime(s.frame.saved)
          && (s.frame.pc.Paying? ==> OnTime(JobAt(s.core.store, s.frame.pc.id), s.now)))
  }

  // --- one job changes ---

  // Histories that agree on every attempt of every job but one.
  ghost predicate AgreeExcept(h: History, h': History, id: nat) {
    forall x: nat, a: nat | x != id ::
      && ((x, a) in h.starts <==> (x, a) in h'.starts)
      && ((x, a) in h.starts ==> h'.starts[(x, a)] == h.starts[(x, a)])
      && ((x, a) in h.locks <==> (x, a) in h'.locks)
      && ((x, a) in h.locks ==> h'.locks[(x, a)] == h.locks[(x, a)])
      && h'.dispatches[(x, a)] == h.dispatches[(x, a)]
      && h'.settlements[(x, a)] == h.settlements[(x, a)]
  }

  lemma HistPut(c: Chain, now: nat, core: Core, id: nat, j: Job, h: History)
    requires CoreHist(c, now, core) && AgreeExcept(core.hist, h, id)
    requires forall a: nat :: KeyOk(c, now, h, j, id, a)
    ensures CoreHist(c, now, Core(core.store.(jobs := core.store.jobs[id := j]), core.token, h))
  {
    var jobs := core.store.jobs[id := j];
    forall x: nat, a: nat ensures KeyOk(c, now, h, Lookup(jobs, x), x, a) {
      if x != id {
        assert KeyOk(c, now, core.hist, JobAt(core.store, x), x, a);
        assert Lookup(jobs, x) == JobAt(core.store, x);
      }
    }
  }

  // The same attempt moves on, keeping its round.
  lemma HistAdvance(c: Chain, now: nat, core: Core, id: nat, j: Job)
    requires CoreHist(c, now, core)
    requires var was := JobAt(core.store, id);
             && j.current.attempt == was.current.attempt && j.current.targetRound == was.current.targetRound
             && j.current.randomLocked == was.current.randomLocked
             && j.current.randomRound == was.current.randomRound
             && j.current.randomValueHash == was.current.randomValueHash
             && Phase(j.state) >= Phase(was.state) && !j.state.Verifying?
    ensures CoreHist(c, now, core.(store := core.store.(jobs := core.store.jobs[id := j])))
  {
    forall a: nat ensures KeyOk(c, now, core.hist, j, id, a) {
      assert KeyOk(c, now, core.hist, JobAt(core.store, id), id, a);
    }
    HistPut(c, now, core, id, j, core.hist);
  }

  lemma PutOnTime(core: Core, id: nat, j: Job)
    requires PayoutsOnTime(core)
    requires (j.state.Paid? || j.state.Refunded?) ==> PayoutsOf(core.hist.payouts, id) == []
    ensures PayoutsOnTime(core.(store := core.store.(jobs := core.store.jobs[id := j])))
  {
    var core' := core.(store := core.store.(jobs := core.store.jobs[id := j]));
    forall i | 0 <= i < |core.hist.payouts|
      ensures OnTime(JobAt(core'.store, core.hist.payouts[i].id), core.hist.payouts[i].at)
    {
      if core.hist.payouts[i].id == id && PayoutsOf(core.hist.payouts, id) == [] {
        PayoutRecorded(core.hist.payouts, i);
      }
      assert OnTime(JobAt(core.store, core.hist.payouts[i].id), core.hist.payouts[i].at);
    }
  }

  lemma {:induction false} PayoutRecorded(p: seq<Payout>, i: nat)
    requires i < |p|
    ensures PayoutsOf(p, p[i].id) != []
  {
    if i < |p| - 1 {
      PayoutRecorded(p[..|p| - 1], i);
    }
  }

  // --- every event keeps the history in order ---

  lemma AcceptHist(c: Chain, s: State, sender: Address, id: nat)
    requires Inv(c, s) && Hist(c, s) && DoAcceptJob(s, sender, id).Ok?
    ensures Hist(c, DoAcceptJob(s, sender, id).value)
  {
    var j := JobAt(s.core.store, id);
    HistAdvance(c, s.now, s.core, id, j.(state := Accepted));
    PutOnTime(s.core, id, j.(state := Accepted));
  }

  // A settling call: the job becomes terminal and its payments are queued.
  lemma PayHist(c: Chain, s: State, id: nat, j: Job, queue: seq<(Address, nat)>)
    requires Inv(c, s) && Hist(c, s) && s.frame.Idle?
    requires var was := JobAt(s.core.store, id);
             j.current == was.current && j.terms == was.terms && !Terminal(was.state) && Terminal(j.state)
    requires OnTime(j, s.now)
    ensures Hist(c, EnterFrom(s, PutJob(s, id, j), Paying(id, queue)))
  {
    HistAdvance(c, s.now, s.core, id, j);
    assert PayoutsOf(s.core.hist.payouts, id) + QueueOf(s.frame, id) == Entitled(c, JobAt(s.core.store, id));
    PutOnTime(s.core, id, j);
  }

  lemma SubmitHist(c: Chain, s: State, sender: Address, id: nat, artifact: Address, code: Option<Bytes32>)
    requires Inv(c, s) && Hist(c, s) && DoSubmitAttempt(c, s, sender, id, artifact, code).Ok?
    ensures Hist(c, DoSubmitAttempt(c, s, sender, id, artifact, code).value)
  {
    var s' := DoSubmitAttempt(c, s, sender, id, artifact, code).value;
    var j := JobAt(s'.core.store, id);
    SubmitKeys(c, s, sender, id, artifact, code);
    HistPut(c, s.now, s.core, id, j, s'.core.hist);
    PutOnTime(s.core, id, j);
  }

  lemma SubmitKeys(c: Chain, s: State, sender: Address, id: nat, artifact: Address, code: Option<Bytes32>)
    requires Hist(c, s) && DoSubmitAttempt(c, s, sender, id, artifact, code).Ok?
    ensures var s' := DoSubmitAttempt(c, s, sender, id, artifact, code).value;
            && AgreeExcept(s.core.hist, s'.core.hist, id)
            && forall a: nat :: KeyOk(c, s.now, s'.core.hist, JobAt(s'.core.store, id), id, a)
  {
    var s' := DoSubmitAttempt(c, s, sender, id, artifact, code).value;
    forall a: nat ensures KeyOk(c, s.now, s'.core.hist, JobAt(s'.core.store, id), id, a) {
      assert KeyOk(c, s.now, s.core.hist, JobAt(s.core.store, id), id, a);
    }
  }

  lemma LockHist(c: Chain, s: State, id: nat)
    requires Inv(c, s) && Hist(c, s) && DoLockRandomness(c, s, id).Ok?
    ensures Hist(c, DoLockRandomness(c, s, id).value)
  {
    UnknownJobIsZero(c, s, id);
    var s' := DoLockRandomness(c, s, id).value;
    var j := JobAt(s'.core.store, id);
    LockKeys(c, s, id);
    HistPut(c, s.now, s.core, id, j, s'.core.hist);
    PutOnTime(s.core, id, j);
  }

  lemma LockKeys(c: Chain, s: State, id: nat)
    requires JobOk(c, s.now, JobAt(s.core.store, id)) && Hist(c, s) && DoLockRandomness(c, s, id).Ok?
    ensures var s' := DoLockRandomness(c, s, id).value;
            && AgreeExcept(s.core.hist, s'.core.hist, id)
            && forall a: nat :: KeyOk(c, s.now, s'.core.hist, JobAt(s'.core.store, id), id, a)
  {
    var s' := DoLockRandomness(c, s, id).value;
    forall a: nat ensures KeyOk(c, s.now, s'.core.hist, JobAt(s'.core.store, id), id, a) {
      assert KeyOk(c, s.now, s.core.hist, JobAt(s.core.store, id), id, a);
    }
  }

  lemma ExpireHist(c: Chain, s: State, id: nat)
    requires Inv(c, s) && Hist(c, s) && DoExpire(s, id).Ok?
    ensures Hist(c, DoExpire(s, id).value)
  {
    var j := JobAt(DoExpire(s, id).value.core.store, id);
    HistAdvance(c, s.now, s.core, id, j);
    PutOnTime(s.core, id, j);
  }

  // Recording a settlement of the attempt under verification.
  lemma SettlementKeys(c: Chain, now: nat, core: Core, id: nat, j: Job)
    requires CoreHist(c, now, core) && JobAt(core.store, id).state.Verifying?
    requires j.current == JobAt(core.store, id).current && Phase(j.state) >= 5
    ensures var h := core.hist.(settlements :=
                       core.hist.settlements + multiset{(id, j.current.attempt as nat)});
            CoreHist(c, now, Core(core.store.(jobs := core.store.jobs[id := j]), core.token, h))
  {
    var h := core.hist.(settlements := core.hist.settlements + multiset{(id, j.current.attempt as nat)});
    forall a: nat ensures KeyOk(c, now, h, j, id, a) {
      assert KeyOk(c, now, core.hist, JobAt(core.store, id), id, a);
    }
    HistPut(c, now, core, id, j, h);
  }

  lemma OutcomeHist(c: Chain, s: State, id: nat, o: Outcome)
    requires Inv(c, s) && Hist(c, s) && s.frame.Idle? && JobAt(s.core.store, id).state.Verifying?
    requires s.now <= JobAt(s.core.store, id).terms.graceEnds
    requires ApplyOutcome(c, s, id, o).Ok?
    ensures Hist(c, ApplyOutcome(c, s, id, o).value)
  {
    UnknownJobIsZero(c, s, id);
    var s' := ApplyOutcome(c, s, id, o).value;
    var j := JobAt(s'.core.store, id);
    SettlementKeys(c, s.now, s.core, id, j);
    assert PayoutsOf(s.core.hist.payouts, id) + QueueOf(s.frame, id) == Entitled(c, JobAt(s.core.store, id));
    PutOnTime(s.core, id, j);
  }

  lemma DispatchedKeys(c: Chain, s: State, id: nat, instructionId: Bytes32)
    requires CoreHist(c, s.now, s.core) && JobAt(s.core.store, id).state.ReadyToVerify?
    requires Dispatched(s, id, instructionId).Ok?
    ensures var s' := Dispatched(s, id, instructionId).value;
            && AgreeExcept(s.core.hist, s'.core.hist, id)
            && forall a: nat :: KeyOk(c, s.now, s'.core.hist, JobAt(s'.core.store, id), id, a)
  {
    var s' := Dispatched(s, id, instructionId).value;
    forall a: nat ensures KeyOk(c, s.now, s'.core.hist, JobAt(s'.core.store, id), id, a) {
      assert KeyOk(c, s.now, s.core.hist, JobAt(s.core.store, id), id, a);
    }
  }

  lemma DispatchedHist(c: Chain, s: State, id: nat, instructionId: Bytes32)
    requires Inv(c, s) && Hist(c, s) && s.frame.Busy? && s.frame.pc == Sending(id)
    requires Dispatched(s, id, instructionId).Ok?
    ensures Hist(c, Resume(c, s, instructionId))
  {
    var s' := Dispatched(s, id, instructionId).value;
    var j := JobAt(s'.core.store, id);
    DispatchedKeys(c, s, id, instructionId);
    HistPut(c, s.now, s.core, id, j, s'.core.hist);
    PutOnTime(s.core, id, j);
  }

  lemma FinishCreateHist(c: Chain, s: State, terms: JobTerms)
    requires Inv(c, s) && Hist(c, s) && s.frame.Busy? && s.frame.pc == Pulled(terms)
    ensures Hist(c, FinishCreate(s, terms))
  {
    var id := s.core.store.nextJobId;
    UnknownJobIsZero(c, s, id);
    var j := ZERO_JOB.(terms := terms);
    if id + 1 < TWO256 {
      HistAdvance(c, s.now, s.core, id, j);
      PutOnTime(s.core, id, j);
      var put := s.core.(store := s.core.store.(jobs := s.core.store.jobs[id as nat := j]));
      SameJobsHist(c, s.now, put, FinishCreate(s, terms).core);
    }
  }

  lemma SameJobsHist(c: Chain, now: nat, core: Core, core': Core)
    requires core.store.jobs == core'.store.jobs && core.hist == core'.hist
    ensures CoreHist(c, now, core) ==> CoreHist(c, now, core')
    ensures PayoutsOnTime(core) ==> PayoutsOnTime(core')
  {
    assert forall id: nat :: JobAt(core'.store, id) == JobAt(core.store, id);
  }

  lemma PayOneHist(c: Chain, s: State, id: nat, queue: seq<(Address, nat)>)
    requires Inv(c, s) && Hist(c, s) && s.frame.Busy? && s.frame.pc == Paying(id, queue)
    ensures Hist(c, Resume(c, s, 0))
  {
    var s' := Resume(c, s, 0);
    if s'.frame.Busy? {
      var p := s'.core.hist.payouts;
      forall x: nat, a: nat ensures KeyOk(c, s.now, s'.core.hist, JobAt(s'.core.store, x), x, a) {
        assert KeyOk(c, s.now, s.core.hist, JobAt(s.core.store, x), x, a);
      }
      forall i | 0 <= i < |p| ensures OnTime(JobAt(s'.core.store, p[i].id), p[i].at) {
        if i < |s.core.hist.payouts| {
          assert p[i] == s.core.hist.payouts[i];
        }
      }
    }
  }

  lemma ResumeHist(c: Chain, s: State, instructionId: Bytes32)
    requires Inv(c, s) && Hist(c, s) && s.frame.Busy?
    ensures Hist(c, Resume(c, s, instructionId))
  {
    match s.frame.pc
    case Pulling(terms) =>
    case Pulled(terms) => FinishCreateHist(c, s, terms);
    case Sending(id) =>
      if Dispatched(s, id, instructionId).Ok? { DispatchedHist(c, s, id, instructionId); }
    case Paying(id, queue) => PayOneHist(c, s, id, queue);
  }

  lemma SettleHist(c: Chain, s: State, call: Call)
    requires Inv(c, s) && Hist(c, s) && call.SettleAttempt? && DoSettle(c, s, call).Ok?
    ensures Hist(c, DoSettle(c, s, call).value)
  {
    AcceptedIsTimely(c, s, call);
    OutcomeHist(c, s, call.id, AcceptedVerdict(c, s, call).value.result.outcome);
  }

  lemma ConfigHist(c: Chain, s: State, st: Storage)
    requires Hist(c, s) && st.jobs == s.core.store.jobs
    ensures Hist(c, s.(core := s.core.(store := st)))
  {
    assert forall id: nat :: JobAt(st, id) == JobAt(s.core.store, id);
  }

  lemma ConfigCallHist(c: Chain, s: State, sender: Address, call: Call)
    requires Hist(c, s) && IsConfigCall(call) && Begin(c, s, sender, call).Ok?
    ensures Hist(c, Begin(c, s, sender, call).value)
  {
    ConfigHist(c, s, Begin(c, s, sender, call).value.core.store);
  }

  lemma CancelHist(c: Chain, s: State, sender: Address, id: nat)
    requires Inv(c, s) && Hist(c, s) && DoCancelUnaccepted(s, sender, id).Ok?
    ensures Hist(c, DoCancelUnaccepted(s, sender, id).value)
  {
    var j := JobAt(s.core.store, id);
    PayHist(c, s, id, j.(state := Cancelled, settled := true), [(j.terms.client, Refund(j.terms))]);
  }

  lemma RefundHist(c: Chain, s: State, id: nat)
    requires Inv(c, s) && Hist(c, s) && DoRefundExpired(s, id).Ok?
    ensures Hist(c, DoRefundExpired(s, id).value)
  {
    UnknownJobIsZero(c, s, id);
    var j := JobAt(s.core.store, id);
    PayHist(c, s, id, j.(state := Refunded, settled := true), [(j.terms.client, Refund(j.terms))]);
  }

  lemma InvokeHist(c: Chain, s: State, sender: Address, call: Call)
    requires Inv(c, s) && Hist(c, s) && Begin(c, s, sender, call).Ok?
    ensures Hist(c, Begin(c, s, sender, call).value)
  {
    match call
    case CreateJob(_, _, _, _, _, _, _, _, _, _, _, _) =>
    case AcceptJob(id) => AcceptHist(c, s, sender, id);
    case CancelUnaccepted(id) => CancelHist(c, s, sender, id);
    case SubmitAttempt(id, artifact, code) => SubmitHist(c, s, sender, id, artifact, code);
    case LockRandomness(id) => LockHist(c, s, id);
    case DispatchVerification(id, status) =>
    case ExpireVerification(id) => ExpireHist(c, s, id);
    case SettleAttempt(_, _, _, _, _, _, _, _) => SettleHist(c, s, call);
    case RefundExpired(id) => RefundHist(c, s, id);
    case _ => ConfigCallHist(c, s, sender, call);
  }

  lemma TickHist(c: Chain, s: State, now: Uint256, height: Uint256)
    requires Hist(c, s)
    ensures Hist(c, Step(c, s, Tick(now, height)))
  {
    if s.frame.Idle? && now >= s.now {
      forall id: nat, a: nat ensures KeyOk(c, now, s.core.hist, JobAt(s.core.store, id), id, a) {
        assert KeyOk(c, s.now, s.core.hist, JobAt(s.core.store, id), id, a);
      }
    }
  }

  lemma TokenActHist(c: Chain, s: State, a: Action)
    requires Hist(c, s)
    ensures Hist(c, DoTokenAct(c, s, a))
  {
    var s' := DoTokenAct(c, s, a);
    forall id: nat, k: nat ensures KeyOk(c, s.now, s'.core.hist, JobAt(s'.core.store, id), id, k) {
      assert KeyOk(c, s.now, s.core.hist, JobAt(s.core.store, id), id, k);
    }
  }

  lemma StepHist(c: Chain, s: State, e: Event)
    requires Inv(c, s) && Hist(c, s)
    ensures Hist(c, Step(c, s, e))
  {
    match e
    case Invoke(sender, call) => if Begin(c, s, sender, call).Ok? { InvokeHist(c, s, sender, call); }
    case Proceed(instructionId) => if s.frame.Busy? { ResumeHist(c, s, instructionId); }
    case Abort =>
    case Tick(now, height) => TickHist(c, s, now, height);
    case TokenAct(a) => TokenActHist(c, s, a);
  }

  lemma {:induction false} RunHist(c: Chain, s: State, es: seq<Event>)
    requires Inv(c, s) && Hist(c, s)
    ensures Inv(c, Run(c, s, es)) && Hist(c, Run(c, s, es))
    decreases |es|
  {
    if |es| > 0 {
      StepKeeps(c, s, es[0]);
      StepHist(c, s, es[0]);
      RunHist(c, Step(c, s, es[0]), es[1..]);
    }
  }

  // The state after any run of a freshly deployed escrow.
  lemma Reachable(c: Chain, s: State, es: seq<Event>)
    requires ChainOk(c) && IsInitial(c, s)
    ensures Inv(c, Run(c, s, es)) && Hist(c, Run(c, s, es))
  {
    InitialInv(c, s);
    RunHist(c, s, es);
  }
}
