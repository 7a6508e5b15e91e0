// Who changes what, over whole runs: every change of a job has its cause, with the one
// party that may bring it about and the time at which it may; so does every control.
module EscrowAuthority {
  import opened Base
  import opened Records
  import opened EscrowMachine
  import opened EscrowInvariant
  import opened EscrowHistory
  import opened EscrowTheorems
  import opened EntryPoints

  // --- one step ---

  predicate IsCall(e: Event, call: Call) { e.Invoke? && e.call == call }

  // The event settles the job with an accepted verdict of this outcome.
  ghost predicate IsSettled(c: Chain, s: State, e: Event, id: nat, o: Outcome) {
    && e.Invoke? && e.call.SettleAttempt? && e.call.id == id
    && exists v :: Settles(c, s, e.call, v) && v.result.outcome == o
  }

  // The contractor's own submission, in time, of this artifact as it was at that block.
  predicate IsSubmission(s: State, e: Event, id: nat, j: Job, k: Job) {
    && e == Invoke(j.terms.contractor, SubmitAttempt(id, k.current.artifactAddress, Some(k.current.artifactCodeHash)))
    && (j.state.Accepted? || j.state.AwaitingResubmission? || j.state.Retryable?)
    && !s.core.store.paused && s.now <= j.terms.submitBy
    && k.current.attempt == j.current.attempt + 1 && k.current.artifactBlock == s.height
  }

  // Why a job went from j to k: only a submission starts a new attempt.
  ghost predicate Caused(c: Chain, s: State, e: Event, id: nat, j: Job, k: Job) {
    CausedState(c, s, e, id, j, k) && (k.current.attempt != j.current.attempt ==> IsSubmission(s, e, id, j, k))
  }

  ghost predicate CausedState(c: Chain, s: State, e: Event, id: nat, j: Job, k: Job) {
    match k.state
    case Created => s.frame.Busy? && s.frame.pc == Pulled(k.terms) && e.Proceed? && id == s.core.store.nextJobId
    case Accepted =>
      j.state.Created? && e == Invoke(j.terms.contractor, AcceptJob(id)) && s.now <= j.terms.acceptBy
    case Cancelled => j.state.Created? && e == Invoke(j.terms.client, CancelUnaccepted(id))
    case RandomnessPending =>
      || IsSubmission(s, e, id, j, k)
      || (j.state.RandomnessPending? && IsCall(e, LockRandomness(id)) && !c.rounds(j.current.targetRound).secure)
    case ReadyToVerify =>
      j.state.RandomnessPending? && IsCall(e, LockRandomness(id)) && c.rounds(j.current.targetRound).secure
    case Verifying =>
      && j.state.ReadyToVerify? && s.frame.Busy? && s.frame.pc == Sending(id)
      && e == Proceed(k.current.instructionId) && s.now < j.terms.graceEnds
    case Retryable =>
      && j.state.Verifying?
      && (|| (IsCall(e, ExpireVerification(id)) && s.now > j.current.timeoutAt)
          || (IsSettled(c, s, e, id, Inconclusive) && s.now <= j.terms.submitBy))
    case AwaitingResubmission =>
      j.state.Verifying? && IsSettled(c, s, e, id, Fail) && s.now <= j.terms.submitBy
    case RefundPending =>
      && j.state.Verifying? && s.now > j.terms.submitBy
      && (IsSettled(c, s, e, id, Fail) || IsSettled(c, s, e, id, Inconclusive))
    case Paid => j.state.Verifying? && IsSettled(c, s, e, id, Pass)
    case Refunded => !j.settled && IsCall(e, RefundExpired(id)) && s.now > j.terms.graceEnds
  }

  lemma VerdictCauses(c: Chain, s: State, e: Event, t: State, id: nat, v: VerdictV1)
    requires e.Invoke? && e.call.SettleAttempt? && e.call.id == id && Settles(c, s, e.call, v)
    requires SettlesWith(c, s, t, id, v.result.outcome)
    ensures Caused(c, s, e, id, JobAt(s.core.store, id), JobAt(t.core.store, id))
  {
    assert IsSettled(c, s, e, id, v.result.outcome);
  }

  lemma SettlementCauses(c: Chain, s: State, sender: Address, call: Call, id: nat)
    requires Begin(c, s, sender, call).Ok? && call.SettleAttempt?
    requires JobAt(Begin(c, s, sender, call).value.core.store, id) != JobAt(s.core.store, id)
    ensures Caused(c, s, Invoke(sender, call), id, JobAt(s.core.store, id),
                   JobAt(Begin(c, s, sender, call).value.core.store, id))
  {
    var t := Begin(c, s, sender, call).value;
    SettleExactly(c, s, sender, call);
    var v :| Settles(c, s, call, v) && SettlesWith(c, s, t, call.id, v.result.outcome);
    VerdictCauses(c, s, Invoke(sender, call), t, call.id, v);
    assert id != call.id ==> JobAt(t.core.store, id) == JobAt(s.core.store, id);
  }

  lemma SubmissionCauses(c: Chain, s: State, sender: Address, call: Call, id: nat)
    requires Begin(c, s, sender, call).Ok? && call.SubmitAttempt?
    requires JobAt(Begin(c, s, sender, call).value.core.store, id) != JobAt(s.core.store, id)
    ensures Caused(c, s, Invoke(sender, call), id, JobAt(s.core.store, id),
                   JobAt(Begin(c, s, sender, call).value.core.store, id))
  {
    JobCallExactly(c, s, sender, call);
  }

  lemma JobCallCauses(c: Chain, s: State, sender: Address, call: Call, id: nat)
    requires Begin(c, s, sender, call).Ok? && OnAJob(call) && !call.SubmitAttempt?
    requires JobAt(Begin(c, s, sender, call).value.core.store, id) != JobAt(s.core.store, id)
    ensures Caused(c, s, Invoke(sender, call), id, JobAt(s.core.store, id),
                   JobAt(Begin(c, s, sender, call).value.core.store, id))
  {
    JobCallExactly(c, s, sender, call);
  }

  lemma OtherCallsCauseNothing(c: Chain, s: State, sender: Address, call: Call, id: nat)
    requires Begin(c, s, sender, call).Ok? && !OnAJob(call) && !call.SettleAttempt?
    ensures JobAt(Begin(c, s, sender, call).value.core.store, id) == JobAt(s.core.store, id)
  {
  }

  lemma CallCauses(c: Chain, s: State, sender: Address, call: Call, id: nat)
    requires Begin(c, s, sender, call).Ok?
    requires JobAt(Begin(c, s, sender, call).value.core.store, id) != JobAt(s.core.store, id)
    ensures Caused(c, s, Invoke(sender, call), id, JobAt(s.core.store, id),
                   JobAt(Begin(c, s, sender, call).value.core.store, id))
  {
    if call.SettleAttempt? {
      SettlementCauses(c, s, sender, call, id);
    } else if call.SubmitAttempt? {
      SubmissionCauses(c, s, sender, call, id);
    } else if OnAJob(call) {
      JobCallCauses(c, s, sender, call, id);
    } else {
      OtherCallsCauseNothing(c, s, sender, call, id);
      assert false;
    }
  }

  lemma ResumeCauses(c: Chain, s: State, instructionId: Bytes32, id: nat)
    requires Inv(c, s) && s.frame.Busy? && Resume(c, s, instructionId) != Rollback(s)
    requires JobAt(Resume(c, s, instructionId).core.store, id) != JobAt(s.core.store, id)
    ensures Caused(c, s, Proceed(instructionId), id, JobAt(s.core.store, id),
                   JobAt(Resume(c, s, instructionId).core.store, id))
  {
    ResumesExactly(c, s, instructionId);
    UnknownJobIsZero(c, s, id);
  }

  // Short of a revert, no job changes without its cause.
  lemma EveryChangeIsCaused(c: Chain, s: State, e: Event, id: nat)
    requires Inv(c, s) && !(s.frame.Busy? && Step(c, s, e) == Rollback(s))
    requires JobAt(Step(c, s, e).core.store, id) != JobAt(s.core.store, id)
    ensures Caused(c, s, e, id, JobAt(s.core.store, id), JobAt(Step(c, s, e).core.store, id))
  {
    match e
    case Invoke(sender, call) => CallCauses(c, s, sender, call, id);
    case Proceed(instructionId) => ResumeCauses(c, s, instructionId, id);
    case _ =>
  }

  // --- every step of every run ---

  lemma {:induction false} RunSnoc(c: Chain, s: State, es: seq<Event>, i: nat)
    requires i < |es|
    ensures Run(c, s, es[..i + 1]) == Step(c, Run(c, s, es[..i]), es[i])
  {
    assert es[..i + 1] == es[..i] + [es[i]];
    RunConcat(c, s, es[..i], [es[i]]);
    assert Run(c, Run(c, s, es[..i]), [es[i]]) == Run(c, Step(c, Run(c, s, es[..i]), es[i]), []);
  }

  // A revert takes no attempt further, and brings back no state that was behind.
  lemma RevertOnlyUndoes(c: Chain, s: State, es: seq<Event>, id: nat)
    requires ChainOk(c) && IsInitial(c, s) && Run(c, s, es).frame.Busy?
    ensures var t := Run(c, s, es); var j, k := JobAt(t.core.store, id), JobAt(t.frame.saved.store, id);
            k.current.attempt <= j.current.attempt && (j.state.Created? ==> k.state.Created?)
  {
    Reachable(c, s, []);
    SameJobsEvolve(s.core, s.core);
    RunProgress(c, s, es);
    var t := Run(c, s, es);
    if id < t.frame.saved.store.nextJobId {
      assert JobEvolves(JobAt(t.frame.saved.store, id), JobAt(t.core.store, id));
    }
  }

  // Whenever an attempt begins, it is by the contractor's own submission, in time, of
  // the artifact the attempt names.
  lemma AttemptsAreTheContractors(c: Chain, s: State, es: seq<Event>, i: nat, id: nat)
    requires ChainOk(c) && IsInitial(c, s) && i < |es|
    requires var before, after := Run(c, s, es[..i]), Run(c, s, es[..i + 1]);
             JobAt(after.core.store, id).current.attempt > JobAt(before.core.store, id).current.attempt
    ensures var before, after := Run(c, s, es[..i]), Run(c, s, es[..i + 1]);
            IsSubmission(before, es[i], id, JobAt(before.core.store, id), JobAt(after.core.store, id))
  {
    RunSnoc(c, s, es, i);
    Reachable(c, s, es[..i]);
    var before := Run(c, s, es[..i]);
    if before.frame.Busy? {
      RevertOnlyUndoes(c, s, es[..i], id);
    }
    EveryChangeIsCaused(c, before, es[i], id);
  }

  // Only the contractor accepts, and only the client cancels.
  lemma OnlyThePartiesCommit(c: Chain, s: State, es: seq<Event>, i: nat, id: nat)
    requires ChainOk(c) && IsInitial(c, s) && i < |es|
    requires JobAt(Run(c, s, es[..i]).core.store, id).state.Created?
    ensures var j, k := JobAt(Run(c, s, es[..i]).core.store, id), JobAt(Run(c, s, es[..i + 1]).core.store, id);
            && (k.state.Accepted? ==> es[i] == Invoke(j.terms.contractor, AcceptJob(id)))
            && (k.state.Cancelled? ==> es[i] == Invoke(j.terms.client, CancelUnaccepted(id)))
  {
    RunSnoc(c, s, es, i);
    Reachable(c, s, es[..i]);
    var before, after := Run(c, s, es[..i]), Run(c, s, es[..i + 1]);
    if before.frame.Busy? {
      RevertOnlyUndoes(c, s, es[..i], id);
    }
    if !JobAt(after.core.store, id).state.Created? {
      EveryChangeIsCaused(c, before, es[i], id);
    }
  }

  // --- an open window is the verifier's ---

  lemma StepTime(c: Chain, s: State, e: Event)
    ensures Step(c, s, e).now >= s.now
  {
  }

  // The job still is j, with n settlements of its attempt, or has been settled since.
  ghost predicate HeldOrSettled(core: Core, id: nat, j: Job, n: nat) {
    var settled := core.hist.settlements[(id, j.current.attempt as nat)];
    (JobAt(core.store, id) == j && settled == n) || settled > n
  }

  lemma WindowStep(c: Chain, s: State, e: Event, id: nat, j: Job, n: nat)
    requires Inv(c, s) && Hist(c, s) && !(s.frame.Busy? && Step(c, s, e) == Rollback(s))
    requires j.state.Verifying? && s.now <= j.current.timeoutAt && HeldOrSettled(s.core, id, j, n)
    ensures HeldOrSettled(Step(c, s, e).core, id, j, n)
  {
    SettlementsGrow(c, s, e, (id, j.current.attempt as nat));
    if JobAt(s.core.store, id) == j && JobAt(Step(c, s, e).core.store, id) != j {
      HeldUnlessSettled(c, s, e, id);
    }
  }

  lemma SettlementsGrow(c: Chain, s: State, e: Event, key: (nat, nat))
    requires Inv(c, s) && Hist(c, s) && !(s.frame.Busy? && Step(c, s, e) == Rollback(s))
    ensures s.core.hist.settlements[key] <= Step(c, s, e).core.hist.settlements[key]
  {
    StepEvolves(c, s, e);
  }

  // In its window a job under verification changes by a settlement alone.
  lemma HeldUnlessSettled(c: Chain, s: State, e: Event, id: nat)
    requires Inv(c, s) && !(s.frame.Busy? && Step(c, s, e) == Rollback(s))
    requires JobAt(s.core.store, id).state.Verifying? && s.now <= JobAt(s.core.store, id).current.timeoutAt
    requires JobAt(Step(c, s, e).core.store, id) != JobAt(s.core.store, id)
    ensures var key := (id, JobAt(s.core.store, id).current.attempt as nat);
            Step(c, s, e).core.hist.settlements[key] > s.core.hist.settlements[key]
  {
    UnknownJobIsZero(c, s, id);
    EveryChangeIsCaused(c, s, e, id);
    SettlingCounts(c, s, e, id);
  }

  lemma SettlingCounts(c: Chain, s: State, e: Event, id: nat)
    requires JobAt(s.core.store, id).state.Verifying?
    requires exists o :: IsSettled(c, s, e, id, o)
    requires Step(c, s, e).core != s.core
    ensures var key := (id, JobAt(s.core.store, id).current.attempt as nat);
            Step(c, s, e).core.hist.settlements[key] > s.core.hist.settlements[key]
  {
    AdmittedExactly(c, s, e.sender, e.call);
  }

  lemma {:induction false} WindowRun(c: Chain, s: State, es: seq<Event>, id: nat, j: Job, n: nat)
    requires Inv(c, s) && Hist(c, s) && j.state.Verifying? && Run(c, s, es).now <= j.current.timeoutAt
    requires HeldOrSettled(s.core, id, j, n) && HeldOrSettled(Committed(s), id, j, n)
    ensures HeldOrSettled(Run(c, s, es).core, id, j, n)
    decreases |es|
  {
    if |es| > 0 {
      var s' := Step(c, s, es[0]);
      StepKeeps(c, s, es[0]);
      StepHist(c, s, es[0]);
      StepTime(c, s, es[0]);
      FrameStable(c, s, es[0]);
      RunTime(c, s', es[1..]);
      if !(s.frame.Busy? && s' == Rollback(s)) {
        WindowStep(c, s, es[0], id, j, n);
      }
      WindowRun(c, s', es[1..], id, j, n);
    }
  }

  lemma {:induction false} RunTime(c: Chain, s: State, es: seq<Event>)
    ensures Run(c, s, es).now >= s.now
    decreases |es|
  {
    if |es| > 0 {
      StepTime(c, s, es[0]);
      RunTime(c, Step(c, s, es[0]), es[1..]);
    }
  }

  // While its window is open a dispatched job stays exactly as it is, whoever does
  // what, until one of its verdicts is accepted.
  lemma WindowIsTheVerifiers(c: Chain, s: State, es: seq<Event>, id: nat)
    requires Resting(c, s) && JobAt(s.core.store, id).state.Verifying?
    requires var j := JobAt(s.core.store, id); var key := (id, j.current.attempt as nat);
             && Run(c, s, es).now <= j.current.timeoutAt
             && Run(c, s, es).core.hist.settlements[key] == s.core.hist.settlements[key]
    ensures JobAt(Run(c, s, es).core.store, id) == JobAt(s.core.store, id)
  {
    var j := JobAt(s.core.store, id);
    WindowRun(c, s, es, id, j, s.core.hist.settlements[(id, j.current.attempt as nat)]);
  }

  // --- where every job comes from ---

  // The client asked for exactly these terms, of a TEE confirmed to be in production.
  predicate IsAsking(e: Event, t: JobTerms) {
    && e.Invoke? && e.sender == t.client && e.call.CreateJob? && Confirmed(t.expectedTee, e.call.teeStatus)
    && e.call == CreateJob(t.contractor, t.expectedTee, t.principal, t.acceptBy, t.submitBy, t.graceEnds,
                           t.verificationTimeout, t.specHash, t.privateBundleHash, t.engineVersionHash,
                           t.ciphertextHash, e.call.teeStatus)
  }

  ghost predicate AskedFor(es: seq<Event>, t: JobTerms) { exists e | e in es :: IsAsking(e, t) }

  // The TEE was confirmed again when the job was dispatched.
  predicate WasDispatched(es: seq<Event>, id: nat) {
    exists e | e in es :: IsCall(e, DispatchVerification(id, Some(TEE_STATUS_PRODUCTION)))
  }

  // The client asked for the job, the contractor accepted it and submitted its artifact,
  // it was dispatched to a TEE in production, or the client cancelled it.
  ghost predicate Founded(es: seq<Event>, id: nat, j: Job) {
    && AskedFor(es, j.terms)
    && (j.state.Accepted? || j.current.attempt > 0 ==> Invoke(j.terms.contractor, AcceptJob(id)) in es)
    && (j.current.attempt > 0 ==>
          Invoke(j.terms.contractor, SubmitAttempt(id, j.current.artifactAddress, Some(j.current.artifactCodeHash)))
          in es)
    && (Phase(j.state) in {4, 5} || j.state.Paid? ==> WasDispatched(es, id))
    && (j.state.Cancelled? ==> Invoke(j.terms.client, CancelUnaccepted(id)) in es)
  }

  ghost predicate CoreFounded(es: seq<Event>, core: Core) {
    forall id: nat | id < core.store.nextJobId :: Founded(es, id, JobAt(core.store, id))
  }

  ghost predicate PcFounded(es: seq<Event>, pc: Pc) {
    match pc
    case Pulling(terms) => AskedFor(es, terms)
    case Pulled(terms) => AskedFor(es, terms)
    case Sending(id) => WasDispatched(es, id)
    case Paying(_, _) => true
  }

  ghost predicate RunFounded(es: seq<Event>, s: State) {
    CoreFounded(es, s.core) && (s.frame.Busy? ==> CoreFounded(es, s.frame.saved) && PcFounded(es, s.frame.pc))
  }

  lemma MoreEvents(es: seq<Event>, e: Event, id: nat, j: Job)
    requires Founded(es, id, j)
    ensures Founded(es + [e], id, j)
  {
    var more := es + [e];
    assert forall x | x in es :: x in more;
    var a :| a in es && IsAsking(a, j.terms);
    if WasDispatched(es, id) {
      var d :| d in es && IsCall(d, DispatchVerification(id, Some(TEE_STATUS_PRODUCTION)));
      assert d in more;
    }
  }

  lemma MoreEventsCore(es: seq<Event>, e: Event, core: Core)
    requires CoreFounded(es, core)
    ensures CoreFounded(es + [e], core)
  {
    forall id: nat | id < core.store.nextJobId ensures Founded(es + [e], id, JobAt(core.store, id)) {
      MoreEvents(es, e, id, JobAt(core.store, id));
    }
  }

  lemma MoreEventsPc(es: seq<Event>, e: Event, pc: Pc)
    requires PcFounded(es, pc)
    ensures PcFounded(es + [e], pc)
  {
    var more := es + [e];
    assert forall x | x in es :: x in more;
  }

  // A job that changes is founded by what changed it.
  lemma ChangeIsFounded(c: Chain, es: seq<Event>, s: State, e: Event, id: nat, j: Job, k: Job)
    requires Caused(c, s, e, id, j, k) && JobEvolves(j, k) && Founded(es, id, j) && !k.state.Created?
    requires s.frame.Busy? ==> PcFounded(es, s.frame.pc)
    requires j.state.Created? ==> j.current.attempt == 0
    requires j.state.Accepted? || j.state.Created? || j.current.attempt > 0
    ensures Founded(es + [e], id, k)
  {
    MoreEvents(es, e, id, j);
    if s.frame.Busy? {
      MoreEventsPc(es, e, s.frame.pc);
    }
    assert e in es + [e];
  }

  lemma JobStepFounded(c: Chain, es: seq<Event>, s: State, e: Event, id: nat)
    requires Inv(c, s) && Hist(c, s) && RunFounded(es, s) && !(s.frame.Busy? && Step(c, s, e) == Rollback(s))
    requires id < Step(c, s, e).core.store.nextJobId
    ensures Founded(es + [e], id, JobAt(Step(c, s, e).core.store, id))
  {
    var j, k := JobAt(s.core.store, id), JobAt(Step(c, s, e).core.store, id);
    UnknownJobIsZero(c, s, id);
    StepKeeps(c, s, e);
    if id >= s.core.store.nextJobId {
      NewJobFounded(c, es, s, e, id);
    } else if j == k {
      MoreEvents(es, e, id, j);
    } else {
      StepEvolves(c, s, e);
      assert JobEvolves(j, k);
      EveryChangeIsCaused(c, s, e, id);
      ChangeIsFounded(c, es, s, e, id, j, k);
    }
  }

  // A job is recorded by the transaction that its client began.
  lemma NewJobFounded(c: Chain, es: seq<Event>, s: State, e: Event, id: nat)
    requires Inv(c, s) && RunFounded(es, s) && !(s.frame.Busy? && Step(c, s, e) == Rollback(s))
    requires s.core.store.nextJobId <= id < Step(c, s, e).core.store.nextJobId
    ensures Founded(es + [e], id, JobAt(Step(c, s, e).core.store, id))
  {
    NewJobsAreRecorded(c, s, e);
    RecordedJob(c, s, s.frame.pc.terms, id);
    MoreEventsPc(es, e, s.frame.pc);
    FreshIsFounded(es + [e], id, s.frame.pc.terms);
  }

  lemma FreshIsFounded(es: seq<Event>, id: nat, terms: JobTerms)
    requires AskedFor(es, terms)
    ensures Founded(es, id, ZERO_JOB.(terms := terms))
  {
  }

  lemma NewJobsAreRecorded(c: Chain, s: State, e: Event)
    requires Step(c, s, e).core.store.nextJobId > s.core.store.nextJobId
    requires !(s.frame.Busy? && Step(c, s, e) == Rollback(s))
    ensures s.frame.Busy? && s.frame.pc.Pulled? && e.Proceed?
    ensures Step(c, s, e) == FinishCreate(s, s.frame.pc.terms)
  {
  }

  lemma RecordedJob(c: Chain, s: State, terms: JobTerms, id: nat)
    requires Inv(c, s) && s.frame.Busy? && FinishCreate(s, terms) != Rollback(s)
    requires s.core.store.nextJobId <= id < FinishCreate(s, terms).core.store.nextJobId
    ensures JobAt(FinishCreate(s, terms).core.store, id) == ZERO_JOB.(terms := terms)
  {
    UnknownJobIsZero(c, s, id);
  }

  // What an admitted call opens is founded by the call.
  lemma OpenedIsFounded(c: Chain, es: seq<Event>, s: State, sender: Address, call: Call)
    requires Begin(c, s, sender, call).Ok? && s.frame.Idle? && Begin(c, s, sender, call).value.frame.Busy?
    ensures PcFounded(es + [Invoke(sender, call)], Begin(c, s, sender, call).value.frame.pc)
  {
    var e := Invoke(sender, call);
    AdmittedExactly(c, s, sender, call);
    assert e in es + [e];
    if call.CreateJob? {
      assert IsAsking(e, TermsOf(s, sender, call));
    }
  }

  lemma PcStepFounded(c: Chain, es: seq<Event>, s: State, e: Event)
    requires RunFounded(es, s) && Step(c, s, e).frame.Busy?
    ensures PcFounded(es + [e], Step(c, s, e).frame.pc)
  {
    if s.frame.Busy? {
      StaysAt(c, s, e);
      MoreEventsPc(es, e, s.frame.pc);
    } else {
      OpenedIsFounded(c, es, s, e.sender, e.call);
    }
  }

  // An open transaction moves from pulling to recording, and otherwise stays where it
  // is or pays on.
  lemma StaysAt(c: Chain, s: State, e: Event)
    requires s.frame.Busy? && Step(c, s, e).frame.Busy?
    ensures var pc, pc' := s.frame.pc, Step(c, s, e).frame.pc;
            pc' == pc || (pc.Pulling? && pc' == Pulled(pc.terms)) || pc'.Paying?
  {
    if e.Invoke? && Begin(c, s, e.sender, e.call).Ok? {
      BeginFrame(c, s, e.sender, e.call);
    }
  }

  lemma StepFounded(c: Chain, es: seq<Event>, s: State, e: Event)
    requires Inv(c, s) && Hist(c, s) && RunFounded(es, s)
    ensures RunFounded(es + [e], Step(c, s, e))
  {
    var t := Step(c, s, e);
    FrameStable(c, s, e);
    MoreEventsCore(es, e, s.core);
    if s.frame.Busy? {
      MoreEventsCore(es, e, s.frame.saved);
    }
    if !(s.frame.Busy? && t == Rollback(s)) {
      forall id: nat | id < t.core.store.nextJobId ensures Founded(es + [e], id, JobAt(t.core.store, id)) {
        JobStepFounded(c, es, s, e, id);
      }
    }
    if t.frame.Busy? {
      PcStepFounded(c, es, s, e);
    }
  }

  lemma {:induction false} RunsAreFounded(c: Chain, s: State, es: seq<Event>)
    requires ChainOk(c) && IsInitial(c, s)
    ensures RunFounded(es, Run(c, s, es))
  {
    if |es| > 0 {
      var last := |es| - 1;
      RunsAreFounded(c, s, es[..last]);
      Reachable(c, s, es[..last]);
      RunSnoc(c, s, es, last);
      StepFounded(c, es[..last], Run(c, s, es[..last]), es[last]);
      assert es[..last] + [es[last]] == es && es[..last + 1] == es;
    }
  }

  // In every run, every job was asked for by its client, of a confirmed TEE, accepted
  // and submitted to by its contractor, dispatched to a TEE confirmed again, and
  // cancelled by nobody but its client.
  lemma EveryJobIsFounded(c: Chain, s: State, es: seq<Event>, id: nat)
    requires ChainOk(c) && IsInitial(c, s) && id < Run(c, s, es).core.store.nextJobId
    ensures Founded(es, id, JobAt(Run(c, s, es).core.store, id))
  {
    RunsAreFounded(c, s, es);
  }

  // --- the controls ---

  // Each control and who moved it.
  predicate ByTheOwner(a: Storage, b: Storage, e: Event) {
    && (b.paused != a.paused ==> e == Invoke(a.owner, if b.paused then PauseNewWork else UnpauseNewWork))
    && (b.protocolFeeBps != a.protocolFeeBps ==>
          e == Invoke(a.owner, SetProtocolFee(b.protocolFeeBps)) && b.protocolFeeBps <= 1_000)
    && (b.owner != a.owner ==> e == Invoke(a.pendingOwner, AcceptOwnership) && b.owner == a.pendingOwner)
    && (b.pendingOwner != a.pendingOwner ==>
          || (e == Invoke(a.owner, TransferOwnership(b.pendingOwner)) && b.pendingOwner != ZERO_ADDRESS)
          || (e == Invoke(a.pendingOwner, AcceptOwnership) && b.pendingOwner == ZERO_ADDRESS))
    && (b.extensionId != a.extensionId ==> a.extensionId == 0 && e.Invoke? && e.call.SetExtensionId?)
  }

  predicate SameControls(a: Storage, b: Storage) {
    && b.paused == a.paused && b.protocolFeeBps == a.protocolFeeBps && b.owner == a.owner
    && b.pendingOwner == a.pendingOwner && b.extensionId == a.extensionId
  }

  lemma ConfigCallByTheOwner(c: Chain, s: State, sender: Address, call: Call)
    requires Begin(c, s, sender, call).Ok? && IsConfigCall(call)
    ensures ByTheOwner(s.core.store, Begin(c, s, sender, call).value.core.store, Invoke(sender, call))
  {
    AdmittedExactly(c, s, sender, call);
  }

  lemma OtherCallsControlNothing(c: Chain, s: State, sender: Address, call: Call)
    requires Begin(c, s, sender, call).Ok? && !IsConfigCall(call)
    ensures SameControls(s.core.store, Begin(c, s, sender, call).value.core.store)
  {
  }

  lemma OtherEventsControlNothing(c: Chain, s: State, e: Event)
    requires !e.Invoke? && !(s.frame.Busy? && Step(c, s, e) == Rollback(s))
    ensures SameControls(s.core.store, Step(c, s, e).core.store)
  {
  }

  // Only the owner pauses, unpauses, sets the fee and names a successor, only who was
  // named succeeds, and the extension id is set once.
  lemma ControlsAreTheOwners(c: Chain, s: State, e: Event)
    requires !(s.frame.Busy? && Step(c, s, e) == Rollback(s))
    ensures ByTheOwner(s.core.store, Step(c, s, e).core.store, e)
  {
    if !e.Invoke? {
      OtherEventsControlNothing(c, s, e);
    } else if Begin(c, s, e.sender, e.call).Ok? {
      if IsConfigCall(e.call) {
        ConfigCallByTheOwner(c, s, e.sender, e.call);
      } else {
        OtherCallsControlNothing(c, s, e.sender, e.call);
      }
    }
  }

  // --- a pause ---

  // No work has begun since: no job recorded or about to be, no attempt.
  ghost predicate NoNewWork(before: Storage, core: Core) {
    && core.store.paused && core.store.nextJobId == before.nextJobId
    && forall id: nat :: JobAt(core.store, id).current.attempt == JobAt(before, id).current.attempt
  }

  lemma PausedStep(c: Chain, s: State, e: Event, before: Storage)
    requires Inv(c, s) && NoNewWork(before, s.core) && !(s.frame.Busy? && (s.frame.pc.Pulling? || s.frame.pc.Pulled?))
    requires !(e.Invoke? && e.call.UnpauseNewWork?) && !(s.frame.Busy? && Step(c, s, e) == Rollback(s))
    ensures NoNewWork(before, Step(c, s, e).core)
    ensures Step(c, s, e).frame.Busy? ==> !Step(c, s, e).frame.pc.Pulling? && !Step(c, s, e).frame.pc.Pulled?
  {
    var t := Step(c, s, e);
    ControlsAreTheOwners(c, s, e);
    PausedCreatesNothing(c, s, e);
    forall id: nat ensures JobAt(t.core.store, id).current.attempt == JobAt(s.core.store, id).current.attempt {
      if JobAt(t.core.store, id).current.attempt != JobAt(s.core.store, id).current.attempt {
        EveryChangeIsCaused(c, s, e, id);
        assert false;
      }
    }
  }

  lemma PausedCreatesNothing(c: Chain, s: State, e: Event)
    requires s.core.store.paused && !(s.frame.Busy? && (s.frame.pc.Pulling? || s.frame.pc.Pulled?))
    requires !(s.frame.Busy? && Step(c, s, e) == Rollback(s))
    ensures Step(c, s, e).core.store.nextJobId == s.core.store.nextJobId
    ensures Step(c, s, e).frame.Busy? ==> !Step(c, s, e).frame.pc.Pulling? && !Step(c, s, e).frame.pc.Pulled?
  {
  }

  lemma {:induction false} PausedRun(c: Chain, s: State, es: seq<Event>, before: Storage)
    requires Inv(c, s) && NoNewWork(before, s.core) && NoNewWork(before, Committed(s))
    requires !(s.frame.Busy? && (s.frame.pc.Pulling? || s.frame.pc.Pulled?))
    requires forall e | e in es :: !(e.Invoke? && e.call.UnpauseNewWork?)
    ensures NoNewWork(before, Run(c, s, es).core)
    decreases |es|
  {
    if |es| > 0 {
      var s' := Step(c, s, es[0]);
      StepKeeps(c, s, es[0]);
      FrameStable(c, s, es[0]);
      if !(s.frame.Busy? && s' == Rollback(s)) {
        PausedStep(c, s, es[0], before);
      }
      PausedRun(c, s', es[1..], before);
    }
  }

  // From a pause to the next unpausing no job is created and no attempt begun.
  lemma PauseStopsNewWork(c: Chain, s: State, es: seq<Event>)
    requires Resting(c, s) && s.core.store.paused
    requires forall e | e in es :: !(e.Invoke? && e.call.UnpauseNewWork?)
    ensures NoNewWork(s.core.store, Run(c, s, es).core)
  {
    PausedRun(c, s, es, s.core.store);
  }
}
