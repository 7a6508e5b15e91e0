// Whole transactions, and what the owner cannot do: two histories that differ
// only in pausing, fees, ownership and unrelated jobs leave every observed job
// in the same state with the same payouts.
module Transactions {
  import opened Base
  import opened Records
  import opened Token
  import opened EscrowMachine
  import opened EscrowInvariant

  // A top-level call and what its callees do before they return.
  datatype Tx = Tx(sender: Address, call: Call, script: seq<Event>)
  datatype Item = Transaction(tx: Tx) | Time(now: Uint256, height: Uint256) | Tokens(action: Action)

  // Events while the call is open; the rest of the script never happens.
  function RunBusy(c: Chain, s: State, es: seq<Event>): State
    decreases |es|
  {
    if |es| == 0 || s.frame.Idle? then s else RunBusy(c, Step(c, s, es[0]), es[1..])
  }

  // A call its callees never finish runs out of gas and reverts.
  function ExecTx(c: Chain, s: State, tx: Tx): State {
    match Begin(c, s, tx.sender, tx.call)
    case Err(_) => s
    case Ok(s1) =>
      var s2 := RunBusy(c, s1, tx.script);
      if s2.frame.Busy? then Rollback(s2) else s2
  }

  function ExecItem(c: Chain, s: State, x: Item): State {
    match x
    case Transaction(tx) => ExecTx(c, s, tx)
    case Time(now, height) => Step(c, s, Tick(now, height))
    case Tokens(a) => Step(c, s, TokenAct(a))
  }

  function RunItems(c: Chain, s: State, xs: seq<Item>): State
    decreases |xs|
  {
    if |xs| == 0 then s else RunItems(c, ExecItem(c, s, xs[0]), xs[1..])
  }

  // --- transactions are runs ---

  lemma {:induction false} RunBusyKeeps(c: Chain, s: State, es: seq<Event>)
    requires Inv(c, s)
    ensures Inv(c, RunBusy(c, s, es))
    decreases |es|
  {
    if |es| > 0 && s.frame.Busy? {
      StepKeeps(c, s, es[0]);
      RunBusyKeeps(c, Step(c, s, es[0]), es[1..]);
    }
  }

  // Every transaction is a run of the machine, so all its theorems apply.
  lemma ExecTxIsRun(c: Chain, s: State, tx: Tx) returns (es: seq<Event>)
    ensures Run(c, s, es) == ExecTx(c, s, tx)
  {
    match Begin(c, s, tx.sender, tx.call)
    case Err(_) => es := [];
    case Ok(s1) =>
      var rest := RunBusyIsRun(c, s1, tx.script);
      var s2 := RunBusy(c, s1, tx.script);
      var last := if s2.frame.Busy? then [Abort] else [];
      assert Run(c, s2, last) == ExecTx(c, s, tx);
      RunConcat(c, s1, rest, last);
      es := [Invoke(tx.sender, tx.call)] + (rest + last);
      assert es[1..] == rest + last;
  }

  lemma {:induction false} RunBusyIsRun(c: Chain, s: State, es: seq<Event>) returns (fs: seq<Event>)
    ensures Run(c, s, fs) == RunBusy(c, s, es)
    decreases |es|
  {
    if |es| == 0 || s.frame.Idle? {
      fs := [];
    } else {
      var rest := RunBusyIsRun(c, Step(c, s, es[0]), es[1..]);
      fs := [es[0]] + rest;
      assert fs[1..] == rest;
    }
  }

  lemma ExecItemKeeps(c: Chain, s: State, x: Item)
    requires Inv(c, s) && s.frame.Idle?
    ensures Inv(c, ExecItem(c, s, x)) && ExecItem(c, s, x).frame.Idle?
  {
    match x
    case Transaction(tx) =>
      if Begin(c, s, tx.sender, tx.call).Ok? {
        var s1 := Begin(c, s, tx.sender, tx.call).value;
        InvokeKeeps(c, s, tx.sender, tx.call);
        RunBusyKeeps(c, s1, tx.script);
        var s2 := RunBusy(c, s1, tx.script);
        if s2.frame.Busy? {
          RollbackKeeps(c, s2);
        }
      }
    case Time(now, height) => StepKeeps(c, s, Tick(now, height));
    case Tokens(a) => StepKeeps(c, s, TokenAct(a));
  }

  // --- what an observer of the jobs below n can see ---

  function CallJob(call: Call): Option<nat> {
    match call
    case AcceptJob(id) => Some(id)
    case CancelUnaccepted(id) => Some(id)
    case SubmitAttempt(id, _, _) => Some(id)
    case LockRandomness(id) => Some(id)
    case DispatchVerification(id, _) => Some(id)
    case ExpireVerification(id) => Some(id)
    case SettleAttempt(id, _, _, _, _, _, _, _) => Some(id)
    case RefundExpired(id) => Some(id)
    case _ => None
  }

  // A call on an observed job. Owner calls, new jobs and later jobs are not.
  predicate Observed(call: Call, n: nat) {
    CallJob(call).Some? && CallJob(call).value < n
  }

  predicate VisibleEvent(e: Event, n: nat) {
    (e.Invoke? && Observed(e.call, n)) || e.Proceed? || e.Abort?
  }

  function ProjectScript(es: seq<Event>, n: nat): seq<Event> {
    if |es| == 0 then []
    else if VisibleEvent(es[0], n) then [es[0]] + ProjectScript(es[1..], n)
    else ProjectScript(es[1..], n)
  }

  predicate VisibleItem(x: Item, n: nat) {
    x.Time? || (x.Transaction? && Observed(x.tx.call, n))
  }

  function ProjectItem(x: Item, n: nat): Item {
    match x
    case Transaction(tx) => Transaction(tx.(script := ProjectScript(tx.script, n)))
    case _ => x
  }

  // The calls on observed jobs that can take effect while another call is open.
  predicate Reaches(e: Event, n: nat) {
    e.Invoke? && Observed(e.call, n) && (e.call.AcceptJob? || e.call.ExpireVerification?)
  }

  // Those an open transaction has made when it commits; none if it reverts.
  function Inside(c: Chain, s: State, es: seq<Event>, n: nat, sofar: seq<Event>): seq<Event>
    decreases |es|
  {
    if |es| == 0 || s.frame.Idle? then []
    else
      var s' := Step(c, s, es[0]);
      var made := if Reaches(es[0], n) then sofar + [es[0]] else sofar;
      if s'.frame.Busy? then Inside(c, s', es[1..], n, made)
      else if s' == Rollback(s) then []
      else made
  }

  // What a transaction on no observed job does to observed jobs from inside.
  function InsideItem(c: Chain, s: State, x: Item, n: nat): seq<Event> {
    if !x.Transaction? then []
    else
      match Begin(c, s, x.tx.sender, x.tx.call)
      case Err(_) => []
      case Ok(s1) => Inside(c, s1, x.tx.script, n, [])
  }

  datatype Sight = Whole(item: Item) | Nested(calls: seq<Event>)

  // All an observer of the jobs below n sees of a run.
  function Project(c: Chain, s: State, xs: seq<Item>, n: nat): seq<Sight>
    decreases |xs|
  {
    if |xs| == 0 then []
    else
      var rest := Project(c, ExecItem(c, s, xs[0]), xs[1..], n);
      if VisibleItem(xs[0], n) then [Whole(ProjectItem(xs[0], n))] + rest
      else if InsideItem(c, s, xs[0], n) == [] then rest
      else [Nested(InsideItem(c, s, xs[0], n))] + rest
  }

  // No submission to an observed job is rejected by a pause.
  predicate Unblocked(c: Chain, s: State, xs: seq<Item>, n: nat)
    decreases |xs|
  {
    |xs| == 0
    || ((VisibleItem(xs[0], n) && xs[0].Transaction? && xs[0].tx.call.SubmitAttempt? ==> !s.core.store.paused)
        && Unblocked(c, ExecItem(c, s, xs[0]), xs[1..], n))
  }

  ghost predicate SameJobs(a: Core, b: Core, n: nat) {
    forall id: nat | id < n :: JobAt(a.store, id) == JobAt(b.store, id)
  }

  // Two states an observer between transactions cannot tell apart.
  ghost predicate AlikeIdle(c: Chain, s: State, t: State, n: nat) {
    && Inv(c, s) && Inv(c, t) && s.frame.Idle? && t.frame.Idle?
    && s.now == t.now && s.height == t.height && SameJobs(s.core, t.core, n)
    && n <= s.core.store.nextJobId && n <= t.core.store.nextJobId
  }

  // The same, inside a call on an observed job.
  ghost predicate AlikeBusy(c: Chain, s: State, t: State, n: nat) {
    && Inv(c, s) && Inv(c, t) && s.frame.Busy? && t.frame.Busy?
    && s.now == t.now && s.height == t.height && SameJobs(s.core, t.core, n)
    && s.frame.pc == t.frame.pc && PcObserved(s.frame.pc, n)
    && SameJobs(s.frame.saved, t.frame.saved, n)
    && n <= s.core.store.nextJobId && n <= t.core.store.nextJobId
    && n <= s.frame.saved.store.nextJobId && n <= t.frame.saved.store.nextJobId
  }

  ghost predicate Alike(c: Chain, s: State, t: State, n: nat) {
    AlikeIdle(c, s, t, n) || AlikeBusy(c, s, t, n)
  }

  predicate PcObserved(pc: Pc, n: nat) {
    match pc
    case Sending(id) => id < n
    case Paying(id, _) => id < n
    case _ => false
  }

  // --- events the observer does not see ---

  // A state as the observer keeps it across an invisible event.
  ghost predicate Unnoticed(s: State, s': State, n: nat) {
    && s'.frame == s.frame && s'.now == s.now && s'.height == s.height
    && SameJobs(s.core, s'.core, n) && s.core.store.nextJobId <= s'.core.store.nextJobId
  }

  lemma InvisibleInvoke(c: Chain, s: State, sender: Address, call: Call, n: nat)
    requires !Observed(call, n) && s.frame.Busy?
    ensures Unnoticed(s, Step(c, s, Invoke(sender, call)), n)
  {
    if Begin(c, s, sender, call).Ok? {
      if IsConfigCall(call) {
        InvisibleConfig(c, s, sender, call, n);
      } else {
        assert call.AcceptJob? || call.ExpireVerification?;
      }
    }
  }

  lemma InvisibleConfig(c: Chain, s: State, sender: Address, call: Call, n: nat)
    requires IsConfigCall(call) && Begin(c, s, sender, call).Ok?
    ensures Unnoticed(s, Begin(c, s, sender, call).value, n)
  {
  }

  lemma InvisibleStep(c: Chain, s: State, e: Event, n: nat)
    requires !VisibleEvent(e, n) && s.frame.Busy?
    ensures Unnoticed(s, Step(c, s, e), n)
  {
    match e
    case Invoke(sender, call) => InvisibleInvoke(c, s, sender, call, n);
    case _ =>
  }

  // --- events both observers see ---

  // Payments never fail for lack of funds.
  lemma PaymentSucceeds(c: Chain, s: State, id: nat, queue: seq<(Address, nat)>)
    requires Inv(c, s) && s.frame.Busy? && s.frame.pc == Paying(id, queue) && |queue| > 0
    ensures Transfer(s.core.token, c.self, queue[0].0, queue[0].1).Some?
  {
    assert queue[0] in queue;
    assert QueueSum(queue) >= queue[0].1;
  }

  // Writing the same job into two storages that agree keeps them agreeing.
  lemma PutSame(a: Core, b: Core, a': Core, b': Core, id: nat, j: Job, n: nat)
    requires SameJobs(a, b, n)
    requires a'.store.jobs == a.store.jobs[id := j] && b'.store.jobs == b.store.jobs[id := j]
    ensures SameJobs(a', b', n)
  {
    forall k: nat | k < n ensures JobAt(a'.store, k) == JobAt(b'.store, k) {
      assert JobAt(a.store, k) == JobAt(b.store, k);
    }
  }

  lemma DispatchedSame(s: State, t: State, id: nat, instructionId: Bytes32, n: nat)
    requires SameJobs(s.core, t.core, n) && id < n && s.now == t.now
    ensures Dispatched(s, id, instructionId).Ok? <==> Dispatched(t, id, instructionId).Ok?
    ensures Dispatched(s, id, instructionId).Ok? ==>
              var s', t' := Dispatched(s, id, instructionId).value, Dispatched(t, id, instructionId).value;
              && SameJobs(s'.core, t'.core, n)
              && s'.core.store.nextJobId == s.core.store.nextJobId
              && t'.core.store.nextJobId == t.core.store.nextJobId
  {
    assert JobAt(s.core.store, id) == JobAt(t.core.store, id);
    if Dispatched(s, id, instructionId).Ok? {
      var s', t' := Dispatched(s, id, instructionId).value, Dispatched(t, id, instructionId).value;
      PutSame(s.core, t.core, s'.core, t'.core, id, JobAt(s'.core.store, id), n);
    }
  }

  lemma SendingAlike(c: Chain, s: State, t: State, id: nat, instructionId: Bytes32, n: nat)
    requires AlikeBusy(c, s, t, n) && s.frame.pc == Sending(id)
    ensures AlikeIdle(c, Resume(c, s, instructionId), Resume(c, t, instructionId), n)
  {
    ResumeKeeps(c, s, instructionId);
    ResumeKeeps(c, t, instructionId);
    DispatchedSame(s, t, id, instructionId, n);
  }

  lemma PayingAlike(c: Chain, s: State, t: State, id: nat, queue: seq<(Address, nat)>, instructionId: Bytes32, n: nat)
    requires AlikeBusy(c, s, t, n) && s.frame.pc == Paying(id, queue)
    ensures Alike(c, Resume(c, s, instructionId), Resume(c, t, instructionId), n)
  {
    ResumeKeeps(c, s, instructionId);
    ResumeKeeps(c, t, instructionId);
    if |queue| > 0 {
      PaymentSucceeds(c, s, id, queue);
      PaymentSucceeds(c, t, id, queue);
      assert AlikeBusy(c, Resume(c, s, instructionId), Resume(c, t, instructionId), n);
    } else {
      assert AlikeIdle(c, Resume(c, s, instructionId), Resume(c, t, instructionId), n);
    }
  }

  lemma ResumeAlike(c: Chain, s: State, t: State, instructionId: Bytes32, n: nat)
    requires AlikeBusy(c, s, t, n)
    ensures Alike(c, Resume(c, s, instructionId), Resume(c, t, instructionId), n)
  {
    match s.frame.pc
    case Sending(id) => SendingAlike(c, s, t, id, instructionId, n);
    case Paying(id, queue) => PayingAlike(c, s, t, id, queue, instructionId, n);
  }

  lemma NestedSame(c: Chain, s: State, t: State, sender: Address, call: Call, n: nat)
    requires SameJobs(s.core, t.core, n) && s.now == t.now && s.frame.Busy? && t.frame.Busy? && Observed(call, n)
    ensures var s', t' := Step(c, s, Invoke(sender, call)), Step(c, t, Invoke(sender, call));
            && SameJobs(s'.core, t'.core, n) && s'.frame == s.frame && t'.frame == t.frame
            && s'.now == s.now && t'.now == t.now && s'.height == s.height && t'.height == t.height
            && s'.core.store.nextJobId == s.core.store.nextJobId
            && t'.core.store.nextJobId == t.core.store.nextJobId
  {
    var s', t' := Step(c, s, Invoke(sender, call)), Step(c, t, Invoke(sender, call));
    var id := CallJob(call).value;
    assert JobAt(s.core.store, id) == JobAt(t.core.store, id);
    if Begin(c, s, sender, call).Ok? {
      assert call.AcceptJob? || call.ExpireVerification?;
      PutSame(s.core, t.core, s'.core, t'.core, id, JobAt(s'.core.store, id), n);
    }
  }

  lemma NestedAlike(c: Chain, s: State, t: State, sender: Address, call: Call, n: nat)
    requires AlikeBusy(c, s, t, n) && Observed(call, n)
    ensures AlikeBusy(c, Step(c, s, Invoke(sender, call)), Step(c, t, Invoke(sender, call)), n)
  {
    StepKeeps(c, s, Invoke(sender, call));
    StepKeeps(c, t, Invoke(sender, call));
    NestedSame(c, s, t, sender, call, n);
  }

  lemma VisibleStepAlike(c: Chain, s: State, t: State, e: Event, n: nat)
    requires AlikeBusy(c, s, t, n) && VisibleEvent(e, n)
    ensures Alike(c, Step(c, s, e), Step(c, t, e), n)
  {
    match e
    case Invoke(sender, call) => NestedAlike(c, s, t, sender, call, n);
    case Proceed(instructionId) => ResumeAlike(c, s, t, instructionId, n);
    case Abort => RollbackKeeps(c, s); RollbackKeeps(c, t);
  }

  lemma UnnoticedAlike(c: Chain, s: State, s': State, t: State, n: nat)
    requires AlikeBusy(c, s, t, n) && Unnoticed(s, s', n) && Inv(c, s')
    ensures AlikeBusy(c, s', t, n)
  {
  }

  lemma AlikeSymmetric(c: Chain, s: State, t: State, n: nat)
    requires AlikeBusy(c, s, t, n)
    ensures AlikeBusy(c, t, s, n)
  {
  }

  lemma {:induction false} ScriptsAlike(c: Chain, s: State, t: State, es: seq<Event>, fs: seq<Event>, n: nat)
    requires Alike(c, s, t, n) && ProjectScript(es, n) == ProjectScript(fs, n)
    ensures Alike(c, RunBusy(c, s, es), RunBusy(c, t, fs), n)
    decreases |es| + |fs|
  {
    if s.frame.Busy? {
      if |es| > 0 && !VisibleEvent(es[0], n) {
        StepKeeps(c, s, es[0]);
        InvisibleStep(c, s, es[0], n);
        UnnoticedAlike(c, s, Step(c, s, es[0]), t, n);
        ScriptsAlike(c, Step(c, s, es[0]), t, es[1..], fs, n);
      } else if |fs| > 0 && !VisibleEvent(fs[0], n) {
        StepKeeps(c, t, fs[0]);
        InvisibleStep(c, t, fs[0], n);
        AlikeSymmetric(c, s, t, n);
        UnnoticedAlike(c, t, Step(c, t, fs[0]), s, n);
        AlikeSymmetric(c, Step(c, t, fs[0]), s, n);
        ScriptsAlike(c, s, Step(c, t, fs[0]), es, fs[1..], n);
      } else if |es| > 0 && |fs| > 0 {
        assert ProjectScript(es, n)[0] == es[0] && ProjectScript(fs, n)[0] == fs[0];
        assert ProjectScript(es, n)[1..] == ProjectScript(es[1..], n);
        assert ProjectScript(fs, n)[1..] == ProjectScript(fs[1..], n);
        VisibleStepAlike(c, s, t, es[0], n);
        ScriptsAlike(c, Step(c, s, es[0]), Step(c, t, es[0]), es[1..], fs[1..], n);
      }
    }
  }

  // --- whole transactions ---

  lemma BeginPcObserved(c: Chain, s: State, sender: Address, call: Call, n: nat)
    requires s.frame.Idle? && Observed(call, n) && Begin(c, s, sender, call).Ok?
    ensures var s1 := Begin(c, s, sender, call).value; s1.frame.Busy? ==> PcObserved(s1.frame.pc, n)
  {
  }

  // Two results of starting a visible call between transactions.
  ghost predicate StartAlike(s: State, t: State, r: Result<State, Error>, q: Result<State, Error>, n: nat) {
    && (r.Ok? <==> q.Ok?)
    && (r.Ok? ==>
          && SameJobs(r.value.core, q.value.core, n) && (r.value.frame.Busy? <==> q.value.frame.Busy?)
          && (r.value.frame.Busy? ==>
                && r.value.frame.pc == q.value.frame.pc
                && r.value.frame.saved == s.core && q.value.frame.saved == t.core)
          && r.value.now == s.now && r.value.height == s.height
          && q.value.now == t.now && q.value.height == t.height
          && r.value.core.store.nextJobId == s.core.store.nextJobId
          && q.value.core.store.nextJobId == t.core.store.nextJobId)
  }

  ghost predicate Together(s: State, t: State, n: nat) {
    s.frame.Idle? && t.frame.Idle? && s.now == t.now && s.height == t.height && SameJobs(s.core, t.core, n)
  }

  // Both runs write the same job, or both reject.
  lemma WritesAlike(s: State, t: State, r: Result<State, Error>, q: Result<State, Error>, id: nat, n: nat)
    requires Together(s, t, n) && (r.Ok? <==> q.Ok?)
    requires r.Ok? ==>
               && JobAt(r.value.core.store, id) == JobAt(q.value.core.store, id)
               && r.value.core.store == s.core.store.(jobs := s.core.store.jobs[id := JobAt(r.value.core.store, id)])
               && q.value.core.store == t.core.store.(jobs := t.core.store.jobs[id := JobAt(r.value.core.store, id)])
               && (r.value.frame.Busy? <==> q.value.frame.Busy?)
               && (r.value.frame.Busy? ==>
                     && r.value.frame.pc == q.value.frame.pc
                     && r.value.frame.saved == s.core && q.value.frame.saved == t.core)
               && r.value.now == s.now && r.value.height == s.height
               && q.value.now == t.now && q.value.height == t.height
    ensures StartAlike(s, t, r, q, n)
  {
    if r.Ok? {
      PutSame(s.core, t.core, r.value.core, q.value.core, id, JobAt(r.value.core.store, id), n);
    }
  }

  lemma SubmitAlike(c: Chain, s: State, t: State, sender: Address, id: nat, a: Address, code: Option<Bytes32>, n: nat)
    requires Together(s, t, n) && id < n && !s.core.store.paused && !t.core.store.paused
    ensures StartAlike(s, t, DoSubmitAttempt(c, s, sender, id, a, code), DoSubmitAttempt(c, t, sender, id, a, code), n)
  {
    assert JobAt(s.core.store, id) == JobAt(t.core.store, id);
    WritesAlike(s, t, DoSubmitAttempt(c, s, sender, id, a, code), DoSubmitAttempt(c, t, sender, id, a, code), id, n);
  }

  lemma LockAlike(c: Chain, s: State, t: State, id: nat, n: nat)
    requires Together(s, t, n) && id < n
    ensures StartAlike(s, t, DoLockRandomness(c, s, id), DoLockRandomness(c, t, id), n)
  {
    assert JobAt(s.core.store, id) == JobAt(t.core.store, id);
    WritesAlike(s, t, DoLockRandomness(c, s, id), DoLockRandomness(c, t, id), id, n);
  }

  lemma OutcomeAlike(c: Chain, s: State, t: State, id: nat, o: Outcome, n: nat)
    requires Together(s, t, n) && id < n
    ensures StartAlike(s, t, ApplyOutcome(c, s, id, o), ApplyOutcome(c, t, id, o), n)
  {
    assert JobAt(s.core.store, id) == JobAt(t.core.store, id);
    WritesAlike(s, t, ApplyOutcome(c, s, id, o), ApplyOutcome(c, t, id, o), id, n);
  }

  lemma VerdictAlike(c: Chain, s: State, t: State, call: Call, n: nat)
    requires Together(s, t, n) && call.SettleAttempt? && call.id < n
    ensures AcceptedVerdict(c, s, call) == AcceptedVerdict(c, t, call)
  {
    assert JobAt(s.core.store, call.id) == JobAt(t.core.store, call.id);
  }

  lemma SettleAlike(c: Chain, s: State, t: State, call: Call, n: nat)
    requires Together(s, t, n) && call.SettleAttempt? && call.id < n
    ensures StartAlike(s, t, DoSettle(c, s, call), DoSettle(c, t, call), n)
  {
    VerdictAlike(c, s, t, call, n);
    if AcceptedVerdict(c, s, call).Ok? {
      OutcomeAlike(c, s, t, call.id, AcceptedVerdict(c, s, call).value.result.outcome, n);
    }
  }

  lemma ClientCallsAlike(s: State, t: State, sender: Address, id: nat, n: nat)
    requires Together(s, t, n) && id < n
    ensures StartAlike(s, t, DoAcceptJob(s, sender, id), DoAcceptJob(t, sender, id), n)
    ensures StartAlike(s, t, DoCancelUnaccepted(s, sender, id), DoCancelUnaccepted(t, sender, id), n)
  {
    assert JobAt(s.core.store, id) == JobAt(t.core.store, id);
    WritesAlike(s, t, DoAcceptJob(s, sender, id), DoAcceptJob(t, sender, id), id, n);
    WritesAlike(s, t, DoCancelUnaccepted(s, sender, id), DoCancelUnaccepted(t, sender, id), id, n);
  }

  lemma PublicCallsAlike(s: State, t: State, id: nat, n: nat, status: Option<nat>)
    requires Together(s, t, n) && id < n
    ensures StartAlike(s, t, DoExpire(s, id), DoExpire(t, id), n)
    ensures StartAlike(s, t, DoRefundExpired(s, id), DoRefundExpired(t, id), n)
    ensures StartAlike(s, t, DoDispatch(s, id, status), DoDispatch(t, id, status), n)
  {
    assert JobAt(s.core.store, id) == JobAt(t.core.store, id);
    WritesAlike(s, t, DoExpire(s, id), DoExpire(t, id), id, n);
    WritesAlike(s, t, DoRefundExpired(s, id), DoRefundExpired(t, id), id, n);
  }

  // How a visible call starts depends on nothing but the job, time and pause.
  lemma BeginAlike(c: Chain, s: State, t: State, sender: Address, call: Call, n: nat)
    requires Together(s, t, n) && Observed(call, n)
    requires call.SubmitAttempt? ==> !s.core.store.paused && !t.core.store.paused
    ensures StartAlike(s, t, Begin(c, s, sender, call), Begin(c, t, sender, call), n)
  {
    match call
    case AcceptJob(id) => ClientCallsAlike(s, t, sender, id, n);
    case CancelUnaccepted(id) => ClientCallsAlike(s, t, sender, id, n);
    case SubmitAttempt(id, a, code) => SubmitAlike(c, s, t, sender, id, a, code, n);
    case LockRandomness(id) => LockAlike(c, s, t, id, n);
    case DispatchVerification(id, status) => PublicCallsAlike(s, t, id, n, status);
    case ExpireVerification(id) => PublicCallsAlike(s, t, id, n, None);
    case SettleAttempt(_, _, _, _, _, _, _, _) => SettleAlike(c, s, t, call, n);
    case RefundExpired(id) => PublicCallsAlike(s, t, id, n, None);
  }

  lemma VisibleTxAlike(c: Chain, s: State, t: State, x: Tx, y: Tx, n: nat)
    requires AlikeIdle(c, s, t, n) && Observed(x.call, n)
    requires y.sender == x.sender && y.call == x.call && ProjectScript(x.script, n) == ProjectScript(y.script, n)
    requires x.call.SubmitAttempt? ==> !s.core.store.paused && !t.core.store.paused
    ensures AlikeIdle(c, ExecTx(c, s, x), ExecTx(c, t, y), n)
  {
    BeginAlike(c, s, t, x.sender, x.call, n);
    if Begin(c, s, x.sender, x.call).Ok? {
      var s1, t1 := Begin(c, s, x.sender, x.call).value, Begin(c, t, x.sender, x.call).value;
      InvokeKeeps(c, s, x.sender, x.call);
      InvokeKeeps(c, t, x.sender, x.call);
      BeginPcObserved(c, s, x.sender, x.call, n);
      assert Alike(c, s1, t1, n);
      ScriptsAlike(c, s1, t1, x.script, y.script, n);
      var s2, t2 := RunBusy(c, s1, x.script), RunBusy(c, t1, y.script);
      if s2.frame.Busy? {
        RollbackKeeps(c, s2);
        RollbackKeeps(c, t2);
      }
    }
  }

  // --- transactions the observer ignores ---

  lemma ReachAlike(c: Chain, s: State, t: State, e: Event, n: nat)
    requires Reaches(e, n) && SameJobs(s.core, t.core, n) && s.now == t.now
    ensures SameJobs(Step(c, s, e).core, Step(c, t, e).core, n)
    ensures ReachKeeps(s, Step(c, s, e)) && ReachKeeps(t, Step(c, t, e))
  {
    var id := CallJob(e.call).value;
    assert JobAt(s.core.store, id) == JobAt(t.core.store, id);
    if Begin(c, s, e.sender, e.call).Ok? {
      PutSame(s.core, t.core, Step(c, s, e).core, Step(c, t, e).core, id, JobAt(Step(c, s, e).core.store, id), n);
    }
  }

  predicate ReachKeeps(s: State, s': State) {
    s'.frame == s.frame && s'.now == s.now && s'.height == s.height && s'.core.store.nextJobId == s.core.store.nextJobId
  }

  // Observed jobs that agree still do after the same nested calls.
  lemma {:induction false} ReachRunAlike(c: Chain, s: State, t: State, es: seq<Event>, n: nat)
    requires SameJobs(s.core, t.core, n) && s.now == t.now && forall i | 0 <= i < |es| :: Reaches(es[i], n)
    ensures SameJobs(Run(c, s, es).core, Run(c, t, es).core, n)
    ensures ReachKeeps(s, Run(c, s, es))
    decreases |es|
  {
    if |es| > 0 {
      ReachAlike(c, s, t, es[0], n);
      ReachRunAlike(c, Step(c, s, es[0]), Step(c, t, es[0]), es[1..], n);
    }
  }

  // Inside a call on no observed job: observed jobs are as they were before it but for
  // the nested calls made so far.
  ghost predicate Elsewhere(c: Chain, base: State, sofar: seq<Event>, s: State, n: nat) {
    && SameJobs(Run(c, base, sofar).core, s.core, n) && (forall i | 0 <= i < |sofar| :: Reaches(sofar[i], n))
    && base.frame.Idle? && n <= base.core.store.nextJobId <= s.core.store.nextJobId
    && s.now == base.now && s.height == base.height
    && (s.frame.Busy? ==> !PcObserved(s.frame.pc, n) && s.frame.saved == base.core)
  }

  lemma ElsewhereStep(c: Chain, base: State, sofar: seq<Event>, s: State, e: Event, n: nat)
    requires Elsewhere(c, base, sofar, s, n) && s.frame.Busy? && !Reaches(e, n)
    requires Step(c, s, e) != Rollback(s)
    ensures Elsewhere(c, base, sofar, Step(c, s, e), n)
  {
    if !VisibleEvent(e, n) {
      InvisibleStep(c, s, e, n);
    } else if e.Proceed? {
      ElsewhereResume(c, s, e.instructionId, n);
    } else if e.Invoke? {
      assert Step(c, s, e) == s;
    }
  }

  lemma ElsewhereResume(c: Chain, s: State, instructionId: Bytes32, n: nat)
    requires s.frame.Busy? && !PcObserved(s.frame.pc, n) && Resume(c, s, instructionId) != Rollback(s)
    requires n <= s.core.store.nextJobId
    ensures var s' := Resume(c, s, instructionId);
            && SameJobs(s.core, s'.core, n) && s'.now == s.now && s'.height == s.height
            && s.core.store.nextJobId <= s'.core.store.nextJobId
            && (s'.frame.Busy? ==> !PcObserved(s'.frame.pc, n) && s'.frame.saved == s.frame.saved)
  {
  }

  lemma ElsewhereReach(c: Chain, base: State, sofar: seq<Event>, s: State, e: Event, n: nat)
    requires Elsewhere(c, base, sofar, s, n) && s.frame.Busy? && Reaches(e, n)
    ensures Elsewhere(c, base, sofar + [e], Step(c, s, e), n) && Step(c, s, e).frame.Busy?
  {
    var t := Run(c, base, sofar);
    ReachRunAlike(c, base, base, sofar, n);
    ReachAlike(c, t, s, e, n);
    RunConcat(c, base, sofar, [e]);
    assert Run(c, t, [e]) == Run(c, Step(c, t, e), []);
    assert forall i | 0 <= i < |sofar + [e]| :: Reaches((sofar + [e])[i], n);
  }

  // When the transaction is over, exactly the nested calls Inside reports have been made.
  lemma {:induction false} ElsewhereScript(c: Chain, base: State, sofar: seq<Event>, s: State, es: seq<Event>, n: nat)
    requires Elsewhere(c, base, sofar, s, n) && s.frame.Busy?
    ensures var s2 := RunBusy(c, s, es); var calls := Inside(c, s, es, n, sofar);
            var end := if s2.frame.Busy? then Rollback(s2) else s2;
            Elsewhere(c, base, calls, end, n) && end.frame.Idle?
    decreases |es|
  {
    if |es| == 0 {
    } else {
      var s' := Step(c, s, es[0]);
      if Reaches(es[0], n) {
        ElsewhereReach(c, base, sofar, s, es[0], n);
        ElsewhereScript(c, base, sofar + [es[0]], s', es[1..], n);
      } else if s' == Rollback(s) {
        assert RunBusy(c, s', es[1..]) == s';
      } else {
        ElsewhereStep(c, base, sofar, s, es[0], n);
        if s'.frame.Busy? {
          ElsewhereScript(c, base, sofar, s', es[1..], n);
        } else {
          assert RunBusy(c, s', es[1..]) == s';
        }
      }
    }
  }

  lemma BeginElsewhere(c: Chain, s: State, sender: Address, call: Call, n: nat)
    requires s.frame.Idle? && !Observed(call, n) && n <= s.core.store.nextJobId && Begin(c, s, sender, call).Ok?
    ensures Elsewhere(c, s, [], Begin(c, s, sender, call).value, n)
  {
    if IsConfigCall(call) {
      ConfigElsewhere(c, s, sender, call, n);
    } else if CallJob(call).Some? {
      LaterJobElsewhere(c, s, sender, call, n);
    }
  }

  lemma LaterJobElsewhere(c: Chain, s: State, sender: Address, call: Call, n: nat)
    requires CallJob(call).Some? && CallJob(call).value >= n && s.frame.Idle? && n <= s.core.store.nextJobId
    requires Begin(c, s, sender, call).Ok?
    ensures Elsewhere(c, s, [], Begin(c, s, sender, call).value, n)
  {
    var s' := Begin(c, s, sender, call).value;
    var id := CallJob(call).value;
    OneJobWritten(c, s, sender, call);
    forall k: nat | k < n ensures JobAt(s.core.store, k) == JobAt(s'.core.store, k) {}
  }

  // A call on a job writes that job only, and suspends in a call on that job.
  lemma OneJobWritten(c: Chain, s: State, sender: Address, call: Call)
    requires CallJob(call).Some? && s.frame.Idle? && Begin(c, s, sender, call).Ok?
    ensures var s' := Begin(c, s, sender, call).value; var id := CallJob(call).value;
            && (s'.core.store.jobs == s.core.store.jobs
                || s'.core.store.jobs == s.core.store.jobs[id := JobAt(s'.core.store, id)])
            && s'.core.store.nextJobId == s.core.store.nextJobId
            && s'.now == s.now && s'.height == s.height
            && (s'.frame.Busy? ==>
                  && s'.frame.saved == s.core
                  && (s'.frame.pc == Sending(id) || (s'.frame.pc.Paying? && s'.frame.pc.id == id)))
  {
  }

  lemma ConfigElsewhere(c: Chain, s: State, sender: Address, call: Call, n: nat)
    requires IsConfigCall(call) && s.frame.Idle? && n <= s.core.store.nextJobId && Begin(c, s, sender, call).Ok?
    ensures Elsewhere(c, s, [], Begin(c, s, sender, call).value, n)
  {
    var s' := Begin(c, s, sender, call).value;
    assert s'.core.store.jobs == s.core.store.jobs && s'.core.store.nextJobId == s.core.store.nextJobId;
  }

  // An ignored item leaves observed jobs as its nested calls alone would.
  lemma IgnoredItem(c: Chain, s: State, x: Item, n: nat)
    requires s.frame.Idle? && n <= s.core.store.nextJobId && !VisibleItem(x, n)
    ensures Elsewhere(c, s, InsideItem(c, s, x, n), ExecItem(c, s, x), n)
  {
    if x.Transaction? && Begin(c, s, x.tx.sender, x.tx.call).Ok? {
      var s1 := Begin(c, s, x.tx.sender, x.tx.call).value;
      BeginElsewhere(c, s, x.tx.sender, x.tx.call, n);
      if s1.frame.Busy? {
        ElsewhereScript(c, s, [], s1, x.tx.script, n);
      }
    }
  }

  // --- the two-run theorem ---

  lemma VisibleItemAlike(c: Chain, s: State, t: State, x: Item, y: Item, n: nat)
    requires AlikeIdle(c, s, t, n) && VisibleItem(x, n) && ProjectItem(x, n) == ProjectItem(y, n)
    requires x.Transaction? && x.tx.call.SubmitAttempt? ==> !s.core.store.paused && !t.core.store.paused
    ensures AlikeIdle(c, ExecItem(c, s, x), ExecItem(c, t, y), n)
  {
    match x
    case Transaction(tx) => VisibleTxAlike(c, s, t, tx, y.tx, n);
    case Time(now, height) =>
      ExecItemKeeps(c, s, x);
      ExecItemKeeps(c, t, y);
  }

  lemma IgnoredItemAlike(c: Chain, s: State, t: State, x: Item, n: nat)
    requires AlikeIdle(c, s, t, n) && !VisibleItem(x, n) && InsideItem(c, s, x, n) == []
    ensures AlikeIdle(c, ExecItem(c, s, x), t, n) && AlikeIdle(c, t, ExecItem(c, s, x), n)
  {
    IgnoredItem(c, s, x, n);
    ExecItemKeeps(c, s, x);
  }

  // Two ignored transactions with the same nested calls on observed jobs.
  lemma NestedItemsAlike(c: Chain, s: State, t: State, x: Item, y: Item, n: nat)
    requires AlikeIdle(c, s, t, n) && !VisibleItem(x, n) && !VisibleItem(y, n)
    requires InsideItem(c, s, x, n) == InsideItem(c, t, y, n)
    ensures AlikeIdle(c, ExecItem(c, s, x), ExecItem(c, t, y), n)
  {
    IgnoredItem(c, s, x, n);
    IgnoredItem(c, t, y, n);
    ReachRunAlike(c, s, t, InsideItem(c, s, x, n), n);
    ExecItemKeeps(c, s, x);
    ExecItemKeeps(c, t, y);
  }

  // Runs that show an observer the same keep every observed job the same, whatever the
  // owner and the other jobs do in either of them.
  lemma {:induction false} OwnerCannotInterfere(c: Chain, s: State, t: State, xs: seq<Item>, ys: seq<Item>, n: nat)
    requires AlikeIdle(c, s, t, n) && Project(c, s, xs, n) == Project(c, t, ys, n)
    requires Unblocked(c, s, xs, n) && Unblocked(c, t, ys, n)
    ensures AlikeIdle(c, RunItems(c, s, xs), RunItems(c, t, ys), n)
    decreases |xs| + |ys|
  {
    if |xs| > 0 && !VisibleItem(xs[0], n) && InsideItem(c, s, xs[0], n) == [] {
      IgnoredItemAlike(c, s, t, xs[0], n);
      OwnerCannotInterfere(c, ExecItem(c, s, xs[0]), t, xs[1..], ys, n);
    } else if |ys| > 0 && !VisibleItem(ys[0], n) && InsideItem(c, t, ys[0], n) == [] {
      IgnoredItemAlike(c, t, s, ys[0], n);
      OwnerCannotInterfere(c, s, ExecItem(c, t, ys[0]), xs, ys[1..], n);
    } else if |xs| > 0 && |ys| > 0 {
      SeenFirst(c, s, xs, n);
      SeenFirst(c, t, ys, n);
      if VisibleItem(xs[0], n) {
        VisibleItemAlike(c, s, t, xs[0], ys[0], n);
      } else {
        NestedItemsAlike(c, s, t, xs[0], ys[0], n);
      }
      OwnerCannotInterfere(c, ExecItem(c, s, xs[0]), ExecItem(c, t, ys[0]), xs[1..], ys[1..], n);
    }
  }

  function SightOf(c: Chain, s: State, x: Item, n: nat): Sight {
    if VisibleItem(x, n) then Whole(ProjectItem(x, n)) else Nested(InsideItem(c, s, x, n))
  }

  lemma SeenFirst(c: Chain, s: State, xs: seq<Item>, n: nat)
    requires |xs| > 0 && (VisibleItem(xs[0], n) || InsideItem(c, s, xs[0], n) != [])
    ensures var p := Project(c, s, xs, n);
            |p| > 0 && p[0] == SightOf(c, s, xs[0], n) && p[1..] == Project(c, ExecItem(c, s, xs[0]), xs[1..], n)
  {
  }

  lemma AlikePayouts(c: Chain, s: State, t: State, n: nat, id: nat)
    requires AlikeIdle(c, s, t, n) && id < n
    ensures JobAt(s.core.store, id) == JobAt(t.core.store, id)
    ensures PayoutsOf(s.core.hist.payouts, id) == PayoutsOf(t.core.hist.payouts, id)
  {
    IdlePayouts(c, s, id);
    IdlePayouts(c, t, id);
  }

  // In particular, from one state: same job, same payouts.
  lemma OwnerNonInterference(c: Chain, s: State, xs: seq<Item>, ys: seq<Item>, id: nat)
    requires Inv(c, s) && s.frame.Idle? && id < s.core.store.nextJobId
    requires var n := s.core.store.nextJobId;
             && Project(c, s, xs, n) == Project(c, s, ys, n)
             && Unblocked(c, s, xs, n) && Unblocked(c, s, ys, n)
    ensures var s', t' := RunItems(c, s, xs), RunItems(c, s, ys);
            && JobAt(s'.core.store, id) == JobAt(t'.core.store, id)
            && PayoutsOf(s'.core.hist.payouts, id) == PayoutsOf(t'.core.hist.payouts, id)
  {
    var n := s.core.store.nextJobId;
    OwnerCannotInterfere(c, s, s, xs, ys, n);
    AlikePayouts(c, RunItems(c, s, xs), RunItems(c, s, ys), n, id);
  }
}
