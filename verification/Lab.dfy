// The pre-build lab model of one job and its ledger, and the proof that the
// escrow contract simulates it.
module Lab {
  import opened Base

  datatype LabState = Created | Accepted | AwaitingResubmission | Retryable | Paid | Cancelled | Refunded
  datatype LabOutcome = Pass | Fail | Inconclusive | Unknown(code: nat)

  datatype LabVerdict = LabVerdict(teeId: Address, attempt: Uint64, expiresAt: Uint64, outcome: LabOutcome)

  // A job with its ledger, as a value.
  datatype Lab = Lab(
    expectedTee: Address, principal: nat, fee: nat, submitBy: Uint64, graceEnds: Uint64,
    state: LabState, attempt: Uint64, settled: bool,
    toClient: nat, toContractor: nat, toTreasury: nat)

  datatype Op = Accept | Submit(now: nat) | Settle(now: nat, v: LabVerdict) | Cancel(now: nat) | Refund(now: nat)

  // None is a returned error, which changes nothing.
  function Apply(l: Lab, op: Op): Option<Lab> {
    match op
    case Accept => if !l.state.Created? then None else Some(l.(state := Accepted))
    case Submit(now) =>
      if !l.state.Accepted? && !l.state.AwaitingResubmission? && !l.state.Retryable? then None
      else if now > l.submitBy then None
      else Some(l.(attempt := (l.attempt + 1) % TWO64))
    case Settle(now, v) =>
      if l.settled then None
      else (match v.outcome
            case Pass =>
              if v.teeId != l.expectedTee || v.attempt != l.attempt || v.expiresAt < now then None
              else Some(l.(state := Paid, settled := true, toContractor := l.toContractor + l.principal,
                           toTreasury := l.toTreasury + l.fee))
            case Fail => Some(l.(state := AwaitingResubmission))
            case Inconclusive => Some(l.(state := Retryable))
            case Unknown(_) => None)
    case Cancel(now) =>
      if !l.state.Created? || now > l.submitBy then None
      else Some(l.(state := Cancelled, settled := true, toClient := l.toClient + (l.principal + l.fee)))
    case Refund(now) =>
      if l.settled || now <= l.graceEnds then None
      else Some(l.(state := Refunded, settled := true, toClient := l.toClient + (l.principal + l.fee)))
  }

  function NewLab(tee: Address, principal: nat, fee: nat, submitBy: Uint64, graceEnds: Uint64): Lab {
    Lab(tee, principal, fee, submitBy, graceEnds, Created, 0, false, 0, 0, 0)
  }

  // When an operation succeeds: a pass needs the pinned TEE, the current attempt and a
  // verdict that has not expired; other outcomes need none of that.
  predicate Allowed(l: Lab, op: Op) {
    match op
    case Accept => l.state.Created?
    case Submit(now) =>
      (l.state.Accepted? || l.state.AwaitingResubmission? || l.state.Retryable?) && now <= l.submitBy
    case Settle(now, v) =>
      && !l.settled && !v.outcome.Unknown?
      && (v.outcome.Pass? ==> v.teeId == l.expectedTee && v.attempt == l.attempt && now <= v.expiresAt)
    case Cancel(now) => l.state.Created? && now <= l.submitBy
    case Refund(now) => !l.settled && now > l.graceEnds
  }

  // The books of a job: everything it was funded with is paid to whom its state
  // entitles, or nothing has been.
  predicate Balanced(l: Lab) {
    && (l.settled <==> l.state.Paid? || l.state.Cancelled? || l.state.Refunded?)
    && l.toContractor == (if l.state.Paid? then l.principal else 0)
    && l.toTreasury == (if l.state.Paid? then l.fee else 0)
    && l.toClient == if l.state.Cancelled? || l.state.Refunded? then l.principal + l.fee else 0
  }

  // Operations in a row; one that fails changes nothing.
  function ApplyAll(l: Lab, ops: seq<Op>): Lab {
    if |ops| == 0 then l
    else
      var before := ApplyAll(l, ops[..|ops| - 1]);
      match Apply(before, ops[|ops| - 1])
      case None => before
      case Some(after) => after
  }

  lemma SucceedsExactly(l: Lab, op: Op)
    ensures Apply(l, op).Some? <==> Allowed(l, op)
  {
  }

  lemma StaysBalanced(l: Lab, op: Op)
    requires Balanced(l) && Apply(l, op).Some?
    ensures Balanced(Apply(l, op).value)
    ensures var k := Apply(l, op).value;
            && k.expectedTee == l.expectedTee && k.principal == l.principal && k.fee == l.fee
            && k.submitBy == l.submitBy && k.graceEnds == l.graceEnds
            && (l.settled ==> k == l)
            && (op.Accept? ==> k == l.(state := Accepted))
            && (op.Submit? ==> k == l.(attempt := (l.attempt + 1) % TWO64))
            && (op.Settle? ==> k.attempt == l.attempt && k.state == match op.v.outcome
                                                           case Pass => Paid
                                                           case Fail => AwaitingResubmission
                                                           case _ => Retryable)
            && (op.Cancel? ==> k.state.Cancelled?) && (op.Refund? ==> k.state.Refunded?)
  {
  }

  // Whatever is tried on a job and in whatever order, its books balance, so nothing is
  // paid twice.
  lemma {:induction false} AlwaysBalanced(tee: Address, principal: nat, fee: nat, submitBy: Uint64, graceEnds: Uint64,
                                          ops: seq<Op>)
    ensures var l := ApplyAll(NewLab(tee, principal, fee, submitBy, graceEnds), ops);
            && Balanced(l) && l.principal == principal && l.fee == fee && l.expectedTee == tee
  {
    if |ops| > 0 {
      var front := ops[..|ops| - 1];
      AlwaysBalanced(tee, principal, fee, submitBy, graceEnds, front);
      var before := ApplyAll(NewLab(tee, principal, fee, submitBy, graceEnds), front);
      if Apply(before, ops[|ops| - 1]).Some? {
        StaysBalanced(before, ops[|ops| - 1]);
      }
    }
  }

  // --- the lab's objects ---

  class Ledger {
    var client: nat
    var contractor: nat
    var treasury: nat

    constructor ()
      ensures fresh(this) && client == 0 && contractor == 0 && treasury == 0
    {
      client, contractor, treasury := 0, 0, 0;
    }
  }

  class Job {
    const expectedTee: Address
    const principal: nat
    const fee: nat
    const submitBy: Uint64
    const graceEnds: Uint64
    var state: LabState
    var attempt: Uint64
    var settled: bool

    constructor (tee: Address, principal: nat, fee: nat, submitBy: Uint64, graceEnds: Uint64)
      ensures fresh(this)
      ensures forall ledger: Ledger | ledger.client == 0 && ledger.contractor == 0 && ledger.treasury == 0 ::
                Abs(ledger) == NewLab(tee, principal, fee, submitBy, graceEnds)
    {
      this.expectedTee, this.principal, this.fee := tee, principal, fee;
      this.submitBy, this.graceEnds := submitBy, graceEnds;
      state, attempt, settled := Created, 0, false;
    }

    ghost function Abs(ledger: Ledger): Lab
      reads this, ledger
    {
      Lab(expectedTee, principal, fee, submitBy, graceEnds, state, attempt, settled,
          ledger.client, ledger.contractor, ledger.treasury)
    }

    method Accept(ghost ledger: Ledger) returns (ok: bool)
      modifies this
      ensures ok <==> Apply(old(Abs(ledger)), Op.Accept).Some?
      ensures Abs(ledger) == if ok then Apply(old(Abs(ledger)), Op.Accept).value else old(Abs(ledger))
    {
      if state != Created {
        return false;
      }
      state := Accepted;
      return true;
    }

    method Submit(now: nat, ghost ledger: Ledger) returns (ok: bool)
      modifies this
      ensures ok <==> Apply(old(Abs(ledger)), Op.Submit(now)).Some?
      ensures Abs(ledger) == if ok then Apply(old(Abs(ledger)), Op.Submit(now)).value else old(Abs(ledger))
    {
      if state != Accepted && state != AwaitingResubmission && state != Retryable {
        return false;
      }
      if now > submitBy {
        return false;
      }
      attempt := (attempt + 1) % TWO64;
      return true;
    }

    method Settle(now: nat, v: LabVerdict, ledger: Ledger) returns (ok: bool)
      modifies this, ledger
      ensures ok <==> Apply(old(Abs(ledger)), Op.Settle(now, v)).Some?
      ensures Abs(ledger) == if ok then Apply(old(Abs(ledger)), Op.Settle(now, v)).value else old(Abs(ledger))
    {
      if settled {
        return false;
      }
      if v.outcome == Pass {
        if v.teeId != expectedTee || v.attempt != attempt || v.expiresAt < now {
          return false;
        }
        state, settled := Paid, true;
        ledger.contractor := ledger.contractor + principal;
        ledger.treasury := ledger.treasury + fee;
        return true;
      }
      if v.outcome == Fail {
        state := AwaitingResubmission;
        return true;
      }
      if v.outcome == Inconclusive {
        state := Retryable;
        return true;
      }
      return false;
    }

    method Cancel(now: nat, ledger: Ledger) returns (ok: bool)
      modifies this, ledger
      ensures ok <==> Apply(old(Abs(ledger)), Op.Cancel(now)).Some?
      ensures Abs(ledger) == if ok then Apply(old(Abs(ledger)), Op.Cancel(now)).value else old(Abs(ledger))
    {
      if state != Created || now > submitBy {
        return false;
      }
      state, settled := Cancelled, true;
      ledger.client := ledger.client + (principal + fee);
      return true;
    }

    method Refund(now: nat, ledger: Ledger) returns (ok: bool)
      modifies this, ledger
      ensures ok <==> Apply(old(Abs(ledger)), Op.Refund(now)).Some?
      ensures Abs(ledger) == if ok then Apply(old(Abs(ledger)), Op.Refund(now)).value else old(Abs(ledger))
    {
      if settled || now <= graceEnds {
        return false;
      }
      state, settled := Refunded, true;
      ledger.client := ledger.client + (principal + fee);
      return true;
    }
  }
}

module LabSimulation {
  import opened Base
  import R = Records
  import opened EscrowMachine
  import opened EscrowInvariant
  import opened Deployment
  import L = Lab

  // Which lab states stand for an escrow state. The lab has no randomness or
  // dispatch, so an attempt in progress is the state it was submitted from.
  predicate StateMatches(j: R.Job, now: nat, l: L.Lab) {
    match j.state
    case Created => l.state.Created?
    case Accepted => l.state.Accepted?
    case AwaitingResubmission => l.state.AwaitingResubmission?
    case Retryable => l.state.Retryable?
    case RefundPending => (l.state.AwaitingResubmission? || l.state.Retryable?) && now > l.submitBy
    case Paid => l.state.Paid?
    case Cancelled => l.state.Cancelled?
    case Refunded => l.state.Refunded?
    case _ => l.state.Accepted? || l.state.AwaitingResubmission? || l.state.Retryable?
  }

  predicate LedgerMatches(j: R.Job, l: L.Lab) {
    && l.toContractor == (if j.state.Paid? then j.terms.principal as nat else 0)
    && l.toTreasury == (if j.state.Paid? then j.terms.fee as nat else 0)
    && l.toClient == (if j.state.Cancelled? || j.state.Refunded? then Refund(j.terms) else 0)
  }

  predicate Matches(j: R.Job, now: nat, l: L.Lab) {
    && l.expectedTee == j.terms.expectedTee && l.principal == j.terms.principal && l.fee == j.terms.fee
    && l.submitBy == j.terms.submitBy && l.graceEnds == j.terms.graceEnds
    && l.attempt == j.current.attempt && l.settled == j.settled
    && StateMatches(j, now, l) && LedgerMatches(j, l)
  }

  function LabOutcomeOf(o: R.Outcome): L.LabOutcome {
    match o
    case Pass => L.LabOutcome.Pass
    case Fail => L.LabOutcome.Fail
    case Inconclusive => L.LabOutcome.Inconclusive
  }

  // The lab operation an event amounts to for job id, if any.
  function OpFor(c: Chain, s: State, e: Event, id: nat): Option<L.Op> {
    if !e.Invoke? || Begin(c, s, e.sender, e.call).Err? then None
    else match e.call
      case AcceptJob(k) => if k == id then Some(L.Accept) else None
      case CancelUnaccepted(k) => if k == id then Some(L.Cancel(s.now)) else None
      case SubmitAttempt(k, _, _) => if k == id then Some(L.Submit(s.now)) else None
      case ExpireVerification(k) =>
        if k != id then None
        else
          var j := JobAt(s.core.store, id);
          Some(L.Settle(s.now, L.LabVerdict(j.terms.expectedTee, j.current.attempt, j.terms.graceEnds,
                                            L.LabOutcome.Inconclusive)))
      case SettleAttempt(k, _, _, _, _, _, _, _) =>
        if k != id || AcceptedVerdict(c, s, e.call).Err? then None
        else
          var v := AcceptedVerdict(c, s, e.call).value;
          Some(L.Settle(s.now, L.LabVerdict(JobAt(s.core.store, id).terms.expectedTee, v.id.attempt,
                                            v.result.expiresAt, LabOutcomeOf(v.result.outcome))))
      case RefundExpired(k) => if k == id then Some(L.Refund(s.now)) else None
      case _ => None
  }

  // The lab run alongside the escrow. The lab cannot revert, so the copy from
  // before the open transaction is kept for that.
  datatype Shadow = Shadow(lab: L.Lab, saved: L.Lab)

  ghost function Follow(c: Chain, s: State, e: Event, id: nat, sh: Shadow): Option<Shadow> {
    if s.frame.Busy? && Step(c, s, e) == Rollback(s) then Some(Shadow(sh.saved, sh.saved))
    else
      var saved := if s.frame.Idle? then sh.lab else sh.saved;
      match OpFor(c, s, e, id)
      case None => Some(Shadow(sh.lab, saved))
      case Some(op) =>
        match L.Apply(sh.lab, op)
        case None => None
        case Some(lab) => Some(Shadow(lab, saved))
  }

  ghost predicate Sim(c: Chain, s: State, id: nat, sh: Shadow) {
    && Inv(c, s) && id < s.core.store.nextJobId && Matches(JobAt(s.core.store, id), s.now, sh.lab)
    && (s.frame.Busy? ==>
          id < s.frame.saved.store.nextJobId && Matches(JobAt(s.frame.saved.store, id), s.now, sh.saved))
  }

  // The one thing the escrow allows and the lab does not: cancelling after submitBy.
  predicate LateCancel(c: Chain, s: State, e: Event, id: nat) {
    && e.Invoke? && e.call == CancelUnaccepted(id) && Begin(c, s, e.sender, e.call).Ok?
    && s.now > JobAt(s.core.store, id).terms.submitBy
  }

  lemma MatchesLater(c: Chain, j: R.Job, now: nat, later: nat, l: L.Lab)
    requires Matches(j, now, l) && now <= later
    ensures Matches(j, later, l)
  {
  }

  // The calls that settle or close a job, and the earlier ones the lab has too.
  predicate Closes(call: Call) { call.ExpireVerification? || call.SettleAttempt? || call.RefundExpired? }
  predicate Opens(call: Call) { call.AcceptJob? || call.CancelUnaccepted? || call.SubmitAttempt? }

  // A call on another job, or one the lab does not have, leaves this job's match alone.
  lemma OtherCalls(c: Chain, s: State, sender: Address, call: Call, id: nat, l: L.Lab)
    requires Matches(JobAt(s.core.store, id), s.now, l) && Begin(c, s, sender, call).Ok?
    requires OpFor(c, s, Invoke(sender, call), id).None?
    ensures Matches(JobAt(Begin(c, s, sender, call).value.core.store, id), s.now, l)
  {
    if Closes(call) {
      OtherClosing(c, s, sender, call, id);
    } else if Opens(call) {
      OtherOpening(c, s, sender, call, id);
    } else {
      CallsTheLabLacks(c, s, sender, call, id, l);
    }
  }

  lemma OtherClosing(c: Chain, s: State, sender: Address, call: Call, id: nat)
    requires Begin(c, s, sender, call).Ok? && Closes(call) && OpFor(c, s, Invoke(sender, call), id).None?
    ensures JobAt(Begin(c, s, sender, call).value.core.store, id) == JobAt(s.core.store, id)
  {
  }

  lemma OtherOpening(c: Chain, s: State, sender: Address, call: Call, id: nat)
    requires Begin(c, s, sender, call).Ok? && Opens(call) && OpFor(c, s, Invoke(sender, call), id).None?
    ensures JobAt(Begin(c, s, sender, call).value.core.store, id) == JobAt(s.core.store, id)
  {
  }

  lemma CallsTheLabLacks(c: Chain, s: State, sender: Address, call: Call, id: nat, l: L.Lab)
    requires Matches(JobAt(s.core.store, id), s.now, l) && Begin(c, s, sender, call).Ok?
    requires !Closes(call) && !Opens(call)
    ensures Matches(JobAt(Begin(c, s, sender, call).value.core.store, id), s.now, l)
  {
  }

  lemma SettleMatches(c: Chain, s: State, call: Call, id: nat, l: L.Lab)
    requires call.SettleAttempt? && call.id == id && AcceptedVerdict(c, s, call).Ok? && DoSettle(c, s, call).Ok?
    requires Matches(JobAt(s.core.store, id), s.now, l) && !JobAt(s.core.store, id).settled
    ensures var v := AcceptedVerdict(c, s, call).value;
            var op := L.Settle(s.now, L.LabVerdict(JobAt(s.core.store, id).terms.expectedTee, v.id.attempt,
                                                   v.result.expiresAt, LabOutcomeOf(v.result.outcome)));
            && L.Apply(l, op).Some?
            && Matches(JobAt(DoSettle(c, s, call).value.core.store, id), s.now, L.Apply(l, op).value)
  {
    var v := AcceptedVerdict(c, s, call).value;
    OutcomeMatchesLab(c, s, id, v.result.outcome, l);
  }

  lemma OutcomeMatchesLab(c: Chain, s: State, id: nat, o: R.Outcome, l: L.Lab)
    requires Matches(JobAt(s.core.store, id), s.now, l) && JobAt(s.core.store, id).state.Verifying?
    requires !l.settled && s.now <= l.graceEnds && ApplyOutcome(c, s, id, o).Ok?
    ensures var op := L.Settle(s.now, L.LabVerdict(l.expectedTee, l.attempt, l.graceEnds, LabOutcomeOf(o)));
            && L.Apply(l, op).Some?
            && Matches(JobAt(ApplyOutcome(c, s, id, o).value.core.store, id), s.now, L.Apply(l, op).value)
  {
  }

  // A call on the job is matched by its lab operation, unless it cancels late.
  lemma CallMatches(c: Chain, s: State, sender: Address, call: Call, id: nat, l: L.Lab)
    requires Inv(c, s) && id < s.core.store.nextJobId && Matches(JobAt(s.core.store, id), s.now, l)
    requires Begin(c, s, sender, call).Ok? && OpFor(c, s, Invoke(sender, call), id).Some?
    ensures CallFollowed(c, s, sender, call, id, l)
  {
    UnknownJobIsZero(c, s, id);
    if call.SettleAttempt? {
      AcceptedIsTimely(c, s, call);
      SettleMatches(c, s, call, id, l);
    } else if Opens(call) {
      OpeningMatches(c, s, sender, call, id, l);
    } else {
      ClosingMatches(c, s, sender, call, id, l);
    }
  }

  // The lab's operation, where the call is not a late cancellation, and what it leaves.
  predicate CallFollowed(c: Chain, s: State, sender: Address, call: Call, id: nat, l: L.Lab)
    requires Begin(c, s, sender, call).Ok? && OpFor(c, s, Invoke(sender, call), id).Some?
  {
    var op := OpFor(c, s, Invoke(sender, call), id).value;
    && (L.Apply(l, op).Some? <==> !LateCancel(c, s, Invoke(sender, call), id))
    && (L.Apply(l, op).Some? ==>
          Matches(JobAt(Begin(c, s, sender, call).value.core.store, id), s.now, L.Apply(l, op).value))
  }

  lemma OpeningMatches(c: Chain, s: State, sender: Address, call: Call, id: nat, l: L.Lab)
    requires Inv(c, s) && id < s.core.store.nextJobId && Matches(JobAt(s.core.store, id), s.now, l)
    requires Begin(c, s, sender, call).Ok? && OpFor(c, s, Invoke(sender, call), id).Some? && Opens(call)
    ensures CallFollowed(c, s, sender, call, id, l)
  {
    UnknownJobIsZero(c, s, id);
  }

  lemma ClosingMatches(c: Chain, s: State, sender: Address, call: Call, id: nat, l: L.Lab)
    requires Inv(c, s) && id < s.core.store.nextJobId && Matches(JobAt(s.core.store, id), s.now, l)
    requires Begin(c, s, sender, call).Ok? && OpFor(c, s, Invoke(sender, call), id).Some?
    requires call.ExpireVerification? || call.RefundExpired?
    ensures CallFollowed(c, s, sender, call, id, l)
  {
    UnknownJobIsZero(c, s, id);
  }

  lemma ResumeMatches(c: Chain, s: State, instructionId: Bytes32, id: nat, l: L.Lab)
    requires Inv(c, s) && s.frame.Busy? && id < s.core.store.nextJobId
    requires Matches(JobAt(s.core.store, id), s.now, l) && Resume(c, s, instructionId) != Rollback(s)
    ensures Matches(JobAt(Resume(c, s, instructionId).core.store, id), s.now, l)
    ensures id < Resume(c, s, instructionId).core.store.nextJobId
  {
  }

  lemma BeginShape(c: Chain, s: State, sender: Address, call: Call)
    requires Begin(c, s, sender, call).Ok?
    ensures var s' := Begin(c, s, sender, call).value;
            && s'.now == s.now && s'.core.store.nextJobId == s.core.store.nextJobId
            && (s.frame.Busy? ==> s'.frame == s.frame)
            && (s.frame.Idle? && s'.frame.Busy? ==> s'.frame.saved == s.core)
  {
  }

  // One step: the lab follows exactly when the escrow does not cancel late.
  lemma StepSim(c: Chain, s: State, e: Event, id: nat, sh: Shadow)
    requires Sim(c, s, id, sh)
    ensures Follow(c, s, e, id, sh).Some? <==> !LateCancel(c, s, e, id)
    ensures Follow(c, s, e, id, sh).Some? ==> Sim(c, Step(c, s, e), id, Follow(c, s, e, id, sh).value)
  {
    StepKeeps(c, s, e);
    if s.frame.Busy? && Step(c, s, e) == Rollback(s) {
      RollbackSim(c, s, e, id, sh);
    } else {
      match e
      case Invoke(sender, call) => InvokeSim(c, s, sender, call, id, sh);
      case Proceed(instructionId) => if s.frame.Busy? { ResumeSim(c, s, instructionId, id, sh); }
      case Tick(now, _) =>
        if s.frame.Idle? && now >= s.now { MatchesLater(c, JobAt(s.core.store, id), s.now, now, sh.lab); }
      case _ =>
    }
  }

  lemma InvokeSim(c: Chain, s: State, sender: Address, call: Call, id: nat, sh: Shadow)
    requires Sim(c, s, id, sh) && Inv(c, Step(c, s, Invoke(sender, call)))
    requires !(s.frame.Busy? && Step(c, s, Invoke(sender, call)) == Rollback(s))
    ensures var e := Invoke(sender, call);
            && (Follow(c, s, e, id, sh).Some? <==> !LateCancel(c, s, e, id))
            && (Follow(c, s, e, id, sh).Some? ==> Sim(c, Step(c, s, e), id, Follow(c, s, e, id, sh).value))
  {
    var e := Invoke(sender, call);
    if Begin(c, s, sender, call).Ok? {
      BeginShape(c, s, sender, call);
      if OpFor(c, s, e, id).Some? {
        CallMatches(c, s, sender, call, id, sh.lab);
      } else {
        OtherCalls(c, s, sender, call, id, sh.lab);
      }
    }
  }

  lemma RollbackSim(c: Chain, s: State, e: Event, id: nat, sh: Shadow)
    requires Sim(c, s, id, sh) && s.frame.Busy? && Step(c, s, e) == Rollback(s)
    ensures !LateCancel(c, s, e, id) && Sim(c, Rollback(s), id, Shadow(sh.saved, sh.saved))
  {
    RollbackKeeps(c, s);
  }

  lemma ResumeSim(c: Chain, s: State, instructionId: Bytes32, id: nat, sh: Shadow)
    requires Sim(c, s, id, sh) && s.frame.Busy? && Resume(c, s, instructionId) != Rollback(s)
    ensures Sim(c, Resume(c, s, instructionId), id, sh)
  {
    ResumeKeeps(c, s, instructionId);
    ResumeMatches(c, s, instructionId, id, sh.lab);
  }

  ghost function FollowRun(c: Chain, s: State, es: seq<Event>, id: nat, sh: Shadow): Option<Shadow>
    decreases |es|
  {
    if |es| == 0 then Some(sh)
    else match Follow(c, s, es[0], id, sh)
      case None => None
      case Some(sh') => FollowRun(c, Step(c, s, es[0]), es[1..], id, sh')
  }

  predicate NoLateCancel(c: Chain, s: State, es: seq<Event>, id: nat)
    decreases |es|
  {
    |es| == 0 || (!LateCancel(c, s, es[0], id) && NoLateCancel(c, Step(c, s, es[0]), es[1..], id))
  }

  // Forward simulation over runs: the lab can follow a run step by step exactly
  // when no cancellation of the job in it comes after submitBy, and then the two
  // agree at the end.
  lemma {:induction false} RunSim(c: Chain, s: State, es: seq<Event>, id: nat, sh: Shadow)
    requires Sim(c, s, id, sh)
    ensures FollowRun(c, s, es, id, sh).Some? <==> NoLateCancel(c, s, es, id)
    ensures FollowRun(c, s, es, id, sh).Some? ==> Sim(c, Run(c, s, es), id, FollowRun(c, s, es, id, sh).value)
    decreases |es|
  {
    if |es| > 0 {
      StepSim(c, s, es[0], id, sh);
      if Follow(c, s, es[0], id, sh).Some? {
        RunSim(c, Step(c, s, es[0]), es[1..], id, Follow(c, s, es[0], id, sh).value);
      }
    }
  }

  // A job just recorded matches a new lab job.
  lemma NewJobMatches(c: Chain, s: State, terms: R.JobTerms)
    requires Inv(c, s) && s.frame.Busy? && s.frame.pc == Pulled(terms) && s.core.store.nextJobId + 1 < TWO256
    ensures var lab := L.NewLab(terms.expectedTee, terms.principal, terms.fee, terms.submitBy, terms.graceEnds);
            Sim(c, FinishCreate(s, terms), s.core.store.nextJobId, Shadow(lab, lab))
  {
    FinishCreateKeeps(c, s, terms);
    UnknownJobIsZero(c, s, s.core.store.nextJobId);
  }

  // The lab's ledger as payments to the job's parties.
  function LabPayouts(c: Chain, t: R.JobTerms, l: L.Lab): seq<(Address, nat)> {
    match l.state
    case Paid => [(t.contractor, l.toContractor), (c.treasury, l.toTreasury)]
    case Cancelled => [(t.client, l.toClient)]
    case Refunded => [(t.client, l.toClient)]
    case _ => []
  }

  // Between transactions the lab's ledger is what the escrow has paid out.
  lemma LedgerIsPayouts(c: Chain, s: State, id: nat, sh: Shadow)
    requires Sim(c, s, id, sh) && s.frame.Idle?
    ensures PayoutsOf(s.core.hist.payouts, id) == LabPayouts(c, JobAt(s.core.store, id).terms, sh.lab)
  {
    IdlePayouts(c, s, id);
  }

  // The escrow's cancellation really does go further than the lab's: it has no
  // deadline at all.
  lemma LateCancelHappens(c: Chain, s: State, id: nat, sh: Shadow)
    requires Sim(c, s, id, sh) && s.frame.Idle? && JobAt(s.core.store, id).state.Created?
    requires s.now > JobAt(s.core.store, id).terms.submitBy
    ensures var e := Invoke(JobAt(s.core.store, id).terms.client, CancelUnaccepted(id));
            LateCancel(c, s, e, id) && Follow(c, s, e, id, sh).None?
  {
    var e := Invoke(JobAt(s.core.store, id).terms.client, CancelUnaccepted(id));
    UnknownJobIsZero(c, s, id);
    StepSim(c, s, e, id, sh);
  }

  // --- such a cancellation, from deployment on ---

  function SmallTerms(client: Address): R.JobTerms {
    R.JobTerms(client, client, 1, 1, 0, 0, 1, 2, 3, 30, 0, 0, 0, 0)
  }

  // A job is created, and its submission deadline passes.
  lemma CreatedAndLate(c: Chain, client: Address) returns (es: seq<Event>)
    requires ChainOk(c) && client != ZERO_ADDRESS && client != c.self
    ensures var t := Run(c, NewEscrow(), es);
            && t.frame.Idle? && t.now == 3 && t.core.store.nextJobId == 1
            && JobAt(t.core.store, 0) == R.ZERO_JOB.(terms := SmallTerms(client))
  {
    var created, s := JobCreated(c, SmallTerms(client));
    OneMore(c, created, s, Tick(3, 0));
    es := created + [Tick(3, 0)];
  }

  // On every chain there is a run of a fresh escrow after which an unaccepted job is
  // past its submitBy, the lab has followed, and its client's cancellation is one that
  // the escrow accepts and the lab refuses.
  lemma LateCancelIsReachable(c: Chain) returns (s: State, es: seq<Event>, client: Address)
    requires ChainOk(c)
    ensures IsInitial(c, s)
    ensures var t := Run(c, s, es); var terms := JobAt(t.core.store, 0).terms;
            var lab := L.NewLab(terms.expectedTee, terms.principal, terms.fee, terms.submitBy, terms.graceEnds);
            var e := Invoke(client, CancelUnaccepted(0));
            && Sim(c, t, 0, Shadow(lab, lab)) && LateCancel(c, t, e, 0) && Follow(c, t, e, 0, Shadow(lab, lab)).None?
  {
    s, client := NewEscrow(), if c.self == 1 then 2 else 1;
    es := CreatedAndLate(c, client);
    InitialInv(c, s);
    RunKeeps(c, s, es);
    var t, terms := Run(c, s, es), SmallTerms(client);
    var lab := L.NewLab(terms.expectedTee, terms.principal, terms.fee, terms.submitBy, terms.graceEnds);
    LateCancelHappens(c, t, 0, Shadow(lab, lab));
  }
}
