// The escrow's entry points seen from outside: who may make which call and when, and
// what an admitted call does to the state before its first external call.
module EntryPoints {
  import opened Base
  import opened Records
  import opened EscrowMachine
  import opened EscrowInvariant
  import T = Token
  import Abi

  // A production TEE, as the registry reports it.
  predicate Confirmed(tee: Address, status: Option<nat>) { tee != ZERO_ADDRESS && status == Some(2) }

  predicate MayCreate(s: State, call: Call)
    requires call.CreateJob?
  {
    && !s.core.store.paused && s.frame.Idle? && s.core.store.extensionId != 0
    && call.contractor != ZERO_ADDRESS && Confirmed(call.expectedTee, call.teeStatus) && call.principal > 0
    && s.now < call.acceptBy < call.submitBy < call.graceEnds && 30 <= call.verificationTimeout <= 604_800
  }

  predicate MaySubmit(c: Chain, s: State, sender: Address, id: nat, artifact: Address, code: Option<Bytes32>) {
    var j := JobAt(s.core.store, id);
    && !s.core.store.paused && s.frame.Idle? && sender == j.terms.contractor
    && (j.state.Accepted? || j.state.AwaitingResubmission? || j.state.Retryable?) && s.now <= j.terms.submitBy
    && artifact != ZERO_ADDRESS && code.Some?
    && j.current.attempt < TWO64 - 1 && c.votingRound(s.now) < TWO256 - 1
  }

  predicate MayLock(c: Chain, s: State, id: nat) {
    var j := JobAt(s.core.store, id);
    var round := c.rounds(j.current.targetRound);
    && s.frame.Idle? && j.state.RandomnessPending? && round.readyAt <= s.now
    && (round.secure || j.current.targetRound < TWO256 - 1)
  }

  predicate MayDispatch(s: State, id: nat, teeStatus: Option<nat>) {
    var j := JobAt(s.core.store, id);
    s.frame.Idle? && j.state.ReadyToVerify? && j.current.randomLocked && Confirmed(j.terms.expectedTee, teeStatus)
  }

  ghost predicate MaySettle(c: Chain, s: State, call: Call)
    requires call.SettleAttempt?
  {
    exists v :: Settles(c, s, call, v)
                && (v.result.outcome.Pass? ==> JobAt(s.core.store, call.id).terms.contractor != ZERO_ADDRESS)
  }

  // Whose call is admitted, and when.
  ghost predicate Permitted(c: Chain, s: State, sender: Address, call: Call) {
    && sender != ZERO_ADDRESS && sender != c.self
    && match call
       case CreateJob(_, _, _, _, _, _, _, _, _, _, _, _) => MayCreate(s, call)
       case AcceptJob(id) =>
         var j := JobAt(s.core.store, id);
         j.state.Created? && sender == j.terms.contractor && s.now <= j.terms.acceptBy
       case CancelUnaccepted(id) =>
         var j := JobAt(s.core.store, id);
         s.frame.Idle? && j.state.Created? && sender == j.terms.client
       case SubmitAttempt(id, artifact, code) => MaySubmit(c, s, sender, id, artifact, code)
       case LockRandomness(id) => MayLock(c, s, id)
       case DispatchVerification(id, teeStatus) => MayDispatch(s, id, teeStatus)
       case ExpireVerification(id) =>
         JobAt(s.core.store, id).state.Verifying? && s.now > JobAt(s.core.store, id).current.timeoutAt
       case SettleAttempt(_, _, _, _, _, _, _, _) => MaySettle(c, s, call)
       case RefundExpired(id) =>
         var j := JobAt(s.core.store, id);
         s.frame.Idle? && !j.settled && s.now > j.terms.graceEnds && j.terms.client != ZERO_ADDRESS
       case PauseNewWork => sender == s.core.store.owner
       case UnpauseNewWork => sender == s.core.store.owner
       case SetProtocolFee(bps) => sender == s.core.store.owner && bps <= 1_000
       case TransferOwnership(newOwner) => sender == s.core.store.owner && newOwner != ZERO_ADDRESS
       case AcceptOwnership => sender == s.core.store.pendingOwner
       case SetExtensionId(senders) =>
         s.core.store.extensionId == 0
         && exists i | 0 <= i < |senders| :: FirstFor(c, senders, i) && 0x10000 + i < TWO256
  }

  // The registry's first public entry for this contract.
  predicate FirstFor(c: Chain, senders: seq<Address>, i: nat)
    requires i < |senders|
  {
    senders[i] == c.self && forall k | 0 <= k < i :: senders[k] != c.self
  }

  // --- what an admitted call does ---

  // Only the storage changes; time, tokens, history and the open transaction do not.
  predicate OnlyStore(s: State, t: State, st: Storage) {
    t == s.(core := s.core.(store := st))
  }

  // Only one job changes, in storage.
  predicate OnlyJob(s: State, t: State, id: nat, k: Job) {
    OnlyStore(s, t, s.core.store.(jobs := s.core.store.jobs[id := k]))
  }

  // One job changes, and this much of the history.
  predicate JobAndHistory(s: State, t: State, id: nat, k: Job, h: History) {
    t == s.(core := s.core.(store := s.core.store.(jobs := s.core.store.jobs[id := k]), hist := h))
  }

  // The transaction stays open, its changes made, with these payments to come.
  predicate OpensPayments(s: State, t: State, id: nat, k: Job, h: History, queue: seq<(Address, nat)>) {
    && t.frame == Busy(s.core, Paying(id, queue))
    && JobAndHistory(s, t.(frame := s.frame), id, k, h)
  }

  // The terms asked for, with the fee of the day.
  function TermsOf(s: State, sender: Address, call: Call): JobTerms
    requires call.CreateJob?
  {
    JobTerms(sender, call.contractor, call.expectedTee, call.principal,
             FeeOf(call.principal, s.core.store.protocolFeeBps), s.now % TWO64, call.acceptBy, call.submitBy,
             call.graceEnds, call.verificationTimeout, call.specHash, call.privateBundleHash, call.engineVersionHash,
             call.ciphertextHash)
  }

  // A fresh attempt on the artifact as it is now, bound to the next voting round.
  predicate Submits(c: Chain, s: State, t: State, id: nat, artifact: Address, code: Bytes32) {
    var j := JobAt(s.core.store, id);
    var k := JobAt(t.core.store, id);
    && k.terms == j.terms && k.state.RandomnessPending? && k.settled == j.settled
    && k.current.attempt == j.current.attempt + 1
    && k.current.artifactAddress == artifact && k.current.artifactBlock == s.height
    && k.current.artifactCodeHash == code
    && k.current.targetRound == c.votingRound(s.now) + 1
    && !k.current.randomLocked && k.current.randomRound == 0 && k.current.randomValueHash == 0
    && k.current.instructionId == 0 && k.current.dispatchedAt == 0 && k.current.timeoutAt == 0
    && JobAndHistory(s, t, id, k, s.core.hist.(starts := s.core.hist.starts[(id, j.current.attempt as nat + 1) :=
                                                                            c.votingRound(s.now) + 1]))
  }

  // Past an insecure round, or bound to a secure one's value.
  predicate Locks(c: Chain, s: State, t: State, id: nat) {
    var j := JobAt(s.core.store, id);
    var round := c.rounds(j.current.targetRound);
    var hash := c.keccak(Abi.EncodeUint256(round.value));
    if !round.secure then
      OnlyJob(s, t, id, j.(current := j.current.(targetRound := (j.current.targetRound + 1) % TWO256)))
    else
      JobAndHistory(s, t, id,
                    j.(state := ReadyToVerify,
                       current := j.current.(randomRound := j.current.targetRound, randomValueHash := hash,
                                             randomLocked := true)),
                    s.core.hist.(locks := s.core.hist.locks[(id, j.current.attempt as nat) :=
                                                            (j.current.targetRound as nat, hash)]))
  }

  // A verdict's outcome, and what it pays.
  predicate SettlesWith(c: Chain, s: State, t: State, id: nat, o: Outcome) {
    var j := JobAt(s.core.store, id);
    var late := s.now > j.terms.submitBy;
    var h := s.core.hist.(settlements := s.core.hist.settlements + multiset{(id, j.current.attempt as nat)});
    match o
    case Pass =>
      OpensPayments(s, t, id, j.(state := Paid, settled := true), h,
                    [(j.terms.contractor, j.terms.principal as nat), (c.treasury, j.terms.fee as nat)])
    case Fail => JobAndHistory(s, t, id, j.(state := if late then RefundPending else AwaitingResubmission), h)
    case Inconclusive => JobAndHistory(s, t, id, j.(state := if late then RefundPending else Retryable), h)
  }

  // What an admitted call leaves behind when it ends or hands over control.
  ghost predicate Does(c: Chain, s: State, sender: Address, call: Call, t: State) {
    var st := s.core.store;
    match call
    case CreateJob(_, _, _, _, _, _, _, _, _, _, _, _) =>
      t == s.(frame := Busy(s.core, Pulling(TermsOf(s, sender, call))))
    case AcceptJob(id) => OnlyJob(s, t, id, JobAt(st, id).(state := Accepted))
    case CancelUnaccepted(id) =>
      var j := JobAt(st, id);
      OpensPayments(s, t, id, j.(state := Cancelled, settled := true), s.core.hist,
                    [(j.terms.client, (j.terms.principal + j.terms.fee) as nat)])
    case SubmitAttempt(id, artifact, code) => code.Some? && Submits(c, s, t, id, artifact, code.value)
    case LockRandomness(id) => Locks(c, s, t, id)
    case DispatchVerification(id, _) => t == s.(frame := Busy(s.core, Sending(id)))
    case ExpireVerification(id) =>
      var j := JobAt(st, id);
      OnlyJob(s, t, id, j.(state := Retryable,
                           current := j.current.(instructionId := 0, dispatchedAt := 0, timeoutAt := 0)))
    case SettleAttempt(id, _, _, _, _, _, _, _) =>
      exists v :: Settles(c, s, call, v) && SettlesWith(c, s, t, id, v.result.outcome)
    case RefundExpired(id) =>
      var j := JobAt(st, id);
      OpensPayments(s, t, id, j.(state := Refunded, settled := true), s.core.hist,
                    [(j.terms.client, (j.terms.principal + j.terms.fee) as nat)])
    case PauseNewWork => OnlyStore(s, t, st.(paused := true))
    case UnpauseNewWork => OnlyStore(s, t, st.(paused := false))
    case SetProtocolFee(bps) => OnlyStore(s, t, st.(protocolFeeBps := bps))
    case TransferOwnership(newOwner) => OnlyStore(s, t, st.(pendingOwner := newOwner))
    case AcceptOwnership => OnlyStore(s, t, st.(owner := sender, pendingOwner := ZERO_ADDRESS))
    case SetExtensionId(senders) =>
      exists i | 0 <= i < |senders| ::
        FirstFor(c, senders, i) && 0x10000 + i < TWO256 && OnlyStore(s, t, st.(extensionId := 0x10000 + i))
  }

  lemma {:induction false} FindsFirst(c: Chain, senders: seq<Address>)
    ensures match FindExtension(c.self, senders)
            case Some(i) => i < |senders| && FirstFor(c, senders, i)
            case None => forall k | 0 <= k < |senders| :: senders[k] != c.self
  {
    if |senders| > 0 && senders[0] != c.self {
      FindsFirst(c, senders[1..]);
      var rest := FindExtension(c.self, senders[1..]);
      forall k | 0 < k < |senders| ensures senders[k] == senders[1..][k - 1] {
      }
      if rest.Some? {
        assert FindExtension(c.self, senders) == Some(rest.value + 1);
      }
    }
  }

  lemma ExtensionExactly(c: Chain, s: State, sender: Address, senders: seq<Address>)
    requires sender != ZERO_ADDRESS && sender != c.self
    ensures Begin(c, s, sender, SetExtensionId(senders)).Ok? <==> Permitted(c, s, sender, SetExtensionId(senders))
    ensures Begin(c, s, sender, SetExtensionId(senders)).Ok? ==>
              Does(c, s, sender, SetExtensionId(senders), Begin(c, s, sender, SetExtensionId(senders)).value)
  {
    FindsFirst(c, senders);
    var found := FindExtension(c.self, senders);
    forall i | 0 <= i < |senders| && FirstFor(c, senders, i) ensures found == Some(i) {
    }
  }

  lemma SettleExactly(c: Chain, s: State, sender: Address, call: Call)
    requires sender != ZERO_ADDRESS && sender != c.self && call.SettleAttempt?
    ensures Begin(c, s, sender, call).Ok? <==> Permitted(c, s, sender, call)
    ensures Begin(c, s, sender, call).Ok? ==> Does(c, s, sender, call, Begin(c, s, sender, call).value)
  {
    AcceptsExactlySettling(c, s, call);
    match AcceptedVerdict(c, s, call)
    case Ok(v) => assert Settles(c, s, call, v);
    case Err(_) =>
  }

  // The calls whose effect is one job's.
  predicate OnAJob(call: Call) {
    || call.AcceptJob? || call.CancelUnaccepted? || call.SubmitAttempt? || call.LockRandomness?
    || call.ExpireVerification? || call.RefundExpired?
  }

  lemma JobCallExactly(c: Chain, s: State, sender: Address, call: Call)
    requires sender != ZERO_ADDRESS && sender != c.self && OnAJob(call)
    ensures Begin(c, s, sender, call).Ok? <==> Permitted(c, s, sender, call)
    ensures Begin(c, s, sender, call).Ok? ==> Does(c, s, sender, call, Begin(c, s, sender, call).value)
  {
  }

  // For every entry point: a call is admitted exactly if it is permitted, and does
  // exactly this.
  lemma AdmittedExactly(c: Chain, s: State, sender: Address, call: Call)
    ensures Begin(c, s, sender, call).Ok? <==> Permitted(c, s, sender, call)
    ensures Begin(c, s, sender, call).Ok? ==> Does(c, s, sender, call, Begin(c, s, sender, call).value)
  {
    if sender != ZERO_ADDRESS && sender != c.self {
      if call.SetExtensionId? {
        ExtensionExactly(c, s, sender, call.senders);
      } else if call.SettleAttempt? {
        SettleExactly(c, s, sender, call);
      } else if OnAJob(call) {
        JobCallExactly(c, s, sender, call);
      }
    }
  }

  lemma AdmittedIfPermitted(c: Chain, s: State, sender: Address, call: Call)
    ensures Begin(c, s, sender, call).Ok? <==> Permitted(c, s, sender, call)
  {
    AdmittedExactly(c, s, sender, call);
  }

  // --- what follows an external call ---

  // Whether the transaction can go on when its open external call succeeds.
  predicate CanGoOn(c: Chain, s: State)
    requires s.frame.Busy?
  {
    match s.frame.pc
    case Pulling(terms) =>
      && T.AllowanceOf(s.core.token, terms.client) >= terms.principal + terms.fee
      && T.BalanceOf(s.core.token, terms.client) >= terms.principal + terms.fee
    case Pulled(_) => s.core.store.nextJobId < TWO256 - 1
    case Sending(id) => s.now < JobAt(s.core.store, id).terms.graceEnds
    case Paying(_, queue) =>
      |queue| > 0 ==> queue[0].0 != ZERO_ADDRESS && T.BalanceOf(s.core.token, c.self) >= queue[0].1
  }

  // The token moved this much, and nobody else's balance changed.
  ghost predicate Moved(t: T.Ledger, t': T.Ledger, from: Address, to: Address, amount: nat) {
    && T.BalanceOf(t', from) == T.BalanceOf(t, from) - amount && T.BalanceOf(t', to) == T.BalanceOf(t, to) + amount
    && forall a: Address | a != from && a != to :: T.BalanceOf(t', a) == T.BalanceOf(t, a)
  }

  // The allowance is spent, unless it is the unlimited one.
  ghost predicate Spent(t: T.Ledger, t': T.Ledger, holder: Address, amount: nat) {
    && T.AllowanceOf(t', holder)
       == T.AllowanceOf(t, holder) - (if T.AllowanceOf(t, holder) == TWO256 - 1 then 0 else amount)
    && forall a: Address | a != holder :: T.AllowanceOf(t', a) == T.AllowanceOf(t, a)
  }

  // The job is under verification from now to the earlier of its two deadlines.
  predicate OpensWindow(s: State, t: State, id: nat, instructionId: Bytes32) {
    var j, k, h := JobAt(s.core.store, id), JobAt(t.core.store, id), s.core.hist;
    && k.terms == j.terms && k.settled == j.settled && k.state.Verifying?
    && k.current == j.current.(instructionId := instructionId, dispatchedAt := k.current.dispatchedAt,
                               timeoutAt := k.current.timeoutAt)
    && k.current.dispatchedAt == s.now
    && k.current.timeoutAt == Min(s.now + j.terms.verificationTimeout, j.terms.graceEnds)
    && JobAndHistory(s, t, id, k, h.(dispatches := h.dispatches + multiset{(id, j.current.attempt as nat)}))
  }

  // How it goes on: the tokens are in, the job is recorded, the window is open, or the
  // next payment is made.
  ghost predicate GoesOn(c: Chain, s: State, instructionId: Bytes32, t: State)
    requires s.frame.Busy?
  {
    var st, h := s.core.store, s.core.hist;
    match s.frame.pc
    case Pulling(terms) =>
      && Moved(s.core.token, t.core.token, terms.client, c.self, terms.principal + terms.fee)
      && Spent(s.core.token, t.core.token, terms.client, terms.principal + terms.fee)
      && t == s.(core := s.core.(token := t.core.token), frame := s.frame.(pc := Pulled(terms)))
    case Pulled(terms) =>
      && OnlyStore(s.(frame := Idle), t, t.core.store) && t.core.store.nextJobId == st.nextJobId + 1
      && t.core.store == st.(nextJobId := t.core.store.nextJobId, jobs := t.core.store.jobs)
      && t.core.store.jobs == st.jobs[st.nextJobId as nat := JobAt(st, st.nextJobId).(terms := terms, state := Created)]
    case Sending(id) => OpensWindow(s.(frame := Idle), t, id, instructionId)
    case Paying(id, queue) =>
      if |queue| == 0 then t == s.(frame := Idle)
      else
        && Moved(s.core.token, t.core.token, c.self, queue[0].0, queue[0].1)
        && t == s.(core := s.core.(token := t.core.token, hist := h.(payouts := h.payouts + [
                     Payout(id, queue[0].0, queue[0].1, s.now)])),
                   frame := s.frame.(pc := Paying(id, queue[1..])))
  }

  ghost predicate Continues(c: Chain, s: State, instructionId: Bytes32)
    requires s.frame.Busy?
  {
    if CanGoOn(c, s) then GoesOn(c, s, instructionId, Resume(c, s, instructionId))
    else Resume(c, s, instructionId) == Rollback(s)
  }

  // A transaction goes on, like this, exactly if it can, and otherwise reverts.
  lemma ResumesExactly(c: Chain, s: State, instructionId: Bytes32)
    requires Inv(c, s) && s.frame.Busy?
    ensures Continues(c, s, instructionId)
  {
    match s.frame.pc
    case Pulling(_) => PullsExactly(c, s, instructionId);
    case Pulled(_) => RecordsExactly(c, s, instructionId);
    case Sending(_) => SendsExactly(c, s, instructionId);
    case Paying(_, _) => PaysExactly(c, s, instructionId);
  }

  lemma TransfersFromExactly(c: Chain, t: T.Ledger, client: Address, amount: nat)
    requires client != ZERO_ADDRESS && client != c.self && c.self != ZERO_ADDRESS
    ensures T.TransferFrom(t, client, c.self, amount).Some? <==>
            T.AllowanceOf(t, client) >= amount && T.BalanceOf(t, client) >= amount
    ensures var r := T.TransferFrom(t, client, c.self, amount);
            r.Some? ==> Moved(t, r.value, client, c.self, amount) && Spent(t, r.value, client, amount)
  {
  }

  lemma PullsExactly(c: Chain, s: State, instructionId: Bytes32)
    requires Inv(c, s) && s.frame.Busy? && s.frame.pc.Pulling?
    ensures Continues(c, s, instructionId)
  {
    var terms := s.frame.pc.terms;
    TransfersFromExactly(c, s.core.token, terms.client, terms.principal + terms.fee);
  }

  lemma RecordsExactly(c: Chain, s: State, instructionId: Bytes32)
    requires s.frame.Busy? && s.frame.pc.Pulled?
    ensures Continues(c, s, instructionId)
  {
  }

  lemma DispatchesExactly(s: State, id: nat, instructionId: Bytes32)
    requires 0 < JobAt(s.core.store, id).terms.verificationTimeout <= MAX_VERIFICATION_TIMEOUT
    ensures Dispatched(s, id, instructionId).Ok? <==> s.now < JobAt(s.core.store, id).terms.graceEnds
    ensures Dispatched(s, id, instructionId).Ok? ==>
              OpensWindow(s, Dispatched(s, id, instructionId).value, id, instructionId)
  {
  }

  lemma SendsExactly(c: Chain, s: State, instructionId: Bytes32)
    requires Inv(c, s) && s.frame.Busy? && s.frame.pc.Sending?
    ensures Continues(c, s, instructionId)
  {
    var id := s.frame.pc.id;
    assert 0 < JobAt(s.core.store, id).terms.verificationTimeout <= MAX_VERIFICATION_TIMEOUT by {
      UnknownJobIsZero(c, s, id);
    }
    DispatchesExactly(s, id, instructionId);
  }

  lemma PaysExactly(c: Chain, s: State, instructionId: Bytes32)
    requires Inv(c, s) && s.frame.Busy? && s.frame.pc.Paying?
    ensures Continues(c, s, instructionId)
  {
    var queue := s.frame.pc.queue;
    if |queue| > 0 {
      assert queue[0] in queue;
    }
  }
}
