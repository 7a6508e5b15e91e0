// The escrow contract as the object it is: storage fields updated in place by
// one method per entry point. Every method is proved to take exactly the steps
// of the state machine, so every theorem about runs is a theorem about it.
//
// What a callee does while it has control is a parameter: a window of events,
// among them calls back into this very object.
module EscrowContract {
  import opened Base
  import opened Records
  import opened Token
  import opened EscrowMachine
  import opened EntryPoints
  import opened Transactions
  import Abi

  // A callee may call anything and move its own tokens; it ends when it returns.
  predicate IsWindow(es: seq<Event>) {
    forall i | 0 <= i < |es| :: es[i].Invoke? || es[i].TokenAct?
  }

  // What the caller of an entry point learns.
  function Reply(r: Result<State, Error>): Result<(), Error> {
    match r
    case Ok(_) => Ok(())
    case Err(e) => Err(e)
  }

  lemma {:induction false} RunBusyConcat(c: Chain, s: State, a: seq<Event>, b: seq<Event>)
    ensures RunBusy(c, s, a + b) == RunBusy(c, RunBusy(c, s, a), b)
    decreases |a|
  {
    if |a| == 0 {
      assert a + b == b;
    } else if s.frame.Busy? {
      assert (a + b)[1..] == a[1..] + b;
      RunBusyConcat(c, Step(c, s, a[0]), a[1..], b);
    }
  }

  lemma RunBusyOne(c: Chain, s: State, e: Event)
    requires s.frame.Busy?
    ensures RunBusy(c, s, [e]) == Step(c, s, e)
  {
    assert RunBusy(c, Step(c, s, e), [e][1..]) == Step(c, s, e);
  }

  lemma RunBusyIdle(c: Chain, s: State, es: seq<Event>)
    requires s.frame.Idle?
    ensures RunBusy(c, s, es) == s
  {
  }

  // Windows of callee activity, each ended by the callee's return.
  function Joined(windows: seq<seq<Event>>): seq<Event> {
    if |windows| == 0 then [] else windows[0] + [Proceed(0)] + Joined(windows[1..])
  }

  lemma JoinedStep(c: Chain, start: State, mid: State, windows: seq<seq<Event>>)
    requires |windows| > 0 && mid == RunBusy(c, start, windows[0]) && mid.frame.Busy?
    ensures RunBusy(c, start, Joined(windows)) == RunBusy(c, Resume(c, mid, 0), Joined(windows[1..]))
  {
    RunBusyConcat(c, start, windows[0] + [Proceed(0)], Joined(windows[1..]));
    RunBusyConcat(c, start, windows[0], [Proceed(0)]);
    RunBusyOne(c, mid, Proceed(0));
  }

  lemma JoinedTwo(windows: seq<seq<Event>>)
    requires |windows| == 2
    ensures Joined(windows) == windows[0] + [Proceed(0)] + (windows[1] + [Proceed(0)])
  {
    assert Joined(windows[1..]) == windows[1] + [Proceed(0)] + Joined(windows[1..][1..]);
    assert Joined(windows[1..][1..]) == [];
  }

  // The payments of a queue, as the record has them.
  function Payments(id: nat, queue: seq<(Address, nat)>, at: nat): seq<Payout> {
    if |queue| == 0 then [] else [Payout(id, queue[0].0, queue[0].1, at)] + Payments(id, queue[1..], at)
  }

  lemma TwoPayments(id: nat, queue: seq<(Address, nat)>, at: nat)
    requires |queue| == 2
    ensures Payments(id, queue, at) == [Payout(id, queue[0].0, queue[0].1, at), Payout(id, queue[1].0, queue[1].1, at)]
  {
    assert Payments(id, queue[1..], at) == [Payout(id, queue[1].0, queue[1].1, at)] + Payments(id, queue[1..][1..], at);
  }

  // How the registry ends sendInstructions.
  function AnswerEvent(answer: Option<Bytes32>): Event {
    match answer
    case Some(id) => Proceed(id)
    case None => Abort
  }

  class Escrow {
    const chain: Chain

    var owner: Address
    var pendingOwner: Address
    var protocolFeeBps: Uint16
    var paused: bool
    var extensionId: Uint256
    var nextJobId: Uint256
    var jobs: map<nat, Job>
    var entered: bool  // the reentrancy guard

    // The world it lives in.
    var token: Ledger
    var now: Uint256
    var height: Uint256

    ghost var hist: History
    ghost var frame: Frame

    ghost predicate Valid()
      reads this
    {
      entered <==> frame.Busy?
    }

    function Store(): Storage
      reads this
    {
      Storage(owner, pendingOwner, protocolFeeBps, paused, extensionId, nextJobId, jobs)
    }

    ghost function Abs(): State
      reads this
    {
      State(Core(Store(), token, hist), now, height, frame)
    }

    constructor (c: Chain, deployer: Address, bps: Uint16, t: Ledger, time: Uint256, block: Uint256)
      ensures Valid() && fresh(this) && chain == c && owner == deployer && protocolFeeBps == bps
      ensures token == t && now == time && height == block
      ensures ChainOk(c) && bps <= MAX_PROTOCOL_FEE_BPS ==> IsInitial(c, Abs())
    {
      chain := c;
      owner, pendingOwner, protocolFeeBps, paused := deployer, ZERO_ADDRESS, bps, false;
      extensionId, nextJobId, jobs, entered := 0, 0, map[], false;
      token, now, height := t, time, block;
      hist, frame := NO_HISTORY.(donated := BalanceOf(t, c.self)), Idle;
    }

    // Deployment, with the guards of the Solidity constructor.
    static method Deploy(c: Chain, deployer: Address, bps: Uint16, extensionRegistry: Address,
                         machineRegistry: Address, registriesHaveCode: bool, tokenAddress: Address,
                         relay: Address, randomNumber: Address, t: Ledger, time: Uint256, block: Uint256)
      returns (r: Result<Escrow, Error>)
      requires c.self != ZERO_ADDRESS
      ensures r.Ok? <==>
                && extensionRegistry != ZERO_ADDRESS && machineRegistry != ZERO_ADDRESS
                && c.treasury != ZERO_ADDRESS && registriesHaveCode && bps <= MAX_PROTOCOL_FEE_BPS
                && tokenAddress != ZERO_ADDRESS && relay != ZERO_ADDRESS && randomNumber != ZERO_ADDRESS
                && c.treasury != c.self && c.treasury != tokenAddress
      ensures r.Ok? ==>
                fresh(r.value) && r.value.Valid() && r.value.chain == c && ChainOk(c) && IsInitial(c, r.value.Abs())
    {
      if extensionRegistry == ZERO_ADDRESS || machineRegistry == ZERO_ADDRESS || c.treasury == ZERO_ADDRESS {
        return Err(ZeroAddress);
      }
      if !registriesHaveCode {
        return Err(NoCode);
      }
      if bps > MAX_PROTOCOL_FEE_BPS {
        return Err(FeeTooHigh);
      }
      if tokenAddress == ZERO_ADDRESS || relay == ZERO_ADDRESS || randomNumber == ZERO_ADDRESS {
        return Err(ZeroAddress);
      }
      if c.treasury == c.self || c.treasury == tokenAddress {
        return Err(ZeroAddress);
      }
      var e := new Escrow(c, deployer, bps, t, time, block);
      return Ok(e);
    }

    // --- owner controls ---

    method PauseNewWork(msgSender: Address) returns (r: Result<(), Error>)
      requires Valid() && msgSender != ZERO_ADDRESS && msgSender != chain.self
      modifies this`paused
      ensures Abs() == Step(chain, old(Abs()), Invoke(msgSender, Call.PauseNewWork))
      ensures r == Reply(Begin(chain, old(Abs()), msgSender, Call.PauseNewWork))
      ensures r.Ok? <==> Permitted(chain, old(Abs()), msgSender, Call.PauseNewWork)
      ensures r.Ok? ==> Does(chain, old(Abs()), msgSender, Call.PauseNewWork, Abs())
    {
      AdmittedExactly(chain, Abs(), msgSender, Call.PauseNewWork);
      if msgSender != owner {
        return Err(NotOwner);
      }
      paused := true;
      return Ok(());
    }

    method UnpauseNewWork(msgSender: Address) returns (r: Result<(), Error>)
      requires Valid() && msgSender != ZERO_ADDRESS && msgSender != chain.self
      modifies this`paused
      ensures Abs() == Step(chain, old(Abs()), Invoke(msgSender, Call.UnpauseNewWork))
      ensures r == Reply(Begin(chain, old(Abs()), msgSender, Call.UnpauseNewWork))
      ensures r.Ok? <==> Permitted(chain, old(Abs()), msgSender, Call.UnpauseNewWork)
      ensures r.Ok? ==> Does(chain, old(Abs()), msgSender, Call.UnpauseNewWork, Abs())
    {
      AdmittedExactly(chain, Abs(), msgSender, Call.UnpauseNewWork);
      if msgSender != owner {
        return Err(NotOwner);
      }
      paused := false;
      return Ok(());
    }

    method SetProtocolFee(msgSender: Address, newBps: Uint16) returns (r: Result<(), Error>)
      requires Valid() && msgSender != ZERO_ADDRESS && msgSender != chain.self
      modifies this`protocolFeeBps
      ensures Abs() == Step(chain, old(Abs()), Invoke(msgSender, Call.SetProtocolFee(newBps)))
      ensures r == Reply(Begin(chain, old(Abs()), msgSender, Call.SetProtocolFee(newBps)))
      ensures r.Ok? <==> Permitted(chain, old(Abs()), msgSender, Call.SetProtocolFee(newBps))
      ensures r.Ok? ==> Does(chain, old(Abs()), msgSender, Call.SetProtocolFee(newBps), Abs())
    {
      AdmittedExactly(chain, Abs(), msgSender, Call.SetProtocolFee(newBps));
      if msgSender != owner {
        return Err(NotOwner);
      }
      if newBps > MAX_PROTOCOL_FEE_BPS {
        return Err(FeeTooHigh);
      }
      protocolFeeBps := newBps;
      return Ok(());
    }

    method TransferOwnership(msgSender: Address, newOwner: Address) returns (r: Result<(), Error>)
      requires Valid() && msgSender != ZERO_ADDRESS && msgSender != chain.self
      modifies this`pendingOwner
      ensures Abs() == Step(chain, old(Abs()), Invoke(msgSender, Call.TransferOwnership(newOwner)))
      ensures r == Reply(Begin(chain, old(Abs()), msgSender, Call.TransferOwnership(newOwner)))
      ensures r.Ok? <==> Permitted(chain, old(Abs()), msgSender, Call.TransferOwnership(newOwner))
      ensures r.Ok? ==> Does(chain, old(Abs()), msgSender, Call.TransferOwnership(newOwner), Abs())
    {
      AdmittedExactly(chain, Abs(), msgSender, Call.TransferOwnership(newOwner));
      if msgSender != owner {
        return Err(NotOwner);
      }
      if newOwner == ZERO_ADDRESS {
        return Err(ZeroAddress);
      }
      pendingOwner := newOwner;
      return Ok(());
    }

    method AcceptOwnership(msgSender: Address) returns (r: Result<(), Error>)
      requires Valid() && msgSender != ZERO_ADDRESS && msgSender != chain.self
      modifies this`owner, this`pendingOwner
      ensures Abs() == Step(chain, old(Abs()), Invoke(msgSender, Call.AcceptOwnership))
      ensures r == Reply(Begin(chain, old(Abs()), msgSender, Call.AcceptOwnership))
      ensures r.Ok? <==> Permitted(chain, old(Abs()), msgSender, Call.AcceptOwnership)
      ensures r.Ok? ==> Does(chain, old(Abs()), msgSender, Call.AcceptOwnership, Abs())
    {
      AdmittedExactly(chain, Abs(), msgSender, Call.AcceptOwnership);
      if msgSender != pendingOwner {
        return Err(NotOwner);
      }
      owner := msgSender;
      pendingOwner := ZERO_ADDRESS;
      return Ok(());
    }

    // The registry's answers for the public extension ids, in order, are a
    // parameter; the first one naming this contract is taken, once.
    method SetExtensionId(msgSender: Address, senders: seq<Address>) returns (r: Result<(), Error>)
      requires Valid() && msgSender != ZERO_ADDRESS && msgSender != chain.self
      modifies this`extensionId
      ensures Abs() == Step(chain, old(Abs()), Invoke(msgSender, Call.SetExtensionId(senders)))
      ensures r == Reply(Begin(chain, old(Abs()), msgSender, Call.SetExtensionId(senders)))
      ensures r.Ok? <==> Permitted(chain, old(Abs()), msgSender, Call.SetExtensionId(senders))
      ensures r.Ok? ==> Does(chain, old(Abs()), msgSender, Call.SetExtensionId(senders), Abs())
      ensures r.Ok? ==>
                && old(extensionId) == 0
                && var i := extensionId as int - FIRST_PUBLIC_EXTENSION_ID;
                   0 <= i < |senders| && senders[i] == chain.self
                   && forall k | 0 <= k < i :: senders[k] != chain.self
    {
      AdmittedExactly(chain, Abs(), msgSender, Call.SetExtensionId(senders));
      if extensionId != 0 {
        return Err(ExtensionIdSet);
      }
      for i := 0 to |senders|
        invariant forall k | 0 <= k < i :: senders[k] != chain.self
        invariant extensionId == 0
      {
        if senders[i] == chain.self {
          FoundAt(chain.self, senders, i);
          if FIRST_PUBLIC_EXTENSION_ID + i >= TWO256 {
            return Err(Panic);
          }
          extensionId := FIRST_PUBLIC_EXTENSION_ID + i;
          return Ok(());
        }
      }
      NotFound(chain.self, senders);
      return Err(ExtensionIdNotFound);
    }

    // --- job lifecycle ---

    function JobOf(id: nat): Job
      reads this
    {
      Lookup(jobs, id)
    }

    method AcceptJob(msgSender: Address, id: nat) returns (r: Result<(), Error>)
      requires Valid() && msgSender != ZERO_ADDRESS && msgSender != chain.self
      modifies this`jobs
      ensures Abs() == Step(chain, old(Abs()), Invoke(msgSender, Call.AcceptJob(id)))
      ensures r == Reply(Begin(chain, old(Abs()), msgSender, Call.AcceptJob(id)))
      ensures r.Ok? <==> Permitted(chain, old(Abs()), msgSender, Call.AcceptJob(id))
      ensures r.Ok? ==> Does(chain, old(Abs()), msgSender, Call.AcceptJob(id), Abs())
    {
      AdmittedExactly(chain, Abs(), msgSender, Call.AcceptJob(id));
      var j := JobOf(id);
      if j.state != Created || msgSender != j.terms.contractor {
        return Err(InvalidState);
      }
      if now > j.terms.acceptBy {
        return Err(Deadline);
      }
      jobs := jobs[id := j.(state := Accepted)];
      return Ok(());
    }

    method ExpireVerification(msgSender: Address, id: nat) returns (r: Result<(), Error>)
      requires Valid() && msgSender != ZERO_ADDRESS && msgSender != chain.self
      modifies this`jobs
      ensures Abs() == Step(chain, old(Abs()), Invoke(msgSender, Call.ExpireVerification(id)))
      ensures r == Reply(Begin(chain, old(Abs()), msgSender, Call.ExpireVerification(id)))
      ensures r.Ok? <==> Permitted(chain, old(Abs()), msgSender, Call.ExpireVerification(id))
      ensures r.Ok? ==> Does(chain, old(Abs()), msgSender, Call.ExpireVerification(id), Abs())
    {
      AdmittedExactly(chain, Abs(), msgSender, Call.ExpireVerification(id));
      var j := JobOf(id);
      if j.state != Verifying || now <= j.current.timeoutAt {
        return Err(InvalidState);
      }
      var current := j.current.(instructionId := 0, dispatchedAt := 0, timeoutAt := 0);
      jobs := jobs[id := j.(current := current, state := Retryable)];
      return Ok(());
    }

    method SubmitAttempt(msgSender: Address, id: nat, artifact: Address, codeHash: Option<Bytes32>)
      returns (r: Result<(), Error>)
      requires Valid() && msgSender != ZERO_ADDRESS && msgSender != chain.self
      modifies this`jobs, this`hist
      ensures Abs() == Step(chain, old(Abs()), Invoke(msgSender, Call.SubmitAttempt(id, artifact, codeHash)))
      ensures r == Reply(Begin(chain, old(Abs()), msgSender, Call.SubmitAttempt(id, artifact, codeHash)))
      ensures r.Ok? <==> Permitted(chain, old(Abs()), msgSender, Call.SubmitAttempt(id, artifact, codeHash))
      ensures r.Ok? ==> Does(chain, old(Abs()), msgSender, Call.SubmitAttempt(id, artifact, codeHash), Abs())
    {
      AdmittedExactly(chain, Abs(), msgSender, Call.SubmitAttempt(id, artifact, codeHash));
      if paused {
        return Err(IsPaused);
      }
      if entered {
        return Err(Reentrancy);
      }
      var j := JobOf(id);
      if msgSender != j.terms.contractor
         || (j.state != Accepted && j.state != AwaitingResubmission && j.state != Retryable) {
        return Err(InvalidState);
      }
      if now > j.terms.submitBy {
        return Err(Deadline);
      }
      if artifact == ZERO_ADDRESS || codeHash == None {
        return Err(InvalidVerdict);
      }
      var round := chain.votingRound(now);
      if j.current.attempt + 1 >= TWO64 || round + 1 >= TWO256 {
        return Err(Panic);
      }
      ghost var want := DoSubmitAttempt(chain, Abs(), msgSender, id, artifact, codeHash);
      var attempt: Uint64 := j.current.attempt + 1;
      var current := Attempt(attempt, artifact, height, codeHash.value, round + 1, 0, 0, false, 0, 0, 0);
      jobs := jobs[id := j.(current := current, state := RandomnessPending)];
      hist := hist.(starts := hist.starts[(id, attempt) := round + 1]);
      assert want == Ok(Abs());
      return Ok(());
    }

    method LockRandomness(msgSender: Address, id: nat) returns (r: Result<(), Error>)
      requires Valid() && msgSender != ZERO_ADDRESS && msgSender != chain.self
      modifies this`jobs, this`hist
      ensures Abs() == Step(chain, old(Abs()), Invoke(msgSender, Call.LockRandomness(id)))
      ensures r == Reply(Begin(chain, old(Abs()), msgSender, Call.LockRandomness(id)))
      ensures r.Ok? <==> Permitted(chain, old(Abs()), msgSender, Call.LockRandomness(id))
      ensures r.Ok? ==> Does(chain, old(Abs()), msgSender, Call.LockRandomness(id), Abs())
    {
      AdmittedExactly(chain, Abs(), msgSender, Call.LockRandomness(id));
      if entered {
        return Err(Reentrancy);
      }
      var j := JobOf(id);
      if j.state != RandomnessPending {
        return Err(InvalidState);
      }
      var target := j.current.targetRound;
      var round := chain.rounds(target);
      if now < round.readyAt {
        return Err(RandomNotReady);
      }
      if !round.secure {
        if target + 1 >= TWO256 {
          return Err(Panic);
        }
        jobs := jobs[id := j.(current := j.current.(targetRound := target + 1))];
        return Ok(());
      }
      var hash := chain.keccak(Abi.EncodeUint256(round.value));
      var current := j.current.(randomRound := target, randomValueHash := hash, randomLocked := true);
      jobs := jobs[id := j.(current := current, state := ReadyToVerify)];
      hist := hist.(locks := hist.locks[(id, j.current.attempt as nat) := (target as nat, hash)]);
      return Ok(());
    }

    // --- external calls ---

    // A callee has control. Guarded entry points reject it at the reentrancy
    // guard; the unguarded ones run.
    method Interact(window: seq<Event>)
      requires Valid() && entered && IsWindow(window)
      modifies this
      ensures Abs() == RunBusy(chain, old(Abs()), window)
      ensures Valid() && entered && frame == old(frame) && now == old(now) && height == old(height)
      ensures hist.payouts == old(hist.payouts) && nextJobId == old(nextJobId)
    {
      ghost var start := Abs();
      for i := 0 to |window|
        invariant Valid() && entered && frame == start.frame && now == start.now && height == start.height
        invariant hist.payouts == old(hist.payouts) && nextJobId == old(nextJobId)
        invariant Abs() == RunBusy(chain, start, window[..i])
      {
        ghost var before := Abs();
        Callee(window[i]);
        assert window[..i + 1] == window[..i] + [window[i]];
        RunBusyConcat(chain, start, window[..i], [window[i]]);
        RunBusyOne(chain, before, window[i]);
      }
      assert window[..|window|] == window;
    }

    method Callee(e: Event)
      requires Valid() && entered && (e.Invoke? || e.TokenAct?)
      modifies this
      ensures Abs() == Step(chain, old(Abs()), e)
      ensures Valid() && entered && frame == old(frame) && now == old(now) && height == old(height)
      ensures hist.payouts == old(hist.payouts) && nextJobId == old(nextJobId)
    {
      if e.TokenAct? {
        ghost var was := token;
        token := Act(token, chain.self, e.action);
        hist := hist.(donated := hist.donated + DonationOf(was, token, chain.self));
      } else if e.sender != ZERO_ADDRESS && e.sender != chain.self {
        NestedCall(e.sender, e.call);
      }
    }

    method NestedCall(msgSender: Address, call: Call)
      requires Valid() && entered && msgSender != ZERO_ADDRESS && msgSender != chain.self
      modifies this
      ensures Abs() == Step(chain, old(Abs()), Invoke(msgSender, call))
      ensures Valid() && entered && frame == old(frame) && now == old(now) && height == old(height)
      ensures hist.payouts == old(hist.payouts) && nextJobId == old(nextJobId)
    {
      var r: Result<(), Error>;
      if IsOwnerCall(call) {
        r := NestedOwnerCall(msgSender, call);
        return;
      }
      match call
      case AcceptJob(id) => r := AcceptJob(msgSender, id);
      case ExpireVerification(id) => r := ExpireVerification(msgSender, id);
      case SubmitAttempt(id, artifact, code) => r := SubmitAttempt(msgSender, id, artifact, code);
      case LockRandomness(id) => r := LockRandomness(msgSender, id);
      case SetExtensionId(senders) => r := SetExtensionId(msgSender, senders);
      case AcceptOwnership => r := AcceptOwnership(msgSender);
      case _ => r := Err(Reentrancy);
    }

    method NestedOwnerCall(msgSender: Address, call: Call) returns (r: Result<(), Error>)
      requires Valid() && msgSender != ZERO_ADDRESS && msgSender != chain.self && IsOwnerCall(call)
      modifies this`paused, this`protocolFeeBps, this`pendingOwner
      ensures Abs() == Step(chain, old(Abs()), Invoke(msgSender, call))
    {
      match call
      case PauseNewWork => r := PauseNewWork(msgSender);
      case UnpauseNewWork => r := UnpauseNewWork(msgSender);
      case SetProtocolFee(bps) => r := SetProtocolFee(msgSender, bps);
      case TransferOwnership(newOwner) => r := TransferOwnership(msgSender, newOwner);
    }

    method RestoreStorage(storage: Storage)
      modifies this`owner, this`pendingOwner, this`protocolFeeBps, this`paused
      modifies this`extensionId, this`nextJobId, this`jobs
      ensures Store() == storage
    {
      owner, pendingOwner, protocolFeeBps, paused :=
        storage.owner, storage.pendingOwner, storage.protocolFeeBps, storage.paused;
      extensionId, nextJobId, jobs := storage.extensionId, storage.nextJobId, storage.jobs;
    }

    // Undoing everything since the transaction began.
    method Revert(storage: Storage, ledger: Ledger)
      requires Valid() && entered && storage == frame.saved.store && ledger == frame.saved.token
      modifies this
      ensures Abs() == Rollback(old(Abs())) && Valid()
    {
      RestoreStorage(storage);
      token, entered := ledger, false;
      hist, frame := frame.saved.hist, Idle;
    }

    // token.safeTransfer of the next payment; a refusal reverts everything.
    method SafeTransfer(to: Address, amount: nat, storage: Storage, ledger: Ledger, ghost id: nat,
                        ghost rest: seq<(Address, nat)>)
      returns (ok: bool)
      requires Valid() && entered && storage == frame.saved.store && ledger == frame.saved.token
      requires frame.pc == Paying(id, [(to, amount)] + rest)
      modifies this
      ensures Valid() && ok == entered && Abs() == Resume(chain, old(Abs()), 0)
      ensures ok ==> frame == Busy(old(frame).saved, Paying(id, rest))
      ensures ok ==> hist.payouts == old(hist.payouts) + [Payout(id, to, amount, now)]
      ensures !ok ==> Abs() == Rollback(old(Abs()))
      ensures now == old(now) && height == old(height)
    {
      assert ([(to, amount)] + rest)[1..] == rest;
      var sent := Transfer(token, chain.self, to, amount);
      if sent == None {
        Revert(storage, ledger);
        return false;
      }
      token := sent.value;
      hist := hist.(payouts := hist.payouts + [Payout(id, to, amount, now)]);
      frame := Busy(frame.saved, Paying(id, rest));
      return true;
    }

    // The end of a paying transaction: the guard opens again.
    method Leave(ghost id: nat)
      requires Valid() && entered && frame.pc == Paying(id, [])
      modifies this`entered, this`frame
      ensures Valid() && !entered && Abs() == Resume(chain, old(Abs()), 0)
    {
      entered := false;
      frame := Idle;
    }

    // The queued payments one after the other, with a window before each and one
    // after the last.
    method PayAll(queue: seq<(Address, nat)>, windows: seq<seq<Event>>, storage: Storage, ledger: Ledger,
                  ghost id: nat)
      returns (ok: bool)
      requires Valid() && entered && storage == frame.saved.store && ledger == frame.saved.token
      requires frame.pc == Paying(id, queue)
      requires |windows| == |queue| + 1 && forall i | 0 <= i < |windows| :: IsWindow(windows[i])
      modifies this
      ensures Valid() && !entered && Abs() == RunBusy(chain, old(Abs()), Joined(windows))
      ensures !ok ==> Abs().core == old(frame).saved
      ensures ok ==> hist.payouts == old(hist.payouts) + Payments(id, queue, now)
      ensures now == old(now) && height == old(height)
      decreases |queue|
    {
      ghost var start := Abs();
      ghost var rest := Joined(windows[1..]);
      Interact(windows[0]);
      JoinedStep(chain, start, Abs(), windows);
      if |queue| == 0 {
        Leave(id);
        RunBusyIdle(chain, Abs(), rest);
        return true;
      }
      assert queue == [queue[0]] + queue[1..];
      ok := SafeTransfer(queue[0].0, queue[0].1, storage, ledger, id, queue[1..]);
      if ok {
        ok := PayAll(queue[1..], windows[1..], storage, ledger, id);
        ConcatAssoc(old(hist.payouts), [Payout(id, queue[0].0, queue[0].1, now)], Payments(id, queue[1..], now));
      } else {
        RunBusyIdle(chain, Abs(), rest);
      }
    }

    // What the state is once a paying transaction has run to its end.
    method SettleUp(queue: seq<(Address, nat)>, windows: seq<seq<Event>>, storage: Storage, ledger: Ledger,
                    ghost id: nat, ghost start: State)
      returns (r: Result<(), Error>)
      requires Valid() && entered && storage == start.core.store && ledger == start.core.token
      requires frame == Busy(start.core, Paying(id, queue)) && start.frame.Idle?
      requires start.now == now && start.height == height
      requires |windows| == |queue| + 1 && forall i | 0 <= i < |windows| :: IsWindow(windows[i])
      modifies this
      ensures Valid() && !entered && Abs() == RunBusy(chain, old(Abs()), Joined(windows))
      ensures r.Err? ==> Abs() == start
      ensures r.Ok? ==> hist.payouts == old(hist.payouts) + Payments(id, queue, now)
      ensures now == old(now)
    {
      var ok := PayAll(queue, windows, storage, ledger, id);
      r := if ok then Ok(()) else Err(ExternalRevert);
    }

    method CancelUnaccepted(msgSender: Address, id: nat, windows: seq<seq<Event>>) returns (r: Result<(), Error>)
      requires Valid() && msgSender != ZERO_ADDRESS && msgSender != chain.self
      requires |windows| == 2 && forall i | 0 <= i < |windows| :: IsWindow(windows[i])
      modifies this
      ensures Valid()
      ensures Abs() == ExecTx(chain, old(Abs()), Tx(msgSender, Call.CancelUnaccepted(id), Joined(windows)))
      ensures var begun := Begin(chain, old(Abs()), msgSender, Call.CancelUnaccepted(id));
              begun.Err? ==> r == Err(begun.error)
      ensures r.Ok? ==> Permitted(chain, old(Abs()), msgSender, Call.CancelUnaccepted(id))
      ensures r.Ok? ==>
                var t := old(JobOf(id)).terms;
                hist.payouts == old(hist.payouts) + [Payout(id, t.client, Refund(t), old(now))]
      ensures r.Err? ==> Abs() == old(Abs())
    {
      AdmittedIfPermitted(chain, Abs(), msgSender, Call.CancelUnaccepted(id));
      if entered {
        return Err(Reentrancy);
      }
      var j := JobOf(id);
      if j.state != Created || msgSender != j.terms.client {
        return Err(InvalidState);
      }
      ghost var start := Abs();
      var storage, ledger := Store(), token;
      var queue := [(j.terms.client, Refund(j.terms))];
      jobs := jobs[id := j.(state := Cancelled, settled := true)];
      entered := true;
      frame := Busy(start.core, Paying(id, queue));
      r := SettleUp(queue, windows, storage, ledger, id, start);
    }

    method RefundExpired(msgSender: Address, id: nat, windows: seq<seq<Event>>) returns (r: Result<(), Error>)
      requires Valid() && msgSender != ZERO_ADDRESS && msgSender != chain.self
      requires |windows| == 2 && forall i | 0 <= i < |windows| :: IsWindow(windows[i])
      modifies this
      ensures Valid()
      ensures Abs() == ExecTx(chain, old(Abs()), Tx(msgSender, Call.RefundExpired(id), Joined(windows)))
      ensures var begun := Begin(chain, old(Abs()), msgSender, Call.RefundExpired(id));
              begun.Err? ==> r == Err(begun.error)
      ensures r.Ok? ==> Permitted(chain, old(Abs()), msgSender, Call.RefundExpired(id))
      ensures r.Ok? ==>
                var t := old(JobOf(id)).terms;
                hist.payouts == old(hist.payouts) + [Payout(id, t.client, Refund(t), old(now))]
      ensures r.Err? ==> Abs() == old(Abs())
    {
      AdmittedIfPermitted(chain, Abs(), msgSender, Call.RefundExpired(id));
      if entered {
        return Err(Reentrancy);
      }
      var j := JobOf(id);
      if j.settled || now <= j.terms.graceEnds {
        return Err(InvalidState);
      }
      if j.terms.client == ZERO_ADDRESS {  // an id never created: the token refuses
        return Err(ExternalRevert);
      }
      ghost var start := Abs();
      var storage, ledger := Store(), token;
      var queue := [(j.terms.client, Refund(j.terms))];
      jobs := jobs[id := j.(state := Refunded, settled := true)];
      entered := true;
      frame := Busy(start.core, Paying(id, queue));
      r := SettleUp(queue, windows, storage, ledger, id, start);
    }

    // The guards of settleAttempt, in order.
    method CheckSettlement(call: Call) returns (r: Result<VerdictV1, Error>)
      requires Valid() && call.SettleAttempt?
      ensures r == AcceptedVerdict(chain, Abs(), call)
      ensures forall v :: r == Ok(v) <==> Settles(chain, Abs(), call, v)
    {
      AcceptsExactlySettling(chain, Abs(), call);
      if entered {
        return Err(Reentrancy);
      }
      var j := JobOf(call.id);
      if j.state != Verifying || now > j.current.timeoutAt || now > j.terms.graceEnds {
        return Err(InvalidState);
      }
      if call.status != 1 || call.opType != OP_TYPE || call.opCommand != OP_COMMAND
         || chain.keccak(call.submissionTag) != chain.keccak(THRESHOLD_TAG) {
        return Err(InvalidVerdict);
      }
      if j.current.instructionId == 0 {
        return Err(InvalidState);
      }
      var decoded := Abi.DecodeVerdict(call.data);
      if decoded == None {
        return Err(BadEncoding);
      }
      var v := decoded.value;
      var m := SignedMessage(call.data, v.id.instructionId, call.submissionTag, call.status, chain.chainId);
      var signer := RecoverSigner(m, call.signature);
      if signer == ZERO_ADDRESS || signer != j.terms.expectedTee {
        return Err(InvalidVerdict);
      }
      var bound := CheckBinding(j, v, call.id, call.liveCodeHash);
      if !bound {
        return Err(InvalidVerdict);
      }
      return Ok(v);
    }

    // Every security-critical field of the verdict against storage.
    method CheckBinding(j: Job, v: VerdictV1, id: nat, liveCodeHash: Bytes32) returns (ok: bool)
      ensures ok <==> IdentityMatches(chain, j, v.id, id) && OutcomeMatches(j, v.result, now, liveCodeHash)
    {
      var same := CheckIdentity(j, v.id, id);
      if !same {
        return false;
      }
      ok := CheckOutcomeBinding(j, v.result, liveCodeHash);
    }

    method CheckIdentity(j: Job, vi: VerdictIdentity, id: nat) returns (ok: bool)
      ensures ok <==> IdentityMatches(chain, j, vi, id)
    {
      if vi.schemaVersion != 1 || vi.escrowAddress != chain.self || vi.chainId != chain.chainId || vi.jobId != id {
        return false;
      }
      if vi.attempt != j.current.attempt || vi.instructionId != j.current.instructionId {
        return false;
      }
      if vi.specHash != j.terms.specHash || vi.privateBundleHash != j.terms.privateBundleHash {
        return false;
      }
      if vi.artifactAddress != j.current.artifactAddress || vi.artifactBlock != j.current.artifactBlock {
        return false;
      }
      return true;
    }

    method CheckOutcomeBinding(j: Job, vo: VerdictOutcome, liveCodeHash: Bytes32) returns (ok: bool)
      ensures ok <==> OutcomeMatches(j, vo, now, liveCodeHash)
    {
      if liveCodeHash != j.current.artifactCodeHash || vo.artifactCodeHash != j.current.artifactCodeHash {
        return false;
      }
      if vo.randomRound != j.current.randomRound || vo.randomValueHash != j.current.randomValueHash {
        return false;
      }
      if vo.engineVersionHash != j.terms.engineVersionHash || vo.reportHash == 0 {
        return false;
      }
      if vo.executedCount == 0 || vo.passedCount > vo.executedCount {
        return false;
      }
      if vo.outcome == Pass && vo.passedCount != vo.executedCount {
        return false;
      }
      if vo.outcome != Pass && vo.passedCount == vo.executedCount {
        return false;
      }
      if vo.expiresAt != j.terms.graceEnds || vo.issuedAt > now || vo.issuedAt < j.current.dispatchedAt {
        return false;
      }
      return true;
    }

    method SettleAttempt(msgSender: Address, call: Call, windows: seq<seq<Event>>) returns (r: Result<(), Error>)
      requires Valid() && msgSender != ZERO_ADDRESS && msgSender != chain.self && call.SettleAttempt?
      requires |windows| == 3 && forall i | 0 <= i < |windows| :: IsWindow(windows[i])
      modifies this
      ensures Valid()
      ensures Abs() == ExecTx(chain, old(Abs()), Tx(msgSender, call, Joined(windows)))
      ensures AcceptedVerdict(chain, old(Abs()), call).Err? ==>
                r == Err(AcceptedVerdict(chain, old(Abs()), call).error)
      ensures r.Ok? ==> Permitted(chain, old(Abs()), msgSender, call)
      ensures r.Ok? ==>
                && AcceptedVerdict(chain, old(Abs()), call).Ok?
                && var o := AcceptedVerdict(chain, old(Abs()), call).value.result.outcome;
                   hist.payouts == old(hist.payouts) + old(PaymentsOn(call.id, o))
      ensures r.Err? ==> Abs() == old(Abs())
    {
      AdmittedIfPermitted(chain, Abs(), msgSender, call);
      var checked := CheckSettlement(call);
      if checked.Err? {
        return Err(checked.error);
      }
      r := ApplyVerdict(call.id, checked.value.result.outcome, windows);
    }

    // What settling with an outcome pays: on PASS the contractor, then the treasury.
    ghost function PaymentsOn(id: nat, o: Outcome): seq<Payout>
      reads this
    {
      var t := JobOf(id).terms;
      if o.Pass? then [Payout(id, t.contractor, t.principal as nat, now), Payout(id, chain.treasury, t.fee as nat, now)]
      else []
    }

    method ApplyVerdict(id: nat, o: Outcome, windows: seq<seq<Event>>) returns (r: Result<(), Error>)
      requires Valid() && !entered
      requires |windows| == 3 && forall i | 0 <= i < |windows| :: IsWindow(windows[i])
      modifies this
      ensures Valid() && !entered
      ensures Abs() == match ApplyOutcome(chain, old(Abs()), id, o)
                       case Ok(s1) => RunBusy(chain, s1, Joined(windows))
                       case Err(_) => old(Abs())
      ensures r.Ok? ==> hist.payouts == old(hist.payouts) + old(PaymentsOn(id, o))
      ensures r.Err? ==> Abs() == old(Abs())
    {
      var j := JobOf(id);
      ghost var settled := hist.(settlements := hist.settlements + multiset{(id, j.current.attempt as nat)});
      var late := now > j.terms.submitBy;
      if o == Fail {
        jobs := jobs[id := j.(state := if late then RefundPending else AwaitingResubmission)];
        hist := settled;
        RunBusyIdle(chain, Abs(), Joined(windows));
        return Ok(());
      }
      if o == Inconclusive {
        jobs := jobs[id := j.(state := if late then RefundPending else Retryable)];
        hist := settled;
        RunBusyIdle(chain, Abs(), Joined(windows));
        return Ok(());
      }
      r := PayContractor(id, windows);
    }

    // The PASS branch: the contractor is paid, then the treasury.
    method PayContractor(id: nat, windows: seq<seq<Event>>) returns (r: Result<(), Error>)
      requires Valid() && !entered
      requires |windows| == 3 && forall i | 0 <= i < |windows| :: IsWindow(windows[i])
      modifies this
      ensures Valid() && !entered
      ensures Abs() == match ApplyOutcome(chain, old(Abs()), id, Pass)
                       case Ok(s1) => RunBusy(chain, s1, Joined(windows))
                       case Err(_) => old(Abs())
      ensures r.Ok? ==> hist.payouts == old(hist.payouts) + old(PaymentsOn(id, Pass))
      ensures r.Err? ==> Abs() == old(Abs())
    {
      var j := JobOf(id);
      ghost var start := Abs();
      if j.terms.contractor == ZERO_ADDRESS {  // the token refuses
        return Err(ExternalRevert);
      }
      var storage, ledger := Store(), token;
      var queue := [(j.terms.contractor, j.terms.principal as nat), (chain.treasury, j.terms.fee as nat)];
      jobs := jobs[id := j.(state := Paid, settled := true)];
      hist := hist.(settlements := hist.settlements + multiset{(id, j.current.attempt as nat)});
      entered := true;
      frame := Busy(start.core, Paying(id, queue));
      TwoPayments(id, queue, now);
      r := SettleUp(queue, windows, storage, ledger, id, start);
    }

    method ConfirmProductionTee(tee: Address, status: Option<nat>) returns (e: Option<Error>)
      ensures e == TeeError(tee, status)
      ensures e.None? <==> tee != ZERO_ADDRESS && status == Some(TEE_STATUS_PRODUCTION)
      ensures e == Some(ExternalRevert) <==> tee != ZERO_ADDRESS && status == None
      ensures e == Some(TeeNotProduction) <==>
                tee == ZERO_ADDRESS || (status.Some? && status.value != TEE_STATUS_PRODUCTION)
    {
      if tee == ZERO_ADDRESS {
        return Some(TeeNotProduction);
      }
      if status == None {
        return Some(ExternalRevert);
      }
      if status.value != TEE_STATUS_PRODUCTION {
        return Some(TeeNotProduction);
      }
      return None;
    }

    // answer is what sendInstructions returns, None if it reverts.
    method DispatchVerification(msgSender: Address, id: nat, teeStatus: Option<nat>, window: seq<Event>,
                                answer: Option<Bytes32>)
      returns (r: Result<(), Error>)
      requires Valid() && msgSender != ZERO_ADDRESS && msgSender != chain.self && IsWindow(window)
      modifies this
      ensures Valid()
      ensures Abs() == ExecTx(chain, old(Abs()), Tx(
                         msgSender, Call.DispatchVerification(id, teeStatus), window + [AnswerEvent(answer)]))
      ensures var begun := Begin(chain, old(Abs()), msgSender, Call.DispatchVerification(id, teeStatus));
              begun.Err? ==> r == Err(begun.error)
      ensures r.Ok? ==> Permitted(chain, old(Abs()), msgSender, Call.DispatchVerification(id, teeStatus))
      ensures r.Ok? ==> answer.Some? && JobOf(id).state == Verifying && JobOf(id).current.instructionId == answer.value
      ensures r.Err? ==> Abs() == old(Abs())
    {
      AdmittedIfPermitted(chain, Abs(), msgSender, Call.DispatchVerification(id, teeStatus));
      if entered {
        return Err(Reentrancy);
      }
      var j := JobOf(id);
      if j.state != ReadyToVerify || !j.current.randomLocked {
        return Err(InvalidState);
      }
      var bad := ConfirmProductionTee(j.terms.expectedTee, teeStatus);
      if bad.Some? {
        return Err(bad.value);
      }
      var storage, ledger := Store(), token;
      entered := true;
      frame := Busy(Abs().core, Sending(id));
      ghost var sent := Abs();
      Interact(window);
      RunBusyConcat(chain, sent, window, [AnswerEvent(answer)]);
      RunBusyOne(chain, Abs(), AnswerEvent(answer));
      r := Answered(id, storage, ledger, answer);
    }

    // The rest of dispatchVerification: storage is read again after the call.
    method Answered(id: nat, storage: Storage, ledger: Ledger, answer: Option<Bytes32>) returns (r: Result<(), Error>)
      requires Valid() && entered && storage == frame.saved.store && ledger == frame.saved.token
      requires frame.pc == Sending(id)
      modifies this
      ensures Valid() && !entered && Abs() == Step(chain, old(Abs()), AnswerEvent(answer))
      ensures r.Ok? ==> answer.Some? && JobOf(id).state == Verifying && JobOf(id).current.instructionId == answer.value
      ensures r.Err? ==> Abs() == Rollback(old(Abs()))
    {
      if answer == None {
        Revert(storage, ledger);
        return Err(ExternalRevert);
      }
      var j := JobOf(id);
      var rawTimeoutAt := now + j.terms.verificationTimeout;
      var timeoutAt: Uint64 := j.terms.graceEnds;
      if rawTimeoutAt < j.terms.graceEnds {
        timeoutAt := rawTimeoutAt % TWO64;
      }
      if rawTimeoutAt >= TWO256 || timeoutAt <= now {
        Revert(storage, ledger);
        return Err(if rawTimeoutAt >= TWO256 then Panic else Deadline);
      }
      StartVerifying(id, answer.value, timeoutAt);
      return Ok(());
    }

    method StartVerifying(id: nat, instructionId: Bytes32, timeoutAt: Uint64)
      requires Valid() && entered && frame.pc == Sending(id)
      requires now + JobOf(id).terms.verificationTimeout < TWO256 && timeoutAt > now
      requires timeoutAt == Min(now + JobOf(id).terms.verificationTimeout, JobOf(id).terms.graceEnds)
      modifies this`jobs, this`hist, this`entered, this`frame
      ensures Valid() && !entered && Abs() == Resume(chain, old(Abs()), instructionId)
      ensures JobOf(id).state == Verifying && JobOf(id).current.instructionId == instructionId
    {
      var j := JobOf(id);
      var current := j.current.(instructionId := instructionId, dispatchedAt := now % TWO64, timeoutAt := timeoutAt);
      jobs := jobs[id := j.(current := current, state := Verifying)];
      hist := hist.(dispatches := hist.dispatches + multiset{(id, j.current.attempt as nat)});
      entered := false;
      frame := Idle;
    }

    method CreateJob(msgSender: Address, call: Call, windows: seq<seq<Event>>) returns (r: Result<nat, Error>)
      requires Valid() && msgSender != ZERO_ADDRESS && msgSender != chain.self && call.CreateJob?
      requires |windows| == 2 && forall i | 0 <= i < |windows| :: IsWindow(windows[i])
      modifies this
      ensures Valid()
      ensures Abs() == ExecTx(chain, old(Abs()), Tx(msgSender, call, Joined(windows)))
      ensures DoCreateJob(chain, old(Abs()), msgSender, call).Err? ==>
                r == Err(DoCreateJob(chain, old(Abs()), msgSender, call).error)
      ensures r.Ok? ==> Permitted(chain, old(Abs()), msgSender, call)
      ensures r.Ok? ==>
                && r.value == old(nextJobId) && nextJobId == old(nextJobId) + 1
                && var j := JobOf(r.value);
                   && j.state == Created && j.terms.client == msgSender && j.terms.contractor == call.contractor
                   && j.terms.expectedTee == call.expectedTee && j.terms.principal == call.principal
                   && j.terms.fee == FeeOf(call.principal, old(protocolFeeBps))
                   && j.terms.acceptBy == call.acceptBy && j.terms.submitBy == call.submitBy
                   && j.terms.graceEnds == call.graceEnds && j.terms.verificationTimeout == call.verificationTimeout
                   && j.terms.specHash == call.specHash && j.terms.privateBundleHash == call.privateBundleHash
                   && j.terms.engineVersionHash == call.engineVersionHash
                   && j.terms.ciphertextHash == call.ciphertextHash
      ensures r.Err? ==> Abs() == old(Abs())
    {
      AdmittedIfPermitted(chain, Abs(), msgSender, call);
      if paused {
        return Err(IsPaused);
      }
      if entered {
        return Err(Reentrancy);
      }
      if call.contractor == ZERO_ADDRESS || call.expectedTee == ZERO_ADDRESS || call.acceptBy <= now
         || call.submitBy <= call.acceptBy || call.graceEnds <= call.submitBy
         || call.verificationTimeout < MIN_VERIFICATION_TIMEOUT
         || call.verificationTimeout > MAX_VERIFICATION_TIMEOUT || call.principal == 0 {
        return Err(InvalidVerdict);
      }
      if extensionId == 0 {
        return Err(ExtensionIdNotSet);
      }
      var bad := ConfirmProductionTee(call.expectedTee, call.teeStatus);
      if bad.Some? {
        return Err(bad.value);
      }
      var fee := FeeOf(call.principal, protocolFeeBps);
      var terms := JobTerms(
        msgSender, call.contractor, call.expectedTee, call.principal, fee, now % TWO64, call.acceptBy,
        call.submitBy, call.graceEnds, call.verificationTimeout, call.specHash, call.privateBundleHash,
        call.engineVersionHash, call.ciphertextHash);
      var storage, ledger := Store(), token;
      entered := true;
      frame := Busy(Abs().core, Pulling(terms));
      JoinedTwo(windows);
      r := PullAndRecord(terms, windows[0], windows[1], storage, ledger);
    }

    method PullAndRecord(terms: JobTerms, window: seq<Event>, window': seq<Event>, storage: Storage, ledger: Ledger)
      returns (r: Result<nat, Error>)
      requires Valid() && entered && storage == frame.saved.store && ledger == frame.saved.token
      requires frame.pc == Pulling(terms) && IsWindow(window) && IsWindow(window')
      modifies this
      ensures Valid() && !entered
      ensures Abs() == RunBusy(chain, old(Abs()), window + [Proceed(0)] + (window' + [Proceed(0)]))
      ensures r.Ok? ==>
                && r.value == old(nextJobId) && nextJobId == old(nextJobId) + 1
                && JobOf(r.value).terms == terms && JobOf(r.value).state == Created
      ensures r.Err? ==> Abs() == Rollback(old(Abs()))
    {
      ghost var start := Abs();
      RunBusyConcat(chain, start, window + [Proceed(0)], window' + [Proceed(0)]);
      RunBusyConcat(chain, start, window, [Proceed(0)]);
      Interact(window);
      RunBusyOne(chain, Abs(), Proceed(0));
      var pulled := TransferFrom(token, terms.client, chain.self, Refund(terms));
      if pulled == None {
        Revert(storage, ledger);
        RunBusyIdle(chain, Abs(), window' + [Proceed(0)]);
        return Err(ExternalRevert);
      }
      token := pulled.value;
      frame := Busy(frame.saved, Pulled(terms));
      ghost var paid := Abs();
      RunBusyConcat(chain, paid, window', [Proceed(0)]);
      Interact(window');
      RunBusyOne(chain, Abs(), Proceed(0));
      r := Record(terms, storage, ledger);
    }

    method Record(terms: JobTerms, storage: Storage, ledger: Ledger) returns (r: Result<nat, Error>)
      requires Valid() && entered && storage == frame.saved.store && ledger == frame.saved.token
      requires frame.pc == Pulled(terms)
      modifies this
      ensures Valid() && !entered && Abs() == FinishCreate(old(Abs()), terms)
      ensures r.Err? ==> Abs() == Rollback(old(Abs()))
      ensures r.Ok? ==>
                && r.value == old(nextJobId) && nextJobId == old(nextJobId) + 1
                && JobOf(r.value).terms == terms && JobOf(r.value).state == Created
    {
      if nextJobId + 1 >= TWO256 {
        Revert(storage, ledger);
        return Err(Panic);
      }
      var id: nat := nextJobId;
      nextJobId := nextJobId + 1;
      jobs := jobs[id := JobOf(id).(terms := terms, state := Created)];
      entered := false;
      frame := Idle;
      return Ok(id);
    }
  }

  lemma {:induction false} FoundAt(self: Address, senders: seq<Address>, i: nat)
    requires i < |senders| && senders[i] == self && forall k | 0 <= k < i :: senders[k] != self
    ensures FindExtension(self, senders) == Some(i)
  {
    if i > 0 {
      FoundAt(self, senders[1..], i - 1);
    }
  }

  lemma {:induction false} NotFound(self: Address, senders: seq<Address>)
    requires forall k | 0 <= k < |senders| :: senders[k] != self
    ensures FindExtension(self, senders) == None
  {
    if |senders| > 0 {
      NotFound(self, senders[1..]);
    }
  }
}
