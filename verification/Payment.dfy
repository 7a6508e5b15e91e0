// Settlement to the end: once a verdict is accepted nothing of the escrow's own can
// stop the payments, and they reach the contractor and the treasury.
module Payment {
  import opened Base
  import opened Records
  import opened Token
  import opened EscrowMachine
  import opened EscrowInvariant
  import opened Transactions

  // What settling with an outcome brings an account.
  function Due(c: Chain, t: JobTerms, o: Outcome, a: Address): nat {
    if !o.Pass? then 0
    else (if a == t.contractor then t.principal as nat else 0) + (if a == c.treasury then t.fee as nat else 0)
  }

  function PaymentsFor(c: Chain, id: nat, t: JobTerms, o: Outcome, at: nat): seq<Payout> {
    if !o.Pass? then []
    else [Payout(id, t.contractor, t.principal as nat, at), Payout(id, c.treasury, t.fee as nat, at)]
  }

  // From s to t the job was settled with an outcome, and the transaction is over.
  ghost predicate SettledAs(c: Chain, s: State, t: State, id: nat, o: Outcome) {
    var j := JobAt(s.core.store, id);
    && t.frame.Idle? && t.now == s.now
    && JobAt(t.core.store, id) == j.(state := SettledState(j, o, s.now), settled := o.Pass?)
    && t.core.hist.payouts == s.core.hist.payouts + PaymentsFor(c, id, j.terms, o, s.now)
    && forall a: Address | a != c.self ::
         BalanceOf(t.core.token, a) == BalanceOf(s.core.token, a) + Due(c, j.terms, o, a)
  }

  // One queued payment always goes through, and moves what it says.
  lemma PaymentMoves(c: Chain, s: State, id: nat, queue: seq<(Address, nat)>)
    requires Inv(c, s) && s.frame.Busy? && s.frame.pc == Paying(id, queue) && |queue| > 0
    ensures var s' := Resume(c, s, 0); var to, amount := queue[0].0, queue[0].1;
            && Inv(c, s') && s'.frame == Busy(s.frame.saved, Paying(id, queue[1..])) && s'.now == s.now
            && s'.core.store == s.core.store
            && s'.core.hist.payouts == s.core.hist.payouts + [Payout(id, to, amount, s.now)]
            && forall a: Address | a != c.self ::
                 BalanceOf(s'.core.token, a) == BalanceOf(s.core.token, a) + if a == to then amount else 0
  {
    PaymentSucceeds(c, s, id, queue);
    assert queue[0] in queue;
    TransferMoves(s.core.token, c.self, queue[0].0, queue[0].1);
    ResumeKeeps(c, s, 0);
  }

  // Both payments of a pass, one after the other.
  lemma BothPaymentsMove(c: Chain, s: State, id: nat, q: (Address, nat), r: (Address, nat))
    requires Inv(c, s) && s.frame.Busy? && s.frame.pc == Paying(id, [q, r])
    ensures var t := Run(c, s, [Proceed(0), Proceed(0), Proceed(0)]);
            && t.frame.Idle? && t.now == s.now && t.core.store == s.core.store
            && t.core.hist.payouts == s.core.hist.payouts + [Payout(id, q.0, q.1, s.now), Payout(id, r.0, r.1, s.now)]
            && forall a: Address | a != c.self ::
                 BalanceOf(t.core.token, a)
                 == BalanceOf(s.core.token, a) + (if a == q.0 then q.1 else 0) + (if a == r.0 then r.1 else 0)
  {
    assert [q, r][1..] == [r] && [r][1..] == [];
    PaymentMoves(c, s, id, [q, r]);
    var s2 := Resume(c, s, 0);
    PaymentMoves(c, s2, id, [r]);
    var s3 := Resume(c, s2, 0);
    ThreeSteps(c, s, Proceed(0), Proceed(0), Proceed(0));
  }

  lemma ThreeSteps(c: Chain, s: State, e: Event, f: Event, g: Event)
    ensures Run(c, s, [e, f, g]) == Step(c, Step(c, Step(c, s, e), f), g)
  {
    assert [e, f, g][1..] == [f, g] && [f, g][1..] == [g] && [g][1..] == [];
    assert Run(c, Step(c, s, e), [f, g]) == Run(c, Step(c, Step(c, s, e), f), [g]);
    assert Run(c, Step(c, Step(c, s, e), f), [g]) == Run(c, Step(c, Step(c, Step(c, s, e), f), g), []);
  }

  // An accepted verdict is settled to the end: the job and the balances are as its
  // outcome has them.
  lemma SettlementCompletes(c: Chain, s: State, id: nat, o: Outcome)
    requires Inv(c, s) && s.frame.Idle? && JobAt(s.core.store, id).state.Verifying?
    requires ApplyOutcome(c, s, id, o).Ok?
    ensures SettledAs(c, s, Run(c, ApplyOutcome(c, s, id, o).value, [Proceed(0), Proceed(0), Proceed(0)]), id, o)
  {
    UnknownJobIsZero(c, s, id);
    var j, s1 := JobAt(s.core.store, id), ApplyOutcome(c, s, id, o).value;
    if o.Pass? {
      OutcomeKeeps(c, s, id, o);
      BothPaymentsMove(c, s1, id, (j.terms.contractor, j.terms.principal as nat), (c.treasury, j.terms.fee as nat));
    } else {
      ThreeSteps(c, s1, Proceed(0), Proceed(0), Proceed(0));
    }
  }

  // A settling call, run to its end from between two transactions.
  function Settling(sender: Address, call: Call): seq<Event> {
    [Invoke(sender, call), Proceed(0), Proceed(0), Proceed(0)]
  }

  lemma SettlingCompletes(c: Chain, s: State, sender: Address, call: Call, id: nat, o: Outcome)
    requires Inv(c, s) && s.frame.Idle? && JobAt(s.core.store, id).state.Verifying?
    requires Begin(c, s, sender, call).Ok? && Begin(c, s, sender, call) == ApplyOutcome(c, s, id, o)
    ensures SettledAs(c, s, Run(c, s, Settling(sender, call)), id, o)
  {
    SettlementCompletes(c, s, id, o);
    assert Settling(sender, call)[1..] == [Proceed(0), Proceed(0), Proceed(0)];
  }
}
