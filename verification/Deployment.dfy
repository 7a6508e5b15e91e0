// Runs of a fresh escrow up to a job: what the reachability results start from.
module Deployment {
  import opened Base
  import opened Records
  import opened EscrowMachine
  import T = Token

  // Deployed at time zero, with no owner and no fee.
  function NewEscrow(): State {
    State(Core(Storage(0, 0, 0, false, 0, 0, map[]), T.Ledger(map[], map[]), NO_HISTORY), 0, 0, Idle)
  }

  predicate IsSettlement(e: Event) { e.Invoke? && e.call.SettleAttempt? }

  // A run of a fresh escrow that ends in t, without any settlement.
  ghost predicate Leads(c: Chain, es: seq<Event>, t: State) {
    Run(c, NewEscrow(), es) == t && forall e | e in es :: !IsSettlement(e)
  }

  lemma OneMore(c: Chain, es: seq<Event>, s: State, e: Event)
    requires Leads(c, es, s) && !IsSettlement(e)
    ensures Leads(c, es + [e], Step(c, s, e))
  {
    RunConcat(c, NewEscrow(), es, [e]);
    assert Run(c, s, [e]) == Run(c, Step(c, s, e), []);
  }

  // The escrow is registered and the client funded.
  lemma Funded(c: Chain, client: Address) returns (es: seq<Event>, t: State)
    requires ChainOk(c) && client != ZERO_ADDRESS && client != c.self
    ensures Leads(c, es, t) && t.frame.Idle? && t.now == 0 && t.height == 0 && t.core.hist == NO_HISTORY
    ensures t.core.store == Storage(0, 0, 0, false, FIRST_PUBLIC_EXTENSION_ID, 0, map[])
    ensures t.core.token == T.Ledger(map[client := 1], map[client := 1])
  {
    es, t := [], NewEscrow();
    var e := Invoke(client, SetExtensionId([c.self]));
    OneMore(c, es, t, e);
    es, t := es + [e], Step(c, t, e);
    e := TokenAct(T.Mint(client, 1));
    OneMore(c, es, t, e);
    es, t := es + [e], Step(c, t, e);
    e := TokenAct(T.Approve(client, 1));
    OneMore(c, es, t, e);
    es, t := es + [e], Step(c, t, e);
  }

  // What a client asks for, and the terms it gets from an escrow without a fee.
  function Asking(t: JobTerms): Call {
    CreateJob(t.contractor, t.expectedTee, t.principal, t.acceptBy, t.submitBy, t.graceEnds, t.verificationTimeout,
              t.specHash, t.privateBundleHash, t.engineVersionHash, t.ciphertextHash, Some(TEE_STATUS_PRODUCTION))
  }

  // Terms a client with one token can get at time zero.
  predicate Affordable(c: Chain, t: JobTerms) {
    && t.client != ZERO_ADDRESS && t.client != c.self && t.contractor != ZERO_ADDRESS && t.expectedTee != ZERO_ADDRESS
    && t.principal == 1 && t.fee == 0 && t.createdAt == 0 && 0 < t.acceptBy < t.submitBy < t.graceEnds
    && MIN_VERIFICATION_TIMEOUT <= t.verificationTimeout <= MAX_VERIFICATION_TIMEOUT
  }

  // The job is created.
  lemma JobCreated(c: Chain, terms: JobTerms) returns (es: seq<Event>, t: State)
    requires ChainOk(c) && Affordable(c, terms)
    ensures Leads(c, es, t) && t.frame.Idle? && t.now == 0 && t.height == 0 && t.core.hist == NO_HISTORY
    ensures t.core.store.nextJobId == 1 && !t.core.store.paused
    ensures JobAt(t.core.store, 0) == ZERO_JOB.(terms := terms)
  {
    es, t := Funded(c, terms.client);
    var before := t.core;
    var e := Invoke(terms.client, Asking(terms));
    OneMore(c, es, t, e);
    es, t := es + [e], Step(c, t, e);
    assert t.frame == Busy(before, Pulling(terms));
    e := Proceed(0);
    OneMore(c, es, t, e);
    es, t := es + [e], Step(c, t, e);
    assert t.frame == Busy(before, Pulled(terms));
    OneMore(c, es, t, e);
    es, t := es + [e], Step(c, t, e);
  }
}
