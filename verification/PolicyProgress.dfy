/** Nothing stops silently in policy administration: what a consumer accepted is behind
    the next one, whatever is redelivered, misreported, dies or times out. */
module PolicyProgress {
  import opened Messaging
  import opened Policies
  import opened PolicyChain
  import opened PolicyInvariants
  import opened PolicyMessages
  import opened Underwriting
  import Billing
  import Claims

  predicate HasPolicy(policies: map<PolicyId, Policy>, app: ApplicationId) {
    exists p :: p in policies && policies[p].applicationId == app
  }

  predicate HasMessage(queued: set<Message>, e: Event) {
    exists m :: m in queued && m.body == e
  }

  predicate HasCharge(charged: seq<Message>, id: MessageId) {
    exists m :: m in charged && m.id == id
  }

  /** What the stages of the pipeline accepted, they handed on. */
  predicate HandedOn(s: State) {
    && s.acks.fed <= s.register
    && (forall a :: a in s.acks.registered ==> CheckRegister(a) in s.pricing)
    && (forall c :: c in s.acks.priced ==> Price(c) in s.deciding)
    && (forall p :: p in s.acks.decided ==> Decision(p) in s.log)
    && (forall e :: e in s.acks.issued ==> e.ApplicationAccepted? && HasPolicy(s.tables.policies, e.id))
    && (forall p :: p in s.tables.policies && IssuedEvent(p, s.tables.policies[p]) in s.log ==>
          HasMessage(s.queued, IssuedEvent(p, s.tables.policies[p])))
  }

  /** What billing finished with, it charged for: a confirmed claim, a published charge, an
      accepted message. */
  predicate PaidFor(s: State) {
    && (forall id :: id in s.claims && s.claims[id] == Claims.Confirmed ==> HasCharge(s.charged, id))
    && (forall c :: c in s.charging && c.phase == Published ==> c.message in s.charged)
    && (forall m :: m in s.acks.charged ==> m in s.charged)
  }

  lemma HandedOnGrows(s: State, s': State)
    requires HandedOn(s) && s.acks == s'.acks
    requires s.register <= s'.register && s.pricing <= s'.pricing && s.deciding <= s'.deciding && s.queued <= s'.queued
    requires forall e :: e in s.log ==> e in s'.log
    requires s'.tables.policies == s.tables.policies
    requires forall e :: e in s'.log && e !in s.log && e.PolicyIssued? ==> HasMessage(s'.queued, e)
    ensures HandedOn(s')
  {
    forall p | p in s'.tables.policies && IssuedEvent(p, s'.tables.policies[p]) in s'.log
      ensures HasMessage(s'.queued, IssuedEvent(p, s'.tables.policies[p]))
    {
      var e := IssuedEvent(p, s.tables.policies[p]);
      if e in s.log {
        var m :| m in s.queued && m.body == e;
        assert m in s'.queued;
      }
    }
  }

  lemma RelayHandsOn(s: State, e: Event, r: Reply)
    requires HandedOn(s) && Enabled(s, Relay(e, r))
    ensures HandedOn(Relayed(s, e, r))
  {
    var s' := Relayed(s, e, r);
    if r != Failed && e.PolicyIssued? {
      assert Message(s.tables.outbox[e], e) in s'.queued;
    }
    HandedOnGrows(s, s');
  }

  lemma ResendHandsOn(s: State, m: Message, r: Reply)
    requires HandedOn(s) && Enabled(s, Resend(m, r))
    ensures HandedOn(Resent(s, m, r))
  {
    HandedOnGrows(s, Resent(s, m, r));
  }

  lemma IssueHandsOn(s: State, e: Event, id: PolicyId, messageId: MessageId, r: Reply)
    requires Causal(s) && HandedOn(s) && Enabled(s, Issue(e, id, messageId, r)) && r != Failed
    ensures HandedOn(Issuing(s, e, id, messageId, r))
  {
    var s' := Issuing(s, e, id, messageId, r);
    assert s'.tables.policies[id].applicationId == e.id;
    forall x | x in s.acks.issued ensures HasPolicy(s'.tables.policies, x.id) {
      var p :| p in s.tables.policies && s.tables.policies[p].applicationId == x.id;
      assert p in s'.tables.policies && s'.tables.policies[p] == s.tables.policies[p];
    }
    NotYetPublished(s, id, PolicyOf(e));
    forall p | p in s'.tables.policies && IssuedEvent(p, s'.tables.policies[p]) in s'.log
      ensures HasMessage(s'.queued, IssuedEvent(p, s'.tables.policies[p]))
    {
      assert p in s.tables.policies && s'.tables.policies[p] == s.tables.policies[p];
    }
  }

  lemma NotYetPublished(s: State, id: PolicyId, p: Policy)
    requires Causal(s) && id !in s.tables.policies
    ensures IssuedEvent(id, p) !in s.log
  {
    if IssuedEvent(id, p) in s.log {
      InLog(s, IssuedEvent(id, p));
    }
  }

  /** One more thing accepted, and its result is there. */
  lemma StageHandsOn(s: State, a: Action)
    requires HandedOn(s) && Enabled(s, a) && (a.Feed? || a.Register? || a.SetPrice? || a.Decide?)
    ensures HandedOn(Step(s, a))
  {
    var s' := Step(s, a);
    HandedOnGrows(s, s'.(acks := s.acks));
  }

  lemma ChargeHandsOn(s: State, k: nat, r: Reply)
    requires HandedOn(s) && Enabled(s, Charge(k, r))
    ensures HandedOn(Charged(s, k, r))
  {
    ChargedMoves(s, k, r);
    HandedOnGrows(s, Charged(s, k, r).(acks := s.acks));
  }

  lemma HandedOnStep(s: State, a: Action)
    requires Causal(s) && HandedOn(s) && Enabled(s, a)
    ensures HandedOn(Step(s, a))
  {
    match a
    case Relay(e, r) => RelayHandsOn(s, e, r);
    case Resend(m, r) => ResendHandsOn(s, m, r);
    case Issue(e, id, messageId, r) => if r != Failed { IssueHandsOn(s, e, id, messageId, r); }
    case Charge(k, r) => ChargeHandsOn(s, k, r);
    case Feed(_, _) => StageHandsOn(s, a);
    case Register(_, _) => StageHandsOn(s, a);
    case SetPrice(_, _) => StageHandsOn(s, a);
    case Decide(_, _) => StageHandsOn(s, a);
    case Claim(m, r) => HandedOnGrows(s, Claiming(s, m, r).(acks := s.acks));
    case _ => HandedOnGrows(s, Step(s, a));
  }

  lemma ChargeOfId(s: State, m: Message)
    requires Enveloped(s) && m in s.announced && HasCharge(s.charged, m.id)
    ensures m in s.charged
  {
    var n :| n in s.charged && n.id == m.id;
    var i: nat, j: nat :| i < |s.announced| && j < |s.announced| && s.announced[i] == m && s.announced[j] == n;
    assert i == j;
  }

  lemma ClaimPays(s: State, m: Message, r: Reply)
    requires Enveloped(s) && PaidFor(s) && Enabled(s, Claim(m, r))
    ensures PaidFor(Claiming(s, m, r))
  {
    if Billing.HasHandled(s.claims, m.id) {
      ChargeOfId(s, m);
    }
  }

  lemma ChargePays(s: State, k: nat, r: Reply)
    requires PaidFor(s) && Enabled(s, Charge(k, r))
    ensures PaidFor(Charged(s, k, r))
  {
    var m, s' := s.charging[k].message, Charged(s, k, r);
    assert s.charging[k] in s.charging;
    assert forall x :: x in s.charged ==> x in s'.charged;
    forall id | id in s'.claims && s'.claims[id] == Claims.Confirmed ensures HasCharge(s'.charged, id) {
      if id in s.claims && s.claims[id] == Claims.Confirmed {
        var n :| n in s.charged && n.id == id;
        assert n in s'.charged;
      } else {
        assert id == m.id && m in s'.charged;
      }
    }
    forall c | c in s'.charging && c.phase == Published ensures c.message in s'.charged {
      assert c in s.charging || c == s'.charging[k];
      assert c !in s.charging ==> s'.charged == s.charged + [m];
    }
  }

  lemma CrashPays(s: State, k: nat)
    requires PaidFor(s) && Enabled(s, ChargeCrash(k))
    ensures PaidFor(Step(s, ChargeCrash(k)))
  {
    forall c | c in Step(s, ChargeCrash(k)).charging && c.phase == Published ensures c.message in s.charged {
      assert c in s.charging;
    }
  }

  lemma PaidForStep(s: State, a: Action)
    requires Enveloped(s) && PaidFor(s) && Enabled(s, a)
    ensures PaidFor(Step(s, a))
  {
    match a
    case Claim(m, r) => ClaimPays(s, m, r);
    case Charge(k, r) => ChargePays(s, k, r);
    case ChargeCrash(k) => CrashPays(s, k);
    case _ =>
  }

  lemma {:induction false} ProgressRun(s: State, trace: seq<Action>)
    requires Inv(s) && HandedOn(s) && PaidFor(s) && PolicyChain.Valid(s, trace)
    ensures HandedOn(Run(s, trace)) && PaidFor(Run(s, trace))
    decreases |trace|
  {
    if trace != [] {
      InvStep(s, trace[0]);
      HandedOnStep(s, trace[0]);
      PaidForStep(s, trace[0]);
      ProgressRun(Step(s, trace[0]), trace[1..]);
    }
  }

  lemma ReachableProgress(s: State)
    requires Reachable(s)
    ensures Inv(s) && HandedOn(s) && PaidFor(s)
  {
    var s0: State, trace: seq<Action> :| RunTo(s0, trace, s);
    InitialInv(s0);
    assert HandedOn(s0) && PaidFor(s0);
    ProgressRun(s0, trace);
    ReachableInv(s);
  }

  /** An application that has not been decided yet is in the outbox, or one of underwriting's
      consumers has it and has not accepted it. */
  predicate Underway(s: State, a: Application) {
    || ApplicationSubmitted(a) in s.tables.outbox
    || (ApplicationSubmitted(a) in s.log && a !in s.acks.fed)
    || (a in s.register && a !in s.acks.registered)
    || (CheckRegister(a) in s.pricing && CheckRegister(a) !in s.acks.priced)
    || (Price(CheckRegister(a)) in s.deciding && Price(CheckRegister(a)) !in s.acks.decided)
  }

  /** No application stops silently: it is on its way through underwriting, or decided. */
  lemma NoApplicationStopsSilently(s: State, id: ApplicationId)
    requires Reachable(s) && id in s.tables.applications
    ensures Underway(s, s.tables.applications[id]) || DecisionOn(s.tables.applications[id]) in s.log
  {
    ReachableProgress(s);
  }

  /** No acceptance stops silently: policies has it and has not accepted it, or there is a policy. */
  lemma NoAcceptanceStopsSilently(s: State, e: Event)
    requires Reachable(s) && e in s.log && e.ApplicationAccepted?
    ensures e !in s.acks.issued || HasPolicy(s.tables.policies, e.id)
  {
    ReachableProgress(s);
  }

  /** No policy stops silently: its event is in the outbox, or billing has a message of it
      and has not accepted it, or its premium was charged. This needs no hypothesis, unlike
      the orders of apps/01: the wrapper puts back what it refuses until it was handled. */
  lemma NoPolicyStopsSilently(s: State, p: PolicyId)
    requires Reachable(s) && p in s.tables.policies
    ensures var row := s.tables.policies[p];
            || IssuedEvent(p, row) in s.tables.outbox
            || (exists m :: m in s.queued && m.body == IssuedEvent(p, row) && m !in s.acks.charged)
            || PremiumCharged(p, row.applicant, row.premium) in s.log
  {
    ReachableProgress(s);
    if IssuedEvent(p, s.tables.policies[p]) !in s.tables.outbox {
      BillingHasIt(s, p);
    }
  }

  lemma BillingHasIt(s: State, p: PolicyId)
    requires Causal(s) && Enveloped(s) && HandedOn(s) && PaidFor(s) && p in s.tables.policies
    requires IssuedEvent(p, s.tables.policies[p]) !in s.tables.outbox
    ensures var e := IssuedEvent(p, s.tables.policies[p]);
            (exists m :: m in s.queued && m.body == e && m !in s.acks.charged) || Billing.ChargeOf(e) in s.log
  {
    var e := IssuedEvent(p, s.tables.policies[p]);
    assert e in s.log;
    assert HasMessage(s.queued, e);
    var m :| m in s.queued && m.body == e;
    if m in s.acks.charged {
      assert m in s.charged;
      ChargedIsLogged(s.log, s.charged, m);
    }
  }

  lemma {:induction false} ChargedIsLogged(log: seq<Event>, charged: seq<Message>, m: Message)
    requires Booked(log, charged) && m in charged
    ensures m.body.PolicyIssued? && Billing.ChargeOf(m.body) in log
  {
    var before, last := log[..|log| - 1], log[|log| - 1];
    if !last.PremiumCharged? {
      ChargedIsLogged(before, charged, m);
    } else if m != charged[|charged| - 1] {
      ChargedIsLogged(before, charged[..|charged| - 1], m);
    }
  }

  /** A failed charge is forgotten, so its retry charges for real: once the claim is
      released, the next delivery of the message is given it and can publish. */
  lemma FailedChargeIsTriedAgain(s: State, k: nat)
    requires Reachable(s) && k < |s.charging| && s.charging[k].phase == Failing
    ensures Enabled(s, Charge(k, Ok))
    ensures var m, released := s.charging[k].message, Step(s, Charge(k, Ok));
            && Enabled(released, Claim(m, Ok))
            && var claimed := Step(released, Claim(m, Ok));
               && claimed.charging == released.charging + [PolicyChain.Charging(m, Holding)]
               && Enabled(claimed, Charge(|released.charging|, Ok))
               && var charged := Step(claimed, Charge(|released.charging|, Ok));
                  charged.charged == s.charged + [m]
                  && charged.log == s.log + [PremiumCharged(m.body.policyId, m.body.applicant, m.body.premium)]
  {
    QueuedForCharge(s, k);
    var released := Step(s, Charge(k, Ok));
    assert s.log + [] == s.log;
    var claimed := Step(released, Claim(s.charging[k].message, Ok));
    assert claimed.charging[|released.charging|] == PolicyChain.Charging(s.charging[k].message, Holding);
  }

  /** A charge that was published is remembered: once it is confirmed, every further
      delivery of the message is accepted without being handled. */
  lemma FinishedChargeIsNotRepeated(s: State, k: nat)
    requires Reachable(s) && k < |s.charging| && s.charging[k].phase == Published
    requires s.charging[k].message.id in s.claims
    ensures Enabled(s, Charge(k, Ok))
    ensures var m, done := s.charging[k].message, Step(s, Charge(k, Ok));
            && m in done.acks.charged && Enabled(done, Claim(m, Ok))
            && Step(done, Claim(m, Ok)) == done && !Enabled(done, Expire(m.id))
  {
    QueuedForCharge(s, k);
    var m, done := s.charging[k].message, Step(s, Charge(k, Ok));
    assert done.acks.charged + {m} == done.acks.charged;
  }

  lemma QueuedForCharge(s: State, k: nat)
    requires Reachable(s) && k < |s.charging|
    ensures s.charging[k].message in s.queued && s.charging[k].message.body.PolicyIssued?
  {
    ReachableInv(s);
    assert s.charging[k] in s.charging;
  }

  /** Every consumer has accepted whatever it was ever delivered, and the outbox is empty. */
  predicate Drained(s: State) {
    && s.tables.outbox == map[]
    && (forall e :: e in s.log && e.ApplicationSubmitted? ==> e.application in s.acks.fed)
    && s.register <= s.acks.registered && s.pricing <= s.acks.priced && s.deciding <= s.acks.decided
    && (forall e :: e in s.log && e.ApplicationAccepted? ==> e in s.acks.issued)
    && s.queued <= s.acks.charged
  }

  /** When all is drained, every application is decided, every accepted one has a policy,
      and every policy has been charged. */
  lemma DrainedChainIsComplete(s: State, id: ApplicationId)
    requires Reachable(s) && Drained(s) && id in s.tables.applications
    ensures var a := s.tables.applications[id];
            && DecisionOn(a) in s.log
            && (a.sumAssured <= REFERRAL_THRESHOLD ==> HasPolicy(s.tables.policies, id))
            && forall p :: p in s.tables.policies && s.tables.policies[p].applicationId == id ==>
                 PremiumCharged(p, s.tables.policies[p].applicant, s.tables.policies[p].premium) in s.log
  {
    ReachableInv(s);
    var a := s.tables.applications[id];
    NoApplicationStopsSilently(s, id);
    if a.sumAssured <= REFERRAL_THRESHOLD {
      NoAcceptanceStopsSilently(s, DecisionOn(a));
    }
    forall p | p in s.tables.policies && s.tables.policies[p].applicationId == id
      ensures PremiumCharged(p, s.tables.policies[p].applicant, s.tables.policies[p].premium) in s.log
    {
      NoPolicyStopsSilently(s, p);
    }
  }
}
