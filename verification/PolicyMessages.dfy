/** Message ids in policy administration, and how often billing can charge for one.

    The bound is an invariant on a potential, as for payments: premiums published for
    a message, handlers that still may publish, and one when its claim is free. */
module PolicyMessages {
  import opened Collections
  import opened Messaging
  import opened Policies
  import opened PolicyChain
  import opened PolicyInvariants
  import opened Underwriting
  import Billing
  import Claims

  /** A message that was given its id when its policy was issued, or when somebody
      sent it again. */
  predicate Announces(t: Tables, m: Message) {
    && m.body.PolicyIssued? && m.body.policyId in t.policies
    && m.body.applicant == t.policies[m.body.policyId].applicant && m.body.premium == t.policies[m.body.policyId].premium
  }

  /** The premiums in the log are those of the messages in `charged`, in order. */
  predicate Booked(log: seq<Event>, charged: seq<Message>) {
    if log == [] then charged == []
    else
      var before, last := log[..|log| - 1], log[|log| - 1];
      if !last.PremiumCharged? then Booked(before, charged)
      else
        && charged != []
        && var m := charged[|charged| - 1];
           m.body.PolicyIssued? && last == Billing.ChargeOf(m.body) && Booked(before, charged[..|charged| - 1])
  }

  predicate Distinct(messages: seq<Message>) {
    forall i, j :: 0 <= i < j < |messages| ==> messages[i].id != messages[j].id
  }

  lemma DistinctSnoc(messages: seq<Message>, m: Message)
    requires Distinct(messages) && forall n :: n in messages ==> n.id != m.id
    ensures Distinct(messages + [m])
  {
    assert forall i :: 0 <= i < |messages| ==> messages[i] in messages;
  }

  /** Every message has an id of its own, and whatever billing sees is one of them. */
  predicate Enveloped(s: State) {
    && Distinct(s.announced)
    && (forall m :: m in s.announced ==> Announces(s.tables, m))
    && (forall e :: e in s.tables.outbox && e.PolicyIssued? ==> Message(s.tables.outbox[e], e) in s.announced)
    && (forall m :: m in s.queued ==> m in s.announced)
    && (forall c :: c in s.charging ==> c.message in s.queued)
    && (forall m :: m in s.charged ==> m in s.announced)
    && Booked(s.log, s.charged)
  }

  lemma BookedSnoc(log: seq<Event>, charged: seq<Message>, e: Event)
    requires Booked(log, charged) && !e.PremiumCharged?
    ensures Booked(log + [e], charged)
  {
    assert (log + [e])[..|log|] == log;
  }

  lemma BookedBoth(log: seq<Event>, charged: seq<Message>, m: Message)
    requires Booked(log, charged) && m.body.PolicyIssued?
    ensures Booked(log + [Billing.ChargeOf(m.body)], charged + [m])
  {
    assert (log + [Billing.ChargeOf(m.body)])[..|log|] == log;
    assert (charged + [m])[..|charged|] == charged;
  }

  /** What a step that charges nothing has to say about the ids it gives out. */
  lemma EnvelopesKept(s: State, s': State)
    requires Enveloped(s) && Extends(RowsOf(s.tables), RowsOf(s'.tables))
    requires Distinct(s'.announced) && s.announced <= s'.announced
    requires forall m :: m in s'.announced ==> m in s.announced || Announces(s'.tables, m)
    requires forall e :: e in s'.tables.outbox && e.PolicyIssued? ==>
               (e in s.tables.outbox && s'.tables.outbox[e] == s.tables.outbox[e]) || Message(s'.tables.outbox[e], e) in s'.announced
    requires forall m :: m in s'.queued ==> m in s.queued || m in s'.announced
    requires forall c :: c in s'.charging ==> c in s.charging || c.message in s.queued
    requires forall m :: m in s.queued ==> m in s'.queued
    requires s'.charged == s.charged && Booked(s'.log, s.charged)
    ensures Enveloped(s')
  {
    assert forall m :: m in s.announced ==> m in s'.announced;
    forall m | m in s'.announced ensures Announces(s'.tables, m) {
      assert m in s.announced ==> Announces(s.tables, m);
    }
  }

  lemma IssueEnvelops(s: State, e: Event, id: PolicyId, messageId: MessageId, r: Reply)
    requires Enveloped(s) && Enabled(s, Issue(e, id, messageId, r))
    ensures Enveloped(Issuing(s, e, id, messageId, r))
  {
    if r != Failed {
      DistinctSnoc(s.announced, Message(messageId, IssuedEvent(id, PolicyOf(e))));
      EnvelopesKept(s, Issuing(s, e, id, messageId, r));
    }
  }

  lemma ResendEnvelops(s: State, m: Message, r: Reply)
    requires Causal(s) && Enveloped(s) && Enabled(s, Resend(m, r))
    ensures Enveloped(Resent(s, m, r))
  {
    if r != Failed {
      assert Announces(s.tables, m);
      BookedSnoc(s.log, s.charged, m.body);
      if m !in s.announced {
        DistinctSnoc(s.announced, m);
      }
      EnvelopesKept(s, Resent(s, m, r));
    }
  }

  lemma RelayEnvelops(s: State, e: Event, r: Reply)
    requires Causal(s) && Enveloped(s) && Enabled(s, Relay(e, r))
    ensures Enveloped(Relayed(s, e, r))
  {
    if r != Failed {
      BookedSnoc(s.log, s.charged, e);
      EnvelopesKept(s, Relayed(s, e, r));
    }
  }

  lemma ChargeEnvelops(s: State, k: nat, r: Reply)
    requires Enveloped(s) && Enabled(s, Charge(k, r))
    ensures Enveloped(Charged(s, k, r))
  {
    var m := s.charging[k].message;
    var s' := Charged(s, k, r);
    assert s.charging[k] in s.charging;
    assert forall c :: c in s'.charging ==> c.message == m || c in s.charging;
    if s'.log != s.log + [] {
      BookedBoth(s.log, s.charged, m);
    } else {
      assert s.log + [] == s.log;
    }
  }

  lemma EnvelopedStep(s: State, a: Action)
    requires Causal(s) && Enveloped(s) && Enabled(s, a)
    ensures Enveloped(Step(s, a))
  {
    match a
    case Issue(e, id, messageId, r) => IssueEnvelops(s, e, id, messageId, r);
    case Resend(m, r) => ResendEnvelops(s, m, r);
    case Relay(e, r) => RelayEnvelops(s, e, r);
    case Decide(p, r) => DecideEnvelops(s, p, r);
    case Charge(k, r) => ChargeEnvelops(s, k, r);
    case ChargeCrash(k) => CrashEnvelops(s, k);
    case Claim(m, r) => ClaimEnvelops(s, m, r);
    case _ => QuietEnvelops(s, a);
  }

  lemma QuietEnvelops(s: State, a: Action)
    requires Enveloped(s) && Enabled(s, a)
    requires a.Submit? || a.Remove? || a.RelayCrash? || a.Feed? || a.Register? || a.SetPrice? || a.Expire?
    ensures Enveloped(Step(s, a))
  {
    EnvelopesKept(s, Step(s, a));
  }

  lemma ClaimEnvelops(s: State, m: Message, r: Reply)
    requires Enveloped(s) && Enabled(s, Claim(m, r))
    ensures Enveloped(Claiming(s, m, r))
  {
    EnvelopesKept(s, Claiming(s, m, r));
  }

  lemma DecideEnvelops(s: State, p: Priced, r: Reply)
    requires Enveloped(s) && Enabled(s, Decide(p, r))
    ensures Enveloped(Step(s, Decide(p, r)))
  {
    if r != Failed {
      BookedSnoc(s.log, s.charged, Decision(p));
      EnvelopesKept(s, Step(s, Decide(p, r)));
    }
  }

  lemma CrashEnvelops(s: State, k: nat)
    requires Enveloped(s) && k < |s.charging|
    ensures Enveloped(Step(s, ChargeCrash(k)))
  {
    assert s.charging[k] in s.charging;
    forall c | c in Step(s, ChargeCrash(k)).charging ensures c.message in s.queued {
      assert c in s.charging || c.message == s.charging[k].message;
    }
  }

  predicate IsHolder(c: Charging, id: MessageId) {
    c.message.id == id && c.phase in {Holding, Failing}
  }

  ghost function HolderOf(id: MessageId): Charging -> int {
    (c: Charging) => if IsHolder(c, id) then 1 else 0
  }

  ghost function MadeFor(id: MessageId): Message -> int {
    (m: Message) => if m.id == id then 1 else 0
  }

  /** How many premiums were taken for a message. */
  ghost function ChargesFor(s: State, id: MessageId): int {
    Sum(MadeFor(id), s.charged)
  }

  /** The potential of a claim: charges published, handlers that may still
      publish, and one when the claim is free. */
  ghost predicate Bounded(s: State, id: MessageId) {
    ChargesFor(s, id) + Sum(HolderOf(id), s.charging) + (if Claims.Free(s.claims, id) then 1 else 0)
      <= 1 + s.faults[ClaimExpired(id)] + s.faults[ChargeUnsure(id)]
  }

  /** A publish turns a holder into a charge, a release turns a holder into a free
      claim; only an unsure publish gives something for nothing. */
  lemma ChargeAccounts(claims: Claims.Table, m: Message, p: Phase, r: Reply, id: MessageId)
    requires m.body.PolicyIssued? && p in {Holding, Failing, Published}
    ensures var turn := Billing.Step(claims, m, p, r);
            && (turn.sent != [] ==> turn.sent == [Billing.ChargeOf(m.body)])
            && (if turn.sent != [] && m.id == id then 1 else 0)
               + (if IsHolder(Charging(m, turn.phase), id) then 1 else 0) + (if Claims.Free(turn.state, id) then 1 else 0)
               <= (if IsHolder(Charging(m, p), id) then 1 else 0) + (if Claims.Free(claims, id) then 1 else 0)
                  + (if m.id == id && p == Holding && r == Ambiguous then 1 else 0)
  {
  }

  lemma ChargeBounds(s: State, k: nat, r: Reply, id: MessageId)
    requires Bounded(s, id) && Enabled(s, Charge(k, r))
    ensures Bounded(Charged(s, k, r), id)
  {
    var c := s.charging[k];
    var s' := Charged(s, k, r);
    ChargeAccounts(s.claims, c.message, c.phase, r, id);
    PotentialMoves(s, s', k, id);
  }

  lemma PotentialMoves(s: State, s': State, k: nat, id: MessageId)
    requires k < |s.charging| == |s'.charging| && s'.charging == s.charging[k := s'.charging[k]]
    requires s'.charged == s.charged || s'.charged == s.charged + [s.charging[k].message]
    ensures ChargesFor(s', id) == ChargesFor(s, id) + if s'.charged != s.charged && s.charging[k].message.id == id then 1 else 0
    ensures Sum(HolderOf(id), s'.charging) == Sum(HolderOf(id), s.charging)
              - (if IsHolder(s.charging[k], id) then 1 else 0) + (if IsHolder(s'.charging[k], id) then 1 else 0)
  {
    SumUpdate(HolderOf(id), s.charging, k, s'.charging[k]);
    SumSnoc(MadeFor(id), s.charged, s.charging[k].message);
  }

  lemma ClaimBounds(s: State, m: Message, r: Reply, id: MessageId)
    requires Bounded(s, id)
    ensures Bounded(Claiming(s, m, r), id)
  {
    SumSnoc(HolderOf(id), s.charging, Charging(m, Holding));
  }

  lemma CrashBounds(s: State, k: nat, id: MessageId)
    requires Bounded(s, id) && k < |s.charging|
    ensures Bounded(Step(s, ChargeCrash(k)), id)
  {
    SumUpdate(HolderOf(id), s.charging, k, s.charging[k].(phase := Dead));
  }

  lemma BoundedStep(s: State, a: Action, id: MessageId)
    requires Bounded(s, id) && Enabled(s, a)
    ensures Bounded(Step(s, a), id)
  {
    match a
    case Claim(m, r) => ClaimBounds(s, m, r, id);
    case Charge(k, r) => ChargeBounds(s, k, r, id);
    case ChargeCrash(k) => CrashBounds(s, k, id);
    case _ =>
  }

  ghost predicate Inv(s: State) {
    Causal(s) && Enveloped(s) && forall id :: Bounded(s, id)
  }

  lemma InitialInv(s: State)
    requires Initial(s)
    ensures Inv(s)
  {
    assert Causal(s) && Enveloped(s);
  }

  lemma InvStep(s: State, a: Action)
    requires Inv(s) && Enabled(s, a)
    ensures Inv(Step(s, a))
  {
    CausalStep(s, a);
    EnvelopedStep(s, a);
    forall id ensures Bounded(Step(s, a), id) {
      BoundedStep(s, a, id);
    }
  }

  lemma {:induction false} InvRun(s: State, trace: seq<Action>)
    requires Inv(s) && PolicyChain.Valid(s, trace)
    ensures Inv(Run(s, trace))
    decreases |trace|
  {
    if trace != [] {
      InvStep(s, trace[0]);
      InvRun(Step(s, trace[0]), trace[1..]);
    }
  }

  lemma ReachableInv(s: State)
    requires Reachable(s)
    ensures Inv(s)
  {
    var s0: State, trace: seq<Action> :| RunTo(s0, trace, s);
    InitialInv(s0);
    InvRun(s0, trace);
  }
}
