/** What every step of policy administration keeps: rows, events and their causes. */
module PolicyInvariants {
  import opened Messaging
  import opened Policies
  import opened PolicyChain
  import opened Underwriting
  import Billing

  /** The decision on an application, which redelivery cannot change. */
  function DecisionOn(a: Application): Event {
    Decision(Price(CheckRegister(a)))
  }

  /** The committed rows, which only grow; the outbox comes and goes. */
  datatype Rows = Rows(applications: map<ApplicationId, Application>, policies: map<PolicyId, Policy>)

  function RowsOf(t: Tables): Rows {
    Rows(t.applications, t.policies)
  }

  predicate Submits(t: Rows, a: Application) {
    a.id in t.applications && t.applications[a.id] == a
  }

  /** A policy is what its application's acceptance says. */
  predicate Deserved(t: Rows, earlier: seq<Event>, p: Policy) {
    && p.applicationId in t.applications
    && var d := DecisionOn(t.applications[p.applicationId]);
       d.ApplicationAccepted? && d in earlier && p == PolicyOf(d)
  }

  /** An event describes committed rows, and its cause is earlier. */
  predicate Caused(t: Rows, earlier: seq<Event>, e: Event) {
    match e
    case ApplicationSubmitted(a) => Submits(t, a)
    case ApplicationAccepted(id, _, _, _, _) =>
      id in t.applications && e == DecisionOn(t.applications[id]) && ApplicationSubmitted(t.applications[id]) in earlier
    case ApplicationDeclined(id, _, _) =>
      id in t.applications && e == DecisionOn(t.applications[id]) && ApplicationSubmitted(t.applications[id]) in earlier
    case PolicyIssued(id, _, applicant, _, premium) =>
      && id in t.policies
      && (if e == IssuedEvent(id, t.policies[id]) then Deserved(t, earlier, t.policies[id])
          else applicant == t.policies[id].applicant && premium == t.policies[id].premium
               && IssuedEvent(id, t.policies[id]) in earlier)
    case PremiumCharged(id, applicant, amount) =>
      id in t.policies && applicant == t.policies[id].applicant && amount == t.policies[id].premium
      && IssuedEvent(id, t.policies[id]) in earlier
  }

  predicate History(t: Rows, log: seq<Event>) {
    forall j :: 0 <= j < |log| ==> Caused(t, log[..j], log[j])
  }

  /** What the outbox holds: the event of a row, and no other. */
  predicate IsRecord(t: Rows, e: Event) {
    e.ApplicationSubmitted? || (e.PolicyIssued? && e.policyId in t.policies && e == IssuedEvent(e.policyId, t.policies[e.policyId]))
  }

  /** Rows, outbox and log agree. */
  predicate Recorded(t: Tables, log: seq<Event>) {
    && (forall id :: id in t.applications ==>
          && t.applications[id].id == id
          && (ApplicationSubmitted(t.applications[id]) in t.outbox || ApplicationSubmitted(t.applications[id]) in log))
    && (forall id :: id in t.policies ==>
          && Deserved(RowsOf(t), log, t.policies[id])
          && (IssuedEvent(id, t.policies[id]) in t.outbox || IssuedEvent(id, t.policies[id]) in log))
    && (forall e :: e in t.outbox ==> IsRecord(RowsOf(t), e) && Caused(RowsOf(t), log, e))
    && (forall e :: e in t.confirmed ==> e in t.outbox && e in log)
  }

  /** Whatever the stages hold comes from a published submission. */
  predicate Staged(s: State) {
    && (forall a :: a in s.register ==> Submits(RowsOf(s.tables), a) && ApplicationSubmitted(a) in s.log)
    && (forall c :: c in s.pricing ==> c == CheckRegister(c.application) && Submits(RowsOf(s.tables), c.application)
                                       && ApplicationSubmitted(c.application) in s.log)
    && (forall p :: p in s.deciding ==> p == Price(CheckRegister(p.application)) && Submits(RowsOf(s.tables), p.application)
                                        && ApplicationSubmitted(p.application) in s.log)
    && (forall k :: 0 <= k < |s.charging| ==> s.charging[k].message.body.PolicyIssued? && s.charging[k].message.body in s.log)
    && (forall m :: m in s.queued ==> m.body.PolicyIssued? && m.body in s.log)
  }

  ghost predicate Causal(s: State) {
    Recorded(s.tables, s.log) && History(RowsOf(s.tables), s.log) && Staged(s)
  }

  lemma InLog(s: State, e: Event)
    requires Causal(s) && e in s.log
    ensures Caused(RowsOf(s.tables), s.log, e)
  {
    var j :| 0 <= j < |s.log| && s.log[j] == e;
    assert Caused(RowsOf(s.tables), s.log[..j], s.log[j]);
  }

  lemma HistoryGrows(t: Rows, log: seq<Event>, e: Event)
    requires History(t, log) && Caused(t, log, e)
    ensures History(t, log + [e])
  {
    var l := log + [e];
    forall j | 0 <= j < |l| ensures Caused(t, l[..j], l[j]) {
      assert l[..j] == log[..j];
      assert log[..|log|] == log;
    }
  }

  lemma RecordedGrows(t: Tables, log: seq<Event>, e: Event)
    requires Recorded(t, log)
    ensures Recorded(t, log + [e])
  {
    var l := log + [e];
    forall x | x in t.outbox ensures Caused(RowsOf(t), l, x) {
      CausedGrows(RowsOf(t), RowsOf(t), log, l, x);
    }
  }

  /** One more event with its cause before it. */
  lemma PublishKeeps(s: State, s': State, e: Event)
    requires Causal(s) && Caused(RowsOf(s.tables), s.log, e)
    requires s'.log == s.log + [e] && s'.register == s.register && s'.pricing == s.pricing && s'.deciding == s.deciding
    requires s'.charging == s.charging && s'.tables == s.tables
    requires forall m :: m in s'.queued ==> m in s.queued || (m.body == e && e.PolicyIssued?)
    ensures Causal(s')
  {
    HistoryGrows(RowsOf(s.tables), s.log, e);
    RecordedGrows(s.tables, s.log, e);
    assert forall x :: x in s.log ==> x in s'.log;
  }

  /** More rows and a longer log keep every cause. */
  lemma CausedGrows(t: Rows, t': Rows, earlier: seq<Event>, later: seq<Event>, e: Event)
    requires Caused(t, earlier, e)
    requires forall id :: id in t.applications ==> id in t'.applications && t'.applications[id] == t.applications[id]
    requires forall id :: id in t.policies ==> id in t'.policies && t'.policies[id] == t.policies[id]
    requires forall x :: x in earlier ==> x in later
    ensures Caused(t', later, e)
  {
  }

  predicate Extends(t: Rows, t': Rows) {
    && (forall id :: id in t.applications ==> id in t'.applications && t'.applications[id] == t.applications[id])
    && (forall id :: id in t.policies ==> id in t'.policies && t'.policies[id] == t.policies[id])
  }

  /** New rows with their records in the outbox. */
  lemma TablesKeep(s: State, t: Tables)
    requires Causal(s) && Extends(RowsOf(s.tables), RowsOf(t)) && Recorded(t, s.log)
    ensures Causal(s.(tables := t))
  {
    forall j | 0 <= j < |s.log| ensures Caused(RowsOf(t), s.log[..j], s.log[j]) {
      CausedGrows(RowsOf(s.tables), RowsOf(t), s.log[..j], s.log[..j], s.log[j]);
    }
  }

  lemma OutboxKeeps(s: State, t: Tables)
    requires Causal(s) && Extends(RowsOf(s.tables), RowsOf(t))
    ensures forall e :: e in s.tables.outbox ==> IsRecord(RowsOf(t), e) && Caused(RowsOf(t), s.log, e)
  {
    forall e | e in s.tables.outbox ensures Caused(RowsOf(t), s.log, e) {
      CausedGrows(RowsOf(s.tables), RowsOf(t), s.log, s.log, e);
    }
  }

  /** One more row and its record. */
  lemma RecordGrows(s: State, t: Tables, e: Event, messageId: MessageId)
    requires Causal(s) && Extends(RowsOf(s.tables), RowsOf(t))
    requires t.outbox == s.tables.outbox[e := messageId] && t.confirmed == s.tables.confirmed
    requires IsRecord(RowsOf(t), e) && Caused(RowsOf(t), s.log, e)
    requires forall id :: id in t.applications && id !in s.tables.applications ==>
               t.applications[id].id == id && ApplicationSubmitted(t.applications[id]) == e
    requires forall id :: id in t.policies && id !in s.tables.policies ==>
               Deserved(RowsOf(t), s.log, t.policies[id]) && IssuedEvent(id, t.policies[id]) == e
    ensures Recorded(t, s.log)
  {
    OutboxKeeps(s, t);
    PoliciesRecorded(s, t, e);
    ApplicationsRecorded(s, t, e);
  }

  lemma PoliciesRecorded(s: State, t: Tables, e: Event)
    requires Recorded(s.tables, s.log) && Extends(RowsOf(s.tables), RowsOf(t))
    requires e in t.outbox && forall x :: x in s.tables.outbox ==> x in t.outbox
    requires forall id :: id in t.policies && id !in s.tables.policies ==>
               Deserved(RowsOf(t), s.log, t.policies[id]) && IssuedEvent(id, t.policies[id]) == e
    ensures forall id :: id in t.policies ==>
              && Deserved(RowsOf(t), s.log, t.policies[id])
              && (IssuedEvent(id, t.policies[id]) in t.outbox || IssuedEvent(id, t.policies[id]) in s.log)
  {
    forall id | id in t.policies
      ensures Deserved(RowsOf(t), s.log, t.policies[id])
      ensures IssuedEvent(id, t.policies[id]) in t.outbox || IssuedEvent(id, t.policies[id]) in s.log
    {
      assert id in s.tables.policies ==> Deserved(RowsOf(s.tables), s.log, s.tables.policies[id]);
    }
  }

  lemma ApplicationsRecorded(s: State, t: Tables, e: Event)
    requires Recorded(s.tables, s.log) && Extends(RowsOf(s.tables), RowsOf(t))
    requires e in t.outbox && forall x :: x in s.tables.outbox ==> x in t.outbox
    requires forall id :: id in t.applications && id !in s.tables.applications ==>
               t.applications[id].id == id && ApplicationSubmitted(t.applications[id]) == e
    ensures forall id :: id in t.applications ==>
              && t.applications[id].id == id
              && (ApplicationSubmitted(t.applications[id]) in t.outbox || ApplicationSubmitted(t.applications[id]) in s.log)
  {
  }

  lemma SubmitKeeps(s: State, a: Application, messageId: MessageId)
    requires Causal(s) && a.id !in s.tables.applications
    ensures Causal(s.(tables := Submitted(s.tables, a, messageId)))
  {
    RecordGrows(s, Submitted(s.tables, a, messageId), ApplicationSubmitted(a), messageId);
    TablesKeep(s, Submitted(s.tables, a, messageId));
  }

  lemma IssueKeeps(s: State, e: Event, id: PolicyId, messageId: MessageId, r: Reply)
    requires Causal(s) && Enabled(s, Issue(e, id, messageId, r)) && r != Failed
    ensures Causal(Issuing(s, e, id, messageId, r))
  {
    var t := Issued(s.tables, id, e, messageId);
    InLog(s, e);
    assert Deserved(RowsOf(t), s.log, PolicyOf(e));
    RecordGrows(s, t, IssuedEvent(id, PolicyOf(e)), messageId);
    TablesKeep(s, t);
    StageKeeps(s.(tables := t), Issuing(s, e, id, messageId, r));
  }

  lemma RelayKeeps(s: State, e: Event, r: Reply)
    requires Causal(s) && Enabled(s, Relay(e, r))
    ensures Causal(Relayed(s, e, r))
  {
    if r != Failed {
      var published := s.(log := s.log + [e], queued := Relayed(s, e, r).queued);
      PublishKeeps(s, published, e);
      ConfirmedKeep(published, Relayed(s, e, r).tables);
    }
  }

  /** The relay's own memory of what it has published. */
  lemma ConfirmedKeep(s: State, t: Tables)
    requires Causal(s) && t == s.tables.(confirmed := t.confirmed)
    requires forall e :: e in t.confirmed ==> e in t.outbox && e in s.log
    ensures Causal(s.(tables := t))
  {
    assert RowsOf(t) == RowsOf(s.tables);
  }

  /** A record that was published leaves the outbox. */
  lemma RemoveKeeps(s: State, e: Event)
    requires Causal(s) && Enabled(s, Remove(e))
    ensures Causal(Step(s, Remove(e)))
  {
    assert RowsOf(Step(s, Remove(e)).tables) == RowsOf(s.tables);
  }

  /** A stage hands its result to the next. */
  lemma StageKeeps(s: State, s': State)
    requires Causal(s) && Staged(s')
    requires s'.tables == s.tables && s'.log == s.log
    ensures Causal(s')
  {
  }

  lemma ChargeIsCaused(t: Rows, log: seq<Event>, e: Event)
    requires e.PolicyIssued? && e in log && Caused(t, log, e)
    ensures Caused(t, log, Billing.ChargeOf(e))
  {
  }

  /** A delivery moved on at billing. */
  lemma MoveKeeps(s: State, s1: State, k: nat)
    requires Causal(s) && k < |s.charging| == |s1.charging|
    requires s1.charging == s.charging[k := s1.charging[k]] && s1.charging[k].message == s.charging[k].message
    requires s1.tables == s.tables && s1.log == s.log && s1.register == s.register && s1.pricing == s.pricing
    requires s1.deciding == s.deciding && s1.queued == s.queued
    ensures Causal(s1)
  {
    StageKeeps(s, s1);
  }

  /** What one action of billing does to the system. */
  predicate ChargeMoves(s: State, s': State, k: nat) {
    && k < |s.charging| == |s'.charging|
    && s'.charging == s.charging[k := s'.charging[k]] && s'.charging[k].message == s.charging[k].message
    && s'.tables == s.tables && s'.register == s.register && s'.pricing == s.pricing && s'.deciding == s.deciding
    && s'.queued == s.queued && s.charging[k].message.body.PolicyIssued?
    && (s'.log == s.log || s'.log == s.log + [Billing.ChargeOf(s.charging[k].message.body)])
  }

  lemma ChargedMoves(s: State, k: nat, r: Reply)
    requires Enabled(s, Charge(k, r))
    ensures ChargeMoves(s, Charged(s, k, r), k)
  {
    assert s.log + [] == s.log;
  }

  lemma ChargeKeeps(s: State, s': State, k: nat)
    requires Causal(s) && ChargeMoves(s, s', k)
    ensures Causal(s')
  {
    var e := s.charging[k].message.body;
    var s1 := s'.(log := s.log);
    MoveKeeps(s, s1, k);
    if s'.log == s.log {
      assert s' == s1;
    } else {
      InLog(s, e);
      ChargeIsCaused(RowsOf(s.tables), s.log, e);
      PublishKeeps(s1, s', Billing.ChargeOf(e));
    }
  }

  lemma DecideKeeps(s: State, p: Priced, r: Reply)
    requires Causal(s) && Enabled(s, Decide(p, r))
    ensures Causal(Step(s, Decide(p, r)))
  {
    if r != Failed {
      PublishKeeps(s, Step(s, Decide(p, r)), Decision(p));
    }
  }

  lemma ResendKeeps(s: State, m: Message, r: Reply)
    requires Causal(s) && Enabled(s, Resend(m, r))
    ensures Causal(Resent(s, m, r))
  {
    InLog(s, IssuedEvent(m.body.policyId, s.tables.policies[m.body.policyId]));
    if r != Failed {
      PublishKeeps(s, Resent(s, m, r), m.body);
    }
  }

  lemma FeedKeeps(s: State, a: Application, r: Reply)
    requires Causal(s) && Enabled(s, Feed(a, r))
    ensures Causal(Step(s, Feed(a, r)))
  {
    InLog(s, ApplicationSubmitted(a));
    StageKeeps(s, Step(s, Feed(a, r)));
  }

  lemma CausalStep(s: State, a: Action)
    requires Causal(s) && Enabled(s, a)
    ensures Causal(Step(s, a))
  {
    if a.Submit? || a.Issue? || a.Relay? || a.Remove? || a.RelayCrash? {
      TablesStepKeeps(s, a);
    } else if a.Charge? {
      ChargedMoves(s, a.k, a.reply);
      ChargeKeeps(s, Charged(s, a.k, a.reply), a.k);
    } else {
      StagesKeep(s, a);
    }
  }

  lemma TablesStepKeeps(s: State, a: Action)
    requires Causal(s) && Enabled(s, a) && (a.Submit? || a.Issue? || a.Relay? || a.Remove? || a.RelayCrash?)
    ensures Causal(Step(s, a))
  {
    match a
    case Submit(app, messageId) => SubmitKeeps(s, app, messageId);
    case Issue(e, id, messageId, r) => if r != Failed { IssueKeeps(s, e, id, messageId, r); }
    case Relay(e, r) => RelayKeeps(s, e, r);
    case Remove(e) => RemoveKeeps(s, e);
    case RelayCrash => ConfirmedKeep(s, s.tables.(confirmed := {}));
  }

  lemma StagesKeep(s: State, a: Action)
    requires Causal(s) && Enabled(s, a)
    requires !(a.Submit? || a.Issue? || a.Relay? || a.Remove? || a.RelayCrash? || a.Charge?)
    ensures Causal(Step(s, a))
  {
    match a
    case Resend(m, r) => ResendKeeps(s, m, r);
    case Feed(app, r) => FeedKeeps(s, app, r);
    case Decide(p, r) => DecideKeeps(s, p, r);
    case Claim(m, r) => ClaimKeeps(s, m, r);
    case ChargeCrash(k) => MoveKeeps(s, Step(s, a), k);
    case Register(app, r) => StageKeeps(s, Step(s, a));
    case SetPrice(c, r) => StageKeeps(s, Step(s, a));
    case Expire(id) => StageKeeps(s, Step(s, a));
  }

  lemma ClaimKeeps(s: State, m: Message, r: Reply)
    requires Causal(s) && Enabled(s, Claim(m, r))
    ensures Causal(Claiming(s, m, r))
  {
    StageKeeps(s, Claiming(s, m, r));
  }

}
