/** What holds in every reachable state of policy administration, with every
    message handled any number of times. */
module PolicyTheorems {
  import opened Collections
  import opened Messaging
  import opened Policies
  import opened PolicyChain
  import opened PolicyInvariants
  import opened PolicyMessages
  import opened Underwriting
  import Billing

  /** No application is both accepted and declined, and all its decisions say the same:
      it is accepted for the premium of the rating table when its sum is at most half a
      million, and otherwise declined, with its own applicant, product and sum. */
  lemma OneDecision(s: State, d: Event)
    requires Reachable(s) && d in s.log && (d.ApplicationAccepted? || d.ApplicationDeclined?)
    ensures d.id in s.tables.applications
    ensures var a := s.tables.applications[d.id];
            if a.sumAssured <= 500_000 then
              && d.ApplicationAccepted? && IsPremium(a, d.premium)
              && d == ApplicationAccepted(a.id, a.applicant, a.product, a.sumAssured, d.premium)
            else d == ApplicationDeclined(a.id, a.applicant, a.sumAssured)
    ensures forall e :: e in s.log && (e.ApplicationAccepted? || e.ApplicationDeclined?) && e.id == d.id ==> e == d
  {
    ReachableInv(s);
    InLog(s, d);
    PricedByTheTable(s.tables.applications[d.id], PremiumOf(s.tables.applications[d.id]));
    forall e | e in s.log && (e.ApplicationAccepted? || e.ApplicationDeclined?) && e.id == d.id ensures e == d {
      InLog(s, e);
    }
  }

  /** Whatever was charged is the premium of a policy that was issued for an
      application that was accepted and submitted, in that order, and that premium
      is the rating table's for a sum within the automatic limit. */
  lemma ChargedIsPriced(s: State, j: nat)
    requires Reachable(s) && j < |s.log| && s.log[j].PremiumCharged?
    ensures s.log[j].policyId in s.tables.policies
    ensures var p, amount := s.tables.policies[s.log[j].policyId], s.log[j].amount;
            && p.applicationId in s.tables.applications
            && var a := s.tables.applications[p.applicationId];
               && a.sumAssured <= 500_000 && IsPremium(a, amount)
               && s.log[j].applicant == a.applicant
               && exists b, c, i :: 0 <= b < c < i < j
                    && s.log[b] == ApplicationSubmitted(a)
                    && s.log[c] == ApplicationAccepted(a.id, a.applicant, a.product, a.sumAssured, amount)
                    && s.log[i] == PolicyIssued(s.log[j].policyId, a.id, a.applicant, a.product, amount)
  {
    ReachableInv(s);
    var b, c, i := Traceable(RowsOf(s.tables), s.log, j);
    var a := s.tables.applications[s.tables.policies[s.log[j].policyId].applicationId];
    assert a.id == s.tables.policies[s.log[j].policyId].applicationId;
    PricedByTheTable(a, PremiumOf(a));
  }

  lemma Traceable(t: Rows, log: seq<Event>, j: nat) returns (b: nat, c: nat, i: nat)
    requires History(t, log) && j < |log| && log[j].PremiumCharged?
    requires forall id :: id in t.applications ==> t.applications[id].id == id
    ensures log[j].policyId in t.policies && t.policies[log[j].policyId].applicationId in t.applications
    ensures var d := DecisionOn(t.applications[t.policies[log[j].policyId].applicationId]);
            && d.ApplicationAccepted? && t.policies[log[j].policyId] == PolicyOf(d)
            && log[j] == PremiumCharged(log[j].policyId, d.applicant, d.premium)
            && b < c < i < j
            && log[b] == ApplicationSubmitted(t.applications[d.id]) && log[c] == d && log[i] == IssuedEvent(log[j].policyId, PolicyOf(d))
  {
    assert Caused(t, log[..j], log[j]);
    var p := t.policies[log[j].policyId];
    i :| i < j && log[i] == IssuedEvent(log[j].policyId, p);
    assert Caused(t, log[..i], log[i]);
    c := AcceptanceOf(t, log, p, i);
    b :| b < c && log[b] == ApplicationSubmitted(t.applications[p.applicationId]);
  }

  lemma AcceptanceOf(t: Rows, log: seq<Event>, p: Policy, i: nat) returns (c: nat)
    requires History(t, log) && i <= |log| && Deserved(t, log[..i], p)
    requires forall id :: id in t.applications ==> t.applications[id].id == id
    ensures c < i && log[c] == DecisionOn(t.applications[p.applicationId])
    ensures ApplicationSubmitted(t.applications[p.applicationId]) in log[..c]
  {
    c :| c < i && log[c] == DecisionOn(t.applications[p.applicationId]);
    assert Caused(t, log[..c], log[c]);
  }

  /** A row and its event are written together or not at all, for both tables; what
      is published describes a committed row. */
  lemma OutboxAgreesWithRows(s: State)
    requires Reachable(s)
    ensures forall id :: id in s.tables.applications ==>
              ApplicationSubmitted(s.tables.applications[id]) in s.tables.outbox || ApplicationSubmitted(s.tables.applications[id]) in s.log
    ensures forall a :: ApplicationSubmitted(a) in s.tables.outbox || ApplicationSubmitted(a) in s.log ==>
              a.id in s.tables.applications && s.tables.applications[a.id] == a
    ensures forall id :: id in s.tables.policies ==>
              IssuedEvent(id, s.tables.policies[id]) in s.tables.outbox || IssuedEvent(id, s.tables.policies[id]) in s.log
    ensures forall e :: e in s.tables.outbox && e.PolicyIssued? ==> IsRecord(RowsOf(s.tables), e)
    ensures forall e :: e in s.log && e.PolicyIssued? ==> IsRecord(RowsOf(s.tables), e) || Repeats(s, e)
    ensures forall e :: e in s.tables.confirmed ==> e in s.log
  {
    ReachableInv(s);
    ApplicationsAgree(s);
    PoliciesAgree(s);
  }

  lemma ApplicationsAgree(s: State)
    requires Causal(s)
    ensures forall a :: ApplicationSubmitted(a) in s.tables.outbox || ApplicationSubmitted(a) in s.log ==>
              a.id in s.tables.applications && s.tables.applications[a.id] == a
  {
    forall a | ApplicationSubmitted(a) in s.tables.outbox || ApplicationSubmitted(a) in s.log
      ensures a.id in s.tables.applications && s.tables.applications[a.id] == a
    {
      if ApplicationSubmitted(a) in s.log {
        InLog(s, ApplicationSubmitted(a));
      }
    }
  }

  lemma PoliciesAgree(s: State)
    requires Causal(s)
    ensures forall e :: e in s.log && e.PolicyIssued? ==> IsRecord(RowsOf(s.tables), e) || Repeats(s, e)
  {
    forall e | e in s.log && e.PolicyIssued? ensures IsRecord(RowsOf(s.tables), e) || Repeats(s, e) {
      InLog(s, e);
    }
  }

  /** However often a message is delivered, its premium is taken at most once, plus
      once for each time its claim expired and each misreported publish. */
  lemma ChargesAreBounded(s: State, id: MessageId)
    requires Reachable(s)
    ensures ChargesFor(s, id) <= 1 + s.faults[ClaimExpired(id)] + s.faults[ChargeUnsure(id)]
  {
    ReachableInv(s);
    assert Bounded(s, id);
    SumNonNegative(HolderOf(id), s.charging);
  }

  /** What billing is asked to charge for: the messages of one policy, or those of all
      the policies of one application. */
  datatype Subject = OfPolicy(policyId: PolicyId) | OfApplication(id: ApplicationId)

  predicate IsAbout(x: Subject, p: PolicyId, app: ApplicationId) {
    match x
    case OfPolicy(policyId) => p == policyId
    case OfApplication(id) => app == id
  }

  /** A message concerns the application its policy was issued for, whatever it says. */
  predicate Concerns(policies: map<PolicyId, Policy>, m: Message, x: Subject) {
    && m.body.PolicyIssued? && m.body.policyId in policies
    && IsAbout(x, m.body.policyId, policies[m.body.policyId].applicationId)
  }

  ghost function CountOf(policies: map<PolicyId, Policy>, x: Subject): Message -> int {
    (m: Message) => if Concerns(policies, m, x) then 1 else 0
  }

  ghost function PremiumOn(policies: map<PolicyId, Policy>, x: Subject): Event -> int {
    (e: Event) =>
      if e.PremiumCharged? && e.policyId in policies && IsAbout(x, e.policyId, policies[e.policyId].applicationId) then 1 else 0
  }

  /** How many premiums the log has for a policy, or for all the policies of an application. */
  ghost function Charges(s: State, x: Subject): int {
    Sum(PremiumOn(s.tables.policies, x), s.log)
  }

  /** A sum over the premiums in the log is one over the messages they were charged for. */
  lemma {:induction false} SumBooked(log: seq<Event>, charged: seq<Message>, f: Event -> int, g: Message -> int)
    requires Booked(log, charged)
    requires forall e: Event :: !e.PremiumCharged? ==> f(e) == 0
    requires forall m :: m in charged && m.body.PolicyIssued? ==> f(Billing.ChargeOf(m.body)) == g(m)
    ensures Sum(f, log) == Sum(g, charged)
  {
    if log != [] {
      var before, last := log[..|log| - 1], log[|log| - 1];
      if last.PremiumCharged? {
        SumBooked(before, charged[..|charged| - 1], f, g);
      } else {
        SumBooked(before, charged, f, g);
      }
    }
  }

  /** The premiums in the log, counted by the messages they were charged for. */
  lemma ChargesAreCounted(s: State, x: Subject)
    requires Reachable(s)
    ensures Charges(s, x) == Sum(CountOf(s.tables.policies, x), s.charged)
  {
    ReachableInv(s);
    forall m | m in s.charged && m.body.PolicyIssued?
      ensures PremiumOn(s.tables.policies, x)(Billing.ChargeOf(m.body)) == CountOf(s.tables.policies, x)(m)
    {
      assert Announces(s.tables, m);
    }
    SumBooked(s.log, s.charged, PremiumOn(s.tables.policies, x), CountOf(s.tables.policies, x));
  }

  /** Every message id the policy's event was given is this one. */
  predicate OneMessage(s: State, p: PolicyId, id: MessageId) {
    forall m :: m in s.announced && m.body.PolicyIssued? && m.body.policyId == p ==> m.id == id
  }

  /** So a policy whose event has one message id pays at most once, up to the same
      faults: the claim is on the message and not on the policy. */
  lemma PolicyChargesAreBounded(s: State, p: PolicyId, id: MessageId)
    requires Reachable(s) && OneMessage(s, p, id)
    ensures Charges(s, OfPolicy(p)) <= 1 + s.faults[ClaimExpired(id)] + s.faults[ChargeUnsure(id)]
  {
    ReachableInv(s);
    ChargesAreCounted(s, OfPolicy(p));
    SumMonotone(CountOf(s.tables.policies, OfPolicy(p)), MadeFor(id), s.charged);
    ChargesAreBounded(s, id);
  }

  predicate ResendsPolicy(a: Action, p: PolicyId) {
    a.Resend? && a.message.body.PolicyIssued? && a.message.body.policyId == p
  }

  predicate Announced(s: State, p: PolicyId, m: Message) {
    m in s.announced && m.body.PolicyIssued? && m.body.policyId == p
  }

  ghost predicate AnnouncedOnce(s: State, p: PolicyId) {
    forall m, n :: Announced(s, p, m) && Announced(s, p, n) ==> m == n
  }

  lemma AnnouncedOnceStep(s: State, a: Action, p: PolicyId)
    requires Enveloped(s) && AnnouncedOnce(s, p) && Enabled(s, a) && !ResendsPolicy(a, p)
    ensures AnnouncedOnce(Step(s, a), p)
  {
    forall m, n | Announced(Step(s, a), p, m) && Announced(Step(s, a), p, n) ensures m == n {
      assert forall x :: x in s.announced ==> Announces(s.tables, x);
      assert Announced(s, p, m) && Announced(s, p, n) ==> m == n;
    }
  }

  /** A policy has one record in the outbox, and the relay always publishes its
      bytes: until somebody else sends its event, it has one message id. */
  lemma {:induction false} OneRecordOneMessage(s: State, trace: seq<Action>, p: PolicyId)
    requires Inv(s) && PolicyChain.Valid(s, trace) && AnnouncedOnce(s, p)
    requires forall a :: a in trace ==> !ResendsPolicy(a, p)
    ensures AnnouncedOnce(Run(s, trace), p)
    decreases |trace|
  {
    if trace != [] {
      var a := trace[0];
      assert a in trace;
      InvStep(s, a);
      AnnouncedOnceStep(s, a, p);
      OneRecordOneMessage(Step(s, a), trace[1..], p);
    }
  }

  /** A policy's premium is taken at most once, up to faults, in every run in which
      nobody but the relay publishes its event. */
  lemma ChargedOnceUnlessResent(s0: State, trace: seq<Action>, p: PolicyId, m: Message)
    requires Initial(s0) && PolicyChain.Valid(s0, trace) && forall a :: a in trace ==> !ResendsPolicy(a, p)
    requires Announced(Run(s0, trace), p, m)
    ensures var s := Run(s0, trace);
            Charges(s, OfPolicy(p)) <= 1 + s.faults[ClaimExpired(m.id)] + s.faults[ChargeUnsure(m.id)]
  {
    var s := Run(s0, trace);
    InitialInv(s0);
    OneRecordOneMessage(s0, trace, p);
    forall n | n in s.announced && n.body.PolicyIssued? && n.body.policyId == p ensures n.id == m.id {
      assert Announced(s, p, n);
    }
    assert RunTo(s0, trace, s);
    PolicyChargesAreBounded(s, p, m.id);
  }

  /** The message ids something was announced under. */
  ghost function Announcements(s: State, x: Subject): int {
    Sum(CountOf(s.tables.policies, x), s.announced)
  }

  ghost function FaultsOn(policies: map<PolicyId, Policy>, faults: multiset<Fault>, x: Subject): Message -> int {
    (m: Message) => if Concerns(policies, m, x) then faults[ClaimExpired(m.id)] + faults[ChargeUnsure(m.id)] else 0
  }

  /** The expired claims and misreported publishes of those messages. */
  ghost function Faults(s: State, x: Subject): int {
    Sum(FaultsOn(s.tables.policies, s.faults, x), s.announced)
  }

  /** What was charged for one message. */
  ghost function ShareOf(policies: map<PolicyId, Policy>, charged: seq<Message>, x: Subject): Message -> int {
    (m: Message) => if Concerns(policies, m, x) then Sum(MadeFor(m.id), charged) else 0
  }

  /** Counting by charge is counting by message, because every charge was made for
      exactly one of them. */
  lemma {:induction false} ChargesSpread(policies: map<PolicyId, Policy>, announced: seq<Message>, charged: seq<Message>, x: Subject)
    requires Distinct(announced)
    requires forall m :: m in charged ==> m in announced
    ensures Sum(CountOf(policies, x), charged) == Sum(ShareOf(policies, charged, x), announced)
  {
    if charged == [] {
      SumZero(ShareOf(policies, charged, x), announced);
    } else {
      var before, m := charged[..|charged| - 1], charged[|charged| - 1];
      ChargesSpread(policies, announced, before, x);
      assert m in charged;
      var i: nat :| i < |announced| && announced[i] == m;
      SumAtOnePlace(ShareOf(policies, before, x), ShareOf(policies, charged, x), announced, i);
    }
  }

  lemma {:induction false} SharesAreBounded(s: State, x: Subject, n: nat)
    requires Reachable(s) && n <= |s.announced|
    ensures Sum(ShareOf(s.tables.policies, s.charged, x), s.announced[..n])
            <= Sum(CountOf(s.tables.policies, x), s.announced[..n]) + Sum(FaultsOn(s.tables.policies, s.faults, x), s.announced[..n])
  {
    if n > 0 {
      assert s.announced[..n][..n - 1] == s.announced[..n - 1];
      SharesAreBounded(s, x, n - 1);
      ChargesAreBounded(s, s.announced[n - 1].id);
    }
  }

  /** For a policy, or for all the policies of an application together: at most one
      premium for each message id it was announced under, plus the faults on those
      messages. */
  lemma ChargesFollowAnnouncements(s: State, x: Subject)
    requires Reachable(s)
    ensures Charges(s, x) <= Announcements(s, x) + Faults(s, x)
  {
    ReachableInv(s);
    ChargesAreCounted(s, x);
    ChargesSpread(s.tables.policies, s.announced, s.charged, x);
    SharesAreBounded(s, x, |s.announced|);
    assert s.announced[..|s.announced|] == s.announced;
  }

  ghost function IssueFor(app: ApplicationId): Action -> int {
    (a: Action) => if a.Issue? && a.commit != Failed && a.e.ApplicationAccepted? && a.e.id == app then 1 else 0
  }

  ghost function ResendFor(policies: map<PolicyId, Policy>, app: ApplicationId): Action -> int {
    (a: Action) => if a.Resend? && Concerns(policies, a.message, OfApplication(app)) then 1 else 0
  }

  /** How often a run handles an application's acceptance to its commit. */
  ghost function Issues(trace: seq<Action>, app: ApplicationId): int {
    Sum(IssueFor(app), trace)
  }

  /** How often a run has somebody send an event about these policies of an application again. */
  ghost function Resends(policies: map<PolicyId, Policy>, trace: seq<Action>, app: ApplicationId): int {
    Sum(ResendFor(policies, app), trace)
  }

  /** Policies stay as they were issued. */
  predicate Within(policies: map<PolicyId, Policy>, all: map<PolicyId, Policy>) {
    forall p :: p in policies ==> p in all && all[p] == policies[p]
  }

  lemma PoliciesStayStep(s: State, a: Action)
    requires Enabled(s, a)
    ensures Within(s.tables.policies, Step(s, a).tables.policies)
  {
  }

  lemma {:induction false} PoliciesStay(s: State, trace: seq<Action>)
    requires PolicyChain.Valid(s, trace)
    ensures Within(s.tables.policies, Run(s, trace).tables.policies)
    decreases |trace|
  {
    if trace != [] {
      PoliciesStayStep(s, trace[0]);
      PoliciesStay(Step(s, trace[0]), trace[1..]);
    }
  }

  lemma {:induction false} AnnouncementsRun(s: State, trace: seq<Action>, all: map<PolicyId, Policy>, app: ApplicationId)
    requires PolicyChain.Valid(s, trace) && Within(Run(s, trace).tables.policies, all)
    ensures Sum(CountOf(all, OfApplication(app)), Run(s, trace).announced)
            <= Sum(CountOf(all, OfApplication(app)), s.announced) + Issues(trace, app) + Resends(all, trace, app)
    decreases |trace|
  {
    if trace != [] {
      var a := trace[0];
      PoliciesStay(Step(s, a), trace[1..]);
      AnnouncementsRun(Step(s, a), trace[1..], all, app);
      assert trace == [a] + trace[1..];
      SumCons(IssueFor(app), a, trace[1..]);
      SumCons(ResendFor(all, app), a, trace[1..]);
      AnnouncementsStep(s, a, all, app);
    }
  }

  lemma AnnouncementsStep(s: State, a: Action, all: map<PolicyId, Policy>, app: ApplicationId)
    requires Enabled(s, a) && Within(Step(s, a).tables.policies, all)
    ensures Sum(CountOf(all, OfApplication(app)), Step(s, a).announced)
            <= Sum(CountOf(all, OfApplication(app)), s.announced) + IssueFor(app)(a) + ResendFor(all, app)(a)
  {
    match a
    case Issue(e, id, messageId, r) => if r != Failed { IssueAnnounces(s, e, id, messageId, r, all, app); }
    case Resend(m, r) => SumSnoc(CountOf(all, OfApplication(app)), s.announced, m);
    case _ =>
  }

  lemma IssueAnnounces(s: State, e: Event, id: PolicyId, messageId: MessageId, r: Reply, all: map<PolicyId, Policy>, app: ApplicationId)
    requires Enabled(s, Issue(e, id, messageId, r)) && r != Failed && Within(Issuing(s, e, id, messageId, r).tables.policies, all)
    ensures Sum(CountOf(all, OfApplication(app)), Issuing(s, e, id, messageId, r).announced)
            <= Sum(CountOf(all, OfApplication(app)), s.announced) + if e.id == app then 1 else 0
  {
    var m := Message(messageId, IssuedEvent(id, PolicyOf(e)));
    SumSnoc(CountOf(all, OfApplication(app)), s.announced, m);
    assert id in Issuing(s, e, id, messageId, r).tables.policies && all[id].applicationId == e.id;
  }

  /** Nothing between an acceptance and its policy deduplicates, so the charges of an
      application are bounded by the times its acceptance was handled to a commit. */
  lemma ChargesFollowIssues(s0: State, trace: seq<Action>, app: ApplicationId)
    requires Initial(s0) && PolicyChain.Valid(s0, trace)
    ensures var s := Run(s0, trace);
            Charges(s, OfApplication(app))
            <= Issues(trace, app) + Resends(s.tables.policies, trace, app) + Faults(s, OfApplication(app))
  {
    var s := Run(s0, trace);
    assert RunTo(s0, trace, s);
    ChargesFollowAnnouncements(s, OfApplication(app));
    AnnouncementsRun(s0, trace, s.tables.policies, app);
  }
}
