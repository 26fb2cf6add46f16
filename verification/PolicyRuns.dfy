/** Particular runs of policy administration: what billing's claim covers and what
    it does not, each with no claim expired and no publish misreported. */
module PolicyRuns {
  import opened Collections
  import opened Messaging
  import opened Policies
  import opened PolicyChain
  import opened PolicyInvariants
  import opened PolicyTheorems
  import opened Underwriting
  import Billing
  import Claims

  lemma {:induction false} StepAfter(s: State, trace: seq<Action>, a: Action)
    requires PolicyChain.Valid(s, trace) && Enabled(Run(s, trace), a)
    ensures PolicyChain.Valid(s, trace + [a]) && Run(s, trace + [a]) == Step(Run(s, trace), a)
    decreases |trace|
  {
    var t := trace + [a];
    if trace == [] {
      assert t == [a] && t[1..] == [];
    } else {
      assert t[0] == trace[0] && t[1..] == trace[1..] + [a];
      StepAfter(Step(s, trace[0]), trace[1..], a);
    }
  }

  lemma RunSnoc(s0: State, trace: seq<Action>, s: State, a: Action) returns (s': State)
    requires RunTo(s0, trace, s) && Enabled(s, a)
    ensures RunTo(s0, trace + [a], s') && s' == Step(s, a)
  {
    StepAfter(s0, trace, a);
    s' := Run(s0, trace + [a]);
  }

  /** A run in which nobody but the relay publishes a policy's event. */
  ghost predicate OnlyRelays(trace: seq<Action>) {
    forall a: Action :: a in trace ==> !a.Resend?
  }

  /** A state that such a run ends in when it commits `n` policies for an application. */
  ghost predicate IssuedTimes(s: State, app: ApplicationId, n: nat) {
    exists s0: State, trace: seq<Action> :: RunTo(s0, trace, s) && Issues(trace, app) == n && OnlyRelays(trace)
  }

  lemma IsReachable(s: State, app: ApplicationId, n: nat)
    requires IssuedTimes(s, app, n)
    ensures Reachable(s)
  {
  }

  lemma Next(s: State, app: ApplicationId, n: nat, a: Action) returns (s': State)
    requires IssuedTimes(s, app, n) && Enabled(s, a) && !a.Resend? && !a.Issue?
    ensures IssuedTimes(s', app, n) && s' == Step(s, a)
  {
    s' := NextIssue(s, app, n, a);
  }

  lemma NextIssue(s: State, app: ApplicationId, n: nat, a: Action) returns (s': State)
    requires IssuedTimes(s, app, n) && Enabled(s, a) && !a.Resend?
    ensures IssuedTimes(s', app, n + IssueFor(app)(a)) && s' == Step(s, a)
  {
    var s0: State, trace: seq<Action> :| RunTo(s0, trace, s) && Issues(trace, app) == n && OnlyRelays(trace);
    s' := RunSnoc(s0, trace, s, a);
    SumSnoc(IssueFor(app), trace, a);
  }

  /** Nothing past underwriting has happened. */
  predicate Unissued(s: State) {
    && s.tables.policies == map[] && s.claims == map[] && s.announced == [] && s.charged == [] && s.faults == multiset{}
  }

  /** An application that was submitted and fed to the pipeline. */
  lemma FedOnce(a: Application) returns (s: State)
    ensures IssuedTimes(s, a.id, 0) && a in s.register && Unissued(s)
  {
    var s0 := State(Tables(map[], map[], map[], {}), [], {}, {}, {}, Acks({}, {}, {}, {}, {}, {}), {}, [], [], map[], [], multiset{});
    assert RunTo(s0, [], s0);
    assert IssuedTimes(s0, a.id, 0);
    var s1 := Next(s0, a.id, 0, Submit(a, "M"));
    var s2 := Next(s1, a.id, 0, Relay(ApplicationSubmitted(a), Ok));
    s := Next(s2, a.id, 0, Feed(a, Ok));
  }

  /** An application whose acceptance has been published. */
  lemma AcceptedOnce(a: Application) returns (s: State)
    requires a.sumAssured <= REFERRAL_THRESHOLD
    ensures IssuedTimes(s, a.id, 0) && Unissued(s)
    ensures DecisionOn(a) in s.log && DecisionOn(a).ApplicationAccepted? && DecisionOn(a).id == a.id
  {
    var s0 := FedOnce(a);
    var s1 := Next(s0, a.id, 0, Register(a, Ok));
    var s2 := Next(s1, a.id, 0, SetPrice(CheckRegister(a), Ok));
    s := Next(s2, a.id, 0, Decide(Price(CheckRegister(a)), Ok));
  }

  /** What a state has after one more policy was issued and charged. */
  predicate OneMore(s: State, s': State, e: Event, m: Message)
    requires e.ApplicationAccepted? && m.body.PolicyIssued?
  {
    && m.body == IssuedEvent(m.body.policyId, PolicyOf(e))
    && s.log <= s'.log && m.body in s'.log && Billing.ChargeOf(m.body) in s'.log
    && s'.tables.policies == s.tables.policies[m.body.policyId := PolicyOf(e)]
    && s'.claims == s.claims[m.id := Claims.Held] && s'.faults == s.faults
    && s'.announced == s.announced + [m] && s'.charged == s.charged + [m]
  }

  /** A policy for an accepted application, issued and announced. */
  lemma IssueAndAnnounce(s: State, n: nat, e: Event, p: PolicyId, id: MessageId) returns (s': State)
    requires e in s.log && e.ApplicationAccepted? && IssuedTimes(s, e.id, n)
    requires p !in s.tables.policies && NewId(s, id)
    ensures IssuedTimes(s', e.id, n + 1) && Message(id, IssuedEvent(p, PolicyOf(e))) in s'.queued
    ensures s'.log == s.log + [IssuedEvent(p, PolicyOf(e))] && s'.tables.policies == s.tables.policies[p := PolicyOf(e)]
    ensures s'.claims == s.claims && s'.faults == s.faults && s'.charged == s.charged
    ensures s'.announced == s.announced + [Message(id, IssuedEvent(p, PolicyOf(e)))]
  {
    NotConfirmed(s, p, e);
    var s1 := NextIssue(s, e.id, n, Issue(e, p, id, Ok));
    s' := Next(s1, e.id, n + 1, Relay(IssuedEvent(p, PolicyOf(e)), Ok));
  }

  /** And charged. */
  lemma IssueAndCharge(s: State, n: nat, e: Event, p: PolicyId, id: MessageId) returns (s': State)
    requires e in s.log && e.ApplicationAccepted? && IssuedTimes(s, e.id, n)
    requires p !in s.tables.policies && NewId(s, id) && Claims.Free(s.claims, id)
    ensures IssuedTimes(s', e.id, n + 1) && OneMore(s, s', e, Message(id, IssuedEvent(p, PolicyOf(e))))
  {
    var issued := IssuedEvent(p, PolicyOf(e));
    var s1 := IssueAndAnnounce(s, n, e, p, id);
    s' := ClaimAndCharge(s1, e.id, n + 1, Message(id, issued));
    assert s'.log == s.log + [issued] + [Billing.ChargeOf(issued)];
  }

  /** A message on billing's queue whose id nobody has claimed is charged for. */
  lemma ClaimAndCharge(s: State, app: ApplicationId, n: nat, m: Message) returns (s': State)
    requires IssuedTimes(s, app, n) && m in s.queued && m.body.PolicyIssued? && Claims.Free(s.claims, m.id)
    ensures IssuedTimes(s', app, n)
    ensures s'.log == s.log + [Billing.ChargeOf(m.body)] && s'.charged == s.charged + [m] && s'.announced == s.announced
    ensures s'.claims == s.claims[m.id := Claims.Held] && s'.faults == s.faults && s'.tables == s.tables
  {
    var s1 := Next(s, app, n, Claim(m, Ok));
    var k := |s.charging|;
    assert s1.charging[k] == Charging(m, Holding);
    s' := Next(s1, app, n, Charge(k, Ok));
  }

  lemma NotConfirmed(s: State, p: PolicyId, e: Event)
    requires Reachable(s) && p !in s.tables.policies && e.ApplicationAccepted?
    ensures IssuedEvent(p, PolicyOf(e)) !in s.tables.confirmed
  {
    OutboxAgreesWithRows(s);
  }

  /** What billing's claim does not cover: `issue` has none. An acceptance that is
      delivered twice becomes two policies, and each of them is charged. */
  lemma RedeliveredAcceptanceChargesTwice(a: Application, p: PolicyId, q: PolicyId)
    requires a.sumAssured <= REFERRAL_THRESHOLD && p != q
    ensures exists s :: Reachable(s) && s.faults == multiset{}
              && PremiumCharged(p, a.applicant, PremiumOf(a)) in s.log && PremiumCharged(q, a.applicant, PremiumOf(a)) in s.log
              && p in s.tables.policies && q in s.tables.policies
              && s.tables.policies[p].applicationId == s.tables.policies[q].applicationId == a.id
  {
    var e := DecisionOn(a);
    var s0 := AcceptedOnce(a);
    var s1 := IssueAndCharge(s0, 0, e, p, "M-1");
    var s2 := IssueAndCharge(s1, 1, e, q, "M-2");
    IsReachable(s2, a.id, 2);
  }

  /** The `k`-th of any number of different names. */
  function Name(k: nat): string {
    seq(k, _ => 'N')
  }

  predicate AllConcern(s: State, messages: seq<Message>, x: Subject) {
    forall m :: m in messages ==> Concerns(s.tables.policies, m, x)
  }

  /** An acceptance that was issued `n` times and charged as often. */
  ghost predicate ChargedTimes(s: State, a: Application, n: nat) {
    && IssuedTimes(s, a.id, n) && s.faults == multiset{} && |s.charged| == n && AllConcern(s, s.charged, OfApplication(a.id))
    && DecisionOn(a) in s.log
    && (forall k: nat :: k >= n ==>
          Name(k) !in s.tables.policies && Claims.Free(s.claims, Name(k)) && NewId(s, Name(k)))
  }

  lemma {:induction false} EveryIssueIsCharged(a: Application, n: nat) returns (s: State)
    requires a.sumAssured <= REFERRAL_THRESHOLD
    ensures ChargedTimes(s, a, n)
  {
    if n == 0 {
      s := AcceptedOnce(a);
    } else {
      var before := EveryIssueIsCharged(a, n - 1);
      var e, m := DecisionOn(a), Message(Name(n - 1), IssuedEvent(Name(n - 1), PolicyOf(DecisionOn(a))));
      s := IssueAndCharge(before, n - 1, e, Name(n - 1), Name(n - 1));
      assert Concerns(s.tables.policies, m, OfApplication(a.id));
      forall k: nat | k >= n ensures Name(k) !in s.tables.policies && Claims.Free(s.claims, Name(k)) && NewId(s, Name(k)) {
        assert |Name(k)| == k != n - 1 == |Name(n - 1)|;
      }
    }
  }

  /** Exactly when an accepted application can be charged twice with no fault: when its
      acceptance is handled to a commit twice. */
  lemma ChargedTwiceExactlyWhenIssuedTwice(a: Application, n: nat)
    requires a.sumAssured <= REFERRAL_THRESHOLD
    ensures (exists s :: IssuedTimes(s, a.id, n) && s.faults == multiset{} && Charges(s, OfApplication(a.id)) >= 2) <==> n >= 2
  {
    if s :| IssuedTimes(s, a.id, n) && s.faults == multiset{} && Charges(s, OfApplication(a.id)) >= 2 {
      AtMostIssued(s, a.id, n);
    }
    if n >= 2 {
      var s := EveryIssueIsCharged(a, n);
      IsReachable(s, a.id, n);
      ChargesAreCounted(s, OfApplication(a.id));
      SumOnes(CountOf(s.tables.policies, OfApplication(a.id)), s.charged);
    }
  }

  /** With no fault and nobody resending, an application pays at most once for each
      time its acceptance was issued. */
  lemma AtMostIssued(s: State, app: ApplicationId, n: nat)
    requires IssuedTimes(s, app, n) && s.faults == multiset{}
    ensures Charges(s, OfApplication(app)) <= n
  {
    var s0: State, trace: seq<Action> :| RunTo(s0, trace, s) && Issues(trace, app) == n && OnlyRelays(trace);
    ChargesFollowIssues(s0, trace, app);
    SumZero(ResendFor(s.tables.policies, app), trace);
    SumZero(FaultsOn(s.tables.policies, s.faults, OfApplication(app)), s.announced);
  }

  lemma ReachableNext(s: State, a: Action) returns (s': State)
    requires Reachable(s) && Enabled(s, a)
    ensures Reachable(s') && s' == Step(s, a)
  {
    var s0: State, trace: seq<Action> :| RunTo(s0, trace, s);
    s' := RunSnoc(s0, trace, s, a);
  }

  /** A policy's event sent again under an id of its own, and charged for. */
  lemma SendAgain(s: State, m: Message) returns (s': State)
    requires Reachable(s) && Repeats(s, m.body) && NewId(s, m.id) && Claims.Free(s.claims, m.id)
    ensures Reachable(s') && s'.charged == s.charged + [m] && s'.announced == s.announced + [m]
    ensures s'.tables == s.tables && s'.faults == s.faults && s.log <= s'.log
    ensures s'.claims == s.claims[m.id := Claims.Held]
  {
    var s1 := ReachableNext(s, Resend(m, Ok));
    var s2 := ReachableNext(s1, Claim(m, Ok));
    assert s2.charging[|s.charging|] == Charging(m, Holding);
    s' := ReachableNext(s2, Charge(|s.charging|, Ok));
  }

  /** One policy, issued once, whose event was given `n` message ids and charged under
      each of them. Every id is claimed, so more copies of those messages are refused. */
  ghost predicate SentTimes(s: State, a: Application, p: PolicyId, n: nat)
    requires a.sumAssured <= REFERRAL_THRESHOLD
  {
    && Reachable(s) && s.faults == multiset{} && s.tables.policies.Keys == {p}
    && s.tables.policies[p] == PolicyOf(DecisionOn(a)) && IssuedEvent(p, PolicyOf(DecisionOn(a))) in s.log
    && |s.announced| == |s.charged| == n && AllConcern(s, s.announced, OfPolicy(p)) && AllConcern(s, s.charged, OfPolicy(p))
    && (forall k: nat :: k < n ==> !Claims.Free(s.claims, Name(k)))
    && (forall k: nat :: k >= n ==> Claims.Free(s.claims, Name(k)) && NewId(s, Name(k)))
  }

  lemma NamesDiffer(j: nat, k: nat)
    requires j != k
    ensures Name(j) != Name(k)
  {
    assert |Name(j)| == j && |Name(k)| == k;
  }

  lemma SentOnce(a: Application, p: PolicyId) returns (s: State)
    requires a.sumAssured <= REFERRAL_THRESHOLD
    ensures SentTimes(s, a, p, 1)
  {
    var before := AcceptedOnce(a);
    s := IssueAndCharge(before, 0, DecisionOn(a), p, Name(0));
    IsReachable(s, a.id, 1);
    forall k: nat | k != 0 ensures Name(k) != Name(0) {
      NamesDiffer(k, 0);
    }
  }

  /** What others send need only tell billing what the policy's own event does: it may
      name an application nobody submitted. */
  lemma {:induction false} EveryMessageIsCharged(a: Application, p: PolicyId, copy: Event, n: nat) returns (s: State)
    requires a.sumAssured <= REFERRAL_THRESHOLD && n >= 1
    requires copy.PolicyIssued? && copy.policyId == p && copy.applicant == a.applicant && copy.premium == PremiumOf(a)
    ensures SentTimes(s, a, p, n)
  {
    if n == 1 {
      s := SentOnce(a, p);
    } else {
      var before := EveryMessageIsCharged(a, p, copy, n - 1);
      var m := Message(Name(n - 1), copy);
      s := SendAgain(before, m);
      assert Concerns(s.tables.policies, m, OfPolicy(p));
      forall k: nat | k != n - 1 ensures Name(k) != Name(n - 1) {
        NamesDiffer(k, n - 1);
      }
    }
  }

  /** Exactly when an issued policy can be charged twice with no fault: when its event
      has two message ids. The claim tells copies of a message apart from other
      messages, and nothing else. */
  lemma ChargedTwiceExactlyWhenSentTwice(a: Application, p: PolicyId, n: nat)
    requires a.sumAssured <= REFERRAL_THRESHOLD
    ensures (exists s :: Reachable(s) && s.faults == multiset{} && Announcements(s, OfPolicy(p)) == n && Charges(s, OfPolicy(p)) >= 2)
            <==> n >= 2
  {
    if s :| Reachable(s) && s.faults == multiset{} && Announcements(s, OfPolicy(p)) == n && Charges(s, OfPolicy(p)) >= 2 {
      ChargesFollowAnnouncements(s, OfPolicy(p));
      SumZero(FaultsOn(s.tables.policies, s.faults, OfPolicy(p)), s.announced);
    }
    if n >= 2 {
      var s := EveryMessageIsCharged(a, p, PolicyIssued(p, "APP-x", a.applicant, a.product, PremiumOf(a)), n);
      ChargesAreCounted(s, OfPolicy(p));
      SumOnes(CountOf(s.tables.policies, OfPolicy(p)), s.announced);
      SumOnes(CountOf(s.tables.policies, OfPolicy(p)), s.charged);
    }
  }
}
