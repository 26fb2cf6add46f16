/** Where the money in the journal comes from, and where it stops: the writer's own
    tallies, read off the journal instead. */
module LedgerOrigins {
  import opened Collections
  import opened Journal
  import opened Ledger
  import opened LedgerInvariants
  import opened Messaging

  /** All the money the opening balances of a journal bring in. */
  function Openings(journal: seq<Entry>, origins: seq<Origin>): int
    requires |journal| == |origins|
  {
    if journal == [] then 0
    else
      var n := |journal| - 1;
      Openings(journal[..n], origins[..n]) + if origins[n].Opening? then journal[n].amount else 0
  }

  /** A debit is answered by the credit that follows it, with only opening balances between. */
  ghost predicate Answered(origins: seq<Origin>, d: nat) {
    && d < |origins| && origins[d].Debit?
    && exists k :: d < k < |origins| && origins[k] == Credit(origins[d].t) && AllOpening(origins, d + 1, k)
  }

  predicate AllOpening(origins: seq<Origin>, from: nat, to: nat) {
    to <= |origins| && forall k :: from <= k < to ==> origins[k] == Opening
  }

  /** The transfers of the first `n` debits that no credit answers, in order. */
  ghost function Unanswered(origins: seq<Origin>, n: nat): seq<Transfer>
    requires n <= |origins|
  {
    if n == 0 then []
    else Unanswered(origins, n - 1)
         + if origins[n - 1].Debit? && !Answered(origins, n - 1) then [origins[n - 1].t] else []
  }

  /** The transfer of a handling that stands between its debit and its credit. */
  function HalfDone(p: Ledger.Phase): seq<Transfer> {
    if p.Debited? || p.Crediting? then [p.t] else []
  }

  lemma OpeningsSnoc(journal: seq<Entry>, origins: seq<Origin>, e: Entry, o: Origin)
    requires |journal| == |origins|
    ensures Openings(journal + [e], origins + [o]) == Openings(journal, origins) + if o.Opening? then e.amount else 0
  {
    assert (journal + [e])[..|journal|] == journal && (origins + [o])[..|origins|] == origins;
  }

  lemma StillOpening(origins: seq<Origin>, o: Origin, from: nat, to: nat)
    requires to <= |origins|
    ensures AllOpening(origins + [o], from, to) <==> AllOpening(origins, from, to)
  {
    assert forall k :: 0 <= k < |origins| ==> (origins + [o])[k] == origins[k];
    if AllOpening(origins + [o], from, to) {
      forall k | from <= k < to ensures origins[k] == Opening {
        assert (origins + [o])[k] == Opening;
      }
    }
  }

  /** One more origin answers nothing unless it is a credit right after the debit. */
  lemma AnsweredSnoc(origins: seq<Origin>, o: Origin, d: nat)
    requires d < |origins|
    ensures Answered(origins + [o], d) <==>
              Answered(origins, d) || (origins[d].Debit? && o == Credit(origins[d].t) && AllOpening(origins, d + 1, |origins|))
  {
    var grown := origins + [o];
    if Answered(origins, d) {
      var k :| d < k < |origins| && origins[k] == Credit(origins[d].t) && AllOpening(origins, d + 1, k);
      StillOpening(origins, o, d + 1, k);
      assert grown[k] == origins[k];
    } else if origins[d].Debit? && o == Credit(origins[d].t) && AllOpening(origins, d + 1, |origins|) {
      StillOpening(origins, o, d + 1, |origins|);
      assert grown[|origins|] == o;
    } else if Answered(grown, d) {
      var k :| d < k < |grown| && grown[k] == Credit(grown[d].t) && AllOpening(grown, d + 1, k);
      StillOpening(origins, o, d + 1, k);
    }
  }

  lemma {:induction false} UnansweredSame(origins: seq<Origin>, o: Origin, n: nat)
    requires n <= |origins|
    requires forall d :: 0 <= d < n ==> !(origins[d].Debit? && o == Credit(origins[d].t) && AllOpening(origins, d + 1, |origins|))
    ensures Unanswered(origins + [o], n) == Unanswered(origins, n)
  {
    if n > 0 {
      UnansweredSame(origins, o, n - 1);
      AnsweredSnoc(origins, o, n - 1);
    }
  }

  lemma {:induction false} OpeningsAddNothing(origins: seq<Origin>, from: nat, n: nat)
    requires from <= n <= |origins| && AllOpening(origins, from, n)
    ensures Unanswered(origins, n) == Unanswered(origins, from)
  {
    if from < n {
      OpeningsAddNothing(origins, from, n - 1);
    }
  }

  /** A debit or an opening balance answers nothing, and a debit is open. */
  lemma UnansweredGrows(origins: seq<Origin>, o: Origin)
    requires !o.Credit?
    ensures Unanswered(origins + [o], |origins| + 1) == Unanswered(origins, |origins|) + if o.Debit? then [o.t] else []
  {
    UnansweredSame(origins, o, |origins|);
    assert (origins + [o])[|origins|] == o;
    assert !Answered(origins + [o], |origins|);
  }

  /** A debit with only opening balances after it is the last that is open. */
  lemma LastOpen(origins: seq<Origin>, t: Transfer, d: nat)
    requires d < |origins| && origins[d] == Debit(t) && AllOpening(origins, d + 1, |origins|)
    ensures Unanswered(origins, |origins|) == Unanswered(origins, d) + [t]
  {
    OpeningsAddNothing(origins, d + 1, |origins|);
    assert forall k :: d < k < |origins| ==> !origins[k].Credit?;
    assert !Answered(origins, d);
  }

  /** A credit answers it, and no debit before it. */
  lemma LastAnswered(origins: seq<Origin>, t: Transfer, d: nat)
    requires d < |origins| && origins[d] == Debit(t) && AllOpening(origins, d + 1, |origins|)
    ensures Unanswered(origins + [Credit(t)], |origins| + 1) == Unanswered(origins, d)
  {
    var grown := origins + [Credit(t)];
    UnansweredSame(origins, Credit(t), d);
    AnsweredSnoc(origins, Credit(t), d);
    StillOpening(origins, Credit(t), d + 1, |origins|);
    OpeningsAddNothing(grown, d + 1, |origins|);
    assert grown[|origins|] == Credit(t) && grown[d] == origins[d];
  }

  lemma CreditAnswers(origins: seq<Origin>, t: Transfer)
    requires OpenDebit(origins, t, |origins|)
    ensures Unanswered(origins, |origins|) == Unanswered(origins + [Credit(t)], |origins| + 1) + [t]
  {
    var d :| 0 <= d < |origins| && origins[d] == Debit(t) && forall k :: d < k < |origins| ==> origins[k] == Opening;
    LastOpen(origins, t, d);
    LastAnswered(origins, t, d);
  }

  /** The tallies are the journal's: what was funded is its opening balances, and
      what was stranded or stands half way is its unanswered debits. */
  ghost predicate Tallied(s: State) {
    && |s.origins| == |s.journal|
    && s.funded == Openings(s.journal, s.origins)
    && Unanswered(s.origins, |s.origins|) == s.stranded + HalfDone(s.phase)
  }

  lemma AppendTallies(s: State, id: string, r: Reply)
    requires Tallied(s) && Paired(s) && Enabled(s, Append(id, r))
    ensures Tallied(Appending(s, id, r))
  {
    if s.phase.Debiting? {
      DebitTallies(s, id, r);
    } else {
      CreditTallies(s, id, r);
    }
  }

  lemma DebitTallies(s: State, id: string, r: Reply)
    requires Tallied(s) && s.phase.Debiting?
    ensures Tallied(Appending(s, id, r))
  {
    var t := s.phase.t;
    OpeningsSnoc(s.journal, s.origins, DebitOf(t, id), Debit(t));
    UnansweredGrows(s.origins, Debit(t));
    assert s.stranded + [] == s.stranded;
  }

  lemma CreditTallies(s: State, id: string, r: Reply)
    requires Tallied(s) && Paired(s) && s.phase.Crediting?
    ensures Tallied(Appending(s, id, r))
  {
    var t := s.phase.t;
    OpeningsSnoc(s.journal, s.origins, CreditOf(t, id), Credit(t));
    CreditAnswers(s.origins, t);
    Unappended(Unanswered(s.origins + [Credit(t)], |s.origins| + 1), s.stranded, t);
    assert s.stranded + [] == s.stranded && (s.stranded + [t]) + [] == s.stranded + [t];
  }

  lemma Unappended(x: seq<Transfer>, y: seq<Transfer>, t: Transfer)
    requires x + [t] == y + [t]
    ensures x == y
  {
    assert (x + [t])[..|x|] == x && (y + [t])[..|y|] == y;
  }

  lemma FundTallies(s: State, account: Account, amount: int, id: string, r: Reply)
    requires Tallied(s)
    ensures Tallied(Funding(s, account, amount, id, r))
  {
    OpeningsSnoc(s.journal, s.origins, OpeningOf(account, amount, id), Opening);
    UnansweredGrows(s.origins, Opening);
  }

  lemma TalliedStep(s: State, a: Action)
    requires Tallied(s) && Paired(s) && Enabled(s, a)
    ensures Tallied(Step(s, a))
  {
    match a
    case Append(id, r) => AppendTallies(s, id, r);
    case Fund(account, amount, id, r) => FundTallies(s, account, amount, id, r);
    case _ =>
  }

  lemma {:induction false} TalliedRun(s: State, trace: seq<Action>)
    requires Tallied(s) && Inv(s) && Ledger.Valid(s, trace)
    ensures Tallied(Run(s, trace))
    decreases |trace|
  {
    if trace != [] {
      TalliedStep(s, trace[0]);
      InvStep(s, trace[0]);
      TalliedRun(Step(s, trace[0]), trace[1..]);
    }
  }

  lemma ReachableTallied(s: State)
    requires Reachable(s)
    ensures Tallied(s)
  {
    var s0: State, trace: seq<Action> :| RunTo(s0, trace, s);
    InitialInv(s0);
    TalliedRun(s0, trace);
  }

  ghost function DebitFor(t: Transfer): Origin -> int {
    (o: Origin) => if o == Debit(t) then 1 else 0
  }

  ghost function CreditFor(t: Transfer): Origin -> int {
    (o: Origin) => if o == Credit(t) then 1 else 0
  }

  ghost function TakeFor(t: Transfer): Action -> int {
    (a: Action) => if a == Take(t) then 1 else 0
  }

  /** How often the journal takes a transfer's money. */
  ghost function Debits(s: State, t: Transfer): int {
    Sum(DebitFor(t), s.origins)
  }

  ghost function Credits(s: State, t: Transfer): int {
    Sum(CreditFor(t), s.origins)
  }

  /** How often a run handles a command. */
  ghost function Takes(trace: seq<Action>, t: Transfer): int {
    Sum(TakeFor(t), trace)
  }

  function ToDebit(p: Ledger.Phase, t: Transfer): int {
    if p.Debiting? && p.t == t then 1 else 0
  }

  function ToCredit(p: Ledger.Phase, t: Transfer): int {
    if (p.Debiting? || p.Debited? || p.Crediting?) && p.t == t then 1 else 0
  }

  /** A step appends at most one origin, for the transfer in hand or for none. */
  lemma OriginsStep(s: State, a: Action) returns (o: Origin)
    requires Enabled(s, a)
    ensures Step(s, a).origins == s.origins || Step(s, a).origins == s.origins + [o]
    ensures o.Debit? ==> s.phase.Debiting? && s.phase.t == o.t
    ensures o.Credit? ==> s.phase.Crediting? && s.phase.t == o.t
  {
    o := if !a.Append? then Opening else if s.phase.Debiting? then Debit(s.phase.t) else Credit(s.phase.t);
  }

  /** A place in the writer's hand comes from handling the command, and is used up by appending. */
  lemma HandStep(s: State, a: Action, t: Transfer)
    requires Enabled(s, a)
    ensures ToDebit(Step(s, a).phase, t) <= ToDebit(s.phase, t) + TakeFor(t)(a)
    ensures ToCredit(Step(s, a).phase, t) <= ToCredit(s.phase, t) + TakeFor(t)(a)
    ensures Step(s, a).origins == s.origins + [Debit(t)] ==> ToDebit(Step(s, a).phase, t) == 0 && !a.Take?
    ensures Step(s, a).origins == s.origins + [Credit(t)] ==> ToCredit(Step(s, a).phase, t) == 0 && !a.Take?
  {
    assert forall o: Origin :: s.origins + [o] != s.origins;
    assert (s.origins + [Debit(t)])[|s.origins|] == Debit(t) && (s.origins + [Credit(t)])[|s.origins|] == Credit(t);
  }

  lemma MovesStep(s: State, a: Action, t: Transfer)
    requires Enabled(s, a)
    ensures Debits(Step(s, a), t) + ToDebit(Step(s, a).phase, t) <= Debits(s, t) + ToDebit(s.phase, t) + TakeFor(t)(a)
    ensures Credits(Step(s, a), t) + ToCredit(Step(s, a).phase, t) <= Credits(s, t) + ToCredit(s.phase, t) + TakeFor(t)(a)
  {
    HandStep(s, a, t);
    var o := OriginsStep(s, a);
    OriginsCount(s.origins, Step(s, a).origins, o, t);
  }

  /** At most one more debit or credit, and then of this origin. */
  lemma OriginsCount(before: seq<Origin>, after: seq<Origin>, o: Origin, t: Transfer)
    requires after == before || after == before + [o]
    ensures Sum(DebitFor(t), after) == Sum(DebitFor(t), before) + if after != before && o == Debit(t) then 1 else 0
    ensures Sum(CreditFor(t), after) == Sum(CreditFor(t), before) + if after != before && o == Credit(t) then 1 else 0
  {
    SumSnoc(DebitFor(t), before, o);
    SumSnoc(CreditFor(t), before, o);
  }

  lemma {:induction false} MovesRun(s: State, trace: seq<Action>, t: Transfer)
    requires Ledger.Valid(s, trace)
    ensures var s' := Run(s, trace);
            && Debits(s', t) + ToDebit(s'.phase, t) <= Debits(s, t) + ToDebit(s.phase, t) + Takes(trace, t)
            && Credits(s', t) + ToCredit(s'.phase, t) <= Credits(s, t) + ToCredit(s.phase, t) + Takes(trace, t)
    decreases |trace|
  {
    if trace != [] {
      var a := trace[0];
      MovesStep(s, a, t);
      MovesRun(Step(s, a), trace[1..], t);
      assert trace == [a] + trace[1..];
      SumCons(TakeFor(t), a, trace[1..]);
    }
  }
}
