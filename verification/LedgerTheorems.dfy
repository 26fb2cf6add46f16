/** What holds in every reachable state of the ledger, across restarts. */
module LedgerTheorems {
  import opened Collections
  import opened Journal
  import opened Ledger
  import opened LedgerInvariants
  import opened LedgerOrigins

  /** Every prefix of the journal gives every account a non-negative balance, with
      `Fund` running between a transfer's check, debit and credit, with parked
      transfers, crashes and restarts. */
  lemma NeverOverdrawn(s: State, k: nat, a: Account)
    requires Reachable(s) && Sound(s) && k <= |s.journal|
    ensures Fold(s.journal[..k], a) >= 0
  {
    ReachableInv(s);
  }

  /** Conservation, in every run: the balances add up to the opening balances, less
      the amounts of exactly the debits that no credit answers. Those are the
      handlings that stopped between the two, and the one that stands there. */
  lemma MoneyIsConserved(s: State)
    requires Reachable(s)
    ensures |s.origins| == |s.journal|
    ensures Total(Exact(s.journal)) == Openings(s.journal, s.origins) - Sum(AmountOf(), Unanswered(s.origins, |s.origins|))
    ensures Total(Exact(s.journal)) == s.funded - Lost(s) - HalfWay(s.phase)
    ensures s.funded == Openings(s.journal, s.origins)
    ensures Unanswered(s.origins, |s.origins|) == s.stranded + HalfDone(s.phase)
    ensures forall a :: Get(Exact(s.journal), a) == Fold(s.journal, a)
  {
    ReachableInv(s);
    ReachableTallied(s);
    if HalfDone(s.phase) != [] {
      SumSnoc(AmountOf(), s.stranded, s.phase.t);
    } else {
      assert s.stranded + [] == s.stranded;
    }
    BalancesAddUp(s.journal);
    forall a ensures Get(Exact(s.journal), a) == Fold(s.journal, a) {
      ExactIsFold(s.journal, a);
    }
  }

  /** Double entry: a credit has its debit before it, the two sum to zero, and only
      opening balances are between them. */
  lemma CreditFollowsItsDebit(s: State, i: nat)
    requires Reachable(s) && i < |s.origins| && s.origins[i].Credit?
    ensures i < |s.journal| == |s.origins|
    ensures exists d :: 0 <= d < i
              && s.origins[d] == Debit(s.origins[i].t)
              && s.journal[d].account == s.origins[i].t.from && s.journal[i].account == s.origins[i].t.to
              && s.journal[d].amount + s.journal[i].amount == 0
              && s.journal[d].transferId == s.journal[i].transferId
              && forall k :: d < k < i ==> s.journal[k].transferId == "OPENING-" + s.journal[k].account
  {
    ReachableInv(s);
    var t := s.origins[i].t;
    assert Describes(s.origins[i], s.journal[i]) && OpenDebit(s.origins, t, i);
    var d :| 0 <= d < i && s.origins[d] == Debit(t) && forall k :: d < k < i ==> s.origins[k] == Opening;
    assert Describes(s.origins[d], s.journal[d]);
    forall k | d < k < i ensures s.journal[k].transferId == "OPENING-" + s.journal[k].account {
      assert Describes(s.origins[k], s.journal[k]);
    }
  }

  /** The ledger does not deduplicate, so what it promises it promises for each
      handling: a command's money moves at most as often as the command is handled. */
  lemma MovesFollowTakes(s0: State, trace: seq<Action>, t: Transfer)
    requires Initial(s0) && Ledger.Valid(s0, trace)
    ensures Debits(Run(s0, trace), t) <= Takes(trace, t)
    ensures Credits(Run(s0, trace), t) <= Takes(trace, t)
  {
    MovesRun(s0, trace, t);
  }

  /** Nothing is on its way to the balances, and every publish was reported as it went. */
  predicate Quiescent(s: State) {
    s.phase == Idle && s.unapplied == [] && s.missed == []
  }

  /** Each entry counts once: at rest the writer's map, account by account and key
      by key, is what a reader of the journal would compute. */
  lemma BalancesAreTheJournal(s: State)
    requires Reachable(s) && Quiescent(s)
    ensures s.accounts == Rebuilt(s.journal)
  {
    ReachableInv(s);
    RebuiltIsFold(s.journal);
    assert InHand(s.phase) == [];
    forall a | a in s.accounts ensures s.accounts[a] == Rebuilt(s.journal)[a] {
      assert Get(s.accounts, a) == Wrap(Known(s, a)) && Get(Rebuilt(s.journal), a) == Wrap(Fold(s.journal, a));
    }
  }

  /** Off rest, what has not reached the balances is exactly what is missing from
      them; while rebuilding, they are those of the entries read so far. */
  lemma AppliedExactlyOnce(s: State, a: Account)
    requires Reachable(s)
    ensures s.phase != Rebuilding ==>
              Get(s.accounts, a) == Wrap(Fold(s.journal, a) - Fold(s.unapplied, a) - Fold(s.missed, a) - Fold(InHand(s.phase), a))
    ensures s.phase == Rebuilding ==>
              s.replayed <= |s.journal| && Get(s.accounts, a) == Wrap(Fold(s.journal[..s.replayed], a))
  {
    assert Mirrors(s) by {
      ReachableInv(s);
    }
    if s.phase == Rebuilding {
      RebuiltAt(s.journal[..s.replayed], a);
    }
  }

  /** A restart: the rebuild reads `n` entries, then stops reading and serves. */
  function Replays(n: nat): seq<Action> {
    if n == 0 then [Serve] else [Replay] + Replays(n - 1)
  }

  lemma {:induction false} ReplaysRebuild(s: State, n: nat)
    requires s.phase == Rebuilding && s.replayed + n == |s.journal|
    requires s.accounts == Rebuilt(s.journal[..s.replayed])
    ensures Ledger.Valid(s, Replays(n))
    ensures Run(s, Replays(n)) == s.(accounts := Rebuilt(s.journal), replayed := |s.journal|, phase := Idle)
    decreases n
  {
    if n == 0 {
      assert s.journal[..s.replayed] == s.journal;
      assert [Serve][1..] == [];
    } else {
      var s1 := Step(s, Replay);
      ReplayReads(s);
      ReplaysRebuild(s1, n - 1);
      assert ([Replay] + Replays(n - 1))[1..] == Replays(n - 1);
    }
  }

  lemma ReplayReads(s: State)
    requires Enabled(s, Replay) && s.accounts == Rebuilt(s.journal[..s.replayed])
    ensures Step(s, Replay).accounts == Rebuilt(s.journal[..s.replayed + 1])
  {
    var k := s.replayed;
    assert s.journal[..k + 1][..k] == s.journal[..k] && s.journal[..k + 1][k] == s.journal[k];
  }

  /** A restart changes nothing: stopped at rest and started again, the writer has
      the identical map, and has replayed the whole journal. */
  lemma RestartChangesNothing(s: State)
    requires Reachable(s) && Quiescent(s)
    ensures var restart := [Crash] + Replays(|s.journal|);
            && Ledger.Valid(s, restart)
            && Run(s, restart) == s.(replayed := |s.journal|)
  {
    BalancesAreTheJournal(s);
    var down := Step(s, Crash);
    assert s.journal[..0] == [];
    ReplaysRebuild(down, |s.journal|);
    assert ([Crash] + Replays(|s.journal|))[1..] == Replays(|s.journal|);
  }

  /** With no more ever funded than 64 bits hold, no addition the writer makes
      overflows: the balances are the exact sums, while rebuilding and serving. */
  lemma NoOverflow(s: State, a: Account)
    requires Reachable(s) && Sound(s) && s.funded <= MAX64
    ensures s.phase != Rebuilding ==> Get(s.accounts, a) == Known(s, a) && 0 <= Known(s, a) <= MAX64
    ensures s.phase == Rebuilding ==> s.replayed <= |s.journal| && Get(s.accounts, a) == Fold(s.journal[..s.replayed], a)
  {
    ReachableInv(s);
    PrefixFits(s, |s.journal|, a);
    assert s.journal[..|s.journal|] == s.journal;
    if s.phase == Rebuilding {
      PrefixFits(s, s.replayed, a);
      RebuiltIsFold(s.journal[..s.replayed]);
      WrapExact(Fold(s.journal[..s.replayed], a));
    } else {
      KnownFits(s, a);
      WrapExact(Known(s, a));
    }
  }

  lemma PrefixFits(s: State, k: nat, a: Account)
    requires Inv(s) && Sound(s) && k <= |s.journal|
    ensures 0 <= Fold(s.journal[..k], a) <= s.funded
  {
    FoldAtMostAmounts(s.journal[..k], a);
  }

  lemma KnownFits(s: State, a: Account)
    requires Inv(s) && Sound(s)
    ensures 0 <= Known(s, a) <= s.funded
  {
    KnownBelowFold(s, a);
    assert s.journal[..|s.journal|] == s.journal;
    forall b ensures Fold(s.journal, b) >= 0 {
      assert Fold(s.journal[..|s.journal|], b) >= 0;
    }
    FoldAtMostAmounts(s.journal, a);
    LostNonNegative(s);
    if s.phase.Debited? || s.phase.Credited? {
      assert InHand(s.phase) == [] + [s.phase.e];
      FoldSnoc([], s.phase.e, a);
    }
  }

  /** So no running sum a projection makes overflows either, from the first entry
      or from any later one. */
  lemma ReaderSumsFit(s: State, from: nat, to: nat, a: Account)
    requires Reachable(s) && Sound(s) && s.funded <= MAX64 && from <= to <= |s.journal|
    ensures -MAX64 <= Fold(s.journal[from..to], a) <= MAX64
    ensures Fold(s.journal[from..to], a) == Fold(s.journal[..to], a) - Fold(s.journal[..from], a)
  {
    assert 0 <= Fold(s.journal[..from], a) <= MAX64 && 0 <= Fold(s.journal[..to], a) <= MAX64 by {
      ReachableInv(s);
      PrefixFits(s, from, a);
      PrefixFits(s, to, a);
    }
    SliceFolds(s.journal, from, to, a);
  }

  lemma SliceFolds(j: seq<Entry>, from: nat, to: nat, a: Account)
    requires from <= to <= |j|
    ensures Fold(j[from..to], a) == Fold(j[..to], a) - Fold(j[..from], a)
  {
    assert j[..to] == j[..from] + j[from..to];
    FoldAppend(j[..from], j[from..to], a);
  }

  /** At rest, with nothing overflowing, the balances the writer reports add up to
      what was paid in less what was stranded. */
  lemma ReportedMoney(s: State)
    requires Reachable(s) && Sound(s) && Quiescent(s) && s.funded <= MAX64
    ensures Total(s.accounts) == s.funded - Lost(s)
  {
    MoneyIsConserved(s);
    BalancesAreTheJournal(s);
    RebuiltIsFold(s.journal);
    forall a ensures Get(s.accounts, a) == Get(Exact(s.journal), a) {
      NoOverflow(s, a);
      assert InHand(s.phase) == [];
    }
    ExactIsFold(s.journal, "");
    forall a | a in s.accounts ensures s.accounts[a] == Exact(s.journal)[a] {
      assert Get(s.accounts, a) == Get(Exact(s.journal), a);
    }
    assert s.accounts == Exact(s.journal);
  }
}
