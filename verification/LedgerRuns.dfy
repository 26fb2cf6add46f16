/** Why `Sound` has two clauses: each of the two faults alone overdraws an account.
    And what handling a command again does: exactly what handling it once did. */
module LedgerRuns {
  import opened Collections
  import opened Journal
  import opened Ledger
  import opened LedgerInvariants
  import opened LedgerOrigins
  import opened LedgerTheorems
  import opened Messaging

  lemma {:induction false} StepAfter(s: State, trace: seq<Action>, a: Action)
    requires Ledger.Valid(s, trace) && Enabled(Run(s, trace), a)
    ensures Ledger.Valid(s, trace + [a]) && Run(s, trace + [a]) == Step(Run(s, trace), a)
    decreases |trace|
  {
    var t := trace + [a];
    if trace == [] {
      assert t == [a] && t[1..] == [];
    } else {
      assert t[0] == trace[0] && t[1..] == trace[1..] + [a];
      StepAfter(Step(s, trace[0]), trace[1..], a);
    }
  }

  lemma RunSnoc(s0: State, trace: seq<Action>, s: State, a: Action) returns (s': State)
    requires RunTo(s0, trace, s) && Enabled(s, a)
    ensures RunTo(s0, trace + [a], s') && s' == Step(s, a)
  {
    StepAfter(s0, trace, a);
    s' := Run(s0, trace + [a]);
  }

  lemma Next(s: State, a: Action) returns (s': State)
    requires Reachable(s) && Enabled(s, a)
    ensures Reachable(s') && s' == Step(s, a)
  {
    var s0: State, trace: seq<Action> :| RunTo(s0, trace, s);
    s' := RunSnoc(s0, trace, s, a);
  }

  /** A ledger that has started on an empty journal. */
  lemma Started() returns (s: State)
    ensures Reachable(s) && s.phase == Idle && s.journal == [] && s.accounts == map[]
    ensures s.unapplied == s.missed == [] && s.origins == [] && Sound(s)
  {
    var s0 := State([], [], map[], 0, Rebuilding, [], [], 0, [], 0, 0);
    assert RunTo(s0, [], s0);
    s := Next(s0, Serve);
  }

  /** A funded account, at rest. */
  lemma FundedAccount(a: Account, x: int) returns (s: State)
    requires 0 < x <= MAX64
    ensures Reachable(s) && s.phase == Idle && s.journal == [OpeningOf(a, x, "E-1")] && s.accounts == map[a := x]
    ensures s.origins == [Opening] && Sound(s)
  {
    var s0 := Started();
    var s1 := Next(s0, Fund(a, x, "E-1", Ok));
    assert s1.unapplied == [OpeningOf(a, x, "E-1")];
    s := Next(s1, FundApply(0));
    WrapExact(x);
  }

  /** A debit that is reported as failed and is in the journal: the writer does not
      know of it, and lets the same money be spent again. */
  lemma UnsureDebitOverdraws(from: Account, to: Account, x: int)
    requires 0 < x <= MAX64
    ensures exists s :: Reachable(s) && s.unsureDebits == 1 && s.negativeFunds == 0 && Fold(s.journal, from) == -x
  {
    var t := Transfer("T-1", from, to, x, "");
    var s0 := FundedAccount(from, x);
    var s1 := Next(s0, Take(t));
    var s2 := Next(s1, Append("E-2", Ambiguous));
    var s3 := Next(s2, Take(t));
    var s4 := Next(s3, Append("E-3", Ok));
    var opening := OpeningOf(from, x, "E-1");
    FoldSnoc([], opening, from);
    assert [] + [opening] == [opening];
    FoldSnoc([opening], DebitOf(t, "E-2"), from);
    FoldSnoc([opening] + [DebitOf(t, "E-2")], DebitOf(t, "E-3"), from);
    assert s4.journal == [opening] + [DebitOf(t, "E-2")] + [DebitOf(t, "E-3")];
  }

  /** `Fund` does not check its amount. */
  lemma NegativeFundOverdraws(a: Account, x: int)
    requires x < 0
    ensures exists s :: Reachable(s) && s.unsureDebits == 0 && s.negativeFunds == 1 && Fold(s.journal, a) == x
  {
    var s0 := Started();
    var e := OpeningOf(a, x, "E-1");
    var s1 := Next(s0, Fund(a, x, "E-1", Ok));
    assert s1.journal == [] + [e] && s1.negativeFunds == 1 && s1.unsureDebits == 0;
    FoldSnoc([], e, a);
    assert Fold([] + [e], a) == x;
  }

  /** Some prefix of the journal gives some account a negative balance. */
  ghost predicate Overdrawn(s: State) {
    exists k: nat, a: Account :: k <= |s.journal| && Fold(s.journal[..k], a) < 0
  }

  /** A ledger after `m` misreported debits of account `b`, which the writer still thinks
      has what it was funded with, and `n` negative fundings of account `a`. */
  ghost predicate Misled(s: State, a: Account, b: Account, m: nat, n: nat) {
    && Reachable(s) && s.phase == Idle && s.unsureDebits == m && s.negativeFunds == n
    && Get(s.accounts, b) == 1 && Fold(s.journal, b) == 1 - m && Fold(s.journal, a) == 0 - n
  }

  lemma MisleadAgain(s: State, a: Account, b: Account, m: nat, n: nat) returns (s': State)
    requires a != b && Misled(s, a, b, m, n)
    ensures Misled(s', a, b, m + 1, n)
  {
    var t := Transfer("", b, a, 1, "");
    var s1 := Next(s, Take(t));
    s' := Next(s1, Append("", Ambiguous));
    FoldSnoc(s.journal, DebitOf(t, ""), a);
    FoldSnoc(s.journal, DebitOf(t, ""), b);
  }

  lemma FundBelowZero(s: State, a: Account, b: Account, m: nat, n: nat) returns (s': State)
    requires a != b && Misled(s, a, b, m, n)
    ensures Misled(s', a, b, m, n + 1)
  {
    s' := Next(s, Fund(a, -1, "", Ok));
    FoldSnoc(s.journal, OpeningOf(a, -1, ""), a);
    FoldSnoc(s.journal, OpeningOf(a, -1, ""), b);
  }

  lemma NotMisledYet(a: Account, b: Account) returns (s: State)
    requires a != b
    ensures Misled(s, a, b, 0, 0)
  {
    s := FundedAccount(b, 1);
    var opening := OpeningOf(b, 1, "E-1");
    assert s.journal == [] + [opening];
    FoldSnoc([], opening, a);
    FoldSnoc([], opening, b);
  }

  lemma {:induction false} Mislead(a: Account, b: Account, m: nat, n: nat) returns (s: State)
    requires a != b
    ensures Misled(s, a, b, m, n)
  {
    if m > 0 {
      var before := Mislead(a, b, m - 1, n);
      s := MisleadAgain(before, a, b, m - 1, n);
    } else if n > 0 {
      var before := Mislead(a, b, m, n - 1);
      s := FundBelowZero(before, a, b, m, n - 1);
    } else {
      s := NotMisledYet(a, b);
    }
  }

  /** One ordinary transfer of what the writer thinks is there. */
  lemma SpendOnce(s: State, a: Account, b: Account, m: nat, n: nat) returns (s': State)
    requires a != b && Misled(s, a, b, m, n)
    ensures Reachable(s') && s'.unsureDebits == m && s'.negativeFunds == n
    ensures Fold(s'.journal, b) == 0 - m && Fold(s'.journal, a) == 0 - n
  {
    var t := Transfer("", b, a, 1, "");
    var s1 := Next(s, Take(t));
    s' := Next(s1, Append("", Ok));
    FoldSnoc(s.journal, DebitOf(t, ""), a);
    FoldSnoc(s.journal, DebitOf(t, ""), b);
  }

  lemma OverdrawnAtTheEnd(s: State, a: Account)
    requires Fold(s.journal, a) < 0
    ensures Overdrawn(s)
  {
    assert s.journal[..|s.journal|] == s.journal;
  }

  /** Exactly when the journal can be overdrawn: when a debit's publish was misreported or
      an account was funded with a negative amount, however often each. */
  lemma OverdrawnExactlyByTheseFaults(m: nat, n: nat)
    ensures (exists s :: Reachable(s) && s.unsureDebits == m && s.negativeFunds == n && Overdrawn(s)) <==> m + n >= 1
  {
    if s :| Reachable(s) && s.unsureDebits == m && s.negativeFunds == n && Overdrawn(s) {
      var k: nat, a: Account :| k <= |s.journal| && Fold(s.journal[..k], a) < 0;
      if m + n == 0 {
        NeverOverdrawn(s, k, a);
        assert false;
      }
    }
    if m + n >= 1 {
      var before := Mislead("A", "B", m, n);
      var s := SpendOnce(before, "A", "B", m, n);
      OverdrawnAtTheEnd(s, if m > 0 then "B" else "A");
    }
  }

  /** The journal does not deduplicate: the same command handled twice moves the
      money twice, so what the ledger promises it promises for each handling. */
  lemma RedeliveredCommandMovesMoneyTwice(from: Account, to: Account, x: int)
    requires 0 < x && 2 * x <= MAX64 && from != to
    ensures var t := Transfer("T-1", from, to, x, "");
            exists s :: Reachable(s) && Sound(s) && Fold(s.journal, to) == 2 * x
                     && s.origins == [Opening, Debit(t), Credit(t), Debit(t), Credit(t)]
  {
    var t := Transfer("T-1", from, to, x, "");
    var s0 := FundedAccount(from, 2 * x);
    var s1 := HandleOnce(s0, t, "E-2", "E-3");
    WrapExact(2 * x - x);
    WrapExact(0 + x);
    var s2 := HandleOnce(s1, t, "E-4", "E-5");
    FoldSnoc([], OpeningOf(from, 2 * x, "E-1"), to);
    assert s0.journal == [] + [OpeningOf(from, 2 * x, "E-1")];
  }

  /** One command handled to its end. */
  lemma HandleOnce(s: State, t: Transfer, debitId: string, creditId: string) returns (s': State)
    requires Reachable(s) && Sound(s) && s.phase == Idle
    requires t.amount > 0 && Get(s.accounts, t.from) >= t.amount && t.from != t.to
    ensures Reachable(s') && Sound(s') && s'.phase == Idle
    ensures s'.accounts == Posted(Posted(s.accounts, DebitOf(t, debitId)), CreditOf(t, creditId))
    ensures s'.origins == s.origins + [Debit(t), Credit(t)]
    ensures Fold(s'.journal, t.to) == Fold(s.journal, t.to) + t.amount
  {
    var s1 := DebitOnce(s, t, debitId);
    var s2 := Next(s1, Append(creditId, Ok));
    s' := Next(s2, Apply);
    FoldSnoc(s.journal, DebitOf(t, debitId), t.to);
    FoldSnoc(s1.journal, CreditOf(t, creditId), t.to);
    assert s'.origins == s.origins + [Debit(t)] + [Credit(t)];
  }

  lemma DebitOnce(s: State, t: Transfer, debitId: string) returns (s': State)
    requires Reachable(s) && Sound(s) && s.phase == Idle && 0 < t.amount <= Get(s.accounts, t.from)
    ensures Reachable(s') && Sound(s') && s'.phase == Crediting(t)
    ensures s'.accounts == Posted(s.accounts, DebitOf(t, debitId))
    ensures s'.origins == s.origins + [Debit(t)] && s'.journal == s.journal + [DebitOf(t, debitId)]
  {
    var s1 := Next(s, Take(t));
    var s2 := Next(s1, Append(debitId, Ok));
    s' := Next(s2, Apply);
  }

  /** A state that some run ends in which handles a command `n` times. */
  ghost predicate TakenTimes(s: State, t: Transfer, n: nat) {
    exists s0: State, trace: seq<Action> :: RunTo(s0, trace, s) && Takes(trace, t) == n
  }

  lemma NextTaken(s: State, t: Transfer, n: nat, a: Action) returns (s': State)
    requires TakenTimes(s, t, n) && Enabled(s, a)
    ensures TakenTimes(s', t, n + TakeFor(t)(a)) && s' == Step(s, a)
  {
    var s0: State, trace: seq<Action> :| RunTo(s0, trace, s) && Takes(trace, t) == n;
    s' := RunSnoc(s0, trace, s, a);
    SumSnoc(TakeFor(t), trace, a);
  }

  /** The first half: checked, debited and applied. */
  lemma TakeDebits(s: State, t: Transfer, n: nat) returns (s': State)
    requires TakenTimes(s, t, n) && s.phase == Idle && 0 < t.amount <= Get(s.accounts, t.from)
    ensures TakenTimes(s', t, n + 1) && s'.phase == Crediting(t) && (Sound(s) ==> Sound(s'))
    ensures s'.accounts == Posted(s.accounts, DebitOf(t, "D")) && s'.unapplied == s.unapplied
    ensures s'.origins == s.origins + [Debit(t)]
  {
    var s1 := NextTaken(s, t, n, Take(t));
    var s2 := NextTaken(s1, t, n + 1, Append("D", Ok));
    s' := NextTaken(s2, t, n + 1, Apply);
  }

  /** A command that is handled with its money there is debited and credited once more. */
  lemma TakeMoves(s: State, t: Transfer, n: nat) returns (s': State)
    requires TakenTimes(s, t, n) && s.phase == Idle && 0 < t.amount <= Get(s.accounts, t.from)
    ensures TakenTimes(s', t, n + 1) && s'.phase == Idle && (Sound(s) ==> Sound(s'))
    ensures s'.accounts == Posted(Posted(s.accounts, DebitOf(t, "D")), CreditOf(t, "C")) && s'.unapplied == s.unapplied
    ensures Debits(s', t) == Debits(s, t) + 1 && Credits(s', t) == Credits(s, t) + 1
  {
    var s1 := TakeDebits(s, t, n);
    var s2 := NextTaken(s1, t, n + 1, Append("C", Ok));
    s' := NextTaken(s2, t, n + 1, Apply);
    MovedOnce(s.origins, t);
    assert s'.origins == s.origins + [Debit(t)] + [Credit(t)];
  }

  lemma MovedOnce(origins: seq<Origin>, t: Transfer)
    ensures var grown := origins + [Debit(t)] + [Credit(t)];
            && Sum(DebitFor(t), grown) == Sum(DebitFor(t), origins) + 1
            && Sum(CreditFor(t), grown) == Sum(CreditFor(t), origins) + 1
  {
    SumSnoc(DebitFor(t), origins, Debit(t));
    SumSnoc(DebitFor(t), origins + [Debit(t)], Credit(t));
    SumSnoc(CreditFor(t), origins, Debit(t));
    SumSnoc(CreditFor(t), origins + [Debit(t)], Credit(t));
  }

  /** A command that was handled `n` times and moved its money as often; the account
      it takes from has nothing, or just enough for the next. */
  ghost predicate MovedTimes(s: State, t: Transfer, n: nat) {
    && TakenTimes(s, t, n) && Sound(s) && s.phase == Idle && s.unapplied == []
    && Debits(s, t) == n && Credits(s, t) == n
    && (Get(s.accounts, t.from) == 0 || Get(s.accounts, t.from) == t.amount)
  }

  /** The account is given enough for the command, unless it has it. */
  lemma FundFor(s: State, t: Transfer, n: nat) returns (s': State)
    requires MovedTimes(s, t, n) && 0 < t.amount <= MAX64
    ensures MovedTimes(s', t, n) && Get(s'.accounts, t.from) == t.amount
  {
    if Get(s.accounts, t.from) == t.amount {
      s' := s;
    } else {
      s' := FundEmpty(s, t, n);
    }
  }

  lemma FundEmpty(s: State, t: Transfer, n: nat) returns (s': State)
    requires MovedTimes(s, t, n) && 0 < t.amount <= MAX64 && Get(s.accounts, t.from) == 0
    ensures MovedTimes(s', t, n) && Get(s'.accounts, t.from) == t.amount
  {
    s' := FundAtRest(s, t, n, t.from, t.amount);
    OpeningsMoveNothing(s, s', t);
    PostedToEmpty(s.accounts, t.from, t.amount);
  }

  lemma OpeningsMoveNothing(s: State, s': State, t: Transfer)
    requires s'.origins == s.origins + [Opening]
    ensures Debits(s', t) == Debits(s, t) && Credits(s', t) == Credits(s, t)
  {
    SumSnoc(DebitFor(t), s.origins, Opening);
    SumSnoc(CreditFor(t), s.origins, Opening);
  }

  lemma PostedToEmpty(accounts: map<Account, int>, account: Account, amount: int)
    requires 0 < amount <= MAX64 && Get(accounts, account) == 0
    ensures Get(Posted(accounts, OpeningOf(account, amount, "F")), account) == amount
  {
    WrapExact(amount);
  }

  /** An account funded while nothing else happens. */
  lemma FundAtRest(s: State, t: Transfer, n: nat, account: Account, amount: nat) returns (s': State)
    requires TakenTimes(s, t, n) && s.phase == Idle && s.unapplied == []
    ensures TakenTimes(s', t, n) && s'.phase == Idle && s'.unapplied == [] && (Sound(s) ==> Sound(s'))
    ensures s'.origins == s.origins + [Opening] && s'.accounts == Posted(s.accounts, OpeningOf(account, amount, "F"))
  {
    var s1 := NextTaken(s, t, n, Fund(account, amount, "F", Ok));
    assert s1.unapplied == [OpeningOf(account, amount, "F")];
    s' := NextTaken(s1, t, n, FundApply(0));
  }

  lemma {:induction false} EveryHandlingMoves(t: Transfer, n: nat) returns (s: State)
    requires 0 < t.amount <= MAX64
    ensures MovedTimes(s, t, n)
  {
    if n == 0 {
      var s0 := State([], [], map[], 0, Rebuilding, [], [], 0, [], 0, 0);
      assert RunTo(s0, [], s0);
      assert TakenTimes(s0, t, 0);
      s := NextTaken(s0, t, 0, Serve);
    } else {
      var before := EveryHandlingMoves(t, n - 1);
      var funded := FundFor(before, t, n - 1);
      s := TakeMoves(funded, t, n - 1);
      WrapExact(0);
      WrapExact(t.amount);
    }
  }

  /** Exactly when a command can move its money twice with nothing failing: when it is
      handled twice. */
  lemma MovesTwiceExactlyWhenTakenTwice(t: Transfer, n: nat)
    requires 0 < t.amount <= MAX64
    ensures (exists s :: TakenTimes(s, t, n) && Sound(s) && Debits(s, t) >= 2) <==> n >= 2
  {
    if s :| TakenTimes(s, t, n) && Sound(s) && Debits(s, t) >= 2 {
      var s0: State, trace: seq<Action> :| RunTo(s0, trace, s) && Takes(trace, t) == n;
      MovesFollowTakes(s0, trace, t);
    }
    if n >= 2 {
      var s := EveryHandlingMoves(t, n);
    }
  }
}
