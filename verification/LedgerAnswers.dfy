/** What the acknowledgement of a command promises about the journal. */
module LedgerAnswers {
  import opened Collections
  import opened Ledger
  import opened LedgerOrigins
  import opened Messaging

  /** The debits and credits of a journal, in order. */
  function Moves(origins: seq<Origin>): seq<Origin> {
    if origins == [] then []
    else
      var n := |origins| - 1;
      Moves(origins[..n]) + if origins[n].Opening? then [] else [origins[n]]
  }

  lemma MovesSnoc(origins: seq<Origin>, o: Origin)
    ensures Moves(origins + [o]) == Moves(origins) + if o.Opening? then [] else [o]
  {
    assert (origins + [o])[..|origins|] == origins;
  }

  /** A handling of `t` that is not over, and what it has moved so far. */
  ghost predicate Underway(s: State, t: Transfer, enough: bool, before: seq<Origin>) {
    match s.phase
    case Rejecting(t') => t' == t && !enough && Moves(s.origins) == before
    case Debiting(t') => t' == t && enough && Moves(s.origins) == before
    case Debited(t', _) => t' == t && enough && Moves(s.origins) == before + [Debit(t)]
    case Crediting(t') => t' == t && enough && Moves(s.origins) == before + [Debit(t)]
    case Credited(t', _) => t' == t && enough && Moves(s.origins) == before + [Debit(t), Credit(t)]
    case _ => false
  }

  /** What a handling may have moved, by its acknowledgement. */
  predicate Left(t: Transfer, enough: bool, ack: Ack, moved: seq<Origin>) {
    match ack
    case Retry => !enough && moved == []
    case Accept => moved == if enough then [Debit(t), Credit(t)] else []
    case Park => enough && (moved == [] || moved == [Debit(t)] || moved == [Debit(t), Credit(t)])
  }

  ghost predicate Over(s: State, t: Transfer, enough: bool, before: seq<Origin>, ack: Ack) {
    s.phase == Idle && exists moved :: Left(t, enough, ack, moved) && Moves(s.origins) == before + moved
  }

  /** `Fund` moves nothing. */
  lemma FundsMoveNothing(s: State, a: Action)
    requires Enabled(s, a) && !(a.Append? || a.Crash? || a.Serve? || a.Take? || a.Refuse? || a.Apply?)
    ensures Moves(Step(s, a).origins) == Moves(s.origins) && Step(s, a).phase == s.phase && Replied(s, a) == []
  {
    MovesSnoc(s.origins, Opening);
  }

  lemma DebitMoves(s: State, id: string, r: Reply, before: seq<Origin>)
    requires s.phase.Debiting? && Moves(s.origins) == before
    ensures var s', t := Appending(s, id, r), s.phase.t;
            if r == Ok then s'.phase.Debited? && s'.phase.t == t && Moves(s'.origins) == before + [Debit(t)]
            else s'.phase == Idle && Moves(s'.origins) == before + (if r == Failed then [] else [Debit(t)])
  {
    MovesSnoc(s.origins, Debit(s.phase.t));
  }

  lemma CreditMoves(s: State, id: string, r: Reply, before: seq<Origin>)
    requires s.phase.Crediting? && Moves(s.origins) == before + [Debit(s.phase.t)]
    ensures var s', t := Appending(s, id, r), s.phase.t;
            if r == Ok then s'.phase.Credited? && s'.phase.t == t && Moves(s'.origins) == before + [Debit(t), Credit(t)]
            else s'.phase == Idle && Moves(s'.origins) == before + (if r == Failed then [Debit(t)] else [Debit(t), Credit(t)])
  {
    var t := s.phase.t;
    MovesSnoc(s.origins, Credit(t));
    assert before + [Debit(t)] + [Credit(t)] == before + [Debit(t), Credit(t)];
  }

  lemma AppendMoves(s: State, id: string, r: Reply, t: Transfer, before: seq<Origin>)
    requires Underway(s, t, true, before) && Enabled(s, Append(id, r))
    ensures var s', answers := Appending(s, id, r), Replied(s, Append(id, r));
            if r == Ok then answers == [] && Underway(s', t, true, before)
            else answers == [Answer(t, Park)] && Over(s', t, true, before, Park)
  {
    if s.phase.Debiting? {
      DebitMoves(s, id, r, before);
      assert Left(t, true, Park, if r == Failed then [] else [Debit(t)]);
    } else {
      CreditMoves(s, id, r, before);
      assert Left(t, true, Park, if r == Failed then [Debit(t)] else [Debit(t), Credit(t)]);
    }
  }

  /** A step of a handling: it goes on, or it is answered and over. */
  lemma HandlingSteps(s: State, a: Action, t: Transfer, enough: bool, before: seq<Origin>)
    requires Underway(s, t, enough, before) && Enabled(s, a) && a != Crash
    ensures Replied(s, a) == [] ==> Underway(Step(s, a), t, enough, before)
    ensures Replied(s, a) != [] ==>
              exists ack :: Replied(s, a) == [Answer(t, ack)] && Over(Step(s, a), t, enough, before, ack)
  {
    if a.Append? {
      AppendMoves(s, a.entryId, a.reply, t, before);
    } else if a.Refuse? {
      assert before + [] == before;
      assert Left(t, enough, if a.reply == Ok then Accept else Retry, []);
    } else if a.Apply? {
      assert s.phase.Credited? ==> Left(t, enough, Accept, [Debit(t), Credit(t)]);
    } else {
      FundsMoveNothing(s, a);
    }
  }

  /** While a command is in hand nothing else is taken, so it is still in hand until answered. */
  lemma {:induction false} InHandUntilAnswered(s: State, trace: seq<Action>)
    requires Ledger.Valid(s, trace) && Crash !in trace && Answers(s, trace) == []
    requires s.phase != Idle && s.phase != Rebuilding
    ensures Run(s, trace).phase != Idle
    decreases |trace|
  {
    if trace != [] {
      assert trace[0] in trace && forall a :: a in trace[1..] ==> a in trace;
      StaysInHand(s, trace[0]);
      InHandUntilAnswered(Step(s, trace[0]), trace[1..]);
    }
  }

  lemma StaysInHand(s: State, a: Action)
    requires Enabled(s, a) && a != Crash && Replied(s, a) == [] && s.phase != Idle && s.phase != Rebuilding
    ensures Step(s, a).phase != Idle && Step(s, a).phase != Rebuilding
  {
  }

  /** After its answer a handling moves nothing more. */
  lemma {:induction false} OverStays(s: State, trace: seq<Action>)
    requires Ledger.Valid(s, trace) && Crash !in trace && Answers(s, trace) == []
    requires s.phase == Idle && Run(s, trace).phase == Idle
    ensures Moves(Run(s, trace).origins) == Moves(s.origins)
    decreases |trace|
  {
    if trace != [] {
      var a := trace[0];
      assert a in trace && forall b :: b in trace[1..] ==> b in trace;
      if a.Take? {
        InHandUntilAnswered(Step(s, a), trace[1..]);
      } else {
        FundsMoveNothing(s, a);
        OverStays(Step(s, a), trace[1..]);
      }
    }
  }

  lemma {:induction false} UnderwayToTheEnd(s: State, trace: seq<Action>, t: Transfer, enough: bool,
                                            before: seq<Origin>, answer: Answer)
    requires Underway(s, t, enough, before) && Ledger.Valid(s, trace) && Crash !in trace
    requires Answers(s, trace) == [answer] && Run(s, trace).phase == Idle
    ensures answer.t == t && Over(Run(s, trace), t, enough, before, answer.ack)
    decreases |trace|
  {
    var a := trace[0];
    assert a in trace && forall b :: b in trace[1..] ==> b in trace;
    HandlingSteps(s, a, t, enough, before);
    if Replied(s, a) == [] {
      UnderwayToTheEnd(Step(s, a), trace[1..], t, enough, before, answer);
    } else {
      assert Answers(s, trace)[0] == Replied(s, a)[0];
      OverStays(Step(s, a), trace[1..]);
    }
  }

  /** One handling, from the command to its answer, with `Fund` running wherever it likes
      in between. A retry has moved nothing, and comes only of a refusal; an acceptance has
      moved both halves, or refused; what may be half done is parked. */
  lemma AnswerSaysWhatMoved(s: State, t: Transfer, rest: seq<Action>, answer: Answer)
    requires s.phase == Idle && Ledger.Valid(s, [Take(t)] + rest) && Crash !in rest
    requires Answers(s, [Take(t)] + rest) == [answer] && Run(s, [Take(t)] + rest).phase == Idle
    ensures answer.t == t
    ensures var enough, s' := t.amount > 0 && t.amount <= Get(s.accounts, t.from), Run(s, [Take(t)] + rest);
            exists moved :: Moves(s'.origins) == Moves(s.origins) + moved
              && match answer.ack
                 case Retry => !enough && moved == []
                 case Accept => moved == if enough then [Debit(t), Credit(t)] else []
                 case Park => enough && (moved == [] || moved == [Debit(t)] || moved == [Debit(t), Credit(t)])
  {
    assert ([Take(t)] + rest)[1..] == rest;
    var enough := t.amount > 0 && t.amount <= Get(s.accounts, t.from);
    UnderwayToTheEnd(Step(s, Take(t)), rest, t, enough, Moves(s.origins), answer);
    var s' := Run(s, [Take(t)] + rest);
    var moved :| Left(t, enough, answer.ack, moved) && Moves(s'.origins) == Moves(s.origins) + moved;
  }

  ghost function RetryOf(t: Transfer): Answer -> int {
    (x: Answer) => if x == Answer(t, Retry) then 1 else 0
  }

  /** How often a run answers a command with a retry. */
  ghost function Retries(s: State, trace: seq<Action>, t: Transfer): int
    requires Ledger.Valid(s, trace)
  {
    Sum(RetryOf(t), Answers(s, trace))
  }

  /** A handling that may still debit, or be retried. */
  function Undecided(p: Ledger.Phase, t: Transfer): int {
    if (p.Debiting? || p.Rejecting?) && p.t == t then 1 else 0
  }

  lemma RetryStep(s: State, a: Action, t: Transfer)
    requires Enabled(s, a)
    ensures var s' := Step(s, a);
            Debits(s', t) + Undecided(s'.phase, t) + Sum(RetryOf(t), Replied(s, a))
            <= Debits(s, t) + Undecided(s.phase, t) + TakeFor(t)(a)
  {
    HandStep(s, a, t);
    var o := OriginsStep(s, a);
    OriginsCount(s.origins, Step(s, a).origins, o, t);
    if Replied(s, a) != [] {
      SumOne(RetryOf(t), Replied(s, a)[0]);
    }
  }

  lemma {:induction false} SumJoin<T>(f: T -> int, x: seq<T>, y: seq<T>)
    ensures Sum(f, x + y) == Sum(f, x) + Sum(f, y)
  {
    if y == [] {
      assert x + y == x;
    } else {
      var n := |y| - 1;
      assert x + y == (x + y[..n]) + [y[n]];
      SumJoin(f, x, y[..n]);
      SumSnoc(f, x + y[..n], y[n]);
    }
  }

  lemma {:induction false} RetriesRun(s: State, trace: seq<Action>, t: Transfer)
    requires Ledger.Valid(s, trace)
    ensures var s' := Run(s, trace);
            Debits(s', t) + Undecided(s'.phase, t) + Retries(s, trace, t)
            <= Debits(s, t) + Undecided(s.phase, t) + Takes(trace, t)
    decreases |trace|
  {
    if trace != [] {
      var a := trace[0];
      RetryStep(s, a, t);
      RetriesRun(Step(s, a), trace[1..], t);
      SumJoin(RetryOf(t), Replied(s, a), Answers(Step(s, a), trace[1..]));
      assert trace == [a] + trace[1..];
      SumCons(TakeFor(t), a, trace[1..]);
    }
  }

  /** A handling is retried or it debits, never both. */
  lemma DebitsAndRetriesFollowTakes(s0: State, trace: seq<Action>, t: Transfer)
    requires Initial(s0) && Ledger.Valid(s0, trace)
    ensures Debits(Run(s0, trace), t) + Retries(s0, trace, t) <= Takes(trace, t)
  {
    RetriesRun(s0, trace, t);
  }

  /** Nothing but a retry brings this command back. */
  ghost predicate OnlyRetriesReturn(s0: State, trace: seq<Action>, t: Transfer)
    requires Ledger.Valid(s0, trace)
  {
    forall i :: 0 <= i < |trace| && trace[i] == Take(t) ==> TakenAfterRetries(s0, trace[..i], t)
  }

  ghost predicate TakenAfterRetries(s0: State, trace: seq<Action>, t: Transfer) {
    Ledger.Valid(s0, trace) && Takes(trace, t) <= Retries(s0, trace, t)
  }

  /** While only what was answered with a retry is handled again, no command is handled
      with its own debit in the journal. */
  lemma RetriedHasNoDebit(s0: State, trace: seq<Action>, t: Transfer, i: nat)
    requires Initial(s0) && Ledger.Valid(s0, trace) && OnlyRetriesReturn(s0, trace, t)
    requires i < |trace| && trace[i] == Take(t)
    ensures Ledger.Valid(s0, trace[..i]) && Debit(t) !in Run(s0, trace[..i]).origins
  {
    assert TakenAfterRetries(s0, trace[..i], t);
    DebitsAndRetriesFollowTakes(s0, trace[..i], t);
    NoDebits(Run(s0, trace[..i]).origins, t);
  }

  lemma NoDebits(origins: seq<Origin>, t: Transfer)
    requires Sum(DebitFor(t), origins) <= 0
    ensures Debit(t) !in origins
  {
    if Debit(t) in origins {
      var j :| 0 <= j < |origins| && origins[j] == Debit(t);
      SumBounds(DebitFor(t), origins, j);
    }
  }

  /** A run that goes on for one more step, and what that step answers. */
  lemma {:induction false} RetriesSnoc(s: State, trace: seq<Action>, a: Action, t: Transfer)
    requires Ledger.Valid(s, trace + [a])
    ensures Ledger.Valid(s, trace) && Retries(s, trace, t) <= Retries(s, trace + [a], t)
    decreases |trace|
  {
    if trace == [] {
      assert trace + [a] == [a] && Answers(s, trace) == [];
      SumNonNegative(RetryOf(t), Answers(s, [a]));
    } else {
      var first, rest := trace[0], trace[1..];
      assert (trace + [a])[0] == first && (trace + [a])[1..] == rest + [a];
      RetriesSnoc(Step(s, first), rest, a, t);
      SumJoin(RetryOf(t), Replied(s, first), Answers(Step(s, first), rest));
      SumJoin(RetryOf(t), Replied(s, first), Answers(Step(s, first), rest + [a]));
      assert Answers(s, trace + [a]) == Replied(s, first) + Answers(Step(s, first), rest + [a]);
    }
  }

  lemma {:induction false} TakesFollowRetries(s0: State, trace: seq<Action>, t: Transfer)
    requires Ledger.Valid(s0, trace) && OnlyRetriesReturn(s0, trace, t)
    ensures Takes(trace, t) <= Retries(s0, trace, t) + 1
  {
    if trace != [] {
      var n := |trace| - 1;
      assert trace == trace[..n] + [trace[n]];
      SumSnoc(TakeFor(t), trace[..n], trace[n]);
      RetriesSnoc(s0, trace[..n], trace[n], t);
      if trace[n] == Take(t) {
        assert TakenAfterRetries(s0, trace[..n], t);
      } else {
        assert forall i :: 0 <= i < n ==> trace[..n][..i] == trace[..i];
        TakesFollowRetries(s0, trace[..n], t);
      }
    }
  }

  /** And so none moves its money twice: what `MovesTwiceExactlyWhenTakenTwice` needs is a
      command that comes back although it was accepted or parked, or in the middle of a crash. */
  lemma RetriesMoveMoneyOnce(s0: State, trace: seq<Action>, t: Transfer)
    requires Initial(s0) && Ledger.Valid(s0, trace) && OnlyRetriesReturn(s0, trace, t)
    ensures Debits(Run(s0, trace), t) <= 1
  {
    DebitsAndRetriesFollowTakes(s0, trace, t);
    TakesFollowRetries(s0, trace, t);
  }
}
