/** The single writer of the ledger, as a transition system.

    The command handler is serial; `Fund` is called by others and may run between
    any two of its actions, and between its own append and the balance update. */
module Ledger {
  import opened Collections
  import opened Journal
  import opened Messaging

  datatype Transfer = Transfer(transferId: string, from: Account, to: Account, amount: int, description: string)

  function DebitOf(t: Transfer, entryId: string): Entry {
    Entry(entryId, t.transferId, t.from, -t.amount, t.description)
  }

  function CreditOf(t: Transfer, entryId: string): Entry {
    Entry(entryId, t.transferId, t.to, t.amount, t.description)
  }

  function OpeningOf(account: Account, amount: int, entryId: string): Entry {
    Entry(entryId, "OPENING-" + account, account, amount, "opening balance")
  }

  /** Where the writer stands. In `Debited` and `Credited` an entry is in the
      journal and not yet in the balances. */
  datatype Phase =
    | Rebuilding
    | Idle
    | Rejecting(t: Transfer)
    | Debiting(t: Transfer)
    | Debited(t: Transfer, e: Entry)
    | Crediting(t: Transfer)
    | Credited(t: Transfer, e: Entry)

  /** Why an entry was appended. */
  datatype Origin = Opening | Debit(t: Transfer) | Credit(t: Transfer)

  datatype State = State(
    journal: seq<Entry>,
    origins: seq<Origin>,         // why each entry is in the journal
    accounts: map<Account, int>,  // the writer's own balances
    replayed: nat,
    phase: Phase,
    unapplied: seq<Entry>,        // opening entries sent, not yet in the balances
    missed: seq<Entry>,           // entries whose publish was misreported as failed, since the last start
    funded: int,                  // all the money ever appended by `Fund`
    stranded: seq<Transfer>,      // handlings that stopped between debit and credit
    unsureDebits: nat,            // debits whose publish was misreported as failed
    negativeFunds: nat)           // calls of `Fund` with a negative amount

  datatype Action =
    | Replay
    | Serve
    | Take(t: Transfer)
    | Refuse(reply: Reply)
    | Append(entryId: string, reply: Reply)
    | Apply
    | Fund(account: Account, amount: int, entryId: string, reply: Reply)
    | FundApply(i: nat)
    | Crash

  /** An empty journal, about to be read. */
  predicate Initial(s: State) {
    && s.journal == [] && s.origins == [] && s.accounts == map[] && s.replayed == 0 && s.phase == Rebuilding
    && s.unapplied == [] && s.missed == [] && s.funded == 0 && s.stranded == []
    && s.unsureDebits == 0 && s.negativeFunds == 0
  }

  predicate Enabled(s: State, a: Action) {
    match a
    case Replay => s.phase == Rebuilding && s.replayed < |s.journal|
    case Serve => s.phase == Rebuilding && s.replayed == |s.journal|
    case Take(_) => s.phase == Idle
    case Refuse(_) => s.phase.Rejecting?
    case Append(_, _) => s.phase.Debiting? || s.phase.Crediting?
    case Apply => s.phase.Debited? || s.phase.Credited?
    case Fund(_, _, _, _) => s.phase != Rebuilding
    case FundApply(i) => i < |s.unapplied|
    case Crash => true
  }

  /** The decision, against the writer's own balances. */
  function Decide(accounts: map<Account, int>, t: Transfer): Phase {
    if t.amount <= 0 || Get(accounts, t.from) < t.amount then Rejecting(t) else Debiting(t)
  }

  function Appended(s: State, e: Entry, o: Origin): State {
    s.(journal := s.journal + [e], origins := s.origins + [o])
  }

  /** A publish that fails is parked, whether or not the entry is in the journal. */
  function Appending(s: State, entryId: string, r: Reply): State
    requires s.phase.Debiting? || s.phase.Crediting?
  {
    var t := s.phase.t;
    if s.phase.Debiting? then
      var e := DebitOf(t, entryId);
      match r
      case Ok => Appended(s, e, Debit(t)).(phase := Debited(t, e))
      case Failed => s.(phase := Idle)
      case Ambiguous =>
        Appended(s, e, Debit(t)).(phase := Idle, missed := s.missed + [e], stranded := s.stranded + [t],
                                  unsureDebits := s.unsureDebits + 1)
    else
      var e := CreditOf(t, entryId);
      match r
      case Ok => Appended(s, e, Credit(t)).(phase := Credited(t, e))
      case Failed => s.(phase := Idle, stranded := s.stranded + [t])
      case Ambiguous => Appended(s, e, Credit(t)).(phase := Idle, missed := s.missed + [e])
  }

  function Funding(s: State, account: Account, amount: int, entryId: string, r: Reply): State {
    if r == Failed then s
    else
      var e := OpeningOf(account, amount, entryId);
      var s1 := Appended(s, e, Opening).(funded := s.funded + amount,
                                         negativeFunds := s.negativeFunds + if amount < 0 then 1 else 0);
      if r == Ok then s1.(unapplied := s.unapplied + [e]) else s1.(missed := s.missed + [e])
  }

  /** Memory is lost; the journal is not. */
  function Crashed(s: State): State {
    s.(accounts := map[], replayed := 0, phase := Rebuilding, unapplied := [], missed := [],
       stranded := if s.phase.Debited? || s.phase.Crediting? then s.stranded + [s.phase.t] else s.stranded)
  }

  function Step(s: State, a: Action): State
    requires Enabled(s, a)
  {
    match a
    case Replay => s.(accounts := Posted(s.accounts, s.journal[s.replayed]), replayed := s.replayed + 1)
    case Serve => s.(phase := Idle)
    case Take(t) => s.(phase := Decide(s.accounts, t))
    case Refuse(_) => s.(phase := Idle)
    case Append(id, r) => Appending(s, id, r)
    case Apply =>
      s.(accounts := Posted(s.accounts, s.phase.e),
         phase := if s.phase.Debited? then Crediting(s.phase.t) else Idle)
    case Fund(account, amount, id, r) => Funding(s, account, amount, id, r)
    case FundApply(i) =>
      s.(accounts := Posted(s.accounts, s.unapplied[i]), unapplied := s.unapplied[..i] + s.unapplied[i + 1..])
    case Crash => Crashed(s)
  }

  /** How a handling of a command was acknowledged. */
  datatype Answer = Answer(t: Transfer, ack: Ack)

  /** The acknowledgement a step gives, if it ends a handling. Half a transfer is parked,
      and nothing but a refusal that could not be published is retried. */
  function Replied(s: State, a: Action): seq<Answer>
    requires Enabled(s, a)
  {
    match a
    case Refuse(r) => [Answer(s.phase.t, if r == Ok then Accept else Retry)]
    case Append(_, r) => if r == Ok then [] else [Answer(s.phase.t, Park)]
    case Apply => if s.phase.Credited? then [Answer(s.phase.t, Accept)] else []
    case _ => []
  }

  predicate Valid(s: State, trace: seq<Action>)
    decreases |trace|
  {
    trace == [] || (Enabled(s, trace[0]) && Valid(Step(s, trace[0]), trace[1..]))
  }

  function Run(s: State, trace: seq<Action>): State
    requires Valid(s, trace)
    decreases |trace|
  {
    if trace == [] then s else Run(Step(s, trace[0]), trace[1..])
  }

  /** Every acknowledgement of a run, in order. */
  function Answers(s: State, trace: seq<Action>): seq<Answer>
    requires Valid(s, trace)
    decreases |trace|
  {
    if trace == [] then [] else Replied(s, trace[0]) + Answers(Step(s, trace[0]), trace[1..])
  }

  /** A run of one step and then the rest. */
  lemma RunStep(s: State, a: Action, rest: seq<Action>)
    requires Enabled(s, a) && Valid(Step(s, a), rest)
    ensures Valid(s, [a] + rest) && Run(s, [a] + rest) == Run(Step(s, a), rest)
    ensures Answers(s, [a] + rest) == Replied(s, a) + Answers(Step(s, a), rest)
  {
    assert ([a] + rest)[1..] == rest;
  }

  ghost predicate Reachable(s: State) {
    exists s0: State, trace: seq<Action> :: RunTo(s0, trace, s)
  }

  ghost predicate RunTo(s0: State, trace: seq<Action>, s: State) {
    Initial(s0) && Valid(s0, trace) && Run(s0, trace) == s
  }
}
