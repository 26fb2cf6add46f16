/** The ledger's objects: the balances and the module that owns them. */
module LedgerWriter {
  import opened Collections
  import opened Journal
  import opened Messaging
  import Ledger

  /** What every account holds: first replayed from the journal, and from then on
      changed with each entry the writer appends. */
  class Balances {
    var accounts: map<Account, int>
    var replayed: nat

    /** The rebuild: every entry of the journal, oldest first, then stop. */
    constructor RebuiltFrom(journal: seq<Entry>)
      ensures accounts == Rebuilt(journal) && replayed == |journal|
    {
      accounts, replayed := map[], 0;
      new;
      for i := 0 to |journal|
        invariant replayed == i
        invariant accounts == Rebuilt(journal[..i])
      {
        assert journal[..i + 1][..i] == journal[..i];
        Apply(journal[i]);
        replayed := replayed + 1;
      }
      assert journal[..|journal|] == journal;
    }

    method Apply(e: Entry)
      modifies this`accounts
      ensures accounts == Posted(old(accounts), e)
      ensures accounts == old(accounts)[e.account := Wrap((if e.account in old(accounts) then old(accounts)[e.account] else 0) + e.amount)]
    {
      var balance := if e.account in accounts then accounts[e.account] else 0;
      accounts := accounts[e.account := Wrap(balance + e.amount)];
    }

    method Of(account: Account) returns (balance: int)
      ensures balance == Get(accounts, account)
    {
      balance := if account in accounts then accounts[account] else 0;
    }

    /** A copy, one account at a time. */
    method Snapshot() returns (copied: map<Account, int>)
      ensures copied == accounts
    {
      copied := map[];
      var rest := accounts.Keys;
      while rest != {}
        invariant rest <= accounts.Keys
        invariant copied.Keys == accounts.Keys - rest
        invariant forall a :: a in copied ==> copied[a] == accounts[a]
        decreases |rest|
      {
        var account :| account in rest;
        copied := copied[account := accounts[account]];
        rest := rest - {account};
      }
    }
  }

  /** Why a transfer was refused; the text is derived from this. */
  datatype Reason = NotPositive | Insufficient(account: Account, holds: int)

  datatype Rejection = Rejection(transferId: string, from: Account, to: Account, amount: int, reason: Reason)

  /** What a handling leaves: the journal, the balances, the two counters, and the refusals published. */
  datatype Books = Books(journal: seq<Entry>, accounts: map<Account, int>, posted: nat, refused: nat, rejections: seq<Rejection>)

  /** One `post`: published, and applied unless the publish was reported as failed. */
  function Post(b: Books, e: Entry, r: Reply): Books {
    match r
    case Ok => b.(journal := b.journal + [e], accounts := Posted(b.accounts, e), posted := b.posted + 1)
    case Failed => b
    case Ambiguous => b.(journal := b.journal + [e])
  }

  function RejectionOf(t: Ledger.Transfer, reason: Reason): Rejection {
    Rejection(t.transferId, t.from, t.to, t.amount, reason)
  }

  function Refused(b: Books, rejection: Rejection, r: Reply): Books {
    var b1 := if r == Failed then b else b.(rejections := b.rejections + [rejection]);
    if r == Ok then b1.(refused := b1.refused + 1) else b1
  }

  datatype Handled = Handled(books: Books, ack: Ack)

  /** What one command does when nothing interrupts it. */
  function Transferred(b: Books, t: Ledger.Transfer, debitId: string, creditId: string, first: Reply, second: Reply): Handled {
    if t.amount <= 0 || Get(b.accounts, t.from) < t.amount then
      var reason := if t.amount <= 0 then NotPositive else Insufficient(t.from, Get(b.accounts, t.from));
      Handled(Refused(b, RejectionOf(t, reason), first), if first == Ok then Accept else Retry)
    else
      var b1 := Post(b, Ledger.DebitOf(t, debitId), first);
      if first != Ok then Handled(b1, Park)
      else Handled(Post(b1, Ledger.CreditOf(t, creditId), second), if second != Ok then Park else Accept)
  }

  /** The only thing that appends to the journal. */
  class Module {
    var journal: seq<Entry>
    const balances: Balances
    var posted: nat
    var refused: nat
    var rejections: seq<Rejection>

    /** The balances are rebuilt before any command is taken. */
    constructor (journal: seq<Entry>)
      ensures Holds() == Books(journal, Rebuilt(journal), 0, 0, []) && fresh(balances)
      ensures balances.replayed == |journal|
    {
      this.journal, posted, refused, rejections := journal, 0, 0, [];
      balances := new Balances.RebuiltFrom(journal);
    }

    function Holds(): Books
      reads this, balances
    {
      Books(journal, balances.accounts, posted, refused, rejections)
    }

    /** `apply`: check against the writer's own balances, then the two entries in turn. */
    method Apply(t: Ledger.Transfer, debitId: string, creditId: string, first: Reply, second: Reply) returns (ack: Ack)
      modifies this, balances
      ensures Handled(Holds(), ack) == Transferred(old(Holds()), t, debitId, creditId, first, second)
      // What is retried has left nothing behind, and a transfer that may be half done is parked.
      ensures ack == Retry ==> journal == old(journal) && balances.accounts == old(balances.accounts)
      ensures var enough := t.amount > 0 && t.amount <= Get(old(balances.accounts), t.from);
              && (ack == Park <==> enough && (first != Ok || second != Ok))
              && (ack == Retry <==> !enough && first != Ok)
              && journal == old(journal)
                 + (if !enough || first == Failed then []
                    else [Entry(debitId, t.transferId, t.from, -t.amount, t.description)])
                 + (if !enough || first != Ok || second == Failed then []
                    else [Entry(creditId, t.transferId, t.to, t.amount, t.description)])
              && posted == old(posted) + (if enough && first == Ok then if second == Ok then 2 else 1 else 0)
              && refused == old(refused) + (if !enough && first == Ok then 1 else 0)
      ensures rejections == old(rejections) + (
                if first == Failed || (t.amount > 0 && t.amount <= Get(old(balances.accounts), t.from)) then []
                else [Rejection(t.transferId, t.from, t.to, t.amount,
                                if t.amount <= 0 then NotPositive else Insufficient(t.from, Get(old(balances.accounts), t.from)))])
    {
      if t.amount <= 0 {
        ack := Reject(t, NotPositive, first);
        return;
      }
      var available := balances.Of(t.from);
      if available < t.amount {
        ack := Reject(t, Insufficient(t.from, available), first);
        return;
      }
      var entries := [
        (Entry(debitId, t.transferId, t.from, -t.amount, t.description), first),
        (Entry(creditId, t.transferId, t.to, t.amount, t.description), second)];
      var i := 0;
      while i < |entries|
        invariant 0 <= i <= 2
        invariant i == 0 ==> Holds() == old(Holds())
        invariant i >= 1 ==> first == Ok && (i == 1 ==> Holds() == Post(old(Holds()), entries[0].0, first))
        invariant i == 2 ==> second == Ok && Holds() == Post(Post(old(Holds()), entries[0].0, first), entries[1].0, second)
      {
        var err := PostEntry(entries[i].0, entries[i].1);
        if err {
          // Half a transfer may be in the journal: parked, not retried.
          return Park;
        }
        i := i + 1;
      }
      return Accept;
    }

    method PostEntry(e: Entry, r: Reply) returns (err: bool)
      modifies this, balances
      ensures Holds() == Post(old(Holds()), e, r)
      ensures journal == (if r == Failed then old(journal) else old(journal) + [e])
      ensures posted == old(posted) + (if r == Ok then 1 else 0)
      ensures balances.accounts == if r != Ok then old(balances.accounts)
                                   else old(balances.accounts)[e.account := Wrap(Get(old(balances.accounts), e.account) + e.amount)]
      ensures err == (r != Ok)
    {
      if r != Failed {
        journal := journal + [e];
      }
      if r != Ok {
        return true;
      }
      balances.Apply(e);
      posted := posted + 1;
      return false;
    }

    method Reject(t: Ledger.Transfer, reason: Reason, r: Reply) returns (ack: Ack)
      modifies this
      ensures Holds() == Refused(old(Holds()), RejectionOf(t, reason), r)
      ensures ack == if r == Ok then Accept else Retry
    {
      if r != Failed {
        rejections := rejections + [Rejection(t.transferId, t.from, t.to, t.amount, reason)];
      }
      if r != Ok {
        return Retry;
      }
      refused := refused + 1;
      return Accept;
    }

    method Fund(account: Account, amount: int, entryId: string, r: Reply) returns (err: bool)
      modifies this, balances
      ensures Holds() == Post(old(Holds()), Ledger.OpeningOf(account, amount, entryId), r)
      ensures journal == old(journal)
                + (if r == Failed then [] else [Entry(entryId, "OPENING-" + account, account, amount, "opening balance")])
      ensures err == (r != Ok)
    {
      err := PostEntry(Entry(entryId, "OPENING-" + account, account, amount, "opening balance"), r);
    }
  }

  /** How starting goes: the stream is declared, then opened for reading, then quiet
      before the limit, then closed, and then commands are consumed. */
  datatype Startup = Startup(declared: bool, reading: bool, quiet: bool, closed: bool, consuming: bool)

  /** `Start`: no module until every step has worked, so none that has read less than
      the whole journal. */
  method Start(journal: seq<Entry>, up: Startup) returns (started: Module?)
    ensures started != null <==> up == Startup(true, true, true, true, true)
    ensures started != null ==> fresh(started) && fresh(started.balances)
    ensures started != null ==> started.Holds() == Books(journal, Rebuilt(journal), 0, 0, [])
    ensures started != null ==> started.balances.replayed == |journal|
  {
    if !up.declared {
      return null;
    }
    if !up.reading || !up.quiet || !up.closed {
      return null;
    }
    var m := new Module(journal);
    if !up.consuming {
      return null;
    }
    return m;
  }

  function CreditTrace(creditId: string, r: Reply): seq<Ledger.Action> {
    if r != Ok then [Ledger.Append(creditId, r)] else [Ledger.Append(creditId, r), Ledger.Apply]
  }

  lemma CreditIsARun(s: Ledger.State, creditId: string, r: Reply)
    requires s.phase.Crediting?
    ensures var trace := CreditTrace(creditId, r);
            var e := Ledger.CreditOf(s.phase.t, creditId);
            && Ledger.Valid(s, trace)
            && var s' := Ledger.Run(s, trace);
               && s'.phase == Ledger.Idle
               && s'.journal == (if r == Failed then s.journal else s.journal + [e])
               && s'.accounts == (if r == Ok then Posted(s.accounts, e) else s.accounts)
               && Ledger.Answers(s, trace) == [Ledger.Answer(s.phase.t, if r == Ok then Accept else Park)]
  {
    var s1 := Ledger.Step(s, Ledger.Append(creditId, r));
    if r != Ok {
      Ledger.RunStep(s, Ledger.Append(creditId, r), []);
    } else {
      Ledger.RunStep(s1, Ledger.Apply, []);
      Ledger.RunStep(s, Ledger.Append(creditId, r), [Ledger.Apply]);
    }
  }

  function DebitTrace(debitId: string, creditId: string, first: Reply, second: Reply): seq<Ledger.Action> {
    [Ledger.Append(debitId, first)] + if first != Ok then [] else [Ledger.Apply] + CreditTrace(creditId, second)
  }

  /** The two entries of a transfer, from the first publish to the acknowledgement. */
  lemma DebitIsARun(s: Ledger.State, debitId: string, creditId: string, first: Reply, second: Reply)
    requires s.phase.Debiting?
    ensures var trace := DebitTrace(debitId, creditId, first, second);
            var t, d, c := s.phase.t, Ledger.DebitOf(s.phase.t, debitId), Ledger.CreditOf(s.phase.t, creditId);
            && Ledger.Valid(s, trace)
            && var s' := Ledger.Run(s, trace);
               && s'.phase == Ledger.Idle
               && s'.journal == s.journal + (if first == Failed then [] else [d]) + (if first != Ok || second == Failed then [] else [c])
               && s'.accounts == (if first != Ok then s.accounts
                                  else if second != Ok then Posted(s.accounts, d) else Posted(Posted(s.accounts, d), c))
               && Ledger.Answers(s, trace) == [Ledger.Answer(t, if first == Ok && second == Ok then Accept else Park)]
  {
    var append := Ledger.Append(debitId, first);
    var s1 := Ledger.Step(s, append);
    if first != Ok {
      Ledger.RunStep(s, append, []);
      assert DebitTrace(debitId, creditId, first, second) == [append];
    } else {
      var s2 := Ledger.Step(s1, Ledger.Apply);
      CreditIsARun(s2, creditId, second);
      Ledger.RunStep(s1, Ledger.Apply, CreditTrace(creditId, second));
      Ledger.RunStep(s, append, [Ledger.Apply] + CreditTrace(creditId, second));
    }
  }

  /** The steps the transition system makes for a command nobody interrupts. */
  function CommandTrace(s: Ledger.State, t: Ledger.Transfer, debitId: string, creditId: string, first: Reply, second: Reply)
    : seq<Ledger.Action>
  {
    [Ledger.Take(t)]
    + if Ledger.Decide(s.accounts, t).Rejecting? then [Ledger.Refuse(first)] else DebitTrace(debitId, creditId, first, second)
  }

  /** The method refines the transition system: an uninterrupted command is a run
      of it, to the same journal and the same balances, and acknowledged alike. */
  lemma CommandIsARun(s: Ledger.State, b: Books, t: Ledger.Transfer, debitId: string, creditId: string, first: Reply, second: Reply)
    requires s.phase == Ledger.Idle && b.journal == s.journal && b.accounts == s.accounts
    ensures var trace := CommandTrace(s, t, debitId, creditId, first, second);
            && Ledger.Valid(s, trace)
            && var s' := Ledger.Run(s, trace);
               && s'.phase == Ledger.Idle
               && s'.journal == Transferred(b, t, debitId, creditId, first, second).books.journal
               && s'.accounts == Transferred(b, t, debitId, creditId, first, second).books.accounts
               && Ledger.Answers(s, trace) == [Ledger.Answer(t, Transferred(b, t, debitId, creditId, first, second).ack)]
  {
    var s1 := Ledger.Step(s, Ledger.Take(t));
    if s1.phase.Rejecting? {
      Ledger.RunStep(s1, Ledger.Refuse(first), []);
      Ledger.RunStep(s, Ledger.Take(t), [Ledger.Refuse(first)]);
    } else {
      DebitIsARun(s1, debitId, creditId, first, second);
      Ledger.RunStep(s, Ledger.Take(t), DebitTrace(debitId, creditId, first, second));
    }
  }

  /** `Fund` refines it too: its append, and then its balance update. */
  lemma FundIsARun(s: Ledger.State, b: Books, account: Account, amount: int, entryId: string, r: Reply)
    requires s.phase != Ledger.Rebuilding && b.journal == s.journal && b.accounts == s.accounts
    ensures var trace := [Ledger.Fund(account, amount, entryId, r)] + (if r == Ok then [Ledger.FundApply(|s.unapplied|)] else []);
            && Ledger.Valid(s, trace)
            && var s' := Ledger.Run(s, trace);
               && s'.phase == s.phase && s'.unapplied == s.unapplied
               && s'.journal == Post(b, Ledger.OpeningOf(account, amount, entryId), r).journal
               && s'.accounts == Post(b, Ledger.OpeningOf(account, amount, entryId), r).accounts
  {
    var a := Ledger.Fund(account, amount, entryId, r);
    var s1 := Ledger.Step(s, a);
    if r == Ok {
      var apply := Ledger.FundApply(|s.unapplied|);
      Ledger.RunStep(s1, apply, []);
      Ledger.RunStep(s, a, [apply]);
      assert [apply] + [] == [apply];
    } else {
      Ledger.RunStep(s, a, []);
      assert [a] + [] == [a];
    }
  }
}
