/** A list of entries for each account, and what a reader who keeps only such lists
    can say about balances, from wherever in the journal it began. */
module Projections {
  import opened Collections
  import opened Journal
  import opened Messaging
  import Ledger
  import LedgerInvariants
  import LedgerTheorems

  type Statement = seq<Entry>

  function StatementIn(m: map<Account, Statement>, a: Account): Statement {
    if a in m then m[a] else []
  }

  /** The entries of an account, in the order of the journal. */
  function Filter(j: seq<Entry>, a: Account): Statement {
    if j == [] then []
    else
      var last := j[|j| - 1];
      Filter(j[..|j| - 1], a) + if last.account == a then [last] else []
  }

  lemma FilterSnoc(j: seq<Entry>, e: Entry, a: Account)
    ensures Filter(j + [e], a) == Filter(j, a) + if e.account == a then [e] else []
  {
    assert (j + [e])[..|j|] == j;
  }

  /** A filter keeps the order and drops nothing of the account: it is what is left
      of the journal when every other account's entries are taken out. */
  lemma {:induction false} FilterKeeps(j: seq<Entry>, a: Account, i: nat)
    requires i < |j| && j[i].account == a
    ensures |Filter(j[..i], a)| < |Filter(j, a)| && Filter(j, a)[|Filter(j[..i], a)|] == j[i]
  {
    var n := |j| - 1;
    assert i < n ==> j[..n][..i] == j[..i];
    if i < n {
      FilterKeeps(j[..n], a, i);
    }
  }

  lemma {:induction false} FilterFolds(j: seq<Entry>, a: Account)
    ensures Fold(Filter(j, a), a) == Fold(j, a)
  {
    if j != [] {
      var j', e := j[..|j| - 1], j[|j| - 1];
      FilterFolds(j', a);
      if e.account == a {
        FoldSnoc(Filter(j', a), e, a);
      } else {
        assert Filter(j', a) + [] == Filter(j', a);
      }
    }
  }

  /** The beginnings of a statement are the statements of beginnings. */
  lemma {:induction false} StatementPrefix(j: seq<Entry>, a: Account, i: nat) returns (k: nat)
    requires i <= |Filter(j, a)|
    ensures k <= |j| && Filter(j, a)[..i] == Filter(j[..k], a)
  {
    if i == |Filter(j, a)| {
      k := |j|;
      assert j[..k] == j && Filter(j, a)[..i] == Filter(j, a);
    } else {
      var n := |j| - 1;
      assert i <= |Filter(j[..n], a)|;
      k := StatementPrefix(j[..n], a, i);
      assert j[..n][..k] == j[..k];
      assert Filter(j, a)[..i] == Filter(j[..n], a)[..i];
    }
  }

  function Lengths(m: map<Account, Statement>): map<Account, int> {
    map a | a in m :: |m[a]|
  }

  /** The statements hold what was read, each entry under its account. */
  ghost predicate Sorted(m: map<Account, Statement>, seen: seq<Entry>) {
    && m.Keys == Names(seen)
    && (forall a :: StatementIn(m, a) == Filter(seen, a))
    && Total(Lengths(m)) == |seen|
  }

  lemma ReadKeeps(m: map<Account, Statement>, seen: seq<Entry>, e: Entry)
    requires Sorted(m, seen)
    ensures Sorted(m[e.account := StatementIn(m, e.account) + [e]], seen + [e])
  {
    var statement := StatementIn(m, e.account) + [e];
    NamesSnoc(seen, e);
    LengthsSets(m, e.account, statement);
    forall a ensures StatementIn(m[e.account := statement], a) == Filter(seen + [e], a) {
      FilterSnoc(seen, e, a);
      assert StatementIn(m, a) == Filter(seen, a);
      assert a != e.account ==> Filter(seen, a) + [] == Filter(seen, a);
    }
  }

  lemma LengthsSets(m: map<Account, Statement>, a: Account, statement: Statement)
    ensures Total(Lengths(m[a := statement])) == Total(Lengths(m)) - |StatementIn(m, a)| + |statement|
  {
    assert Lengths(m[a := statement]) == Lengths(m)[a := |statement|];
    TotalSets(Lengths(m), a, |statement|);
  }

  class Statements {
    var statements: map<Account, Statement>
    /** Every entry read so far, oldest first. */
    ghost var seen: seq<Entry>

    ghost predicate Valid()
      reads this
    {
      Sorted(statements, seen)
    }

    constructor ()
      ensures Valid() && seen == []
    {
      statements, seen := map[], [];
      new;
      assert Lengths(statements) == map[];
    }

    /** The stream handler. Reading is not consuming: nothing but this changes. */
    method Read(e: Entry) returns (ack: Ack)
      requires Valid()
      modifies this
      ensures Valid() && seen == old(seen) + [e] && ack == Accept
    {
      ReadKeeps(statements, seen, e);
      statements := statements[e.account := (if e.account in statements then statements[e.account] else []) + [e]];
      seen := seen + [e];
      return Accept;
    }

    method StatementOf(a: Account) returns (copied: Statement)
      requires Valid()
      ensures copied == Filter(seen, a)
    {
      copied := if a in statements then statements[a] else [];
    }

    /** The running sum, in 64 bits. */
    method BalanceOf(a: Account) returns (total: int)
      requires Valid()
      ensures total == Wrap(Fold(seen, a))
    {
      total := 0;
      var entries := StatementOf(a);
      WrapExact(0);
      for i := 0 to |entries|
        invariant total == Wrap(Fold(entries[..i], a))
      {
        RunningSum(seen, a, i);
        total := Wrap(total + entries[i].amount);
      }
      assert entries[..|entries|] == entries;
      FilterFolds(seen, a);
    }

    /** A sum over the accounts, in any order. */
    method Entries() returns (n: nat)
      requires Valid()
      ensures n == |seen|
    {
      n := 0;
      var rest := statements;
      while rest.Keys != {}
        invariant rest.Keys <= statements.Keys
        invariant forall a :: a in rest ==> rest[a] == statements[a]
        invariant n + Total(Lengths(rest)) == |seen|
        decreases |rest.Keys|
      {
        var a :| a in rest.Keys;
        TotalTakes(Lengths(rest), a);
        assert Lengths(rest) - {a} == Lengths(rest - {a});
        assert (rest - {a}).Keys == rest.Keys - {a};
        n := n + |statements[a]|;
        rest := rest - {a};
      }
      assert Lengths(rest) == map[];
    }
  }

  lemma {:induction false} AllOfAccount(j: seq<Entry>, a: Account)
    ensures forall e :: e in Filter(j, a) ==> e.account == a
  {
    if j != [] {
      AllOfAccount(j[..|j| - 1], a);
    }
  }

  /** One addition of the running sum of a statement. */
  lemma RunningSum(j: seq<Entry>, a: Account, i: nat)
    requires i < |Filter(j, a)|
    ensures var entries := Filter(j, a);
            Wrap(Wrap(Fold(entries[..i], a)) + entries[i].amount) == Wrap(Fold(entries[..i + 1], a))
  {
    var entries := Filter(j, a);
    AllOfAccount(j, a);
    assert entries[..i + 1] == entries[..i] + [entries[i]];
    FoldSnoc(entries[..i], entries[i], a);
    WrapAdd(Fold(entries[..i], a), entries[i].amount);
  }

  /** A reader that has read the journal from one offset to another holds the
      ledger's balance at the second less its balance at the first; from the first
      entry to the last, at rest, it agrees with the writer whatever overflows. */
  lemma ReaderAgreesWithLedger(s: Ledger.State, from: nat, to: nat, a: Account)
    requires Ledger.Reachable(s) && from <= to <= |s.journal|
    ensures Wrap(Fold(s.journal[from..to], a)) == Wrap(Fold(s.journal[..to], a) - Fold(s.journal[..from], a))
    ensures LedgerTheorems.Quiescent(s) && from == 0 && to == |s.journal| ==>
              Wrap(Fold(s.journal[from..to], a)) == Get(s.accounts, a)
  {
    assert s.journal[..to] == s.journal[..from] + s.journal[from..to];
    FoldAppend(s.journal[..from], s.journal[from..to], a);
    if LedgerTheorems.Quiescent(s) && from == 0 && to == |s.journal| {
      assert s.journal[from..to] == s.journal;
      LedgerTheorems.BalancesAreTheJournal(s);
      RebuiltIsFold(s.journal);
    }
  }

  lemma SliceOfSlice(j: seq<Entry>, from: nat, to: nat, k: nat)
    requires from <= to <= |j| && k <= to - from
    ensures j[from..to][..k] == j[from..from + k]
  {
  }

  /** When no more was ever funded than 64 bits hold, every partial sum of every
      reader's `BalanceOf` is exact, for readers from any offset. */
  lemma ReaderNeverOverflows(s: Ledger.State, from: nat, to: nat, a: Account, i: nat)
    requires Ledger.Reachable(s) && LedgerInvariants.Sound(s) && s.funded <= MAX64 && from <= to <= |s.journal|
    requires i <= |Filter(s.journal[from..to], a)|
    ensures var partial := Fold(Filter(s.journal[from..to], a)[..i], a);
            -MAX64 <= partial <= MAX64 && Wrap(partial) == partial
  {
    var k := StatementPrefix(s.journal[from..to], a, i);
    SliceOfSlice(s.journal, from, to, k);
    FilterFolds(s.journal[from..from + k], a);
    LedgerTheorems.ReaderSumsFit(s, from, from + k, a);
    WrapExact(Fold(s.journal[from..from + k], a));
  }
}
