/** The journal of the ledger: entries, balances as a fold of them, and the
    64-bit arithmetic the balances are kept in. */
module Journal {
  import opened Collections

  type Account = string

  /** An amount that an account gains, or loses when it is negative. */
  datatype Entry = Entry(entryId: string, transferId: string, account: Account, amount: int, description: string)

  const MAX64: int := 0x7fff_ffff_ffff_ffff

  /** A mathematical integer as Go's `int64` holds it. */
  function Wrap(x: int): int {
    (x + 0x8000_0000_0000_0000) % 0x1_0000_0000_0000_0000 - 0x8000_0000_0000_0000
  }

  /** Which integer that is: the one of 64 bits that differs by a multiple of two to the 64. */
  lemma WrapIsInt64(x: int, y: int)
    ensures -9_223_372_036_854_775_808 <= y <= 9_223_372_036_854_775_807 && (x - y) % 18_446_744_073_709_551_616 == 0 <==> y == Wrap(x)
  {
    assert x - Wrap(x) == 0x1_0000_0000_0000_0000 * ((x + 0x8000_0000_0000_0000) / 0x1_0000_0000_0000_0000);
  }

  /** Wrapping at every addition is wrapping once at the end. */
  lemma WrapAdd(x: int, y: int)
    ensures Wrap(Wrap(x) + y) == Wrap(x + y)
  {
  }

  lemma WrapExact(x: int)
    ensures -MAX64 - 1 <= x <= MAX64 ==> Wrap(x) == x
    ensures x >= 0 ==> Wrap(x) <= x
  {
  }

  /** The balance of an account: the sum of its entries. */
  function Fold(j: seq<Entry>, account: Account): int {
    if j == [] then 0
    else
      var last := j[|j| - 1];
      Fold(j[..|j| - 1], account) + if last.account == account then last.amount else 0
  }

  lemma FoldSnoc(j: seq<Entry>, e: Entry, account: Account)
    ensures Fold(j + [e], account) == Fold(j, account) + if e.account == account then e.amount else 0
  {
    assert (j + [e])[..|j|] == j;
  }

  lemma {:induction false} FoldAppend(j: seq<Entry>, k: seq<Entry>, account: Account)
    ensures Fold(j + k, account) == Fold(j, account) + Fold(k, account)
  {
    if k == [] {
      assert j + k == j;
    } else {
      var k', e := k[..|k| - 1], k[|k| - 1];
      assert k == k' + [e] && j + k == (j + k') + [e];
      FoldAppend(j, k', account);
      FoldSnoc(j + k', e, account);
    }
  }

  /** Taking an entry out of a list takes its amount out of the fold. */
  lemma FoldRemove(j: seq<Entry>, i: nat, account: Account)
    requires i < |j|
    ensures Fold(j[..i] + j[i + 1..], account) == Fold(j, account) - if j[i].account == account then j[i].amount else 0
  {
    assert j == j[..i] + [j[i]] + j[i + 1..];
    FoldAppend(j[..i] + [j[i]], j[i + 1..], account);
    FoldSnoc(j[..i], j[i], account);
    FoldAppend(j[..i], j[i + 1..], account);
  }

  lemma {:induction false} FoldNonNegative(j: seq<Entry>, account: Account)
    requires forall e :: e in j ==> e.amount >= 0
    ensures Fold(j, account) >= 0
  {
    if j != [] {
      FoldNonNegative(j[..|j| - 1], account);
    }
  }

  /** All the money in the journal. */
  function Amounts(j: seq<Entry>): int {
    if j == [] then 0 else Amounts(j[..|j| - 1]) + j[|j| - 1].amount
  }

  lemma AmountsSnoc(j: seq<Entry>, e: Entry)
    ensures Amounts(j + [e]) == Amounts(j) + e.amount
  {
    assert (j + [e])[..|j|] == j;
  }

  function Names(j: seq<Entry>): set<Account> {
    set e | e in j :: e.account
  }

  lemma NamesSnoc(j: seq<Entry>, e: Entry)
    ensures Names(j + [e]) == Names(j) + {e.account}
  {
    assert forall x :: x in j + [e] <==> x in j || x == e;
  }

  /** The writer's `accounts[entry.Account] += entry.AmountMinor`. */
  function Posted(accounts: map<Account, int>, e: Entry): map<Account, int> {
    accounts[e.account := Wrap(Get(accounts, e.account) + e.amount)]
  }

  /** What reading a journal from the first entry leaves in the accounts. */
  function Rebuilt(j: seq<Entry>): map<Account, int> {
    if j == [] then map[] else Posted(Rebuilt(j[..|j| - 1]), j[|j| - 1])
  }

  lemma {:induction false} RebuiltNames(j: seq<Entry>)
    ensures Rebuilt(j).Keys == Names(j)
  {
    if j != [] {
      var j', e := j[..|j| - 1], j[|j| - 1];
      RebuiltNames(j');
      NamesSnoc(j', e);
      assert j == j' + [e];
    }
  }

  lemma {:induction false} RebuiltAt(j: seq<Entry>, a: Account)
    ensures Get(Rebuilt(j), a) == Wrap(Fold(j, a))
  {
    if j != [] {
      var j', e := j[..|j| - 1], j[|j| - 1];
      RebuiltAt(j', a);
      WrapAdd(Fold(j', a), e.amount);
    }
  }

  lemma RebuiltIsFold(j: seq<Entry>)
    ensures Rebuilt(j).Keys == Names(j)
    ensures forall a :: Get(Rebuilt(j), a) == Wrap(Fold(j, a))
  {
    RebuiltNames(j);
    forall a ensures Get(Rebuilt(j), a) == Wrap(Fold(j, a)) {
      RebuiltAt(j, a);
    }
  }

  /** The sum of every balance. */
  ghost function Total(m: map<Account, int>): int {
    if m == map[] then 0 else
      var a :| a in m;
      m[a] + Total(m - {a})
  }

  /** The account that is taken first does not matter. */
  lemma {:induction false} TotalTakes(m: map<Account, int>, a: Account)
    requires a in m
    ensures Total(m) == m[a] + Total(m - {a})
    decreases |m|
  {
    var b :| b in m && Total(m) == m[b] + Total(m - {b});
    if a != b {
      TotalTakes(m - {b}, a);
      TotalTakes(m - {a}, b);
      assert m - {b} - {a} == m - {a} - {b};
    }
  }

  lemma TotalSets(m: map<Account, int>, a: Account, x: int)
    ensures Total(m[a := x]) == Total(m) - Get(m, a) + x
  {
    TotalTakes(m[a := x], a);
    assert m[a := x] - {a} == m - {a};
    if a in m {
      TotalTakes(m, a);
    } else {
      assert m - {a} == m;
    }
  }

  lemma {:induction false} TotalBounds(m: map<Account, int>, a: Account)
    requires forall b :: b in m ==> m[b] >= 0
    ensures 0 <= Get(m, a) <= Total(m)
    decreases |m|
  {
    if m != map[] {
      var b :| b in m && Total(m) == m[b] + Total(m - {b});
      TotalBounds(m - {b}, a);
    }
  }

  /** Balances with no limit on their size. */
  function Exact(j: seq<Entry>): map<Account, int> {
    if j == [] then map[]
    else Add(Exact(j[..|j| - 1]), j[|j| - 1].account, j[|j| - 1].amount)
  }

  lemma {:induction false} ExactIsFold(j: seq<Entry>, a: Account)
    ensures Get(Exact(j), a) == Fold(j, a)
    ensures Exact(j).Keys == Names(j)
  {
    if j != [] {
      var j', e := j[..|j| - 1], j[|j| - 1];
      ExactIsFold(j', a);
      assert j == j' + [e];
      assert Names(j) == Names(j') + {e.account};
    }
  }

  /** The balances of a journal add up to the amounts in it. */
  lemma {:induction false} BalancesAddUp(j: seq<Entry>)
    ensures Total(Exact(j)) == Amounts(j)
  {
    if j != [] {
      var j', e := j[..|j| - 1], j[|j| - 1];
      BalancesAddUp(j');
      TotalSets(Exact(j'), e.account, Get(Exact(j'), e.account) + e.amount);
    }
  }

  /** With no balance negative, none is more than all the money there is. */
  lemma FoldAtMostAmounts(j: seq<Entry>, a: Account)
    requires forall b :: Fold(j, b) >= 0
    ensures Fold(j, a) <= Amounts(j)
  {
    forall b ensures Get(Exact(j), b) >= 0 {
      ExactIsFold(j, b);
    }
    forall b | b in Exact(j) ensures Exact(j)[b] >= 0 {
      assert Get(Exact(j), b) >= 0;
    }
    TotalBounds(Exact(j), a);
    ExactIsFold(j, a);
    BalancesAddUp(j);
  }
}
