/** What every step of the ledger keeps. */
module LedgerInvariants {
  import opened Collections
  import opened Journal
  import opened Ledger
  import opened Messaging

  /** The entry the handler has appended and not yet applied. */
  function InHand(p: Ledger.Phase): seq<Entry> {
    if p.Debited? || p.Credited? then [p.e] else []
  }

  /** The balance the writer has accounted for: the journal's, without the entries
      that have not reached the balances. */
  function Known(s: State, a: Account): int {
    Fold(s.journal, a) - Fold(s.unapplied, a) - Fold(s.missed, a) - Fold(InHand(s.phase), a)
  }

  /** Each entry is in the balances exactly once: while rebuilding the balances
      are those of what was read, and afterwards those of what was applied. */
  ghost predicate Mirrors(s: State) {
    && s.replayed <= |s.journal| == |s.origins|
    && (s.phase == Rebuilding ==>
          s.unapplied == s.missed == [] && s.accounts == Rebuilt(s.journal[..s.replayed]))
    && (s.phase != Rebuilding ==>
          && (forall a :: Get(s.accounts, a) == Wrap(Known(s, a)))
          && Names(s.journal) == s.accounts.Keys + Names(s.unapplied) + Names(s.missed) + Names(InHand(s.phase)))
  }

  lemma PostedMirrors(accounts: map<Account, int>, e: Entry, a: Account, x: int, x': int)
    requires Get(accounts, a) == Wrap(x) && x' == x + if e.account == a then e.amount else 0
    ensures Get(Posted(accounts, e), a) == Wrap(x')
  {
    WrapAdd(x, e.amount);
  }

  /** A new entry that is not in the balances yet. */
  lemma AppendedKnown(s: State, s': State, e: Entry, a: Account)
    requires s'.journal == s.journal + [e]
    requires || (s'.unapplied == s.unapplied + [e] && s'.missed == s.missed && InHand(s'.phase) == InHand(s.phase))
             || (s'.unapplied == s.unapplied && s'.missed == s.missed + [e] && InHand(s'.phase) == InHand(s.phase))
             || (s'.unapplied == s.unapplied && s'.missed == s.missed && InHand(s'.phase) == [e] && InHand(s.phase) == [])
    ensures Known(s', a) == Known(s, a)
  {
    FoldSnoc(s.journal, e, a);
    FoldSnoc(s.unapplied, e, a);
    FoldSnoc(s.missed, e, a);
    FoldSnoc([], e, a);
    assert [] + [e] == [e];
  }

  lemma AppendMirrors(s: State, id: string, r: Reply)
    requires Mirrors(s) && Enabled(s, Append(id, r))
    ensures Mirrors(Appending(s, id, r))
  {
    var s' := Appending(s, id, r);
    if r != Failed {
      var e := s'.journal[|s.journal|];
      AppendGrows(s, s', e);
    }
  }

  lemma AppendGrows(s: State, s': State, e: Entry)
    requires Mirrors(s) && s.phase != Rebuilding && s'.phase != Rebuilding
    requires s'.journal == s.journal + [e] && |s'.origins| == |s.origins| + 1
    requires s'.accounts == s.accounts && s'.replayed == s.replayed
    requires || (s'.unapplied == s.unapplied + [e] && s'.missed == s.missed && InHand(s'.phase) == InHand(s.phase))
             || (s'.unapplied == s.unapplied && s'.missed == s.missed + [e] && InHand(s'.phase) == InHand(s.phase))
             || (s'.unapplied == s.unapplied && s'.missed == s.missed && InHand(s'.phase) == [e] && InHand(s.phase) == [])
    ensures Mirrors(s')
  {
    forall a ensures Get(s'.accounts, a) == Wrap(Known(s', a)) {
      AppendedKnown(s, s', e, a);
    }
    NamesSnoc(s.journal, e);
    NamesSnoc(s.unapplied, e);
    NamesSnoc(s.missed, e);
    NamesSnoc([], e);
    assert [] + [e] == [e];
  }

  lemma FundMirrors(s: State, account: Account, amount: int, id: string, r: Reply)
    requires Mirrors(s) && s.phase != Rebuilding
    ensures Mirrors(Funding(s, account, amount, id, r))
  {
    if r != Failed {
      AppendGrows(s, Funding(s, account, amount, id, r), OpeningOf(account, amount, id));
    }
  }

  /** An entry reaches the balances: they and what is known move together. */
  lemma PostMirrors(s: State, s': State, e: Entry)
    requires Mirrors(s) && s.phase != Rebuilding && s'.phase != Rebuilding
    requires s'.journal == s.journal && s'.origins == s.origins && s'.replayed == s.replayed
    requires s'.accounts == Posted(s.accounts, e)
    requires forall a :: Known(s', a) == Known(s, a) + if e.account == a then e.amount else 0
    requires Names(s.unapplied) + Names(s.missed) + Names(InHand(s.phase))
             == Names(s'.unapplied) + Names(s'.missed) + Names(InHand(s'.phase)) + {e.account}
             || Names(s.unapplied) + Names(s.missed) + Names(InHand(s.phase))
                == Names(s'.unapplied) + Names(s'.missed) + Names(InHand(s'.phase))
    requires e.account in Names(s.journal)
    ensures Mirrors(s')
  {
    forall a ensures Get(s'.accounts, a) == Wrap(Known(s', a)) {
      PostedMirrors(s.accounts, e, a, Known(s, a), Known(s', a));
    }
    SameNames(Names(s.journal), s.accounts.Keys,
              Names(s.unapplied) + Names(s.missed) + Names(InHand(s.phase)),
              Names(s'.unapplied) + Names(s'.missed) + Names(InHand(s'.phase)), e.account);
    assert s'.accounts.Keys == s.accounts.Keys + {e.account};
  }

  lemma SameNames(j: set<Account>, known: set<Account>, waiting: set<Account>, waiting': set<Account>, a: Account)
    requires j == known + waiting && a in j
    requires waiting == waiting' + {a} || waiting == waiting'
    ensures j == known + {a} + waiting'
  {
  }

  lemma ApplyMirrors(s: State)
    requires Mirrors(s) && Enabled(s, Apply)
    ensures Mirrors(Step(s, Apply))
  {
    var s', e := Step(s, Apply), s.phase.e;
    assert InHand(s.phase) == [] + [e];
    forall a ensures Known(s', a) == Known(s, a) + if e.account == a then e.amount else 0 {
      FoldSnoc([], e, a);
    }
    NamesSnoc([], e);
    PostMirrors(s, s', e);
  }

  lemma FundApplyMirrors(s: State, i: nat)
    requires Mirrors(s) && Enabled(s, FundApply(i)) && s.phase != Rebuilding
    ensures Mirrors(Step(s, FundApply(i)))
  {
    var s', e := Step(s, FundApply(i)), s.unapplied[i];
    forall a ensures Known(s', a) == Known(s, a) + if e.account == a then e.amount else 0 {
      FoldRemove(s.unapplied, i, a);
    }
    NamesRemove(s.unapplied, i);
    PostMirrors(s, s', e);
  }

  lemma NamesRemove(j: seq<Entry>, i: nat)
    requires i < |j|
    ensures Names(j) == Names(j[..i] + j[i + 1..]) + {j[i].account}
  {
    assert j == j[..i] + [j[i]] + j[i + 1..];
  }

  lemma ReplayMirrors(s: State)
    requires Mirrors(s) && Enabled(s, Replay)
    ensures Mirrors(Step(s, Replay))
  {
    var k := s.replayed;
    assert s.journal[..k + 1][..k] == s.journal[..k] && s.journal[..k + 1][k] == s.journal[k];
  }

  lemma ServeMirrors(s: State)
    requires Mirrors(s) && Enabled(s, Serve)
    ensures Mirrors(Step(s, Serve))
  {
    assert s.journal[..s.replayed] == s.journal;
    RebuiltIsFold(s.journal);
  }

  lemma MirrorsStep(s: State, a: Action)
    requires Mirrors(s) && Enabled(s, a)
    ensures Mirrors(Step(s, a))
  {
    match a
    case Replay => ReplayMirrors(s);
    case Serve => ServeMirrors(s);
    case Append(id, r) => AppendMirrors(s, id, r);
    case Apply => ApplyMirrors(s);
    case Fund(account, amount, id, r) => FundMirrors(s, account, amount, id, r);
    case FundApply(i) => FundApplyMirrors(s, i);
    case Crash => assert s.journal[..0] == [];
    case _ =>
  }

  /** The money a handling has taken and not yet given. */
  function HalfWay(p: Ledger.Phase): int {
    if p.Debited? || p.Crediting? then p.t.amount else 0
  }

  function AmountOf(): Transfer -> int {
    (t: Transfer) => t.amount
  }

  ghost function Lost(s: State): int {
    Sum(AmountOf(), s.stranded)
  }

  predicate Fits(p: Ledger.Phase) {
    && (p.Debited? ==> p.e == DebitOf(p.t, p.e.entryId))
    && (p.Credited? ==> p.e == CreditOf(p.t, p.e.entryId))
  }

  /** Money comes from `Fund` only, and only a handling that stopped half way loses any. */
  ghost predicate Conserves(s: State) {
    Amounts(s.journal) == s.funded - Lost(s) - HalfWay(s.phase)
  }

  lemma DebitConserves(s: State, id: string, r: Reply)
    requires Conserves(s) && s.phase.Debiting?
    ensures Conserves(Appending(s, id, r))
  {
    AmountsSnoc(s.journal, DebitOf(s.phase.t, id));
    SumSnoc(AmountOf(), s.stranded, s.phase.t);
  }

  lemma CreditConserves(s: State, id: string, r: Reply)
    requires Conserves(s) && s.phase.Crediting?
    ensures Conserves(Appending(s, id, r))
  {
    AmountsSnoc(s.journal, CreditOf(s.phase.t, id));
    SumSnoc(AmountOf(), s.stranded, s.phase.t);
  }

  lemma AppendConserves(s: State, id: string, r: Reply)
    requires Conserves(s) && Enabled(s, Append(id, r))
    ensures Conserves(Appending(s, id, r))
  {
    if s.phase.Debiting? {
      DebitConserves(s, id, r);
    } else {
      CreditConserves(s, id, r);
    }
  }

  lemma FundConserves(s: State, account: Account, amount: int, id: string, r: Reply)
    requires Conserves(s)
    ensures Conserves(Funding(s, account, amount, id, r))
  {
    AmountsSnoc(s.journal, OpeningOf(account, amount, id));
  }

  lemma ConservesStep(s: State, a: Action)
    requires Conserves(s) && Enabled(s, a)
    ensures Conserves(Step(s, a))
  {
    match a
    case Append(id, r) => AppendConserves(s, id, r);
    case Fund(account, amount, id, r) => FundConserves(s, account, amount, id, r);
    case Crash => if s.phase.Debited? || s.phase.Crediting? { SumSnoc(AmountOf(), s.stranded, s.phase.t); }
    case _ =>
  }

  /** The handler is serial: from a debit to its credit only `Fund` appends. */
  ghost predicate OpenDebit(origins: seq<Origin>, t: Transfer, n: nat)
    requires n <= |origins|
  {
    exists d :: 0 <= d < n && origins[d] == Debit(t) && forall k :: d < k < n ==> origins[k] == Opening
  }

  predicate Describes(o: Origin, e: Entry) {
    match o
    case Opening => e == OpeningOf(e.account, e.amount, e.entryId)
    case Debit(t) => e == DebitOf(t, e.entryId)
    case Credit(t) => e == CreditOf(t, e.entryId)
  }

  ghost predicate Paired(s: State) {
    && |s.origins| == |s.journal|
    && (forall i :: 0 <= i < |s.journal| ==> Describes(s.origins[i], s.journal[i]))
    && (forall i :: 0 <= i < |s.origins| && s.origins[i].Credit? ==> OpenDebit(s.origins, s.origins[i].t, i))
    && (s.phase.Debited? || s.phase.Crediting? ==> OpenDebit(s.origins, s.phase.t, |s.origins|))
  }

  lemma GrownPairs(s: State, s': State, e: Entry, o: Origin)
    requires Paired(s) && s'.journal == s.journal + [e] && s'.origins == s.origins + [o] && Describes(o, e)
    requires o.Credit? ==> OpenDebit(s.origins, o.t, |s.origins|)
    requires s'.phase.Debited? || s'.phase.Crediting? ==>
               o == Debit(s'.phase.t) || (o == Opening && OpenDebit(s.origins, s'.phase.t, |s.origins|))
    ensures Paired(s')
  {
    var n := |s.origins|;
    forall i | 0 <= i < |s'.origins| && s'.origins[i].Credit? ensures OpenDebit(s'.origins, s'.origins[i].t, i) {
      var t := s'.origins[i].t;
      assert OpenDebit(s.origins, t, i);
      var d :| 0 <= d < i && s.origins[d] == Debit(t) && forall k :: d < k < i ==> s.origins[k] == Opening;
      assert s'.origins[d] == Debit(t);
    }
    if s'.phase.Debited? || s'.phase.Crediting? {
      var t := s'.phase.t;
      if o == Debit(t) {
        assert s'.origins[n] == Debit(t);
      } else {
        var d :| 0 <= d < n && s.origins[d] == Debit(t) && forall k :: d < k < n ==> s.origins[k] == Opening;
        assert s'.origins[d] == Debit(t);
      }
    }
  }

  lemma PairedStep(s: State, a: Action)
    requires Paired(s) && Enabled(s, a)
    ensures Paired(Step(s, a))
  {
    match a
    case Append(id, r) =>
      var s' := Appending(s, id, r);
      if r != Failed { GrownPairs(s, s', s'.journal[|s.journal|], s'.origins[|s.journal|]); }
    case Fund(account, amount, id, r) =>
      if r != Failed { GrownPairs(s, Funding(s, account, amount, id, r), OpeningOf(account, amount, id), Opening); }
    case _ =>
  }

  /** No prefix of the journal overdraws an account or holds more than was funded,
      and what the handler is about to debit is there. */
  ghost predicate Solvent(s: State) {
    && Fits(s.phase)
    && (forall e :: e in s.unapplied || e in s.missed ==> e.amount >= 0)
    && (forall t :: t in s.stranded ==> t.amount > 0)
    && (s.phase.Debiting? || s.phase.Debited? || s.phase.Crediting? || s.phase.Credited? ==> s.phase.t.amount > 0)
    && (s.phase.Debiting? || s.phase.Debited? ==> Known(s, s.phase.t.from) >= s.phase.t.amount)
    && (forall a :: Known(s, a) >= 0)
    && (forall k, a :: 0 <= k <= |s.journal| ==> Fold(s.journal[..k], a) >= 0)
    && (forall k :: 0 <= k <= |s.journal| ==> Amounts(s.journal[..k]) <= s.funded)
  }

  /** Nothing happened that lets the journal be overdrawn. */
  predicate Sound(s: State) {
    s.unsureDebits == 0 && s.negativeFunds == 0
  }

  lemma KnownBelowFold(s: State, a: Account)
    requires Solvent(s)
    ensures Fold(s.journal, a) >= Known(s, a) + Fold(InHand(s.phase), a)
  {
    FoldNonNegative(s.unapplied, a);
    FoldNonNegative(s.missed, a);
  }

  lemma LostNonNegative(s: State)
    requires Solvent(s)
    ensures Lost(s) >= 0
  {
    SumNonNegative(AmountOf(), s.stranded);
  }

  lemma GrownPrefixes(s: State, s': State, e: Entry)
    requires Solvent(s) && s'.journal == s.journal + [e] && s.funded <= s'.funded
    requires forall a :: Fold(s'.journal, a) >= 0
    requires Amounts(s'.journal) <= s'.funded
    ensures forall k, a :: 0 <= k <= |s'.journal| ==> Fold(s'.journal[..k], a) >= 0
    ensures forall k :: 0 <= k <= |s'.journal| ==> Amounts(s'.journal[..k]) <= s'.funded
  {
    assert s'.journal[..|s'.journal|] == s'.journal;
    forall k | 0 <= k <= |s'.journal|
      ensures Amounts(s'.journal[..k]) <= s'.funded && forall a :: Fold(s'.journal[..k], a) >= 0
    {
      if k < |s'.journal| {
        assert s'.journal[..k] == s.journal[..k];
      }
    }
  }

  lemma AppendSolvent(s: State, id: string, r: Reply)
    requires Solvent(s) && Conserves(s) && Enabled(s, Append(id, r)) && Sound(Appending(s, id, r)) && r != Failed
    ensures Solvent(Appending(s, id, r))
  {
    var s' := Appending(s, id, r);
    var e := s'.journal[|s.journal|];
    forall a ensures Known(s', a) == Known(s, a) && Fold(s'.journal, a) >= 0 {
      AppendedKnown(s, s', e, a);
      KnownBelowFold(s, a);
      FoldSnoc(s.journal, e, a);
    }
    AppendConserves(s, id, r);
    LostNonNegative(s);
    GrownPrefixes(s, s', e);
  }

  lemma FundSolvent(s: State, account: Account, amount: int, id: string, r: Reply)
    requires Solvent(s) && Conserves(s) && Sound(Funding(s, account, amount, id, r)) && r != Failed
    ensures Solvent(Funding(s, account, amount, id, r))
  {
    var s' := Funding(s, account, amount, id, r);
    var e := OpeningOf(account, amount, id);
    assert amount >= 0 && s'.journal == s.journal + [e];
    forall a ensures Known(s', a) == Known(s, a) && Fold(s.journal + [e], a) >= 0 {
      AppendedKnown(s, s', e, a);
      FundedFold(s, e, a);
    }
    FundedAmounts(s, account, amount, id, r);
    FundedSolvent(s, s', e);
  }

  lemma FundedAmounts(s: State, account: Account, amount: int, id: string, r: Reply)
    requires Solvent(s) && Conserves(s)
    ensures Amounts(Funding(s, account, amount, id, r).journal) <= Funding(s, account, amount, id, r).funded
  {
    FundConserves(s, account, amount, id, r);
    LostNonNegative(s);
  }

  /** An opening balance on its way changes nothing that was known. */
  lemma FundedSolvent(s: State, s': State, e: Entry)
    requires Solvent(s) && s'.phase == s.phase && s'.stranded == s.stranded && s.funded <= s'.funded
    requires s'.journal == s.journal + [e] && e.amount >= 0 && Amounts(s'.journal) <= s'.funded
    requires s'.unapplied == s.unapplied || s'.unapplied == s.unapplied + [e]
    requires s'.missed == s.missed || s'.missed == s.missed + [e]
    requires forall a :: Known(s', a) == Known(s, a) && Fold(s.journal + [e], a) >= 0
    ensures Solvent(s')
  {
    GrownPrefixes(s, s', e);
    forall a ensures Known(s', a) >= 0 {
      assert Known(s, a) >= 0;
    }
  }

  lemma FundedFold(s: State, e: Entry, a: Account)
    requires Solvent(s) && e.amount >= 0
    ensures Fold(s.journal + [e], a) >= 0
  {
    FoldSnoc(s.journal, e, a);
    assert s.journal[..|s.journal|] == s.journal;
  }

  lemma ApplySolvent(s: State)
    requires Solvent(s) && Enabled(s, Apply)
    ensures Solvent(Step(s, Apply))
  {
    var e := s.phase.e;
    assert InHand(s.phase) == [] + [e];
    forall a ensures Known(Step(s, Apply), a) >= 0 {
      FoldSnoc([], e, a);
      assert Known(s, a) >= 0;
    }
  }

  lemma FundApplySolvent(s: State, i: nat)
    requires Solvent(s) && Enabled(s, FundApply(i))
    ensures Solvent(Step(s, FundApply(i)))
  {
    assert s.unapplied[i] in s.unapplied;
    forall a ensures Known(Step(s, FundApply(i)), a) >= Known(s, a) {
      FoldRemove(s.unapplied, i, a);
    }
  }

  /** A balance that passes the check is there, whatever 64 bits made of it. */
  lemma TakeSolvent(s: State, t: Transfer)
    requires Solvent(s) && Mirrors(s) && Enabled(s, Take(t))
    ensures Solvent(Step(s, Take(t)))
  {
    assert Known(s, t.from) >= 0;
    WrapExact(Known(s, t.from));
    forall a ensures Known(Step(s, Take(t)), a) == Known(s, a) {
    }
  }

  lemma CrashSolvent(s: State)
    requires Solvent(s)
    ensures Solvent(Crashed(s))
  {
    assert s.journal[..|s.journal|] == s.journal;
    forall a ensures Known(Crashed(s), a) == Fold(s.journal[..|s.journal|], a) {
    }
  }

  lemma SolventStep(s: State, a: Action)
    requires Solvent(s) && Conserves(s) && Mirrors(s) && Enabled(s, a) && Sound(Step(s, a))
    ensures Solvent(Step(s, a))
  {
    match a
    case Take(t) => TakeSolvent(s, t);
    case Append(id, r) =>
      if r == Failed { FailedSolvent(s, id); } else { AppendSolvent(s, id, r); }
    case Apply => ApplySolvent(s);
    case Fund(account, amount, id, r) => if r != Failed { FundSolvent(s, account, amount, id, r); }
    case FundApply(i) => FundApplySolvent(s, i);
    case Crash => CrashSolvent(s);
    case _ => QuietSolvent(s, a);
  }

  lemma FailedSolvent(s: State, id: string)
    requires Solvent(s) && Enabled(s, Append(id, Failed))
    ensures Solvent(Appending(s, id, Failed))
  {
    SameSolvent(s, Appending(s, id, Failed));
  }

  lemma QuietSolvent(s: State, a: Action)
    requires Solvent(s) && Enabled(s, a) && (a.Replay? || a.Serve? || a.Refuse?)
    ensures Solvent(Step(s, a))
  {
    SameSolvent(s, Step(s, a));
  }

  /** The writer's view does not depend on how far it is with a rejection or a replay. */
  lemma SameSolvent(s: State, s': State)
    requires Solvent(s)
    requires s'.journal == s.journal && s'.unapplied == s.unapplied && s'.missed == s.missed && s'.funded == s.funded
    requires InHand(s.phase) == InHand(s'.phase) == []
    requires s'.phase.Idle? || s'.phase.Rejecting? || s'.phase.Rebuilding?
    requires forall t :: t in s'.stranded ==> t.amount > 0
    ensures Solvent(s')
  {
    forall a ensures Known(s', a) == Known(s, a) {
    }
  }

  lemma SoundBefore(s: State, a: Action)
    requires Enabled(s, a) && Sound(Step(s, a))
    ensures Sound(s)
  {
  }

  /** Everything the theorems rest on. */
  ghost predicate Inv(s: State) {
    Mirrors(s) && Conserves(s) && Paired(s) && (Sound(s) ==> Solvent(s))
  }

  lemma InvStep(s: State, a: Action)
    requires Inv(s) && Enabled(s, a)
    ensures Inv(Step(s, a))
  {
    MirrorsStep(s, a);
    ConservesStep(s, a);
    PairedStep(s, a);
    if Sound(Step(s, a)) {
      SoundBefore(s, a);
      SolventStep(s, a);
    }
  }

  lemma {:induction false} InvRun(s: State, trace: seq<Action>)
    requires Inv(s) && Ledger.Valid(s, trace)
    ensures Inv(Run(s, trace))
    decreases |trace|
  {
    if trace != [] {
      InvStep(s, trace[0]);
      InvRun(Step(s, trace[0]), trace[1..]);
    }
  }

  lemma InitialInv(s: State)
    requires Initial(s)
    ensures Inv(s)
  {
    forall k | 0 <= k <= |s.journal| ensures s.journal[..k] == [] {
    }
    assert Mirrors(s) && Conserves(s) && Paired(s);
    forall a ensures Known(s, a) == 0 {
    }
  }

  lemma ReachableInv(s: State)
    requires Reachable(s)
    ensures Inv(s)
  {
    var s0: State, trace: seq<Action> :| RunTo(s0, trace, s);
    InitialInv(s0);
    InvRun(s0, trace);
  }
}
