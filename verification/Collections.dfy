/** Sums over sequences and maps with a default, shared by the three systems. */
module Collections {

  /** The sum of `f` over a sequence. */
  ghost function Sum<T>(f: T -> int, s: seq<T>): int {
    if s == [] then 0 else Sum(f, s[..|s| - 1]) + f(s[|s| - 1])
  }

  lemma SumSnoc<T>(f: T -> int, s: seq<T>, x: T)
    ensures Sum(f, s + [x]) == Sum(f, s) + f(x)
  {
    assert (s + [x])[..|s|] == s;
  }

  lemma SumOne<T>(f: T -> int, x: T)
    ensures Sum(f, [x]) == f(x)
  {
    assert Sum(f, [x][..0]) == 0;
  }

  lemma {:induction false} SumCons<T>(f: T -> int, x: T, s: seq<T>)
    ensures Sum(f, [x] + s) == f(x) + Sum(f, s)
  {
    if s == [] {
      assert [x] + s == [] + [x];
      SumSnoc(f, [], x);
    } else {
      var n := |s| - 1;
      SumCons(f, x, s[..n]);
      assert [x] + s == ([x] + s[..n]) + [s[n]];
      SumSnoc(f, [x] + s[..n], s[n]);
    }
  }

  lemma {:induction false} SumUpdate<T>(f: T -> int, s: seq<T>, i: nat, x: T)
    requires i < |s|
    ensures Sum(f, s[i := x]) == Sum(f, s) - f(s[i]) + f(x)
  {
    var n := |s| - 1;
    if i == n {
      assert s[i := x][..n] == s[..n];
    } else {
      assert s[i := x][..n] == s[..n][i := x];
      SumUpdate(f, s[..n], i, x);
    }
  }

  /** Every term of a sum of non-negative terms is at most the sum. */
  lemma {:induction false} SumBounds<T>(f: T -> int, s: seq<T>, i: nat)
    requires forall x :: x in s ==> f(x) >= 0
    requires i < |s|
    ensures f(s[i]) <= Sum(f, s)
  {
    var n := |s| - 1;
    SumNonNegative(f, s[..n]);
    if i < n {
      SumBounds(f, s[..n], i);
    }
  }

  lemma {:induction false} SumNonNegative<T>(f: T -> int, s: seq<T>)
    requires forall x :: x in s ==> f(x) >= 0
    ensures Sum(f, s) >= 0
  {
    if s != [] {
      SumNonNegative(f, s[..|s| - 1]);
    }
  }

  lemma {:induction false} SumZero<T>(f: T -> int, s: seq<T>)
    requires forall x :: x in s ==> f(x) == 0
    ensures Sum(f, s) == 0
  {
    if s != [] {
      SumZero(f, s[..|s| - 1]);
    }
  }

  lemma {:induction false} SumOnes<T>(f: T -> int, s: seq<T>)
    requires forall x :: x in s ==> f(x) == 1
    ensures Sum(f, s) == |s|
  {
    if s != [] {
      SumOnes(f, s[..|s| - 1]);
    }
  }

  lemma {:induction false} SumMonotone<T>(f: T -> int, g: T -> int, s: seq<T>)
    requires forall x :: x in s ==> f(x) <= g(x)
    ensures Sum(f, s) <= Sum(g, s)
  {
    if s != [] {
      SumMonotone(f, g, s[..|s| - 1]);
    }
  }

  /** Two functions that differ at one place of a sequence. */
  lemma {:induction false} SumAtOnePlace<T>(f: T -> int, g: T -> int, s: seq<T>, i: nat)
    requires i < |s|
    requires forall j :: 0 <= j < |s| && j != i ==> f(s[j]) == g(s[j])
    ensures Sum(g, s) == Sum(f, s) + g(s[i]) - f(s[i])
  {
    var n := |s| - 1;
    if i == n {
      assert forall x :: x in s[..n] ==> f(x) == g(x);
      SumMonotone(f, g, s[..n]);
      SumMonotone(g, f, s[..n]);
    } else {
      SumAtOnePlace(f, g, s[..n], i);
    }
  }

  /** The value of a Go map of integers, which is zero for an absent key. */
  function Get<K>(m: map<K, int>, k: K): int {
    if k in m then m[k] else 0
  }

  /** Go's `m[k] += v`. */
  function Add<K>(m: map<K, int>, k: K, v: int): map<K, int> {
    m[k := Get(m, k) + v]
  }
}
