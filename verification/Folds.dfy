/** Sums, counts and filters over sequences, and their independence of the order of the elements. */
module Folds {
  function Sum<T>(f: T -> real, rs: seq<T>): real {
    if rs == [] then 0.0 else Sum(f, rs[..|rs| - 1]) + f(rs[|rs| - 1])
  }

  function Count<T>(p: T -> bool, rs: seq<T>): nat {
    if rs == [] then 0 else Count(p, rs[..|rs| - 1]) + (if p(rs[|rs| - 1]) then 1 else 0)
  }

  function Filter<T(!new)>(keep: T -> bool, rs: seq<T>): (kept: seq<T>)
    ensures forall e :: e in kept <==> e in rs && keep(e)
  {
    if rs == [] then []
    else
      var last := rs[|rs| - 1];
      assert rs == rs[..|rs| - 1] + [last];
      Filter(keep, rs[..|rs| - 1]) + (if keep(last) then [last] else [])
  }

  lemma SumSnoc<T>(f: T -> real, rs: seq<T>, i: nat)
    requires i < |rs|
    ensures Sum(f, rs[..i + 1]) == Sum(f, rs[..i]) + f(rs[i])
  {
    assert rs[..i + 1][..i] == rs[..i];
  }

  lemma CountSnoc<T>(p: T -> bool, rs: seq<T>, i: nat)
    requires i < |rs|
    ensures Count(p, rs[..i + 1]) == Count(p, rs[..i]) + (if p(rs[i]) then 1 else 0)
  {
    assert rs[..i + 1][..i] == rs[..i];
  }

  lemma {:induction false} SumAgrees<T>(f: T -> real, g: T -> real, rs: seq<T>)
    requires forall e :: e in rs ==> f(e) == g(e)
    ensures Sum(f, rs) == Sum(g, rs)
  {
    if rs != [] {
      SumAgrees(f, g, rs[..|rs| - 1]);
    }
  }

  lemma {:induction false} CountAgrees<T>(p: T -> bool, q: T -> bool, rs: seq<T>)
    requires forall e :: e in rs ==> p(e) == q(e)
    ensures Count(p, rs) == Count(q, rs)
  {
    if rs != [] {
      CountAgrees(p, q, rs[..|rs| - 1]);
    }
  }

  /** Dropping events that contribute nothing changes no sum. */
  lemma {:induction false} SumOfFiltered<T(!new)>(f: T -> real, keep: T -> bool, rs: seq<T>)
    requires forall e :: e in rs && !keep(e) ==> f(e) == 0.0
    ensures Sum(f, Filter(keep, rs)) == Sum(f, rs)
  {
    if rs != [] {
      var last := rs[|rs| - 1];
      SumOfFiltered(f, keep, rs[..|rs| - 1]);
      var kept := Filter(keep, rs[..|rs| - 1]);
      assert (kept + [last])[..|kept|] == kept && kept + [] == kept;
    }
  }

  lemma {:induction false} CountOfFiltered<T(!new)>(p: T -> bool, keep: T -> bool, rs: seq<T>)
    requires forall e :: e in rs && !keep(e) ==> !p(e)
    ensures Count(p, Filter(keep, rs)) == Count(p, rs)
  {
    if rs != [] {
      var last := rs[|rs| - 1];
      CountOfFiltered(p, keep, rs[..|rs| - 1]);
      var kept := Filter(keep, rs[..|rs| - 1]);
      assert (kept + [last])[..|kept|] == kept && kept + [] == kept;
    }
  }

  // ---------- order does not matter ----------

  lemma {:induction false} SumSplits<T>(f: T -> real, a: seq<T>, b: seq<T>)
    ensures Sum(f, a + b) == Sum(f, a) + Sum(f, b)
  {
    if b == [] {
      assert a + b == a;
    } else {
      SumSplits(f, a, b[..|b| - 1]);
      assert (a + b)[..|a + b| - 1] == a + b[..|b| - 1];
    }
  }

  lemma {:induction false} CountSplits<T>(p: T -> bool, a: seq<T>, b: seq<T>)
    ensures Count(p, a + b) == Count(p, a) + Count(p, b)
  {
    if b == [] {
      assert a + b == a;
    } else {
      CountSplits(p, a, b[..|b| - 1]);
      assert (a + b)[..|a + b| - 1] == a + b[..|b| - 1];
    }
  }

  /** `b` with one copy of the last event of `a` taken out is a rearrangement of the rest of `a`. */
  lemma TakeOut<T>(a: seq<T>, b: seq<T>) returns (i: nat)
    requires a != [] && multiset(a) == multiset(b)
    ensures i < |b| && b[i] == a[|a| - 1]
    ensures multiset(a[..|a| - 1]) == multiset(b[..i] + b[i + 1..])
    ensures b == b[..i] + [b[i]] + b[i + 1..]
  {
    var last := a[|a| - 1];
    assert a == a[..|a| - 1] + [last];
    assert last in multiset(b);
    i :| 0 <= i < |b| && b[i] == last;
    assert b == b[..i] + [last] + b[i + 1..];
    assert multiset(b) == multiset(b[..i] + b[i + 1..]) + multiset{last};
    assert multiset(a) == multiset(a[..|a| - 1]) + multiset{last};
    assert multiset(b) - multiset{last} == multiset(b[..i] + b[i + 1..]);
    assert multiset(a) - multiset{last} == multiset(a[..|a| - 1]);
  }

  lemma {:induction false} SumOfRearranged<T>(f: T -> real, a: seq<T>, b: seq<T>)
    requires multiset(a) == multiset(b)
    ensures Sum(f, a) == Sum(f, b)
  {
    if a == [] {
      assert |multiset(b)| == 0;
    } else {
      var i := TakeOut(a, b);
      SumOfRearranged(f, a[..|a| - 1], b[..i] + b[i + 1..]);
      SumSplits(f, b[..i], b[i + 1..]);
      SumSplits(f, b[..i] + [b[i]], b[i + 1..]);
      assert (b[..i] + [b[i]])[..i] == b[..i];
    }
  }

  lemma {:induction false} CountOfRearranged<T>(p: T -> bool, a: seq<T>, b: seq<T>)
    requires multiset(a) == multiset(b)
    ensures Count(p, a) == Count(p, b)
  {
    if a == [] {
      assert |multiset(b)| == 0;
    } else {
      var i := TakeOut(a, b);
      CountOfRearranged(p, a[..|a| - 1], b[..i] + b[i + 1..]);
      CountSplits(p, b[..i], b[i + 1..]);
      CountSplits(p, b[..i] + [b[i]], b[i + 1..]);
      assert (b[..i] + [b[i]])[..i] == b[..i];
    }
  }
}
