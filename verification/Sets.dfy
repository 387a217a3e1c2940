/** Facts about finite sets. */
module Sets {

  lemma SubsetSize<T>(a: set<T>, b: set<T>)
    requires a <= b
    ensures |a| <= |b| && |b - a| == |b| - |a|
  {
    assert b == a + (b - a);
  }

  lemma {:induction false} UpperBound(ids: set<nat>) returns (n: nat)
    ensures forall k :: k in ids ==> k < n
  {
    if ids == {} {
      n := 0;
    } else {
      var k :| k in ids;
      var b := UpperBound(ids - {k});
      n := if b <= k then k + 1 else b;
      forall i | i in ids ensures i < n {
        assert i == k || i in ids - {k};
      }
    }
  }

  lemma {:induction false} Least(ids: set<nat>) returns (u: nat)
    requires ids != {}
    ensures u in ids && forall k :: k in ids ==> u <= k
  {
    var k :| k in ids;
    u := k;
    if ids != {k} {
      var v := Least(ids - {k});
      u := if v < k then v else k;
      forall i | i in ids ensures u <= i {
        assert i == k || i in ids - {k};
      }
    }
  }

  lemma {:induction false} Greatest(ids: set<nat>) returns (g: nat)
    requires ids != {}
    ensures g in ids && forall k :: k in ids ==> k <= g
  {
    var k :| k in ids;
    g := k;
    if ids != {k} {
      var h := Greatest(ids - {k});
      g := if h > k then h else k;
      forall i | i in ids ensures i <= g {
        assert i == k || i in ids - {k};
      }
    }
  }

  function Below(ids: set<nat>, m: nat): set<nat> {
    set k | k in ids && k < m
  }

  /** The n smallest members. */
  function Lowest(ids: set<nat>, n: nat): set<nat> {
    set m | m in ids && |Below(ids, m)| < n
  }

  lemma LowestWithout(ids: set<nat>, n: nat, g: nat)
    requires g in ids && forall k :: k in ids ==> k <= g
    ensures Lowest(ids, n) == if |ids| <= n then Lowest(ids - {g}, n) + {g} else Lowest(ids - {g}, n)
  {
    var rest := ids - {g};
    assert Below(ids, g) == rest;
    forall m | m in rest ensures Below(ids, m) == Below(rest, m) {}
  }

  lemma {:induction false} LowestSize(ids: set<nat>, n: nat)
    ensures |Lowest(ids, n)| == if n <= |ids| then n else |ids|
    decreases |ids|
  {
    if ids == {} {
      assert Lowest(ids, n) == {};
    } else {
      var g := Greatest(ids);
      LowestSize(ids - {g}, n);
      LowestWithout(ids, n, g);
    }
  }

  /** As many as n and the set allow, and none above one that is left out. */
  lemma LowestAreFirst(ids: set<nat>, n: nat)
    ensures |Lowest(ids, n)| == if n <= |ids| then n else |ids|
    ensures forall m, k :: m in Lowest(ids, n) && k in ids && k !in Lowest(ids, n) ==> m < k
  {
    LowestSize(ids, n);
    forall m, k | m in Lowest(ids, n) && k in ids && k !in Lowest(ids, n) ensures m < k {
      if k <= m {
        SubsetSize(Below(ids, k), Below(ids, m));
      }
    }
  }
}
