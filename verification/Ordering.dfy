/** Orders and sorting. */
module Ordering {

  ghost predicate TotalPreorder<T(!new)>(le: (T, T) -> bool) {
    && (forall a, b :: le(a, b) || le(b, a))
    && (forall a, b, c :: le(a, b) && le(b, c) ==> le(a, c))
  }

  ghost predicate Antisymmetric<T(!new)>(le: (T, T) -> bool) {
    forall a, b :: le(a, b) && le(b, a) ==> a == b
  }

  ghost predicate SortedBy<T>(le: (T, T) -> bool, xs: seq<T>) {
    forall i, j :: 0 <= i < j < |xs| ==> le(xs[i], xs[j])
  }

  /** Byte-wise order of strings. */
  predicate LexLe(a: string, b: string) {
    a == [] || (b != [] && (a[0] < b[0] || (a[0] == b[0] && LexLe(a[1..], b[1..]))))
  }

  lemma {:induction false} LexTotal(a: string, b: string)
    ensures LexLe(a, b) || LexLe(b, a)
  {
    if a != [] && b != [] && a[0] == b[0] {
      LexTotal(a[1..], b[1..]);
    }
  }

  /** The first difference decides, and a prefix comes first. */
  lemma {:induction false} LexByFirstDifference(p: string, a: string, b: string)
    ensures a != [] && b != [] && a[0] != b[0] ==> (LexLe(p + a, p + b) <==> a[0] < b[0])
    ensures LexLe(p, p + b) && (b != [] ==> !LexLe(p + b, p))
  {
    if p == [] {
      assert p + a == a && p + b == b;
    } else {
      assert (p + a)[1..] == p[1..] + a && (p + b)[1..] == p[1..] + b;
      LexByFirstDifference(p[1..], a, b);
    }
  }

  lemma {:induction false} LexTransitive(a: string, b: string, c: string)
    requires LexLe(a, b) && LexLe(b, c)
    ensures LexLe(a, c)
  {
    if a != [] && b != [] && c != [] && a[0] == b[0] == c[0] {
      LexTransitive(a[1..], b[1..], c[1..]);
    }
  }

  lemma {:induction false} LexAntisymmetric(a: string, b: string)
    requires LexLe(a, b) && LexLe(b, a)
    ensures a == b
  {
    if a != [] && b != [] {
      LexAntisymmetric(a[1..], b[1..]);
      assert a == [a[0]] + a[1..] && b == [b[0]] + b[1..];
    }
  }

  lemma LexIsOrder()
    ensures TotalPreorder(LexLe) && Antisymmetric(LexLe)
  {
    forall a, b ensures LexLe(a, b) || LexLe(b, a) { LexTotal(a, b); }
    forall a, b, c | LexLe(a, b) && LexLe(b, c) ensures LexLe(a, c) { LexTransitive(a, b, c); }
    forall a, b | LexLe(a, b) && LexLe(b, a) ensures a == b { LexAntisymmetric(a, b); }
  }

  /** sort.Slice: some sorted permutation; callers may not rely on how ties are broken. */
  method Sort<T(!new)>(le: (T, T) -> bool, xs: seq<T>) returns (ys: seq<T>)
    requires TotalPreorder(le)
    ensures SortedBy(le, ys) && multiset(ys) == multiset(xs) && |ys| == |xs|
  {
    ys := [];
    for n := 0 to |xs|
      invariant |ys| == n && SortedBy(le, ys) && multiset(ys) == multiset(xs[..n])
    {
      var k := 0;
      while k < n && le(ys[k], xs[n])
        invariant 0 <= k <= n
        invariant forall i :: 0 <= i < k ==> le(ys[i], xs[n])
      {
        k := k + 1;
      }
      InsertNext(le, ys, xs, n, k);
      ys := ys[..k] + [xs[n]] + ys[k..];
    }
    assert xs[..|xs|] == xs;
  }

  lemma InsertNext<T(!new)>(le: (T, T) -> bool, ys: seq<T>, xs: seq<T>, n: nat, k: nat)
    requires TotalPreorder(le) && SortedBy(le, ys) && k <= |ys| == n < |xs| && multiset(ys) == multiset(xs[..n])
    requires (forall i :: 0 <= i < k ==> le(ys[i], xs[n])) && (k < n ==> !le(ys[k], xs[n]))
    ensures var zs := ys[..k] + [xs[n]] + ys[k..];
      |zs| == n + 1 && SortedBy(le, zs) && multiset(zs) == multiset(xs[..n + 1])
  {
    InsertKeepsSorted(le, ys, xs[n], k);
    InsertAddsOne(ys, xs[n], k);
    TakeOneMore(xs, n);
  }

  lemma InsertAddsOne<T>(ys: seq<T>, x: T, k: nat)
    requires k <= |ys|
    ensures multiset(ys[..k] + [x] + ys[k..]) == multiset(ys) + multiset{x}
  {
    assert ys == ys[..k] + ys[k..];
  }

  lemma TakeOneMore<T>(xs: seq<T>, n: nat)
    requires n < |xs|
    ensures multiset(xs[..n + 1]) == multiset(xs[..n]) + multiset{xs[n]}
  {
    assert xs[..n + 1] == xs[..n] + [xs[n]];
  }

  lemma InsertKeepsSorted<T(!new)>(le: (T, T) -> bool, ys: seq<T>, x: T, k: nat)
    requires TotalPreorder(le) && SortedBy(le, ys) && k <= |ys|
    requires (forall i :: 0 <= i < k ==> le(ys[i], x)) && (k < |ys| ==> !le(ys[k], x))
    ensures SortedBy(le, ys[..k] + [x] + ys[k..])
  {
    var zs := ys[..k] + [x] + ys[k..];
    forall i | k <= i < |ys| ensures le(x, ys[i]) {
      assert le(x, ys[k]);
    }
    forall i, j | 0 <= i < j < |zs| ensures le(zs[i], zs[j]) {
      var a := if i < k then i else i - 1;
      var b := if j < k then j else j - 1;
      assert i != k ==> zs[i] == ys[a];
      assert j != k ==> zs[j] == ys[b];
    }
  }

  lemma TailMultiset<T>(xs: seq<T>)
    requires xs != []
    ensures multiset(xs[1..]) == multiset(xs) - multiset{xs[0]}
  {
    assert xs == [xs[0]] + xs[1..];
  }

  lemma HeadsAgree<T(!new)>(le: (T, T) -> bool, xs: seq<T>, ys: seq<T>)
    requires TotalPreorder(le) && Antisymmetric(le) && xs != []
    requires SortedBy(le, xs) && SortedBy(le, ys) && multiset(xs) == multiset(ys)
    ensures ys != [] && xs[0] == ys[0]
  {
    PermutationKeepsMembers(xs, ys);
    assert xs[0] in ys && ys[0] in xs;
    LeastFirst(le, xs, ys[0]);
    LeastFirst(le, ys, xs[0]);
  }

  lemma TailsAgree<T(!new)>(le: (T, T) -> bool, xs: seq<T>, ys: seq<T>)
    requires SortedBy(le, xs) && SortedBy(le, ys) && multiset(xs) == multiset(ys)
    requires xs != [] && ys != [] && xs[0] == ys[0]
    ensures SortedBy(le, xs[1..]) && SortedBy(le, ys[1..]) && multiset(xs[1..]) == multiset(ys[1..])
  {
    TailMultiset(xs);
    TailMultiset(ys);
  }

  /** A sorted arrangement is unique when the order separates all values. */
  lemma {:induction false} SortedUnique<T(!new)>(le: (T, T) -> bool, xs: seq<T>, ys: seq<T>)
    requires TotalPreorder(le) && Antisymmetric(le)
    requires SortedBy(le, xs) && SortedBy(le, ys) && multiset(xs) == multiset(ys)
    ensures xs == ys
  {
    if xs == [] {
      assert |multiset(ys)| == 0;
    } else {
      HeadsAgree(le, xs, ys);
      TailsAgree(le, xs, ys);
      SortedUnique(le, xs[1..], ys[1..]);
      assert xs == [xs[0]] + xs[1..] && ys == [ys[0]] + ys[1..];
    }
  }

  lemma LeastFirst<T(!new)>(le: (T, T) -> bool, xs: seq<T>, x: T)
    requires TotalPreorder(le) && SortedBy(le, xs) && x in xs
    ensures le(xs[0], x)
  {
    var i :| 0 <= i < |xs| && xs[i] == x;
    assert le(xs[0], xs[0]);
  }

  /** Ranging over the keys of a map: every key once, in an arbitrary order. */
  method AnyOrder<T(==)>(s: set<T>) returns (xs: seq<T>)
    ensures NoDuplicates(xs) && forall x :: x in xs <==> x in s
  {
    xs := [];
    var rest := s;
    while rest != {}
      invariant rest <= s && NoDuplicates(xs) && forall x :: x in xs <==> x in s - rest
      decreases |rest|
    {
      var x :| x in rest;
      assert x !in xs;
      assert forall i :: 0 <= i < |xs| ==> xs[i] in xs;
      assert forall y :: y in xs + [x] <==> y in xs || y == x;
      xs := xs + [x];
      rest := rest - {x};
    }
  }

  /** The names of a list of values. */
  function Project<T>(xs: seq<T>, name: T -> string): (ns: seq<string>)
    ensures |ns| == |xs| && forall i :: 0 <= i < |xs| ==> ns[i] == name(xs[i])
  {
    if xs == [] then [] else [name(xs[0])] + Project(xs[1..], name)
  }

  // ---- permutations -----------------------------------------------------------------------

  ghost predicate NoDuplicates<T>(xs: seq<T>) {
    forall i, j :: 0 <= i < j < |xs| ==> xs[i] != xs[j]
  }

  lemma SeenTwice<T>(xs: seq<T>, i: nat, j: nat)
    requires i < j < |xs| && xs[i] == xs[j]
    ensures multiset(xs)[xs[i]] >= 2
  {
    assert xs == xs[..j] + xs[j..];
    assert xs[i] in xs[..j] && xs[j..][0] == xs[i];
    assert multiset(xs) == multiset(xs[..j]) + multiset(xs[j..]);
  }

  lemma {:induction false} SeenOnce<T>(xs: seq<T>, x: T)
    requires NoDuplicates(xs)
    ensures multiset(xs)[x] <= 1
  {
    if xs != [] {
      var n := |xs| - 1;
      assert xs == xs[..n] + [xs[n]];
      SeenOnce(xs[..n], x);
      if x == xs[n] {
        assert x !in xs[..n];
        assert multiset(xs[..n])[x] == 0;
      }
    }
  }

  lemma PermutationKeepsNoDuplicates<T>(xs: seq<T>, ys: seq<T>)
    requires NoDuplicates(xs) && multiset(xs) == multiset(ys)
    ensures NoDuplicates(ys)
  {
    forall i, j | 0 <= i < j < |ys| ensures ys[i] != ys[j] {
      if ys[i] == ys[j] {
        SeenTwice(ys, i, j);
        SeenOnce(xs, ys[i]);
      }
    }
  }

  lemma PermutationKeepsMembers<T>(xs: seq<T>, ys: seq<T>)
    requires multiset(xs) == multiset(ys)
    ensures forall x :: x in xs <==> x in ys
  {
    forall x ensures x in xs <==> x in ys {
      assert x in xs <==> x in multiset(xs);
      assert x in ys <==> x in multiset(ys);
    }
  }

  /** Duplicate-free lists with the same members are permutations of each other. */
  lemma SameMembersPermute<T>(xs: seq<T>, ys: seq<T>)
    requires NoDuplicates(xs) && NoDuplicates(ys) && forall x :: x in xs <==> x in ys
    ensures multiset(xs) == multiset(ys)
  {
    forall x ensures multiset(xs)[x] == multiset(ys)[x] {
      SeenOnce(xs, x);
      SeenOnce(ys, x);
      assert x in xs <==> x in multiset(xs);
      assert x in ys <==> x in multiset(ys);
    }
  }
}
