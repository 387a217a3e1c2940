/** Keeping the best `cap` of a growing collection, one insertion and one eviction at a time. */
module Retention {
  import opened Ordering
  import opened Sets

  /** `kept` holds the latest versions of min(cap, all) entries, none below an omitted one. */
  ghost predicate Keeps<V(!new)>(kept: map<string, V>, all: map<string, V>, le: (V, V) -> bool, cap: nat) {
    && (forall id :: id in kept ==> id in all && kept[id] == all[id])
    && |kept| == (if |all| <= cap then |all| else cap)
    && (forall a, b :: a in kept && b in all && b !in kept ==> le(all[b], kept[a]))
  }

  /** What an eviction down to cap must do to be right: drop no more than needed, lowest first. */
  ghost predicate Evicts<V(!new)>(before: map<string, V>, after: map<string, V>, le: (V, V) -> bool, cap: nat) {
    && (forall id :: id in after ==> id in before && after[id] == before[id])
    && |after| == (if |before| <= cap then |before| else cap)
    && (forall a, b :: a in after && b in before && b !in after ==> le(before[b], after[a]))
  }

  lemma SubmapSize<V>(a: map<string, V>, b: map<string, V>)
    requires forall id :: id in a ==> id in b
    ensures |a| <= |b|
    ensures |a| == |b| ==> a.Keys == b.Keys
  {
    assert a.Keys <= b.Keys;
    assert b.Keys == a.Keys + (b.Keys - a.Keys);
    assert |b.Keys| == |a.Keys| + |b.Keys - a.Keys|;
  }

  lemma Outside<V>(a: map<string, V>, b: map<string, V>) returns (id: string)
    requires |a| >= |b| && a.Keys != b.Keys
    ensures id in a && id !in b
  {
    if forall k :: k in a ==> k in b {
      SubmapSize(a, b);
    }
    id :| id in a && id !in b;
  }

  /** Insert, then evict: the collection still keeps the best, also when the inserted id had been
      evicted before, exactly unless the insertion moves a kept entry below an omitted one. */
  lemma InsertEvictIff<V(!new)>(kept: map<string, V>, all: map<string, V>, id: string, v: V, after: map<string, V>,
                                le: (V, V) -> bool, cap: nat)
    requires TotalPreorder(le) && Keeps(kept, all, le, cap) && Evicts(kept[id := v], after, le, cap)
    ensures Keeps(after, all[id := v], le, cap) <==>
      (id in kept ==> forall b :: b in all && b !in kept ==> le(all[b], v))
  {
    SubmapSize(kept, all);
    SubmapSize(kept[id := v], all[id := v]);
    if id in kept {
      SubmapSize(after, kept[id := v]);
      assert after.Keys == kept.Keys && all[id := v].Keys == all.Keys;
    } else {
      InsertNew(kept, all, id, v, after, le, cap);
    }
  }

  lemma InsertNew<V(!new)>(kept: map<string, V>, all: map<string, V>, id: string, v: V, after: map<string, V>,
                           le: (V, V) -> bool, cap: nat)
    requires TotalPreorder(le) && Keeps(kept, all, le, cap) && Evicts(kept[id := v], after, le, cap)
    requires id !in kept
    ensures Keeps(after, all[id := v], le, cap)
  {
    var inserted, now := kept[id := v], all[id := v];
    SubmapSize(kept, all);
    SubmapSize(inserted, now);
    forall a, b | a in after && b in now && b !in after ensures le(now[b], after[a]) {
      if b !in inserted {
        assert b in all && b !in kept && |kept| == cap && |inserted| == cap + 1;
        if a == id {
          var d := Outside(inserted, after);
          assert d in kept && le(inserted[d], v);
        }
      }
    }
  }

  /** Something is left out only of a full collection. */
  lemma OmittedWhenFull<V(!new)>(kept: map<string, V>, all: map<string, V>, id: string, le: (V, V) -> bool, cap: nat)
    requires Keeps(kept, all, le, cap) && id in all && id !in kept
    ensures |kept| == cap
  {
    SubmapSize(kept, all);
  }

  /** With a strict ranking there is only one collection of the best. */
  lemma KeepsUnique<V(!new)>(k1: map<string, V>, k2: map<string, V>, all: map<string, V>, le: (V, V) -> bool, cap: nat)
    requires Keeps(k1, all, le, cap) && Keeps(k2, all, le, cap)
    requires forall a, b :: a in all && b in all && le(all[a], all[b]) && le(all[b], all[a]) ==> a == b
    ensures k1 == k2
  {
    if k1.Keys != k2.Keys {
      var a := Outside(k1, k2);
      var b := Outside(k2, k1);
      assert false;
    }
    assert k1.Keys == k2.Keys;
  }

  // ---- evicting ---------------------------------------------------------------------------

  ghost predicate KeyedBy<V>(m: map<string, V>, key: V -> string) {
    forall id :: id in m ==> key(m[id]) == id
  }

  /** vs lists the values of m, each once. */
  ghost predicate Lists<V>(vs: seq<V>, m: map<string, V>, key: V -> string) {
    && |vs| == |m| && NoDuplicates(vs)
    && (forall id :: id in m ==> m[id] in vs)
    && (forall v :: v in vs ==> key(v) in m && m[key(v)] == v)
  }

  /** The values of a map, in whatever order it yields them. */
  method Values<V>(m: map<string, V>, key: V -> string) returns (vs: seq<V>)
    requires KeyedBy(m, key)
    ensures Lists(vs, m, key)
  {
    vs := [];
    var rest := m.Keys;
    while rest != {}
      invariant rest <= m.Keys && |vs| + |rest| == |m| && NoDuplicates(vs)
      invariant forall id :: id in m && id !in rest ==> m[id] in vs
      invariant forall v :: v in vs ==> key(v) in m && m[key(v)] == v && key(v) !in rest
      decreases |rest|
    {
      var id :| id in rest;
      rest := rest - {id};
      vs := vs + [m[id]];
    }
  }

  /** Sorts the values of m from the highest down. */
  method Descending<V(!new)>(m: map<string, V>, key: V -> string, le: (V, V) -> bool) returns (vs: seq<V>)
    requires KeyedBy(m, key) && TotalPreorder(le)
    ensures Lists(vs, m, key) && forall i, j :: 0 <= i < j < |vs| ==> le(vs[j], vs[i])
  {
    var ge := (a: V, b: V) => le(b, a);
    var us := Values(m, key);
    vs := Sort(ge, us);
    PermutationKeepsNoDuplicates(us, vs);
    PermutationKeepsMembers(us, vs);
  }

  /** Drops the lowest values beyond cap. */
  method Evict<V(!new)>(m: map<string, V>, key: V -> string, le: (V, V) -> bool, cap: nat)
    returns (after: map<string, V>)
    requires KeyedBy(m, key) && TotalPreorder(le)
    ensures Evicts(m, after, le, cap)
  {
    after := m;
    if |m| <= cap {
      return;
    }
    var vs := Descending(m, key, le);
    KeysDiffer(vs, m, key);
    after := DropAll(m, vs, key, cap);
    DroppedAreLowest(m, after, vs, key, le, cap);
  }

  /** Deletes the keys of vs[cap..]. */
  method DropAll<V>(m: map<string, V>, vs: seq<V>, key: V -> string, cap: nat) returns (after: map<string, V>)
    requires cap <= |vs| == |m| && forall i :: 0 <= i < |vs| ==> key(vs[i]) in m
    requires forall i, j :: 0 <= i < j < |vs| ==> key(vs[i]) != key(vs[j])
    ensures |after| == cap && forall id :: id in after ==> id in m && after[id] == m[id]
    ensures forall i :: 0 <= i < |vs| ==> (key(vs[i]) in after <==> i < cap)
  {
    after := m;
    for k := cap to |vs|
      invariant forall id :: id in after ==> id in m && after[id] == m[id]
      invariant forall i :: 0 <= i < |vs| ==> (key(vs[i]) in after <==> i < cap || k <= i)
      invariant |after| == |m| - (k - cap)
    {
      after := after - {key(vs[k])};
    }
  }

  lemma KeysDiffer<V>(vs: seq<V>, m: map<string, V>, key: V -> string)
    requires Lists(vs, m, key)
    ensures forall i, j :: 0 <= i < j < |vs| ==> key(vs[i]) != key(vs[j])
  {
    forall i, j | 0 <= i < j < |vs| ensures key(vs[i]) != key(vs[j]) {
      assert vs[i] in vs && vs[j] in vs;
    }
  }

  lemma DroppedAreLowest<V(!new)>(m: map<string, V>, after: map<string, V>, vs: seq<V>, key: V -> string,
                                  le: (V, V) -> bool, cap: nat)
    requires KeyedBy(m, key) && Lists(vs, m, key) && cap <= |vs|
    requires forall i, j :: 0 <= i < j < |vs| ==> le(vs[j], vs[i])
    requires forall id :: id in after ==> id in m && after[id] == m[id]
    requires forall i :: 0 <= i < cap ==> key(vs[i]) in after
    requires forall i :: cap <= i < |vs| ==> key(vs[i]) !in after
    ensures forall a, b :: a in after && b in m && b !in after ==> le(m[b], after[a])
  {
    forall a, b | a in after && b in m && b !in after ensures le(m[b], after[a]) {
      assert m[a] in vs && m[b] in vs;
      var i :| 0 <= i < |vs| && vs[i] == m[a];
      var j :| 0 <= j < |vs| && vs[j] == m[b];
      assert key(vs[i]) == a && key(vs[j]) == b;
    }
  }

  // ---- pages ------------------------------------------------------------------------------

  function Min(a: nat, b: nat): nat {
    if a <= b then a else b
  }

  /** The n highest values of `all`, highest first, ties in any order. */
  ghost predicate PageOf<V(!new)>(page: seq<V>, all: map<string, V>, key: V -> string, le: (V, V) -> bool, n: nat) {
    && |page| == Min(|all|, n) && NoDuplicates(page)
    && (forall v :: v in page ==> key(v) in all && all[key(v)] == v)
    && (forall i, j :: 0 <= i < j < |page| ==> le(page[j], page[i]))
    && (forall id, i :: id in all && 0 <= i < |page| && all[id] !in page ==> le(all[id], page[i]))
  }

  /** The head of the sorted kept values is a page of the whole collection. */
  lemma FirstPage<V(!new)>(vs: seq<V>, kept: map<string, V>, all: map<string, V>, key: V -> string,
                           le: (V, V) -> bool, cap: nat, n: nat)
    requires TotalPreorder(le) && Keeps(kept, all, le, cap) && Lists(vs, kept, key)
    requires forall i, j :: 0 <= i < j < |vs| ==> le(vs[j], vs[i])
    ensures PageOf(vs[..Min(n, |vs|)], all, key, le, Min(n, cap))
  {
    var page := vs[..Min(n, |vs|)];
    forall k | 0 <= k < |page| ensures vs[k] in page {
      assert page[k] == vs[k];
    }
    forall id, i | id in all && 0 <= i < |page| && all[id] !in page ensures le(all[id], page[i]) {
      assert vs[i] in vs && vs[i] == page[i];
      if id in kept {
        assert kept[id] in vs;
        var j :| 0 <= j < |vs| && vs[j] == kept[id];
        assert j >= |page|;
      } else {
        assert key(vs[i]) in kept;
      }
    }
    forall v | v in page ensures v in vs {}
  }

  function KeysOf<V>(page: seq<V>, key: V -> string): (keys: set<string>)
    ensures |keys| <= |page| && forall v :: v in page ==> key(v) in keys
  {
    if page == [] then {} else KeysOf(page[..|page| - 1], key) + {key(page[|page| - 1])}
  }

  /** What n entries rank strictly above is on no page of n. */
  lemma CrowdedOut<V(!new)>(page: seq<V>, all: map<string, V>, key: V -> string, le: (V, V) -> bool, n: nat,
                            crowd: set<string>, id: string)
    requires PageOf(page, all, key, le, n) && KeyedBy(all, key)
    requires crowd <= all.Keys && |crowd| >= n && id in all
    requires forall k :: k in crowd ==> !le(all[k], all[id])
    requires id !in crowd
    ensures all[id] !in page
  {
    if all[id] in page {
      var i :| 0 <= i < |page| && page[i] == all[id];
      forall k | k in crowd + {id} ensures k in KeysOf(page, key) {
        assert all[k] in page;
      }
      assert |crowd + {id}| == |crowd| + 1;
      SubsetSize(crowd + {id}, KeysOf(page, key));
    }
  }

  /** A page is unique when the ranking separates the values. */
  lemma {:induction false} PageUnique<V(!new)>(p: seq<V>, q: seq<V>, all: map<string, V>, key: V -> string,
                                               le: (V, V) -> bool, n: nat, i: nat)
    requires PageOf(p, all, key, le, n) && PageOf(q, all, key, le, n) && i <= |p|
    requires TotalPreorder(le)
    requires forall a, b :: a in all && b in all && le(all[a], all[b]) && le(all[b], all[a]) ==> a == b
    ensures p[..i] == q[..i]
  {
    if i != 0 {
      PageUnique(p, q, all, key, le, n, i - 1);
      NextNotAbove(p, q, all, key, le, n, i - 1);
      NextNotAbove(q, p, all, key, le, n, i - 1);
      assert p[i - 1] in p && q[i - 1] in q;
      assert p[..i] == p[..i - 1] + [p[i - 1]] && q[..i] == q[..i - 1] + [q[i - 1]];
    }
  }

  lemma NextNotAbove<V(!new)>(p: seq<V>, q: seq<V>, all: map<string, V>, key: V -> string,
                              le: (V, V) -> bool, n: nat, i: nat)
    requires PageOf(p, all, key, le, n) && PageOf(q, all, key, le, n) && i < |p| && p[..i] == q[..i]
    requires TotalPreorder(le)
    ensures le(q[i], p[i])
  {
    var y := q[i];
    assert y in q;
    forall k | 0 <= k < i ensures p[k] == q[k] != y {
      assert p[k] == p[..i][k] && q[k] == q[..i][k];
    }
    if y in p {
      var k :| 0 <= k < |p| && p[k] == y;
      assert k >= i;
    }
  }
}
