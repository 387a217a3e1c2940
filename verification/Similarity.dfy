/** Bag-of-words cosine similarity. Token frequencies are multisets; the score is characterised
    without square roots. */
module Similarity {

  type Bag = multiset<string>

  function Vocabulary(a: Bag, b: Bag): set<string> {
    set w | w in a + b
  }

  /** Sum over s of a(w) * b(w). */
  ghost function DotOver(s: set<string>, a: Bag, b: Bag): nat {
    if s == {} then 0
    else
      var w :| w in s;
      a[w] * b[w] + DotOver(s - {w}, a, b)
  }

  /** Sum over s of (x a(w) - y b(w)) squared. */
  ghost function GapOver(s: set<string>, a: Bag, b: Bag, x: int, y: int): int {
    if s == {} then 0
    else
      var w :| w in s;
      (x * a[w] - y * b[w]) * (x * a[w] - y * b[w]) + GapOver(s - {w}, a, b, x, y)
  }

  ghost function Dot(a: Bag, b: Bag): nat {
    DotOver(Vocabulary(a, b), a, b)
  }

  ghost function Norm(a: Bag): nat {
    Dot(a, a)
  }

  // ---- sums do not depend on the order of summation ----------------------------------------

  lemma {:induction false} DotRemove(s: set<string>, a: Bag, b: Bag, w: string)
    requires w in s
    ensures DotOver(s, a, b) == a[w] * b[w] + DotOver(s - {w}, a, b)
    decreases |s|
  {
    var v :| v in s && DotOver(s, a, b) == a[v] * b[v] + DotOver(s - {v}, a, b);
    if v != w {
      DotRemove(s - {v}, a, b, w);
      DotRemove(s - {w}, a, b, v);
      assert s - {v} - {w} == s - {w} - {v};
    }
  }

  lemma {:induction false} GapRemove(s: set<string>, a: Bag, b: Bag, x: int, y: int, w: string)
    requires w in s
    ensures GapOver(s, a, b, x, y) ==
      (x * a[w] - y * b[w]) * (x * a[w] - y * b[w]) + GapOver(s - {w}, a, b, x, y)
    decreases |s|
  {
    var v :| v in s && GapOver(s, a, b, x, y) ==
      (x * a[v] - y * b[v]) * (x * a[v] - y * b[v]) + GapOver(s - {v}, a, b, x, y);
    if v != w {
      GapRemove(s - {v}, a, b, x, y, w);
      GapRemove(s - {w}, a, b, x, y, v);
      assert s - {v} - {w} == s - {w} - {v};
    }
  }

  /** Words outside both bags add nothing. */
  lemma {:induction false} DotWiden(s: set<string>, t: set<string>, a: Bag, b: Bag)
    requires s <= t && forall w :: w in t && w !in s ==> a[w] * b[w] == 0
    ensures DotOver(t, a, b) == DotOver(s, a, b)
    decreases |t|
  {
    if s != t {
      var w :| w in t && w !in s;
      DotRemove(t, a, b, w);
      DotWiden(s, t - {w}, a, b);
    }
  }

  lemma {:induction false} DotSymmetricOver(s: set<string>, a: Bag, b: Bag)
    ensures DotOver(s, a, b) == DotOver(s, b, a)
    decreases |s|
  {
    if s != {} {
      var w :| w in s;
      DotRemove(s, a, b, w);
      DotRemove(s, b, a, w);
      DotSymmetricOver(s - {w}, a, b);
    }
  }

  lemma DotIsSymmetric(a: Bag, b: Bag)
    ensures Dot(a, b) == Dot(b, a)
  {
    assert Vocabulary(a, b) == Vocabulary(b, a);
    DotSymmetricOver(Vocabulary(a, b), a, b);
  }

  lemma NormOver(s: set<string>, a: Bag)
    requires forall w :: w in a ==> w in s
    ensures DotOver(s, a, a) == Norm(a)
  {
    DotWiden(Vocabulary(a, a), s, a, a);
  }

  lemma NormPositive(a: Bag)
    ensures Norm(a) > 0 <==> a != multiset{}
  {
    if w :| w in a {
      assert w in Vocabulary(a, a);
      DotRemove(Vocabulary(a, a), a, a, w);
      assert a[w] * a[w] > 0;
    } else {
      assert Vocabulary(a, a) == {};
    }
  }

  // ---- Cauchy-Schwarz -----------------------------------------------------------------------

  lemma SquareExpands(x: int, p: int, y: int, q: int)
    ensures (x * p - y * q) * (x * p - y * q) == x * x * (p * p) - 2 * (x * y) * (p * q) + y * y * (q * q)
  {
    var u, v := x * p, y * q;
    assert (u - v) * (u - v) == u * u - 2 * (u * v) + v * v;
    assert u * u == x * x * (p * p);
    assert v * v == y * y * (q * q);
    assert u * v == x * y * (p * q);
  }

  lemma Distribute(k: int, p: int, q: int)
    ensures k * (p + q) == k * p + k * q
  {
  }

  lemma GapStep(x: int, y: int, p: int, q: int, aa: int, ab: int, bb: int)
    ensures (x * p - y * q) * (x * p - y * q) + (x * x * aa - 2 * (x * y) * ab + y * y * bb) ==
      x * x * (p * p + aa) - 2 * (x * y) * (p * q + ab) + y * y * (q * q + bb)
  {
    SquareExpands(x, p, y, q);
    Distribute(x * x, p * p, aa);
    Distribute(2 * (x * y), p * q, ab);
    Distribute(y * y, q * q, bb);
  }

  lemma {:induction false} GapExpands(s: set<string>, a: Bag, b: Bag, x: int, y: int)
    ensures GapOver(s, a, b, x, y) ==
      x * x * DotOver(s, a, a) - 2 * (x * y) * DotOver(s, a, b) + y * y * DotOver(s, b, b)
    decreases |s|
  {
    if s != {} {
      var w :| w in s;
      var r := s - {w};
      GapExpands(r, a, b, x, y);
      GapRemove(s, a, b, x, y, w);
      DotRemove(s, a, a, w);
      DotRemove(s, a, b, w);
      DotRemove(s, b, b, w);
      GapStep(x, y, a[w], b[w], DotOver(r, a, a), DotOver(r, a, b), DotOver(r, b, b));
    }
  }

  lemma {:induction false} GapZeroIff(s: set<string>, a: Bag, b: Bag, x: int, y: int)
    ensures GapOver(s, a, b, x, y) >= 0
    ensures GapOver(s, a, b, x, y) == 0 <==> forall w :: w in s ==> x * a[w] == y * b[w]
    decreases |s|
  {
    if s != {} {
      var v :| v in s;
      GapRemove(s, a, b, x, y, v);
      GapZeroIff(s - {v}, a, b, x, y);
      SquareZeroIff(x * a[v] - y * b[v]);
      assert forall w :: w in s <==> w == v || w in s - {v};
    }
  }

  lemma SquareZeroIff(d: int)
    ensures d * d >= 0 && (d * d == 0 <==> d == 0)
  {
  }

  /** The frequency vectors point in the same direction. */
  ghost predicate Proportional(a: Bag, b: Bag) {
    forall v, w {:trigger a[v], b[w]} :: a[v] * b[w] == a[w] * b[v]
  }

  /** dot squared is at most the product of the norms, and equal exactly for proportional vectors. */
  lemma CauchySchwarz(a: Bag, b: Bag)
    ensures Dot(a, b) * Dot(a, b) <= Norm(a) * Norm(b)
    ensures Dot(a, b) * Dot(a, b) == Norm(a) * Norm(b) <==> Proportional(a, b)
  {
    NormPositive(b);
    if b == multiset{} {
      EmptyDot(a, b);
    } else {
      var s, d, n1, n2 := Vocabulary(a, b), Dot(a, b), Norm(a), Norm(b);
      NormOver(s, a);
      NormOver(s, b);
      GapExpands(s, a, b, n2, d);
      GapZeroIff(s, a, b, n2, d);
      Discriminant(n1, n2, d, GapOver(s, a, b, n2, d));
      SameDirectionIff(a, b);
    }
  }

  lemma Discriminant(n1: int, n2: int, d: int, gap: int)
    requires n2 > 0 && gap >= 0 && gap == n2 * n2 * n1 - 2 * (n2 * d) * d + d * d * n2
    ensures d * d <= n1 * n2 && (gap == 0 <==> d * d == n1 * n2)
  {
    GapIsProduct(n1, n2, d);
    ProductSign(n2, n1 * n2 - d * d);
  }

  lemma EmptyDot(a: Bag, b: Bag)
    requires b == multiset{}
    ensures Dot(a, b) == 0 && Proportional(a, b)
  {
    var s := Vocabulary(a, b);
    DotWiden({}, s, a, b);
  }

  lemma GapIsProduct(n1: int, n2: int, d: int)
    ensures n2 * n2 * n1 - 2 * (n2 * d) * d + d * d * n2 == n2 * (n1 * n2 - d * d)
  {
    var t := d * d;
    assert n2 * (n1 * n2 - t) == n2 * (n1 * n2) - n2 * t;
    assert n2 * n2 * n1 == n2 * (n1 * n2);
    assert (n2 * d) * d == n2 * t;
    assert 2 * (n2 * d) * d == 2 * (n2 * t);
  }

  lemma ProductSign(n: int, g: int)
    requires n > 0 && n * g >= 0
    ensures g >= 0 && (n * g == 0 <==> g == 0)
  {
  }

  lemma Cancel(n: int, p: int, q: int)
    requires n > 0 && n * p == n * q
    ensures p == q
  {
  }

  ghost predicate SameDirection(a: Bag, b: Bag) {
    forall w :: w in Vocabulary(a, b) ==> Norm(b) * a[w] == Dot(a, b) * b[w]
  }

  /** norm(b) a = dot b says that a and b are proportional. */
  lemma SameDirectionIff(a: Bag, b: Bag)
    requires Norm(b) > 0
    ensures SameDirection(a, b) <==> Proportional(a, b)
  {
    if SameDirection(a, b) {
      forall v, w ensures a[v] * b[w] == a[w] * b[v] {
        DirectionCrosses(a, b, v, w);
      }
    }
    if Proportional(a, b) {
      ProportionalDirection(a, b);
    }
  }

  lemma ProportionalDirection(a: Bag, b: Bag)
    requires Proportional(a, b)
    ensures SameDirection(a, b)
  {
    var s := Vocabulary(a, b);
    NormOver(s, b);
    forall w | w in s ensures Norm(b) * a[w] == Dot(a, b) * b[w] {
      DirectionSum(s, a, b, w);
    }
  }

  lemma DirectionAt(a: Bag, b: Bag, w: string)
    requires SameDirection(a, b)
    ensures Norm(b) * a[w] == Dot(a, b) * b[w]
  {
    if w !in Vocabulary(a, b) {
      assert a[w] == 0 && b[w] == 0;
    }
  }

  lemma DirectionCrosses(a: Bag, b: Bag, v: string, w: string)
    requires Norm(b) > 0 && SameDirection(a, b)
    ensures a[v] * b[w] == a[w] * b[v]
  {
    var n, d := Norm(b), Dot(a, b);
    DirectionAt(a, b, v);
    DirectionAt(a, b, w);
    CrossFromDirection(n, d, a[v], b[v], a[w], b[w]);
  }

  lemma CrossFromDirection(n: int, d: int, p: int, q: int, r: int, t: int)
    requires n > 0 && n * p == d * q && n * r == d * t
    ensures p * t == r * q
  {
    assert n * (p * t) == (n * p) * t;
    assert (d * q) * t == (d * t) * q;
    assert (n * r) * q == n * (r * q);
    Cancel(n, p * t, r * q);
  }

  lemma DirectionStep(p: int, q: int, r: int, t: int, n: int, d: int)
    requires p * t == r * q && n * r == d * t
    ensures (q * q + n) * r == (p * q + d) * t
  {
    assert (q * q) * r == q * (r * q);
    assert (p * q) * t == q * (p * t);
    Distribute(r, q * q, n);
    Distribute(t, p * q, d);
  }

  lemma {:induction false} DirectionSum(s: set<string>, a: Bag, b: Bag, w: string)
    requires Proportional(a, b)
    ensures DotOver(s, b, b) * a[w] == DotOver(s, a, b) * b[w]
    decreases |s|
  {
    if s != {} {
      var v :| v in s;
      DirectionSum(s - {v}, a, b, w);
      DotRemove(s, b, b, v);
      DotRemove(s, a, b, v);
      DirectionStep(a[v], b[v], a[w], b[w], DotOver(s - {v}, b, b), DotOver(s - {v}, a, b));
    }
  }

  // ---- the loops ---------------------------------------------------------------------------

  method Frequencies(words: seq<string>) returns (freq: map<string, nat>)
    ensures forall w :: w in freq <==> w in words
    ensures forall w :: w in freq ==> freq[w] == multiset(words)[w]
  {
    freq := map[];
    for k := 0 to |words|
      invariant forall w :: w in freq <==> w in words[..k]
      invariant forall w :: w in freq ==> freq[w] == multiset(words[..k])[w]
    {
      var w := words[k];
      assert words[..k + 1] == words[..k] + [w];
      freq := freq[w := (if w in freq then freq[w] else 0) + 1];
    }
    assert words[..|words|] == words;
  }

  /** freq holds the counts of bag. */
  ghost predicate Counts(freq: map<string, nat>, bag: Bag) {
    forall w :: (w in freq <==> w in bag) && (w in freq ==> freq[w] == bag[w])
  }

  function CountOf(freq: map<string, nat>, w: string): nat {
    if w in freq then freq[w] else 0
  }

  /** What one word adds to a sum of products. */
  method Product(freq1: map<string, nat>, ghost a: Bag, freq2: map<string, nat>, ghost b: Bag,
                 ghost rest: set<string>, w: string)
    returns (p: nat)
    requires Counts(freq1, a) && Counts(freq2, b) && w in rest
    ensures DotOver(rest, a, b) == p + DotOver(rest - {w}, a, b)
  {
    p := CountOf(freq1, w) * CountOf(freq2, w);
    DotRemove(rest, a, b, w);
  }

  /** Dot product and squared norms; the set of all words is walked in any order. */
  method SumParts(freq1: map<string, nat>, freq2: map<string, nat>, ghost a: Bag, ghost b: Bag)
    returns (dot: nat, norm1: nat, norm2: nat)
    requires Counts(freq1, a) && Counts(freq2, b)
    ensures dot == Dot(a, b) && norm1 == Norm(a) && norm2 == Norm(b)
  {
    var rest := freq1.Keys + freq2.Keys;
    KeysCover(freq1, freq2, a, b);
    dot, norm1, norm2 := 0, 0, 0;
    while rest != {}
      invariant dot + DotOver(rest, a, b) == Dot(a, b)
      invariant norm1 + DotOver(rest, a, a) == Norm(a)
      invariant norm2 + DotOver(rest, b, b) == Norm(b)
      decreases |rest|
    {
      var w :| w in rest;
      var v12 := Product(freq1, a, freq2, b, rest, w);
      var v11 := Product(freq1, a, freq1, a, rest, w);
      var v22 := Product(freq2, b, freq2, b, rest, w);
      dot, norm1, norm2 := dot + v12, norm1 + v11, norm2 + v22;
      rest := rest - {w};
    }
  }

  /** The words of both texts carry all of each sum. */
  lemma KeysCover(freq1: map<string, nat>, freq2: map<string, nat>, a: Bag, b: Bag)
    requires Counts(freq1, a) && Counts(freq2, b)
    ensures var all := freq1.Keys + freq2.Keys;
      DotOver(all, a, b) == Dot(a, b) && DotOver(all, a, a) == Norm(a) && DotOver(all, b, b) == Norm(b)
  {
    var all := freq1.Keys + freq2.Keys;
    assert all == Vocabulary(a, b);
    NormOver(all, a);
    NormOver(all, b);
  }

  method CosineParts(words1: seq<string>, words2: seq<string>) returns (dot: nat, norm1: nat, norm2: nat)
    ensures dot == Dot(multiset(words1), multiset(words2))
    ensures norm1 == Norm(multiset(words1)) && norm2 == Norm(multiset(words2))
  {
    var freq1 := Frequencies(words1);
    var freq2 := Frequencies(words2);
    dot, norm1, norm2 := SumParts(freq1, freq2, multiset(words1), multiset(words2));
  }

  // ---- the score ---------------------------------------------------------------------------

  /** s is d / (sqrt(n1) * sqrt(n2)). */
  ghost predicate IsQuotient(s: real, n1: nat, n2: nat, d: nat) {
    s >= 0.0 && s * s * (n1 * n2) as real == (d * d) as real
  }

  lemma SquareOrder(s: real, t: real)
    requires s >= 0.0 && t >= 0.0
    ensures s * s <= t * t <==> s <= t
  {
    assert s * s - t * t == (s - t) * (s + t);
    assert t * t - s * s == (t - s) * (s + t);
    if s > t { RealProduct(s - t, s + t); }
    if s < t { RealProduct(t - s, s + t); }
  }

  lemma RealProduct(x: real, y: real)
    requires x > 0.0 && y > 0.0
    ensures x * y > 0.0
  {
  }

  lemma MulPositive(m: int, n: int)
    requires m > 0 && n > 0
    ensures m * n > 0
  {
  }

  lemma ScaleOrder(x: real, y: real, n: real)
    requires n > 0.0
    ensures x * n <= y * n <==> x <= y
    ensures x * n == y * n <==> x == y
  {
  }

  lemma QuotientRange(s: real, n1: nat, n2: nat, d: nat)
    requires n1 > 0 && n2 > 0 && IsQuotient(s, n1, n2, d) && d * d <= n1 * n2
    ensures s <= 1.0 && (s == 1.0 <==> d * d == n1 * n2)
  {
    MulPositive(n1, n2);
    var n := (n1 * n2) as real;
    ScaleOrder(s * s, 1.0, n);
    SquareOrder(s, 1.0);
    SquareOrder(1.0, s);
  }

  lemma QuotientUnique(s: real, t: real, n1: nat, n2: nat, d: nat)
    requires n1 > 0 && n2 > 0 && IsQuotient(s, n1, n2, d) && IsQuotient(t, n1, n2, d)
    ensures s == t
  {
    MulPositive(n1, n2);
    ScaleOrder(s * s, t * t, (n1 * n2) as real);
    SquareOrder(s, t);
    SquareOrder(t, s);
  }

  lemma QuotientOfRoots(d: nat, n1: nat, n2: nat, root1: real, root2: real)
    requires root1 > 0.0 && root2 > 0.0 && root1 * root1 == n1 as real && root2 * root2 == n2 as real
    ensures root1 * root2 > 0.0 && IsQuotient(d as real / (root1 * root2), n1, n2, d)
  {
    var r := root1 * root2;
    assert r > 0.0;
    var s := d as real / r;
    assert s * r == d as real;
    RegroupSquares(root1, root2);
    assert (n1 * n2) as real == (n1 as real) * (n2 as real);
    RegroupSquares(s, r);
    assert (d * d) as real == (d as real) * (d as real);
    assert s >= 0.0;
  }

  lemma RegroupSquares(x: real, y: real)
    ensures (x * y) * (x * y) == x * x * (y * y)
  {
  }

  lemma QuotientScales(s: real, n1: nat, n2: nat, d: nat, k: nat)
    requires IsQuotient(s, n1, n2, d)
    ensures IsQuotient(s, k * (k * n1), n2, k * d)
  {
    var n, e, kk := n1 * n2, d * d, k * k;
    RegroupInts(k, n1, n2, d);
    assert (kk * n) as real == (kk as real) * (n as real);
    assert (kk * e) as real == (kk as real) * (e as real);
    RegroupReals(s * s, kk as real, n as real);
  }

  lemma RegroupInts(k: int, n1: int, n2: int, d: int)
    ensures k * (k * n1) * n2 == k * k * (n1 * n2) && (k * d) * (k * d) == k * k * (d * d)
  {
    assert k * (k * n1) == k * k * n1;
    assert (k * k) * n1 * n2 == (k * k) * (n1 * n2);
    assert (k * d) * (k * d) == k * (d * k) * d;
  }

  lemma RegroupReals(x: real, y: real, z: real)
    ensures x * (y * z) == y * (x * z)
  {
  }

  /** s is the similarity of two token lists: their cosine, or 0 when one has no token. */
  ghost predicate IsScore(s: real, a: Bag, b: Bag) {
    if a == multiset{} || b == multiset{} then s == 0.0 else IsQuotient(s, Norm(a), Norm(b), Dot(a, b))
  }

  /** The code's quotient, with exact square roots, is the score. */
  lemma QuotientIsScore(a: Bag, b: Bag, root1: real, root2: real)
    requires a != multiset{} && b != multiset{}
    requires root1 > 0.0 && root2 > 0.0 && root1 * root1 == Norm(a) as real && root2 * root2 == Norm(b) as real
    ensures root1 * root2 > 0.0 && IsScore(Dot(a, b) as real / (root1 * root2), a, b)
  {
    QuotientOfRoots(Dot(a, b), Norm(a), Norm(b), root1, root2);
  }

  /** The score lies in [0, 1] and is 1 exactly for non-empty proportional texts. */
  lemma ScoreRange(s: real, a: Bag, b: Bag)
    requires IsScore(s, a, b)
    ensures 0.0 <= s <= 1.0
    ensures s == 1.0 <==> a != multiset{} && b != multiset{} && Proportional(a, b)
  {
    if a != multiset{} && b != multiset{} {
      NormPositive(a);
      NormPositive(b);
      CauchySchwarz(a, b);
      QuotientRange(s, Norm(a), Norm(b), Dot(a, b));
    }
  }

  lemma ScoreUnique(s: real, t: real, a: Bag, b: Bag)
    requires IsScore(s, a, b) && IsScore(t, a, b)
    ensures s == t
  {
    if a != multiset{} && b != multiset{} {
      NormPositive(a);
      NormPositive(b);
      QuotientUnique(s, t, Norm(a), Norm(b), Dot(a, b));
    }
  }

  lemma QuotientSymmetric(s: real, n1: nat, n2: nat, d: nat)
    requires IsQuotient(s, n1, n2, d)
    ensures IsQuotient(s, n2, n1, d)
  {
    assert n1 * n2 == n2 * n1;
  }

  /** Response and ground truth may change places. */
  lemma ScoreIsSymmetric(s: real, a: Bag, b: Bag)
    requires IsScore(s, a, b)
    ensures IsScore(s, b, a)
  {
    DotIsSymmetric(a, b);
    if a != multiset{} && b != multiset{} {
      QuotientSymmetric(s, Norm(a), Norm(b), Dot(a, b));
    }
  }

  /** ka holds every word k times as often as a. */
  ghost predicate Multiple(ka: Bag, a: Bag, k: nat) {
    forall w :: ka[w] == k * a[w]
  }

  lemma MultipleStep(k: int, p: int, q: int, d: int)
    ensures (k * p) * q + k * d == k * (p * q + d)
  {
    assert (k * p) * q == k * (p * q);
  }

  lemma {:induction false} DotMultiple(s: set<string>, ka: Bag, a: Bag, k: nat, b: Bag)
    requires Multiple(ka, a, k)
    ensures DotOver(s, ka, b) == k * DotOver(s, a, b)
    decreases |s|
  {
    if s != {} {
      var w :| w in s;
      DotRemove(s, ka, b, w);
      DotRemove(s, a, b, w);
      DotMultiple(s - {w}, ka, a, k, b);
      MultipleStep(k, a[w], b[w], DotOver(s - {w}, a, b));
      assert ka[w] == k * a[w];
    }
  }

  lemma SameWords(ka: Bag, a: Bag, k: nat)
    requires Multiple(ka, a, k) && k > 0
    ensures forall w :: w in ka <==> w in a
  {
    forall w ensures w in ka <==> w in a {
      assert ka[w] == k * a[w];
      if w in a { MulPositive(k, a[w]); }
    }
  }

  lemma DotsOfMultiple(ka: Bag, a: Bag, k: nat, b: Bag)
    requires Multiple(ka, a, k) && k > 0
    ensures Dot(ka, b) == k * Dot(a, b) && Norm(ka) == k * (k * Norm(a))
  {
    SameWords(ka, a, k);
    assert Vocabulary(ka, b) == Vocabulary(a, b);
    assert Vocabulary(ka, ka) == Vocabulary(a, a);
    DotMultiple(Vocabulary(a, b), ka, a, k, b);
    DotMultiple(Vocabulary(a, a), ka, a, k, ka);
    DotSymmetricOver(Vocabulary(a, a), a, ka);
    DotMultiple(Vocabulary(a, a), ka, a, k, a);
  }

  /** Repeating a text does not change its score. */
  lemma ScoreOfRepeatedText(s: real, ka: Bag, a: Bag, k: nat, b: Bag)
    requires k > 0 && Multiple(ka, a, k) && IsScore(s, a, b)
    ensures IsScore(s, ka, b)
  {
    SameWords(ka, a, k);
    assert ka == multiset{} <==> a == multiset{} by {
      if a != multiset{} { var w :| w in a; assert w in ka; }
    }
    DotsOfMultiple(ka, a, k, b);
    if a != multiset{} && b != multiset{} {
      QuotientScales(s, Norm(a), Norm(b), Dot(a, b), k);
    }
  }
}
