/**
 Real-valued accounts keyed by participant: the "missing key reads as zero"
 accessor that stands in for Python's defaultdict(float), the `+=` update on
 such a map, and finite sums over sets and maps with the lemmas that make
 those sums independent of iteration order.
 */
module Sums {

  /** `x` added to itself `k` times; kept apart from `*` so that proofs stay linear. */
  function Times(k: nat, x: real): real
  {
    if k == 0 then 0.0 else x + Times(k - 1, x)
  }

  lemma {:induction false} TimesIsProduct(k: nat, x: real)
    ensures Times(k, x) == k as real * x
  {
    if k > 0 {
      TimesIsProduct(k - 1, x);
    }
  }

  /** `k` equal shares of `w / k` add back up to `w`. */
  lemma TimesShare(k: nat, w: real)
    requires k > 0
    ensures Times(k, w / k as real) == w
  {
    TimesIsProduct(k, w / k as real);
  }

  lemma {:induction false} TimesNonNegative(k: nat, x: real)
    requires x >= 0.0
    ensures Times(k, x) >= 0.0
  {
    if k > 0 {
      TimesNonNegative(k - 1, x);
    }
  }

  /** The value stored under `k`, or 0.0 when `k` has no entry. */
  function Get<K>(m: map<K, real>, k: K): real
  {
    if k in m then m[k] else 0.0
  }

  /** `m[k] += x` on a defaultdict(float): the entry is created when missing. */
  function Credit<K(!new)>(m: map<K, real>, k: K, x: real): (r: map<K, real>)
    ensures r.Keys == m.Keys + {k}
    ensures Get(r, k) == Get(m, k) + x
    ensures forall j :: j != k ==> Get(r, j) == Get(m, j)
  {
    m[k := Get(m, k) + x]
  }

  /** Maps with the same keys that read the same everywhere are equal. */
  lemma GetExt<K>(m1: map<K, real>, m2: map<K, real>)
    requires m1.Keys == m2.Keys
    requires forall k :: Get(m1, k) == Get(m2, k)
    ensures m1 == m2
  {
    forall k | k in m1 ensures m1[k] == m2[k] {
      assert Get(m1, k) == Get(m2, k);
    }
  }

  /** The accessor `Get(m, _)` as a function value. */
  function ValueOf<K>(m: map<K, real>): K -> real
  {
    k => Get(m, k)
  }

  /** Every value stored in `m` is non-negative. */
  ghost predicate NonNegative<K>(m: map<K, real>)
  {
    forall k :: k in m ==> m[k] >= 0.0
  }

  /** The sum of `f` over the finite set `s`, in no particular order. */
  ghost function Sum<K>(s: set<K>, f: K -> real): real
    decreases s
  {
    if s == {} then 0.0 else var x :| x in s; f(x) + Sum(s - {x}, f)
  }

  /** The sum of all values stored in `m`. */
  ghost function Total<K>(m: map<K, real>): real
  {
    Sum(m.Keys, ValueOf(m))
  }

  /** Any element may be taken out first: the sum does not depend on the order. */
  lemma {:induction false} SumRemove<K>(s: set<K>, f: K -> real, y: K)
    requires y in s
    ensures Sum(s, f) == f(y) + Sum(s - {y}, f)
    decreases s
  {
    var x :| x in s && Sum(s, f) == f(x) + Sum(s - {x}, f);
    if x != y {
      SumRemove(s - {x}, f, y);
      SumRemove(s - {y}, f, x);
      assert s - {x} - {y} == s - {y} - {x};
    }
  }

  lemma SumInsert<K>(s: set<K>, f: K -> real, y: K)
    requires y !in s
    ensures Sum(s + {y}, f) == f(y) + Sum(s, f)
  {
    SumRemove(s + {y}, f, y);
    assert s + {y} - {y} == s;
  }

  /** A sum of non-negative terms is at least any one of them. */
  lemma SumAtLeast<K>(s: set<K>, f: K -> real, y: K)
    requires y in s
    requires forall x :: x in s ==> f(x) >= 0.0
    ensures Sum(s, f) >= f(y)
  {
    SumRemove(s, f, y);
    SumNonNegative(s - {y}, f);
  }

  /** Sums of functions that agree on `s` are equal. */
  lemma {:induction false} SumExt<K>(s: set<K>, f: K -> real, g: K -> real)
    requires forall x :: x in s ==> f(x) == g(x)
    ensures Sum(s, f) == Sum(s, g)
    decreases s
  {
    if s != {} {
      var x :| x in s;
      SumRemove(s, f, x);
      SumRemove(s, g, x);
      SumExt(s - {x}, f, g);
    }
  }

  /** Summing pointwise: Sum(f) + Sum(g) == Sum(h) when h == f + g on `s`. */
  lemma {:induction false} SumAdd<K>(s: set<K>, f: K -> real, g: K -> real, h: K -> real)
    requires forall x :: x in s ==> h(x) == f(x) + g(x)
    ensures Sum(s, f) + Sum(s, g) == Sum(s, h)
    decreases s
  {
    if s != {} {
      var x :| x in s;
      SumRemove(s, f, x);
      SumRemove(s, g, x);
      SumRemove(s, h, x);
      SumAdd(s - {x}, f, g, h);
    }
  }

  /** A sum is monotone in its terms. */
  lemma {:induction false} SumMono<K>(s: set<K>, f: K -> real, g: K -> real)
    requires forall x :: x in s ==> f(x) <= g(x)
    ensures Sum(s, f) <= Sum(s, g)
    decreases s
  {
    if s != {} {
      var x :| x in s;
      SumRemove(s, f, x);
      SumRemove(s, g, x);
      SumMono(s - {x}, f, g);
    }
  }

  lemma {:induction false} SumNonNegative<K>(s: set<K>, f: K -> real)
    requires forall x :: x in s ==> f(x) >= 0.0
    ensures Sum(s, f) >= 0.0
    decreases s
  {
    if s != {} {
      var x :| x in s;
      SumRemove(s, f, x);
      SumNonNegative(s - {x}, f);
    }
  }

  /** Terms that vanish on `s` sum to zero. */
  lemma {:induction false} SumZero<K>(s: set<K>, f: K -> real)
    requires forall x :: x in s ==> f(x) == 0.0
    ensures Sum(s, f) == 0.0
    decreases s
  {
    if s != {} {
      var x :| x in s;
      SumRemove(s, f, x);
      SumZero(s - {x}, f);
    }
  }

  /** Terms outside the support `t` are zero, so summing over any superset gives the same. */
  lemma SumSupport<K>(s: set<K>, t: set<K>, f: K -> real)
    requires t <= s
    requires forall x :: x in s && x !in t ==> f(x) == 0.0
    ensures Sum(s, f) == Sum(t, f)
    decreases s
  {
    if s != t {
      var x :| x in s && x !in t;
      SumRemove(s, f, x);
      SumSupport(s - {x}, t, f);
    }
  }

  /** Taking one entry out of a map. */
  lemma TotalRemove<K>(m: map<K, real>, k: K)
    requires k in m
    ensures Total(m) == m[k] + Total(m - {k})
  {
    SumRemove(m.Keys, ValueOf(m), k);
    assert (m - {k}).Keys == m.Keys - {k};
    SumExt(m.Keys - {k}, ValueOf(m), ValueOf(m - {k}));
  }

  /** `m[k] += x` raises the total by exactly `x`. */
  lemma TotalCredit<K(!new)>(m: map<K, real>, k: K, x: real)
    ensures Total(Credit(m, k, x)) == Total(m) + x
  {
    var r := Credit(m, k, x);
    SumRemove(r.Keys, ValueOf(r), k);
    SumExt(r.Keys - {k}, ValueOf(r), ValueOf(m));
    if k in m {
      SumRemove(m.Keys, ValueOf(m), k);
      assert r.Keys - {k} == m.Keys - {k};
    } else {
      assert r.Keys - {k} == m.Keys;
    }
  }

  /** The entries of `m` whose key is in `s`. */
  function Within<K, V>(m: map<K, V>, s: set<K>): (r: map<K, V>)
    ensures r.Keys == m.Keys * s
  {
    map k | k in m && k in s :: m[k]
  }

  /** The entries of `m` whose key is not in `s`. */
  function Outside<K>(m: map<K, real>, s: set<K>): (r: map<K, real>)
    ensures r.Keys == m.Keys - s
  {
    map k | k in m && k !in s :: m[k]
  }

  lemma WithinOutsideRemove<K>(m: map<K, real>, s: set<K>, k: K)
    ensures Within(m - {k}, s) == Within(m, s) - {k}
    ensures Outside(m - {k}, s) == Outside(m, s) - {k}
  {
    assert Within(m - {k}, s).Keys == (Within(m, s) - {k}).Keys;
    assert Outside(m - {k}, s).Keys == (Outside(m, s) - {k}).Keys;
  }

  /** Splitting a map into the entries inside and outside `s` splits its total. */
  lemma {:induction false} TotalPartition<K>(m: map<K, real>, s: set<K>)
    ensures Total(Within(m, s)) + Total(Outside(m, s)) == Total(m)
    decreases m.Keys
  {
    if m.Keys == {} {
      assert Within(m, s).Keys == {} && Outside(m, s).Keys == {};
    } else {
      var k :| k in m;
      assert (m - {k}).Keys == m.Keys - {k};
      TotalPartition(m - {k}, s);
      TotalRemove(m, k);
      PartitionStep(m, s, k);
    }
  }

  lemma PartitionStep<K>(m: map<K, real>, s: set<K>, k: K)
    requires k in m
    ensures Total(Within(m, s)) + Total(Outside(m, s))
         == m[k] + Total(Within(m - {k}, s)) + Total(Outside(m - {k}, s))
  {
    WithinOutsideRemove(m, s, k);
    var W, O := Within(m, s), Outside(m, s);
    if k in s {
      TotalRemove(W, k);
      assert O - {k} == O;
    } else {
      TotalRemove(O, k);
      assert W - {k} == W;
    }
  }

  /** Sum over the elements of a duplicate-free sequence, left to right. */
  function SeqSum<K>(xs: seq<K>, f: K -> real): real
  {
    if xs == [] then 0.0 else f(xs[0]) + SeqSum(xs[1..], f)
  }

  /** A set sum can be evaluated along any enumeration without repeats. */
  lemma {:induction false} SumAsSeqSum<K>(xs: seq<K>, f: K -> real)
    requires forall i, j :: 0 <= i < j < |xs| ==> xs[i] != xs[j]
    ensures Sum((set x | x in xs), f) == SeqSum(xs, f)
  {
    if xs != [] {
      var s := set x | x in xs;
      var t := set x | x in xs[1..];
      assert xs[0] !in t;
      assert s == t + {xs[0]};
      SumInsert(t, f, xs[0]);
      SumAsSeqSum(xs[1..], f);
    }
  }
}
