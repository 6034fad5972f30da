/** The array idioms the views are built from: `filter`, `reduce` to a sum, `includes`-guarded
    toggling, and the id-keyed `map` that rewrites only the matching record. */
module Lists {

  /** `s.filter(p)`: the elements of `s` that satisfy `p`, in their original order. */
  function Filter<T>(s: seq<T>, p: T -> bool): (r: seq<T>)
    ensures |r| <= |s|
    ensures forall i :: 0 <= i < |r| ==> r[i] in s && p(r[i])
    ensures forall i :: 0 <= i < |s| && p(s[i]) ==> s[i] in r
  {
    if s == [] then []
    else if p(s[0]) then [s[0]] + Filter(s[1..], p)
    else Filter(s[1..], p)
  }

  /** Filtering distributes over concatenation: the result keeps the input's order. */
  lemma {:induction false} FilterConcat<T>(a: seq<T>, b: seq<T>, p: T -> bool)
    ensures Filter(a + b, p) == Filter(a, p) + Filter(b, p)
  {
    if a == [] {
      assert a + b == b;
    } else {
      assert (a + b)[1..] == a[1..] + b;
      FilterConcat(a[1..], b, p);
    }
  }

  /** A filter whose predicate holds everywhere returns its input unchanged. */
  lemma {:induction false} FilterAll<T>(s: seq<T>, p: T -> bool)
    requires forall i :: 0 <= i < |s| ==> p(s[i])
    ensures Filter(s, p) == s
  {
    if s != [] {
      FilterAll(s[1..], p);
    }
  }

  /** No element occurs twice. */
  predicate NoDup<T(==)>(s: seq<T>) {
    forall i, j :: 0 <= i < j < |s| ==> s[i] != s[j]
  }

  lemma {:induction false} FilterNoDup<T>(s: seq<T>, p: T -> bool)
    requires NoDup(s)
    ensures NoDup(Filter(s, p))
  {
    if s != [] {
      FilterNoDup(s[1..], p);
      var rest := Filter(s[1..], p);
      assert s[0] !in s[1..];
      assert s[0] !in rest;
    }
  }

  /** `includes(x) ? filter(y => y !== x) : [...s, x]`: flip the membership of one element. */
  function Toggle<T(==)>(s: seq<T>, x: T): (r: seq<T>)
    ensures x in r <==> x !in s
    ensures forall i :: 0 <= i < |s| && s[i] != x ==> s[i] in r
    ensures forall i :: 0 <= i < |r| && r[i] != x ==> r[i] in s
  {
    if x in s then Filter(s, y => y != x) else s + [x]
  }

  /** Toggling keeps a duplicate-free list duplicate-free, and toggling twice from a list
      that lacks `x` gives the list back. */
  lemma ToggleKeepsNoDup<T>(s: seq<T>, x: T)
    requires NoDup(s)
    ensures NoDup(Toggle(s, x))
  {
    if x in s {
      FilterNoDup(s, y => y != x);
    }
  }

  lemma ToggleTwice<T>(s: seq<T>, x: T)
    requires x !in s
    ensures Toggle(Toggle(s, x), x) == s
  {
    assert x in s + [x];
    FilterConcat(s, [x], y => y != x);
    FilterAll(s, y => y != x);
  }

  /** `s.reduce((sum, e) => sum + f(e), 0)`. */
  function Sum<T>(s: seq<T>, f: T -> int): int
  {
    if s == [] then 0 else f(s[0]) + Sum(s[1..], f)
  }

  lemma {:induction false} SumConcat<T>(a: seq<T>, b: seq<T>, f: T -> int)
    ensures Sum(a + b, f) == Sum(a, f) + Sum(b, f)
  {
    if a == [] {
      assert a + b == b;
    } else {
      assert (a + b)[1..] == a[1..] + b;
      SumConcat(a[1..], b, f);
    }
  }

  lemma {:induction false} SumNonNegative<T>(s: seq<T>, f: T -> int)
    requires forall i :: 0 <= i < |s| ==> f(s[i]) >= 0
    ensures Sum(s, f) >= 0
  {
    if s != [] {
      SumNonNegative(s[1..], f);
    }
  }

  /** `s.map(e => p(e) ? g(e) : e)`: rewrite exactly the elements that satisfy `p`. */
  function MapWhere<T>(s: seq<T>, p: T -> bool, g: T -> T): (r: seq<T>)
    ensures |r| == |s|
    ensures forall i :: 0 <= i < |s| && p(s[i]) ==> r[i] == g(s[i])
    ensures forall i :: 0 <= i < |s| && !p(s[i]) ==> r[i] == s[i]
  {
    seq(|s|, i requires 0 <= i < |s| => if p(s[i]) then g(s[i]) else s[i])
  }

  /** `s.find(p)`: the first element that satisfies `p`, if any. */
  function Find<T>(s: seq<T>, p: T -> bool): (r: int)
    ensures -1 <= r < |s|
    ensures r >= 0 ==> p(s[r]) && forall j :: 0 <= j < r ==> !p(s[j])
    ensures r < 0 ==> forall j :: 0 <= j < |s| ==> !p(s[j])
  {
    if s == [] then -1
    else if p(s[0]) then 0
    else var k := Find(s[1..], p); if k < 0 then -1 else k + 1
  }

  /** `s.some(p)`. */
  predicate Exists<T>(s: seq<T>, p: T -> bool) {
    exists i :: 0 <= i < |s| && p(s[i])
  }

  /** Some element of `s` has key `k`. */
  predicate HasKey<T, K(==)>(s: seq<T>, key: T -> K, k: K) {
    exists i :: 0 <= i < |s| && key(s[i]) == k
  }

  /** No two elements of `s` share a key. */
  predicate UniqueKeys<T, K(==)>(s: seq<T>, key: T -> K) {
    forall i, j :: 0 <= i < j < |s| ==> key(s[i]) != key(s[j])
  }

  /** `s.find(y => key(y) === key(x)) ? s.map(y => key(y) === key(x) ? x : y) : [...s, x]`:
      replace the records with `x`'s key by `x` in place, or append `x` when there is none. */
  function Upsert<T, K(==)>(s: seq<T>, x: T, key: T -> K): (r: seq<T>)
    ensures HasKey(s, key, key(x)) ==> |r| == |s|
    ensures !HasKey(s, key, key(x)) ==> r == s + [x]
    ensures forall i :: 0 <= i < |r| && key(r[i]) == key(x) ==> r[i] == x
    ensures forall i :: 0 <= i < |s| && key(s[i]) != key(x) ==> r[i] == s[i]
    ensures HasKey(r, key, key(x))
  {
    if HasKey(s, key, key(x)) then MapWhere(s, y => key(y) == key(x), y => x)
    else
      assert (s + [x])[|s|] == x;
      s + [x]
  }

  /** An upsert never gives a key a second record. */
  lemma UpsertKeepsKeysUnique<T, K>(s: seq<T>, x: T, key: T -> K)
    requires UniqueKeys(s, key)
    ensures UniqueKeys(Upsert(s, x, key), key)
  {
    var r := Upsert(s, x, key);
    forall i, j | 0 <= i < j < |r| ensures key(r[i]) != key(r[j]) {
      if j == |s| {
        assert r[j] == x;
        assert !HasKey(s, key, key(x));
        assert r[i] == s[i];
      }
    }
  }

  /** A filter whose predicate holds nowhere returns nothing. */
  lemma {:induction false} FilterNone<T>(s: seq<T>, p: T -> bool)
    requires forall i :: 0 <= i < |s| ==> !p(s[i])
    ensures Filter(s, p) == []
  {
    if s != [] {
      FilterNone(s[1..], p);
    }
  }

  /** `s.filter(p).filter(q).reduce(+ f)` split into its first element and the rest. */
  lemma SumFilterFilterHead<T>(s: seq<T>, p: T -> bool, q: T -> bool, f: T -> int)
    requires s != []
    ensures Sum(Filter(Filter(s, p), q), f)
      == (if p(s[0]) && q(s[0]) then f(s[0]) else 0) + Sum(Filter(Filter(s[1..], p), q), f)
  {
    var rest := Filter(Filter(s[1..], p), q);
    if p(s[0]) {
      assert ([s[0]] + Filter(s[1..], p))[1..] == Filter(s[1..], p);
      if q(s[0]) {
        assert ([s[0]] + rest)[1..] == rest;
      }
    }
  }

  /** When two lists differ only at position `k`, a filtered sum over them differs only by what
      that position contributes. */
  lemma {:induction false} SumFilterFilterReplaceOne<T>(a: seq<T>, b: seq<T>, k: nat, p: T -> bool, q: T -> bool, f: T -> int)
    requires |a| == |b| && k < |a|
    requires forall i :: 0 <= i < |a| && i != k ==> a[i] == b[i]
    ensures Sum(Filter(Filter(b, p), q), f)
      == Sum(Filter(Filter(a, p), q), f) - (if p(a[k]) && q(a[k]) then f(a[k]) else 0)
         + (if p(b[k]) && q(b[k]) then f(b[k]) else 0)
  {
    SumFilterFilterHead(a, p, q, f);
    SumFilterFilterHead(b, p, q, f);
    if k == 0 {
      assert a[1..] == b[1..];
    } else {
      SumFilterFilterReplaceOne(a[1..], b[1..], k - 1, p, q, f);
    }
  }

  /** `s.filter(p).reduce(+ f)` split into its first element and the rest. */
  lemma SumFilterHead<T>(s: seq<T>, p: T -> bool, f: T -> int)
    requires s != []
    ensures Sum(Filter(s, p), f) == (if p(s[0]) then f(s[0]) else 0) + Sum(Filter(s[1..], p), f)
  {
    if p(s[0]) {
      assert ([s[0]] + Filter(s[1..], p))[1..] == Filter(s[1..], p);
    }
  }

  /** A filtered sum reads only which elements pass and what the passing ones contribute. */
  lemma {:induction false} SumFilterAgree<T>(a: seq<T>, b: seq<T>, p: T -> bool, f: T -> int)
    requires |a| == |b|
    requires forall i :: 0 <= i < |a| ==> p(a[i]) == p(b[i]) && (p(a[i]) ==> f(a[i]) == f(b[i]))
    ensures Sum(Filter(a, p), f) == Sum(Filter(b, p), f)
  {
    if a != [] {
      SumFilterHead(a, p, f);
      SumFilterHead(b, p, f);
      SumFilterAgree(a[1..], b[1..], p, f);
    }
  }
}
