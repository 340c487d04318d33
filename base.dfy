/** Small generic building blocks shared by every module of the model:
    an Option type, sums and filters over sequences, duplicate-free
    sequences and a stable sort by a numeric key. */
module Base {

  datatype Option<+T> = None | Some(value: T)

  /** JavaScript truthiness of an optional number: present and not zero. */
  predicate TruthyNum(o: Option<real>) {
    o.Some? && o.value != 0.0
  }

  /** JavaScript truthiness of an optional string: present and not empty. */
  predicate TruthyStr(o: Option<string>) {
    o.Some? && o.value != ""
  }

  /** `x || 0` for an optional number. */
  function OrZero(o: Option<real>): (r: real)
    ensures TruthyNum(o) ==> r == o.value
    ensures !TruthyNum(o) ==> r == 0.0
  {
    if o.Some? then o.value else 0.0
  }

  // ---------------------------------------------------------------------
  // Sums and filters, defined on the last element so that a loop over a
  // prefix `s[..i]` can keep `acc == Sum(s[..i], f)` as its invariant.
  // ---------------------------------------------------------------------

  function Sum<T>(s: seq<T>, f: T -> real): real
  {
    if |s| == 0 then 0.0 else Sum(s[..|s| - 1], f) + f(s[|s| - 1])
  }

  lemma {:induction false} AppendAssoc<T>(a: seq<T>, b: seq<T>, c: seq<T>)
    ensures (a + b) + c == a + (b + c)
  {
  }

  lemma {:induction false} SumAppend<T>(s: seq<T>, t: seq<T>, f: T -> real)
    ensures Sum(s + t, f) == Sum(s, f) + Sum(t, f)
  {
    if |t| == 0 {
      assert s + t == s;
    } else {
      assert (s + t)[..|s + t| - 1] == s + t[..|t| - 1];
      SumAppend(s, t[..|t| - 1], f);
    }
  }

  lemma {:induction false} SumSingle<T>(x: T, f: T -> real)
    ensures Sum([x], f) == f(x)
  {
    assert [x][..0] == [];
  }

  /** Sums are additive in the summed function. */
  lemma {:induction false} SumLinear<T>(s: seq<T>, f: T -> real, g: T -> real, h: T -> real)
    requires forall x :: x in s ==> h(x) == f(x) + g(x)
    ensures Sum(s, h) == Sum(s, f) + Sum(s, g)
  {
    if |s| > 0 {
      SumLinear(s[..|s| - 1], f, g, h);
    }
  }

  /** Sums of functions that agree on the sequence are equal. */
  lemma {:induction false} SumCongruent<T>(s: seq<T>, f: T -> real, g: T -> real)
    requires forall x :: x in s ==> f(x) == g(x)
    ensures Sum(s, f) == Sum(s, g)
  {
    if |s| > 0 {
      SumCongruent(s[..|s| - 1], f, g);
    }
  }

  /** A sum over a sequence every element of which contributes nothing. */
  lemma {:induction false} SumZero<T>(s: seq<T>, f: T -> real)
    requires forall x :: x in s ==> f(x) == 0.0
    ensures Sum(s, f) == 0.0
  {
    if |s| > 0 {
      SumZero(s[..|s| - 1], f);
    }
  }

  /** Removing the k-th element removes one occurrence of it. */
  lemma {:induction false} RemoveAt<T>(t: seq<T>, k: nat)
    requires k < |t|
    ensures multiset(t[..k] + t[k + 1..]) == multiset(t) - multiset{t[k]}
  {
    assert t == t[..k] + [t[k]] + t[k + 1..];
    assert multiset(t) == multiset(t[..k]) + multiset{t[k]} + multiset(t[k + 1..]);
  }

  /** The sum is the sum without the k-th element, plus that element. */
  lemma {:induction false} SumRemoveAt<T>(t: seq<T>, k: nat, f: T -> real)
    requires k < |t|
    ensures Sum(t, f) == Sum(t[..k] + t[k + 1..], f) + f(t[k])
  {
    var a, x, b := t[..k], t[k], t[k + 1..];
    assert t == (a + [x]) + b;
    SumAppend(a + [x], b, f);
    SumAppend(a, [x], f);
    SumAppend(a, b, f);
    SumSingle(x, f);
  }

  /** Sums do not depend on the order of the summed elements. */
  lemma {:induction false} SumPermutation<T>(s: seq<T>, t: seq<T>, f: T -> real)
    requires multiset(s) == multiset(t)
    ensures Sum(s, f) == Sum(t, f)
    decreases |s|
  {
    if |s| == 0 {
      assert |t| == |multiset(t)|;
    } else {
      var x := s[|s| - 1];
      var p := s[..|s| - 1];
      assert s == p + [x];
      assert x in multiset(t);
      var k :| 0 <= k < |t| && t[k] == x;
      RemoveAt(t, k);
      assert multiset(p) == multiset(s) - multiset{x};
      SumPermutation(p, t[..k] + t[k + 1..], f);
      SumRemoveAt(t, k, f);
    }
  }

  /** `f` applied to every element, in order. */
  function MapSeq<A, B>(s: seq<A>, f: A -> B): (r: seq<B>)
    ensures |r| == |s|
  {
    if |s| == 0 then [] else MapSeq(s[..|s| - 1], f) + [f(s[|s| - 1])]
  }

  /** The k-th element of the mapped sequence is the k-th element mapped. */
  lemma {:induction false} MapSeqAt<A, B>(s: seq<A>, f: A -> B, k: nat)
    requires k < |s|
    ensures MapSeq(s, f)[k] == f(s[k])
  {
    var n := |s| - 1;
    if k < n {
      MapSeqAt(s[..n], f, k);
      assert s[..n][k] == s[k];
    }
  }

  lemma {:induction false} MapSeqStep<A, B>(s: seq<A>, f: A -> B, i: nat)
    requires i < |s|
    ensures MapSeq(s[..i + 1], f) == MapSeq(s[..i], f) + [f(s[i])]
  {
    assert s[..i + 1][..i] == s[..i];
  }

  /** The order-preserving filter (`Array.prototype.filter`). */
  function Filter<T>(s: seq<T>, p: T -> bool): (r: seq<T>)
    ensures |r| <= |s|
    ensures forall i :: 0 <= i < |r| ==> r[i] in s && p(r[i])
    ensures forall i :: 0 <= i < |s| && p(s[i]) ==> s[i] in r
    ensures multiset(r) <= multiset(s)
  {
    if |s| == 0 then []
    else
      var init := Filter(s[..|s| - 1], p);
      assert s == s[..|s| - 1] + [s[|s| - 1]];
      if p(s[|s| - 1]) then init + [s[|s| - 1]] else init
  }

  lemma {:induction false} FilterAppend<T>(s: seq<T>, t: seq<T>, p: T -> bool)
    ensures Filter(s + t, p) == Filter(s, p) + Filter(t, p)
  {
    if |t| == 0 {
      assert s + t == s;
    } else {
      assert (s + t)[..|s + t| - 1] == s + t[..|t| - 1];
      FilterAppend(s, t[..|t| - 1], p);
    }
  }

  /** Dropping elements that contribute nothing leaves a sum unchanged. */
  lemma {:induction false} SumFilter<T>(s: seq<T>, p: T -> bool, f: T -> real)
    requires forall i :: 0 <= i < |s| && !p(s[i]) ==> f(s[i]) == 0.0
    ensures Sum(Filter(s, p), f) == Sum(s, f)
  {
    if |s| > 0 {
      var init := s[..|s| - 1];
      var last := s[|s| - 1];
      SumFilter(init, p, f);
      if p(last) {
        var fi := Filter(init, p);
        assert (fi + [last])[..|fi + [last]| - 1] == fi;
      }
    }
  }

  lemma {:induction false} FilterAll<T>(s: seq<T>, p: T -> bool)
    requires forall i :: 0 <= i < |s| ==> p(s[i])
    ensures Filter(s, p) == s
  {
    if |s| > 0 {
      var init := s[..|s| - 1];
      FilterAll(init, p);
      assert s == init + [s[|s| - 1]];
    }
  }

  /** Filters by tests that agree on the sequence give the same result. */
  lemma {:induction false} FilterSame<T>(s: seq<T>, p: T -> bool, q: T -> bool)
    requires forall i :: 0 <= i < |s| ==> p(s[i]) == q(s[i])
    ensures Filter(s, p) == Filter(s, q)
  {
    if |s| > 0 {
      FilterSame(s[..|s| - 1], p, q);
    }
  }

  /** A filter keeps every copy of a passing element and none of a
      failing one. */
  lemma {:induction false} FilterMultiplicity<T>(s: seq<T>, p: T -> bool, x: T)
    ensures multiset(Filter(s, p))[x] == if p(x) then multiset(s)[x] else 0
  {
    if |s| > 0 {
      var init := s[..|s| - 1];
      FilterMultiplicity(init, p, x);
      assert s == init + [s[|s| - 1]];
    }
  }

  /** Filtering two permutations of each other gives two permutations. */
  lemma {:induction false} FilterPermutation<T>(s: seq<T>, t: seq<T>, p: T -> bool)
    requires multiset(s) == multiset(t)
    ensures multiset(Filter(s, p)) == multiset(Filter(t, p))
  {
    forall x ensures multiset(Filter(s, p))[x] == multiset(Filter(t, p))[x] {
      FilterMultiplicity(s, p, x);
      FilterMultiplicity(t, p, x);
    }
  }

  /** The number of elements of `s` that satisfy `p`. */
  function Count<T>(s: seq<T>, p: T -> bool): nat
  {
    |Filter(s, p)|
  }

  /** `Array.prototype.some`. */
  predicate Exists<T>(s: seq<T>, p: T -> bool) {
    exists i :: 0 <= i < |s| && p(s[i])
  }

  /** `some` over one more element. */
  lemma {:induction false} ExistsStep<T>(s: seq<T>, p: T -> bool, i: nat)
    requires i < |s|
    ensures Exists(s[..i + 1], p) <==> Exists(s[..i], p) || p(s[i])
  {
    var t := s[..i + 1];
    assert forall j :: 0 <= j < i ==> t[j] == s[..i][j];
    assert t[i] == s[i];
  }

  /** Some element passing `p` satisfies `q` exactly when some kept
      element does. */
  lemma {:induction false} ExistsFilter<T>(s: seq<T>, p: T -> bool, q: T -> bool)
    ensures Exists(Filter(s, p), q) <==> exists i :: 0 <= i < |s| && p(s[i]) && q(s[i])
  {
    var f := Filter(s, p);
    if Exists(f, q) {
      var i :| 0 <= i < |f| && q(f[i]);
      assert f[i] in s;
      var j :| 0 <= j < |s| && s[j] == f[i];
      assert p(s[j]) && q(s[j]);
    }
    if i :| 0 <= i < |s| && p(s[i]) && q(s[i]) {
      assert s[i] in f;
      var j :| 0 <= j < |f| && f[j] == s[i];
      assert q(f[j]);
    }
  }

  /** Nothing passes a filter when no element satisfies the test. */
  lemma FilterEmpty<T>(s: seq<T>, p: T -> bool)
    requires !Exists(s, p)
    ensures Filter(s, p) == []
  {
  }

  /** `Array.prototype.find` gives the first element that satisfies `p`. */
  function Find<T>(s: seq<T>, p: T -> bool): (r: Option<T>)
    ensures r.None? <==> !Exists(s, p)
    ensures r.Some? ==> r.value in s && p(r.value)
    ensures r.Some? ==> exists i :: 0 <= i < |s| && s[i] == r.value &&
                                  forall j :: 0 <= j < i ==> !p(s[j])
  {
    if |s| == 0 then None
    else if p(s[0]) then Some(s[0])
    else
      var r := Find(s[1..], p);
      assert forall i :: 0 <= i < |s[1..]| ==> s[1..][i] == s[i + 1];
      assert r.Some? ==> exists i :: 0 <= i < |s| && s[i] == r.value && forall j :: 0 <= j < i ==> !p(s[j]) by {
        if r.Some? {
          var i :| 0 <= i < |s[1..]| && s[1..][i] == r.value && forall j :: 0 <= j < i ==> !p(s[1..][j]);
          assert s[i + 1] == r.value;
          assert forall j :: 0 <= j < i + 1 ==> !p(s[j]) by {
            forall j | 0 <= j < i + 1 ensures !p(s[j]) {
              if j > 0 { assert s[j] == s[1..][j - 1]; }
            }
          }
        }
      }
      r
  }

  // ---------------------------------------------------------------------
  // Duplicate-free sequences
  // ---------------------------------------------------------------------

  predicate NoDup<T(==)>(s: seq<T>) {
    forall i, j :: 0 <= i < j < |s| ==> s[i] != s[j]
  }

  /** Distinct elements in order of first occurrence (`Array.from(new Set(s))`). */
  function Dedup<T(==)>(s: seq<T>): (r: seq<T>)
    ensures NoDup(r)
    ensures forall i :: 0 <= i < |r| ==> r[i] in s
    ensures forall i :: 0 <= i < |s| ==> s[i] in r
  {
    if |s| == 0 then []
    else
      var init := Dedup(s[..|s| - 1]);
      assert forall i :: 0 <= i < |s| - 1 ==> s[i] == s[..|s| - 1][i];
      if s[|s| - 1] in init then init else init + [s[|s| - 1]]
  }

  /** `indexOf`: the position of the first occurrence of `x`. */
  function IndexOf<T(==)>(s: seq<T>, x: T): (k: nat)
    requires x in s
    ensures k < |s| && s[k] == x
    ensures forall j :: 0 <= j < k ==> s[j] != x
  {
    if s[0] == x then 0
    else
      assert x in s[1..];
      1 + IndexOf(s[1..], x)
  }

  /** An element of a prefix is first seen at the same position in the
      whole sequence. */
  lemma {:induction false} IndexOfPrefix<T>(s: seq<T>, n: nat, x: T)
    requires n <= |s| && x in s[..n]
    ensures IndexOf(s, x) == IndexOf(s[..n], x)
  {
    var a := IndexOf(s, x);
    var b := IndexOf(s[..n], x);
    assert s[b] == x;
  }

  /** First-seen order in a prefix is first-seen order in the whole. */
  lemma {:induction false} FirstSeenKeep<T>(s: seq<T>, n: nat, r: seq<T>)
    requires n <= |s|
    requires forall y :: y in r ==> y in s[..n]
    requires forall i, j :: 0 <= i < j < |r| ==> IndexOf(s[..n], r[i]) < IndexOf(s[..n], r[j])
    ensures forall y :: y in r ==> y in s && IndexOf(s, y) == IndexOf(s[..n], y) < n
    ensures forall i, j :: 0 <= i < j < |r| ==> IndexOf(s, r[i]) < IndexOf(s, r[j])
  {
    forall y | y in r ensures y in s && IndexOf(s, y) == IndexOf(s[..n], y) < n {
      IndexOfPrefix(s, n, y);
    }
  }

  /** An element first seen at position n comes after everything first
      seen in the prefix. */
  lemma {:induction false} FirstSeenExtend<T>(s: seq<T>, n: nat, r: seq<T>)
    requires n < |s| && s[n] !in s[..n]
    requires forall y :: y in r ==> y in s[..n]
    requires forall i, j :: 0 <= i < j < |r| ==> IndexOf(s[..n], r[i]) < IndexOf(s[..n], r[j])
    ensures forall y :: y in r + [s[n]] ==> y in s
    ensures forall i, j :: 0 <= i < j < |r + [s[n]]| ==> IndexOf(s, (r + [s[n]])[i]) < IndexOf(s, (r + [s[n]])[j])
  {
    FirstSeenKeep(s, n, r);
    assert IndexOf(s, s[n]) == n;
    var r' := r + [s[n]];
    forall i, j | 0 <= i < j < |r'| ensures IndexOf(s, r'[i]) < IndexOf(s, r'[j]) {
      assert r'[i] == r[i];
      if j < |r| {
        assert r'[j] == r[j];
      }
    }
  }

  /** `Dedup` lists the distinct elements in the order they are first seen. */
  lemma {:induction false} DedupFirstSeen<T>(s: seq<T>)
    ensures forall i, j :: 0 <= i < j < |Dedup(s)| ==> IndexOf(s, Dedup(s)[i]) < IndexOf(s, Dedup(s)[j])
  {
    if |s| > 0 {
      var n := |s| - 1;
      var init := s[..n];
      var ri := Dedup(init);
      DedupFirstSeen(init);
      if s[n] in ri {
        assert Dedup(s) == ri;
        FirstSeenKeep(s, n, ri);
      } else {
        assert s[n] !in init;
        assert Dedup(s) == ri + [s[n]];
        FirstSeenExtend(s, n, ri);
      }
    }
  }

  // ---------------------------------------------------------------------
  // Stable sort by a key: the model of `Array.prototype.sort` with a
  // comparator `(a, b) => key(a) - key(b)` (stable since ES2019). A sort
  // with `(a, b) => key(b) - key(a)` is `SortBy` on the negated key.
  // ---------------------------------------------------------------------

  predicate SortedBy<T>(s: seq<T>, key: T -> real) {
    forall i, j :: 0 <= i < j < |s| ==> key(s[i]) <= key(s[j])
  }

  /** Inserts `x` after every element whose key is at most `key(x)`. */
  function Insert<T>(s: seq<T>, x: T, key: T -> real): (r: seq<T>)
    ensures |r| == |s| + 1
  {
    if |s| == 0 then [x]
    else if key(s[|s| - 1]) <= key(x) then s + [x]
    else Insert(s[..|s| - 1], x, key) + [s[|s| - 1]]
  }

  function SortBy<T>(s: seq<T>, key: T -> real): (r: seq<T>)
    ensures |r| == |s|
  {
    if |s| == 0 then [] else Insert(SortBy(s[..|s| - 1], key), s[|s| - 1], key)
  }

  /** Where `Insert` places `x`: after the last element, scanning from the
      back, whose key is at most `key(x)`. */
  function InsertPos<T>(s: seq<T>, x: T, key: T -> real): (k: nat)
    ensures k <= |s|
  {
    if |s| == 0 then 0
    else if key(s[|s| - 1]) <= key(x) then |s|
    else InsertPos(s[..|s| - 1], x, key)
  }

  lemma {:induction false} InsertAt<T>(s: seq<T>, x: T, key: T -> real)
    ensures Insert(s, x, key) == s[..InsertPos(s, x, key)] + [x] + s[InsertPos(s, x, key)..]
  {
    if |s| == 0 {
      assert s[..0] == [] && s[0..] == [];
    } else if key(s[|s| - 1]) <= key(x) {
      assert s[..|s|] == s && s[|s|..] == [];
    } else {
      var p := s[..|s| - 1];
      var last := s[|s| - 1];
      InsertAt(p, x, key);
      var k := InsertPos(p, x, key);
      assert s[k..] == p[k..] + [last];
      assert s[..k] == p[..k];
      assert p[..k] + [x] + (p[k..] + [last]) == (p[..k] + [x] + p[k..]) + [last];
    }
  }

  /** In a sorted sequence the insertion point splits the keys at key(x). */
  lemma {:induction false} InsertPosSplits<T>(s: seq<T>, x: T, key: T -> real)
    requires SortedBy(s, key)
    ensures forall i :: 0 <= i < InsertPos(s, x, key) ==> key(s[i]) <= key(x)
    ensures forall i :: InsertPos(s, x, key) <= i < |s| ==> key(x) < key(s[i])
  {
    if |s| > 0 && key(s[|s| - 1]) > key(x) {
      var p := s[..|s| - 1];
      assert SortedBy(p, key);
      InsertPosSplits(p, x, key);
    }
  }

  lemma {:induction false} InsertSorted<T>(s: seq<T>, x: T, key: T -> real)
    requires SortedBy(s, key)
    ensures SortedBy(Insert(s, x, key), key)
  {
    InsertAt(s, x, key);
    InsertPosSplits(s, x, key);
    var k := InsertPos(s, x, key);
    var r := Insert(s, x, key);
    assert forall i :: 0 <= i < k ==> r[i] == s[i];
    assert r[k] == x;
    assert forall i :: k < i < |r| ==> r[i] == s[i - 1];
    forall i, j | 0 <= i < j < |r| ensures key(r[i]) <= key(r[j]) {
      if j < k {
      } else if j == k {
      } else if i < k {
        assert key(s[i]) <= key(x) < key(s[j - 1]);
      } else if i == k {
      } else {
      }
    }
  }

  lemma {:induction false} InsertPerm<T>(s: seq<T>, x: T, key: T -> real)
    ensures multiset(Insert(s, x, key)) == multiset(s) + multiset{x}
  {
    InsertAt(s, x, key);
    var k := InsertPos(s, x, key);
    var a, b := s[..k], s[k..];
    assert s == a + b;
    assert multiset(a + [x] + b) == multiset(a) + multiset{x} + multiset(b);
  }

  /** The sort orders by the key and is a permutation of its input. */
  lemma {:induction false} SortByCorrect<T>(s: seq<T>, key: T -> real)
    ensures SortedBy(SortBy(s, key), key)
    ensures multiset(SortBy(s, key)) == multiset(s)
  {
    SortBySorted(s, key);
    SortByPerm(s, key);
  }

  lemma {:induction false} SortBySorted<T>(s: seq<T>, key: T -> real)
    ensures SortedBy(SortBy(s, key), key)
  {
    if |s| > 0 {
      var p := s[..|s| - 1];
      SortBySorted(p, key);
      InsertSorted(SortBy(p, key), s[|s| - 1], key);
    }
  }

  lemma {:induction false} SortByPerm<T>(s: seq<T>, key: T -> real)
    ensures multiset(SortBy(s, key)) == multiset(s)
  {
    if |s| > 0 {
      var p := s[..|s| - 1];
      var last := s[|s| - 1];
      SortByPerm(p, key);
      InsertPerm(SortBy(p, key), last, key);
      assert SortBy(s, key) == Insert(SortBy(p, key), last, key);
      assert s == p + [last];
    }
  }

  /** Filtering a sorted sequence keeps it sorted. */
  lemma {:induction false} FilterSorted<T>(s: seq<T>, p: T -> bool, key: T -> real)
    requires SortedBy(s, key)
    ensures SortedBy(Filter(s, p), key)
  {
    if |s| > 0 {
      var init := s[..|s| - 1];
      var last := s[|s| - 1];
      assert SortedBy(init, key);
      FilterSorted(init, p, key);
      if p(last) {
        var fi := Filter(init, p);
        BoundedByLast(s, key);
        assert forall i :: 0 <= i < |fi| ==> fi[i] in init;
        assert Filter(s, p) == fi + [last];
      }
    }
  }

  lemma {:induction false} BoundedByLast<T>(s: seq<T>, key: T -> real)
    requires |s| > 0 && SortedBy(s, key)
    ensures forall x :: x in s[..|s| - 1] ==> key(x) <= key(s[|s| - 1])
  {
    forall x | x in s[..|s| - 1] ensures key(x) <= key(s[|s| - 1]) {
      var j :| 0 <= j < |s| - 1 && s[..|s| - 1][j] == x;
      assert s[j] == x;
    }
  }

  /** Sorting the elements that pass `p`: sorted, drawn from the input,
      every element passes and every passing input element is there. */
  lemma {:induction false} SortedFilter<T>(s: seq<T>, p: T -> bool, key: T -> real)
    ensures var r := SortBy(Filter(s, p), key);
      SortedBy(r, key) && multiset(r) <= multiset(s) && |r| <= |s| &&
      (forall i :: 0 <= i < |r| ==> p(r[i])) &&
      (forall i :: 0 <= i < |s| && p(s[i]) ==> s[i] in r)
  {
    var all := (x: T) => true;
    var r := SortBy(Filter(s, p), key);
    SortedSelection(s, p, all, key);
    FilterAll(r, all);
  }

  lemma {:induction false} FilterFilter<T>(s: seq<T>, p: T -> bool, q: T -> bool, pq: T -> bool)
    requires forall x :: pq(x) == (p(x) && q(x))
    ensures Filter(Filter(s, p), q) == Filter(s, pq)
  {
    if |s| > 0 {
      var init := s[..|s| - 1];
      FilterFilter(init, p, q, pq);
      var fi := Filter(init, p);
      if p(s[|s| - 1]) {
        assert (fi + [s[|s| - 1]])[..|fi|] == fi;
      }
    }
  }

  /** Sorting the elements that pass `p` and keeping those that pass `q`:
      sorted, drawn from the input, every kept element passes both tests
      and every input element that passes both is kept. */
  lemma {:induction false} SortedSelection<T>(s: seq<T>, p: T -> bool, q: T -> bool, key: T -> real)
    ensures var r := Filter(SortBy(Filter(s, p), key), q);
      SortedBy(r, key) && multiset(r) <= multiset(s) &&
      (forall i :: 0 <= i < |r| ==> p(r[i]) && q(r[i])) &&
      (forall i :: 0 <= i < |s| && p(s[i]) && q(s[i]) ==> s[i] in r)
  {
    var f := Filter(s, p);
    var b := SortBy(f, key);
    var r := Filter(b, q);
    SortByCorrect(f, key);
    SortByMembers(f, key);
    FilterSorted(b, q, key);
    forall i | 0 <= i < |r| ensures p(r[i]) {
      assert r[i] in b;
    }
    forall i | 0 <= i < |s| && p(s[i]) && q(s[i]) ensures s[i] in r {
      assert s[i] in f;
      assert s[i] in b;
      var j :| 0 <= j < |b| && b[j] == s[i];
    }
  }

  /** The first element, in order, of least key. */
  function MinFirst<T>(s: seq<T>, key: T -> real): T
    requires |s| > 0
  {
    if |s| == 1 then s[0]
    else
      var m := MinFirst(s[..|s| - 1], key);
      if key(s[|s| - 1]) < key(m) then s[|s| - 1] else m
  }

  lemma {:induction false} MinFirstSpec<T>(s: seq<T>, key: T -> real)
    requires |s| > 0
    ensures MinFirst(s, key) in s
    ensures forall i :: 0 <= i < |s| ==> key(MinFirst(s, key)) <= key(s[i])
    ensures exists i :: 0 <= i < |s| && s[i] == MinFirst(s, key) &&
                        forall j :: 0 <= j < i ==> key(MinFirst(s, key)) < key(s[j])
  {
    if |s| > 1 {
      var p := s[..|s| - 1];
      MinFirstSpec(p, key);
      var m := MinFirst(p, key);
      var i :| 0 <= i < |p| && p[i] == m && forall j :: 0 <= j < i ==> key(m) < key(p[j]);
      assert s[i] == m;
      if key(s[|s| - 1]) < key(m) {
        assert forall j :: 0 <= j < |s| - 1 ==> key(s[|s| - 1]) < key(s[j]) by {
          forall j | 0 <= j < |s| - 1 ensures key(s[|s| - 1]) < key(s[j]) {
            assert s[j] == p[j];
          }
        }
      } else {
        assert forall j :: 0 <= j < i ==> key(m) < key(s[j]) by {
          forall j | 0 <= j < i ensures key(m) < key(s[j]) {
            assert s[j] == p[j];
          }
        }
        assert forall j :: 0 <= j < |s| - 1 ==> key(m) <= key(s[j]) by {
          forall j | 0 <= j < |s| - 1 ensures key(m) <= key(s[j]) {
            assert s[j] == p[j];
          }
        }
      }
    }
  }

  /** The stable sort puts first the earliest element of least key. */
  lemma {:induction false} SortByHead<T>(s: seq<T>, key: T -> real)
    requires |s| > 0
    ensures SortBy(s, key)[0] == MinFirst(s, key)
  {
    var p := s[..|s| - 1];
    var x := s[|s| - 1];
    if |p| > 0 {
      SortByHead(p, key);
      var sorted := SortBy(p, key);
      SortBySorted(p, key);
      InsertAt(sorted, x, key);
      InsertPosSplits(sorted, x, key);
      var k := InsertPos(sorted, x, key);
      var m := MinFirst(p, key);
      assert sorted[0] == m;
      if key(m) <= key(x) {
        assert k >= 1;
        assert Insert(sorted, x, key)[0] == sorted[0];
      } else {
        assert k == 0;
        assert Insert(sorted, x, key)[0] == x;
      }
    } else {
      assert SortBy(s, key) == Insert([], x, key);
    }
  }

  /** Stability on an already ordered input: nothing moves. */
  lemma {:induction false} SortBySortedIsIdentity<T>(s: seq<T>, key: T -> real)
    requires SortedBy(s, key)
    ensures SortBy(s, key) == s
  {
    if |s| > 0 {
      var p := s[..|s| - 1];
      assert SortedBy(p, key);
      SortBySortedIsIdentity(p, key);
      assert s == p + [s[|s| - 1]];
    }
  }

  lemma {:induction false} SortByMembers<T>(s: seq<T>, key: T -> real)
    ensures forall x :: x in SortBy(s, key) <==> x in s
  {
    SortByCorrect(s, key);
    forall x ensures x in SortBy(s, key) <==> x in s {
      assert x in SortBy(s, key) <==> x in multiset(SortBy(s, key));
      assert x in s <==> x in multiset(s);
    }
  }
}
