/** Sequence operations shared by the model: the `filter`, `some` and
    id-keyed `map` / `filter` that the front end applies to its in-memory
    lists of orders, products and cart lines. */
module Seqs {

  function Min(a: int, b: int): int
  {
    if a <= b then a else b
  }

  /** How many elements of `s`, repeats included, satisfy `f`. */
  function Count<T>(s: seq<T>, f: T -> bool): (n: nat)
    ensures n <= |s|
  {
    if s == [] then 0 else (if f(s[0]) then 1 else 0) + Count(s[1..], f)
  }

  /** `s.filter(f)`: the elements of `s` that satisfy `f`, in their order. */
  function Filter<T(==)>(s: seq<T>, f: T -> bool): (r: seq<T>)
    ensures |r| <= |s|
    ensures forall i :: 0 <= i < |r| ==> r[i] in s && f(r[i])
    ensures forall i :: 0 <= i < |s| && f(s[i]) ==> s[i] in r
    ensures Subsequence(r, s)
    ensures |r| == Count(s, f)
  {
    if s == [] then []
    else if f(s[0]) then
      var r := [s[0]] + Filter(s[1..], f);
      assert r[1..] == Filter(s[1..], f);
      r
    else
      var r := Filter(s[1..], f);
      assert r != [] ==> f(r[0]) && r[0] != s[0];
      r
  }

  /** Filtering distributes over concatenation: relative order is kept. */
  lemma {:induction false} FilterConcat<T>(a: seq<T>, b: seq<T>, f: T -> bool)
    ensures Filter(a + b, f) == Filter(a, f) + Filter(b, f)
  {
    if a == [] {
      assert a + b == b;
    } else {
      assert (a + b)[1..] == a[1..] + b;
      FilterConcat(a[1..], b, f);
    }
  }

  /** A filter that every element passes returns the sequence itself. */
  lemma {:induction false} FilterKeepsAll<T>(s: seq<T>, f: T -> bool)
    requires forall i :: 0 <= i < |s| ==> f(s[i])
    ensures Filter(s, f) == s
  {
    if s != [] {
      FilterKeepsAll(s[1..], f);
    }
  }

  /** `s.some(x => key(x) == k)` */
  predicate HasKey<T>(s: seq<T>, k: string, key: T -> string)
  {
    exists i :: 0 <= i < |s| && key(s[i]) == k
  }

  /** No two elements of `s` share a key. */
  predicate UniqueBy<T>(s: seq<T>, key: T -> string)
  {
    forall i, j :: 0 <= i < j < |s| ==> key(s[i]) != key(s[j])
  }

  /** Filtering never creates a duplicate key. */
  lemma {:induction false} FilterKeepsUnique<T>(s: seq<T>, f: T -> bool, key: T -> string)
    requires UniqueBy(s, key)
    ensures UniqueBy(Filter(s, f), key)
  {
    if s != [] {
      var rest := s[1..];
      UniqueTail(s, key);
      FilterKeepsUnique(rest, f, key);
      if f(s[0]) {
        var tail := Filter(rest, f);
        forall j | 0 <= j < |tail| ensures key(tail[j]) != key(s[0]) {
          var k :| 0 <= k < |rest| && rest[k] == tail[j];
        }
        ConsUnique(s[0], tail, key);
      }
    }
  }

  /** The tail of a sequence with unique keys has unique keys, none of them
      the head's. */
  lemma UniqueTail<T>(s: seq<T>, key: T -> string)
    requires s != [] && UniqueBy(s, key)
    ensures UniqueBy(s[1..], key) && !HasKey(s[1..], key(s[0]), key)
  {
    var rest := s[1..];
    forall i, j | 0 <= i < j < |rest| ensures key(rest[i]) != key(rest[j]) {
      assert rest[i] == s[i + 1] && rest[j] == s[j + 1];
    }
    forall j | 0 <= j < |rest| ensures key(rest[j]) != key(s[0]) {
      assert rest[j] == s[j + 1];
    }
  }

  /** A head whose key the tail lacks, before a tail with unique keys,
      gives a sequence with unique keys. */
  lemma ConsUnique<T>(h: T, t: seq<T>, key: T -> string)
    requires UniqueBy(t, key) && forall j :: 0 <= j < |t| ==> key(t[j]) != key(h)
    ensures UniqueBy([h] + t, key)
  {
    var r := [h] + t;
    forall i, j | 0 <= i < j < |r| ensures key(r[i]) != key(r[j]) {
      assert r[j] == t[j - 1];
      if i > 0 {
        assert r[i] == t[i - 1];
      }
    }
  }

  /** `s.map(x => key(x) == key(y) ? y : x)`: every element that shares
      `y`'s key is replaced by `y`; nothing is inserted or removed. */
  function ReplaceByKey<T>(s: seq<T>, y: T, key: T -> string): (r: seq<T>)
    ensures |r| == |s|
    ensures forall i :: 0 <= i < |s| ==> key(r[i]) == key(s[i])
    ensures forall i :: 0 <= i < |s| && key(s[i]) != key(y) ==> r[i] == s[i]
    ensures forall i :: 0 <= i < |s| && key(s[i]) == key(y) ==> r[i] == y
    ensures !HasKey(s, key(y), key) ==> r == s
    ensures UniqueBy(s, key) ==> UniqueBy(r, key)
  {
    seq(|s|, i requires 0 <= i < |s| => if key(s[i]) == key(y) then y else s[i])
  }

  /** The test `x => key(x) !== k`, named so that every use is the same function. */
  function KeyOtherThan<T>(k: string, key: T -> string): T -> bool
  {
    x => key(x) != k
  }

  /** `s.filter(x => key(x) !== k)`: drops every element with key `k`. */
  function RemoveByKey<T(==)>(s: seq<T>, k: string, key: T -> string): (r: seq<T>)
    ensures forall i :: 0 <= i < |r| ==> r[i] in s && key(r[i]) != k
    ensures forall i :: 0 <= i < |s| && key(s[i]) != k ==> s[i] in r
    ensures !HasKey(r, k, key)
    ensures HasKey(s, k, key) ==> |r| < |s|
    ensures !HasKey(s, k, key) ==> r == s
    ensures UniqueBy(s, key) ==> UniqueBy(r, key)
    ensures Subsequence(r, s)
    ensures |r| == Count(s, KeyOtherThan(k, key))
  {
    var r := Filter(s, KeyOtherThan(k, key));
    if HasKey(s, k, key) then
      var i :| 0 <= i < |s| && key(s[i]) == k;
      FilterLosesRejected(s, KeyOtherThan(k, key), i);
      if UniqueBy(s, key) then FilterKeepsUnique(s, KeyOtherThan(k, key), key); r else r
    else
      FilterKeepsAll(s, KeyOtherThan(k, key));
      r
  }

  /** Removing a key from a concatenation removes it from each part, so
      the elements that stay keep their relative order. */
  lemma RemoveByKeyConcat<T>(a: seq<T>, b: seq<T>, k: string, key: T -> string)
    ensures RemoveByKey(a + b, k, key) == RemoveByKey(a, k, key) + RemoveByKey(b, k, key)
  {
    FilterConcat(a, b, KeyOtherThan(k, key));
  }

  /** A filter that rejects some element returns a strictly shorter sequence. */
  lemma {:induction false} FilterLosesRejected<T>(s: seq<T>, f: T -> bool, i: int)
    requires 0 <= i < |s| && !f(s[i])
    ensures |Filter(s, f)| < |s|
  {
    if i > 0 {
      assert s[1..][i - 1] == s[i];
      FilterLosesRejected(s[1..], f, i - 1);
    }
  }

  /** `s.slice(0, n)`: the first `n` elements, or all of `s` when shorter. */
  function Take<T>(s: seq<T>, n: nat): (r: seq<T>)
    ensures |r| == Min(n, |s|)
    ensures forall i :: 0 <= i < |r| ==> r[i] == s[i]
  {
    if |s| <= n then s else s[..n]
  }

  /** `a` is `b` with some elements left out: the elements of `a` occur in
      `b` in the same order. */
  predicate Subsequence<T(==)>(a: seq<T>, b: seq<T>)
    decreases |b|
  {
    a == [] ||
    (b != [] && if a[0] == b[0] then Subsequence(a[1..], b[1..]) else Subsequence(a, b[1..]))
  }

  /** A subsequence of `s` made of elements satisfying `f` has at most
      `Count(s, f)` elements. */
  lemma {:induction false} SubsequenceCount<T>(t: seq<T>, s: seq<T>, f: T -> bool)
    requires Subsequence(t, s)
    requires forall i :: 0 <= i < |t| ==> f(t[i])
    ensures |t| <= Count(s, f)
    decreases |s|
  {
    if t != [] {
      if t[0] == s[0] {
        SubsequenceCount(t[1..], s[1..], f);
      } else {
        SubsequenceCount(t, s[1..], f);
      }
    }
  }

  /** `Filter`'s contract determines its result: the only subsequence of
      `s` made of elements satisfying `f` that is as long as the number of
      such elements in `s`, repeats included, is `Filter(s, f)`. */
  lemma {:induction false} FilterIsOnlyChoice<T>(t: seq<T>, s: seq<T>, f: T -> bool)
    requires Subsequence(t, s)
    requires forall i :: 0 <= i < |t| ==> f(t[i])
    requires |t| == Count(s, f)
    ensures t == Filter(s, f)
    decreases |s|
  {
    if s != [] {
      if t != [] && t[0] == s[0] {
        FilterIsOnlyChoice(t[1..], s[1..], f);
        assert t == [t[0]] + t[1..];
      } else if t != [] {
        SubsequenceCount(t, s[1..], f);
        FilterIsOnlyChoice(t, s[1..], f);
      } else {
        FilterIsOnlyChoice(t, s[1..], f);
      }
    }
  }

  /** A prefix of a subsequence is a subsequence. */
  lemma {:induction false} PrefixIsSubsequence<T>(a: seq<T>, b: seq<T>, n: nat)
    requires Subsequence(a, b) && n <= |a|
    ensures Subsequence(a[..n], b)
    decreases |b|
  {
    if n > 0 {
      if a[0] == b[0] {
        PrefixIsSubsequence(a[1..], b[1..], n - 1);
        assert a[..n][1..] == a[1..][..n - 1];
      } else {
        PrefixIsSubsequence(a, b[1..], n);
      }
    }
  }
}
