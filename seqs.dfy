/** The Kotlin collection operations the repository is built from
    (`find`, `mapNotNull`, `filter`, `flatMap`), over Dafny sequences. */
module Seqs {
  import opened Wrappers

  /** Position of the first element of `s` satisfying `p`, or `|s|` when none does. */
  function FirstIndex<T>(s: seq<T>, p: T -> bool): (k: nat)
    ensures k <= |s|
    ensures forall j :: 0 <= j < k ==> !p(s[j])
    ensures k < |s| ==> p(s[k])
    decreases |s|
  {
    if s == [] || p(s[0]) then 0 else 1 + FirstIndex(s[1..], p)
  }

  /** Kotlin's `find`: the first element satisfying `p`, or null. */
  function Find<T>(s: seq<T>, p: T -> bool): (r: Option<T>)
    ensures r.None? <==> forall i :: 0 <= i < |s| ==> !p(s[i])
    ensures r.Some? ==>
      exists k :: 0 <= k < |s| && s[k] == r.value && p(s[k]) && forall j :: 0 <= j < k ==> !p(s[j])
  {
    var k := FirstIndex(s, p);
    if k < |s| then Some(s[k]) else None
  }

  /** Kotlin's `mapNotNull`: apply `f`, drop the nulls, keep the order. */
  function MapNotNull<A, B>(s: seq<A>, f: A -> Option<B>): (r: seq<B>)
    ensures |r| <= |s|
    decreases |s|
  {
    if s == [] then []
    else match f(s[0])
      case Some(b) => [b] + MapNotNull(s[1..], f)
      case None => MapNotNull(s[1..], f)
  }

  /** An element is in the result exactly when some input maps to it. */
  lemma {:induction false} MapNotNullMembership<A, B>(s: seq<A>, f: A -> Option<B>, b: B)
    ensures b in MapNotNull(s, f) <==> exists i :: 0 <= i < |s| && f(s[i]) == Some(b)
    decreases |s|
  {
    if s != [] {
      MapNotNullMembership(s[1..], f, b);
      if exists i :: 0 <= i < |s[1..]| && f(s[1..][i]) == Some(b) {
        var i :| 0 <= i < |s[1..]| && f(s[1..][i]) == Some(b);
        assert f(s[i + 1]) == Some(b);
      }
      if exists i :: 0 <= i < |s| && f(s[i]) == Some(b) {
        var i :| 0 <= i < |s| && f(s[i]) == Some(b);
        if i > 0 {
          assert s[1..][i - 1] == s[i];
        }
      }
    }
  }

  /** `mapNotNull` keeps the order: it distributes over concatenation. */
  lemma {:induction false} MapNotNullAppend<A, B>(a: seq<A>, b: seq<A>, f: A -> Option<B>)
    ensures MapNotNull(a + b, f) == MapNotNull(a, f) + MapNotNull(b, f)
    decreases |a|
  {
    if a == [] {
      assert a + b == b;
    } else {
      assert (a + b)[0] == a[0];
      assert (a + b)[1..] == a[1..] + b;
      MapNotNullAppend(a[1..], b, f);
    }
  }

  /** Kotlin's `filter`: the elements satisfying `p`, in their original order. */
  function Filter<T>(s: seq<T>, p: T -> bool): (r: seq<T>)
    ensures |r| <= |s|
    ensures forall i :: 0 <= i < |r| ==> r[i] in s && p(r[i])
    ensures forall i :: 0 <= i < |s| && p(s[i]) ==> s[i] in r
    decreases |s|
  {
    if s == [] then []
    else if p(s[0]) then [s[0]] + Filter(s[1..], p)
    else Filter(s[1..], p)
  }

  /** `filter` keeps the order: it distributes over concatenation. */
  lemma {:induction false} FilterAppend<T>(a: seq<T>, b: seq<T>, p: T -> bool)
    ensures Filter(a + b, p) == Filter(a, p) + Filter(b, p)
    decreases |a|
  {
    if a == [] {
      assert a + b == b;
    } else {
      assert (a + b)[0] == a[0];
      assert (a + b)[1..] == a[1..] + b;
      FilterAppend(a[1..], b, p);
    }
  }

  /** Kotlin's `flatMap`: the concatenation of `f` over `s`, in order. */
  function FlatMap<A, B>(s: seq<A>, f: A -> seq<B>): (r: seq<B>)
    decreases |s|
  {
    if s == [] then [] else f(s[0]) + FlatMap(s[1..], f)
  }

  /** An element is in the flattened sequence exactly when it is in the image of some input. */
  lemma {:induction false} FlatMapMembership<A, B>(s: seq<A>, f: A -> seq<B>, b: B)
    ensures b in FlatMap(s, f) <==> exists i :: 0 <= i < |s| && b in f(s[i])
    decreases |s|
  {
    if s != [] {
      FlatMapMembership(s[1..], f, b);
      if exists i :: 0 <= i < |s[1..]| && b in f(s[1..][i]) {
        var i :| 0 <= i < |s[1..]| && b in f(s[1..][i]);
        assert b in f(s[i + 1]);
      }
      if exists i :: 0 <= i < |s| && b in f(s[i]) {
        var i :| 0 <= i < |s| && b in f(s[i]);
        if i > 0 {
          assert s[1..][i - 1] == s[i];
        }
      }
    }
  }

  /** Kotlin's `toMap` on a list of pairs: a later pair overrides an earlier
      one with the same key. */
  function ToMap<K, V>(pairs: seq<(K, V)>): (m: map<K, V>)
    decreases |pairs|
  {
    if pairs == [] then map[]
    else ToMap(pairs[..|pairs| - 1])[pairs[|pairs| - 1].0 := pairs[|pairs| - 1].1]
  }

  /** The keys of the map are exactly the keys of the pairs. */
  lemma {:induction false} ToMapKeys<K, V>(pairs: seq<(K, V)>, k: K)
    ensures k in ToMap(pairs) <==> exists i :: 0 <= i < |pairs| && pairs[i].0 == k
    decreases |pairs|
  {
    if pairs != [] {
      var n := |pairs| - 1;
      ToMapKeys(pairs[..n], k);
      if exists i :: 0 <= i < |pairs| && pairs[i].0 == k {
        var i :| 0 <= i < |pairs| && pairs[i].0 == k;
        if i < n {
          assert pairs[..n][i] == pairs[i];
        }
      }
    }
  }

  /** Every entry of the map is one of the pairs. */
  lemma {:induction false} ToMapEntries<K, V>(pairs: seq<(K, V)>, k: K)
    requires k in ToMap(pairs)
    ensures (k, ToMap(pairs)[k]) in pairs
    decreases |pairs|
  {
    var n := |pairs| - 1;
    if pairs[n].0 != k {
      ToMapEntries(pairs[..n], k);
      assert pairs[..n] <= pairs;
    }
  }

  /** The value for a key is the one of the LAST pair carrying that key. */
  lemma {:induction false} ToMapLastWins<K, V>(pairs: seq<(K, V)>, i: nat)
    requires i < |pairs|
    requires forall j :: i < j < |pairs| ==> pairs[j].0 != pairs[i].0
    ensures pairs[i].0 in ToMap(pairs) && ToMap(pairs)[pairs[i].0] == pairs[i].1
    decreases |pairs|
  {
    var n := |pairs| - 1;
    if i < n {
      assert pairs[..n][i] == pairs[i];
      ToMapLastWins(pairs[..n], i);
    }
  }
}
