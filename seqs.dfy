/** Sequence helpers shared by the codec, the job client and the mock agents. */
module Seqs {

  /** The distinct elements of s in the order they are first seen (the key order of a Python dict filled from s). */
  function FirstSeen<T(==)>(s: seq<T>): (r: seq<T>)
  {
    if s == [] then []
    else
      var p := FirstSeen(s[..|s| - 1]);
      if s[|s| - 1] in p then p else p + [s[|s| - 1]]
  }

  /** The first components of a list of pairs: the keys of a dict's items, repetitions kept. */
  function Keys<K, V>(pairs: seq<(K, V)>): (ks: seq<K>)
    ensures |ks| == |pairs| && forall i :: 0 <= i < |pairs| ==> ks[i] == pairs[i].0
  {
    seq(|pairs|, i requires 0 <= i < |pairs| => pairs[i].0)
  }

  lemma KeysAppend<K, V>(a: seq<(K, V)>, b: seq<(K, V)>)
    ensures Keys(a + b) == Keys(a) + Keys(b)
  {
  }

  /** The keys of the dict the pairs fill, in insertion order. */
  function DictKeys<K(==), V>(pairs: seq<(K, V)>): seq<K>
  {
    FirstSeen(Keys(pairs))
  }

  predicate Distinct<T(==)>(s: seq<T>)
  {
    forall i, j :: 0 <= i < j < |s| ==> s[i] != s[j]
  }

  /** FirstSeen keeps exactly the elements of s, each once. */
  lemma {:induction false} FirstSeenSpec<T>(s: seq<T>)
    ensures forall x :: x in FirstSeen(s) <==> x in s
    ensures Distinct(FirstSeen(s))
  {
    if s != [] {
      var init := s[..|s| - 1];
      FirstSeenSpec(init);
      assert s == init + [s[|s| - 1]];
    }
  }

  /** A list without repetitions is its own first-seen list. */
  lemma {:induction false} FirstSeenOfDistinct<T>(s: seq<T>)
    requires Distinct(s)
    ensures FirstSeen(s) == s
  {
    if s != [] {
      var init := s[..|s| - 1];
      FirstSeenOfDistinct(init);
      assert s[|s| - 1] !in init;
      assert init + [s[|s| - 1]] == s;
    }
  }

  /** Appending elements that were all seen before leaves the first-seen list unchanged. */
  lemma {:induction false} FirstSeenAppendSeen<T>(a: seq<T>, b: seq<T>)
    requires forall x :: x in b ==> x in a
    ensures FirstSeen(a + b) == FirstSeen(a)
    decreases |b|
  {
    if b != [] {
      var init := b[..|b| - 1];
      assert (a + b)[..|a + b| - 1] == a + init;
      FirstSeenAppendSeen(a, init);
      FirstSeenSpec(a);
    } else {
      assert a + b == a;
    }
  }

  /** Two lists without repetitions and without common elements make one without repetitions. */
  lemma DistinctConcat<T>(a: seq<T>, b: seq<T>)
    requires Distinct(a) && Distinct(b) && forall x :: x in a ==> x !in b
    ensures Distinct(a + b)
  {
    forall i, j | 0 <= i < j < |a + b| ensures (a + b)[i] != (a + b)[j] {
      if i < |a| <= j {
        assert (a + b)[i] in a && (a + b)[j] in b;
      }
    }
  }

  /** 0, 1, ..., n - 1 */
  function Range(n: nat): (r: seq<nat>)
    ensures |r| == n && forall i :: 0 <= i < n ==> r[i] == i
  {
    seq(n, i => i)
  }

  predicate IsPrefix<T(==)>(p: seq<T>, s: seq<T>)
  {
    |p| <= |s| && s[..|p|] == p
  }

  /** Python's `needle in hay` on strings (also `hay.find(needle) >= 0`). */
  predicate Occurs<T(==)>(needle: seq<T>, hay: seq<T>)
    decreases |hay|
  {
    IsPrefix(needle, hay) || (hay != [] && Occurs(needle, hay[1..]))
  }

  /** needle sits in hay at position i */
  predicate WindowAt<T(==)>(needle: seq<T>, hay: seq<T>, i: int)
  {
    0 <= i && i + |needle| <= |hay| && hay[i..i + |needle|] == needle
  }

  /** Occurs means: some window of hay equals needle. */
  lemma {:induction false} OccursAt<T>(needle: seq<T>, hay: seq<T>)
    ensures Occurs(needle, hay) <==> exists i :: WindowAt(needle, hay, i)
    decreases |hay|
  {
    if IsPrefix(needle, hay) {
      assert WindowAt(needle, hay, 0);
    }
    if hay != [] {
      OccursAt(needle, hay[1..]);
      if Occurs(needle, hay[1..]) {
        var i :| WindowAt(needle, hay[1..], i);
        assert hay[i + 1..i + 1 + |needle|] == hay[1..][i..i + |needle|];
        assert WindowAt(needle, hay, i + 1);
      }
      if exists i :: WindowAt(needle, hay, i) {
        var i :| WindowAt(needle, hay, i);
        if i > 0 {
          assert hay[1..][i - 1..i - 1 + |needle|] == hay[i..i + |needle|];
          assert WindowAt(needle, hay[1..], i - 1);
        }
      }
    } else if exists i :: WindowAt(needle, hay, i) {
      var i :| WindowAt(needle, hay, i);
      assert needle == [];
    }
  }
}
