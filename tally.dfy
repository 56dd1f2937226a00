/**
 * Counting records keyed by a card field, as the scoring functions build
 * them with `counts[key] = (counts[key] || 0) + 1`. A JavaScript object keeps
 * its string keys in insertion order, so the keys are listed in order of
 * first occurrence.
 */
module Tally {

  /** Number of occurrences of `x` in `s`, counted from the left. */
  function Occurrences<T(==,!new)>(s: seq<T>, x: T): (n: nat)
    ensures n <= |s|
    ensures n > 0 <==> x in s
  {
    if s == [] then 0
    else
      assert s == s[..|s| - 1] + [s[|s| - 1]];
      Occurrences(s[..|s| - 1], x) + (if s[|s| - 1] == x then 1 else 0)
  }

  lemma {:induction false} OccurrencesIsMultiplicity<T(!new)>(s: seq<T>, x: T)
    ensures Occurrences(s, x) == multiset(s)[x]
  {
    if s != [] {
      OccurrencesIsMultiplicity(s[..|s| - 1], x);
      assert s == s[..|s| - 1] + [s[|s| - 1]];
    }
  }

  /** Counting is insensitive to the order of the sequence. */
  lemma OccurrencesPermutation<T(!new)>(s: seq<T>, t: seq<T>, x: T)
    requires multiset(s) == multiset(t)
    ensures Occurrences(s, x) == Occurrences(t, x)
  {
    OccurrencesIsMultiplicity(s, x);
    OccurrencesIsMultiplicity(t, x);
  }

  lemma {:induction false} OccurrencesAppend<T(!new)>(s: seq<T>, t: seq<T>, x: T)
    ensures Occurrences(s + t, x) == Occurrences(s, x) + Occurrences(t, x)
    decreases |t|
  {
    if t == [] {
      assert s + t == s;
    } else {
      assert (s + t)[..|s + t| - 1] == s + t[..|t| - 1];
      OccurrencesAppend(s, t[..|t| - 1], x);
    }
  }

  /** A sequence made only of `y` holds `|s|` copies of `y` and nothing else. */
  lemma {:induction false} OccurrencesOfBlock<T(!new)>(s: seq<T>, y: T, x: T)
    requires forall i :: 0 <= i < |s| ==> s[i] == y
    ensures Occurrences(s, x) == if x == y then |s| else 0
  {
    if s != [] {
      OccurrencesOfBlock(s[..|s| - 1], y, x);
    }
  }

  predicate NoDuplicates<T(==,!new)>(s: seq<T>) {
    forall i, j :: 0 <= i < j < |s| ==> s[i] != s[j]
  }

  /** The distinct elements of `s` in order of first occurrence (`Object.keys` of the counts). */
  function KeysInOrder<T(==,!new)>(s: seq<T>): (keys: seq<T>)
    ensures forall x :: x in keys <==> x in s
    ensures NoDuplicates(keys)
    ensures |keys| <= |s|
  {
    if s == [] then []
    else
      var keys := KeysInOrder(s[..|s| - 1]);
      assert s == s[..|s| - 1] + [s[|s| - 1]];
      if s[|s| - 1] in keys then keys else keys + [s[|s| - 1]]
  }

  /** The index of the first occurrence of `x` in `s`. */
  function FirstIndex<T(==,!new)>(s: seq<T>, x: T): (i: nat)
    requires x in s
    ensures i < |s| && s[i] == x && x !in s[..i]
  {
    if s[0] == x then 0
    else
      var i := 1 + FirstIndex(s[1..], x);
      assert s[..i] == [s[0]] + s[1..][..i - 1];
      i
  }

  lemma FirstIndexUnique<T(!new)>(s: seq<T>, x: T, i: nat)
    requires i < |s| && s[i] == x && x !in s[..i]
    ensures FirstIndex(s, x) == i
  {
  }

  /** Keys are listed in strictly increasing order of their first occurrence. */
  lemma {:induction false} KeysFollowFirstOccurrence<T(!new)>(s: seq<T>, i: nat, j: nat)
    requires i < j < |KeysInOrder(s)|
    ensures FirstIndex(s, KeysInOrder(s)[i]) < FirstIndex(s, KeysInOrder(s)[j])
  {
    var n := |s|;
    var prefix := s[..n - 1];
    var keys := KeysInOrder(prefix);
    assert s == prefix + [s[n - 1]];
    var ki, kj := KeysInOrder(s)[i], KeysInOrder(s)[j];
    assert ki in prefix by { assert ki == keys[i]; }
    var fi := FirstIndex(prefix, ki);
    assert s[..fi] == prefix[..fi];
    FirstIndexUnique(s, ki, fi);
    if j < |keys| {
      assert kj == keys[j];
      var fj := FirstIndex(prefix, kj);
      assert s[..fj] == prefix[..fj];
      FirstIndexUnique(s, kj, fj);
      KeysFollowFirstOccurrence(prefix, i, j);
    } else {
      assert kj == s[n - 1] && kj !in keys;
      assert s[..n - 1] == prefix;
      FirstIndexUnique(s, kj, n - 1);
    }
  }

  /** The largest count among `keys` (`Math.max` over the count values; 0 for no keys). */
  function MaxCount<T(==,!new)>(s: seq<T>, keys: seq<T>): nat {
    if keys == [] then 0
    else
      var best := MaxCount(s, keys[..|keys| - 1]);
      var last := Occurrences(s, keys[|keys| - 1]);
      if best >= last then best else last
  }

  /** `MaxCount` is attained by some key and bounds the count of every key. */
  lemma {:induction false} MaxCountIsMaximum<T(!new)>(s: seq<T>, keys: seq<T>)
    ensures forall x :: x in keys ==> Occurrences(s, x) <= MaxCount(s, keys)
    ensures keys != [] ==> exists x :: x in keys && Occurrences(s, x) == MaxCount(s, keys)
  {
    if keys != [] {
      var front := keys[..|keys| - 1];
      MaxCountIsMaximum(s, front);
      assert keys == front + [keys[|keys| - 1]];
    }
  }

  /**
   * `entries.reduce((a, b) => a[1] > b[1] ? a : b)` over the keys, as the
   * position it ends on: a later key replaces the current one unless the
   * current one has a strictly larger count. So it ends on a key of largest
   * count, and on the last such key.
   */
  function MostFrequentIndex<T(==,!new)>(s: seq<T>, keys: seq<T>): (j: nat)
    requires keys != []
    ensures j < |keys|
    ensures forall i :: 0 <= i < |keys| ==> Occurrences(s, keys[i]) <= Occurrences(s, keys[j])
    ensures forall i :: j < i < |keys| ==> Occurrences(s, keys[i]) < Occurrences(s, keys[j])
  {
    if |keys| == 1 then 0
    else
      var a := MostFrequentIndex(s, keys[..|keys| - 1]);
      var b := |keys| - 1;
      assert keys[a] == keys[..|keys| - 1][a];
      if Occurrences(s, keys[a]) > Occurrences(s, keys[b]) then a else b
  }

  /** The key the reduce returns. */
  function MostFrequent<T(==,!new)>(s: seq<T>, keys: seq<T>): T
    requires keys != []
  {
    keys[MostFrequentIndex(s, keys)]
  }

  /**
   * Over the keys in insertion order, the reduce returns a value of largest
   * count and, among the values tied for it, the one first seen latest.
   */
  lemma MostFrequentIsLatestTiedMaximum<T(!new)>(s: seq<T>)
    requires s != []
    ensures KeysInOrder(s) != []
    ensures var m := MostFrequent(s, KeysInOrder(s));
      && m in s
      && (forall x :: Occurrences(s, x) <= Occurrences(s, m))
      && (forall x :: x in s && Occurrences(s, x) == Occurrences(s, m) ==> FirstIndex(s, x) <= FirstIndex(s, m))
  {
    assert s[0] in KeysInOrder(s);
    MostFrequentIsMaximum(s);
    MostFrequentIsLatestTied(s);
  }

  lemma MostFrequentIsMaximum<T(!new)>(s: seq<T>)
    requires KeysInOrder(s) != []
    ensures forall x :: Occurrences(s, x) <= Occurrences(s, MostFrequent(s, KeysInOrder(s)))
  {
    var keys := KeysInOrder(s);
    var m := keys[MostFrequentIndex(s, keys)];
    forall x ensures Occurrences(s, x) <= Occurrences(s, m) {
      if x in s {
        assert x in keys;
        var i :| 0 <= i < |keys| && keys[i] == x;
      }
    }
  }

  lemma MostFrequentIsLatestTied<T(!new)>(s: seq<T>)
    requires KeysInOrder(s) != []
    ensures var m := MostFrequent(s, KeysInOrder(s));
      forall x :: x in s && Occurrences(s, x) == Occurrences(s, m) ==> FirstIndex(s, x) <= FirstIndex(s, m)
  {
    var keys := KeysInOrder(s);
    var m := MostFrequent(s, keys);
    forall x | x in s && Occurrences(s, x) == Occurrences(s, m)
      ensures FirstIndex(s, x) <= FirstIndex(s, m)
    {
      assert x in keys;
      var i :| 0 <= i < |keys| && keys[i] == x;
      TiedKeyComesNoLater(s, i);
    }
  }

  /** A key tied with the reduce's result was first seen no later than it. */
  lemma TiedKeyComesNoLater<T(!new)>(s: seq<T>, i: nat)
    requires i < |KeysInOrder(s)|
    requires Occurrences(s, KeysInOrder(s)[i]) == Occurrences(s, MostFrequent(s, KeysInOrder(s)))
    ensures KeysInOrder(s)[i] in s && MostFrequent(s, KeysInOrder(s)) in s
    ensures FirstIndex(s, KeysInOrder(s)[i]) <= FirstIndex(s, MostFrequent(s, KeysInOrder(s)))
  {
    var keys := KeysInOrder(s);
    var j := MostFrequentIndex(s, keys);
    assert keys[i] in keys && keys[j] in keys;
    if i < j {
      KeysFollowFirstOccurrence(s, i, j);
    } else if i > j {
      assert false;
    }
  }

  /**
   * The reduce over the count record's entries, as a loop over the keys: a
   * later key takes over unless the current one has a strictly larger count.
   */
  method ReduceMostFrequent<T(==,!new)>(ghost s: seq<T>, counts: map<T, nat>, keys: seq<T>) returns (best: nat)
    requires keys != []
    requires forall x :: x in keys ==> x in counts && counts[x] == Occurrences(s, x)
    ensures best == MostFrequentIndex(s, keys)
  {
    best := 0;
    var k := 1;
    while k < |keys|
      invariant 1 <= k <= |keys|
      invariant best == MostFrequentIndex(s, keys[..k])
    {
      assert keys[..k + 1][..k] == keys[..k];
      assert keys[..k + 1][best] == keys[best];
      if !(counts[keys[best]] > counts[keys[k]]) {
        best := k;
      }
      k := k + 1;
    }
    assert keys[..k] == keys;
  }

  /** Extending the prefix `s[..i]` by `s[i]`: one more occurrence of `s[i]`, and a new key if unseen. */
  lemma TallyStep<T(!new)>(s: seq<T>, i: nat)
    requires i < |s|
    ensures KeysInOrder(s[..i + 1]) == if s[i] in s[..i] then KeysInOrder(s[..i]) else KeysInOrder(s[..i]) + [s[i]]
    ensures forall x :: Occurrences(s[..i + 1], x) == Occurrences(s[..i], x) + (if x == s[i] then 1 else 0)
    ensures forall x :: x in s[..i + 1] <==> x in s[..i] || x == s[i]
  {
    assert s[..i + 1][..i] == s[..i];
    assert s[..i + 1] == s[..i] + [s[i]];
  }

  /**
   * The tally loop of the scoring functions: walks `s` once and builds the
   * count record together with its keys in insertion order.
   */
  method Tally<T(==,!new)>(s: seq<T>) returns (counts: map<T, nat>, keys: seq<T>)
    ensures keys == KeysInOrder(s)
    ensures forall x :: x in counts <==> x in s
    ensures forall x :: x in counts ==> counts[x] == Occurrences(s, x)
  {
    counts, keys := map[], [];
    var i := 0;
    while i < |s|
      invariant 0 <= i <= |s|
      invariant keys == KeysInOrder(s[..i])
      invariant forall x :: x in counts <==> x in s[..i]
      invariant forall x :: x in counts ==> counts[x] == Occurrences(s[..i], x)
    {
      var x := s[i];
      TallyStep(s, i);
      if x in counts {
        counts := counts[x := counts[x] + 1];
      } else {
        counts := counts[x := 1];
        keys := keys + [x];
      }
      i := i + 1;
    }
    assert s[..i] == s;
  }
}
