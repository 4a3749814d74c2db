/** Facts about sequences, used to show that the order in which the ingredient slots are
    visited does not matter. */
module Seqs {
  import opened Wrappers

  ghost predicate Distinct<T>(s: seq<T>) {
    forall i, j :: 0 <= i < j < |s| ==> s[i] != s[j]
  }

  /** Appending an element that is not there yet keeps a sequence without repetitions. */
  lemma DistinctAppend<T>(s: seq<T>, x: T)
    requires Distinct(s) && x !in s
    ensures Distinct(s + [x])
  {
  }

  /** Going through the keys of `outcomes` one at a time: `keys` lists, in the order met and
      without repetition, exactly the keys of `visited` that have an outcome, and `values`
      holds those outcomes. */
  ghost predicate SelectedSoFar<K, V>(outcomes: map<K, Option<V>>, visited: set<K>, keys: seq<K>, values: seq<V>)
  {
    && |keys| == |values|
    && Distinct(keys)
    && (forall i :: 0 <= i < |keys| ==> keys[i] in visited && keys[i] in outcomes && outcomes[keys[i]] == Some(values[i]))
    && (forall k :: k in visited && k in outcomes && outcomes[k].Some? ==> k in keys)
  }

  /** Meeting one more key appends it and its outcome exactly when it has one. */
  lemma SelectOne<K, V>(outcomes: map<K, Option<V>>, visited: set<K>, keys: seq<K>, values: seq<V>, k: K)
    requires SelectedSoFar(outcomes, visited, keys, values) && k in outcomes && k !in visited
    ensures SelectedSoFar(outcomes, visited + {k},
      if outcomes[k].Some? then keys + [k] else keys,
      if outcomes[k].Some? then values + [outcomes[k].value] else values)
  {
    if outcomes[k].Some? {
      DistinctAppend(keys, k);
    }
  }

  /** In a sequence without repetitions every element occurs exactly once. */
  lemma {:induction false} DistinctMultiplicity<T>(s: seq<T>)
    requires Distinct(s)
    ensures forall x :: multiset(s)[x] == if x in s then 1 else 0
  {
    if s != [] {
      assert Distinct(s[1..]) by {
        forall i, j | 0 <= i < j < |s[1..]| ensures s[1..][i] != s[1..][j] {
          assert s[1..][i] == s[i + 1] && s[1..][j] == s[j + 1];
        }
      }
      DistinctMultiplicity(s[1..]);
      assert s == [s[0]] + s[1..];
      assert s[0] !in s[1..];
    }
  }

  /** Two sequences without repetitions that hold the same elements are permutations of
      each other. */
  lemma SameElementsSameMultiset<T>(s1: seq<T>, s2: seq<T>)
    requires Distinct(s1) && Distinct(s2) && (forall t :: t in s1 <==> t in s2)
    ensures multiset(s1) == multiset(s2)
  {
    DistinctMultiplicity(s1);
    DistinctMultiplicity(s2);
    assert forall x :: multiset(s1)[x] == multiset(s2)[x];
  }

  /** A sequence without repetitions drawn from a set is no longer than the set. */
  lemma {:induction false} DistinctWithin<T>(s: seq<T>, bound: set<T>)
    requires Distinct(s) && forall i :: 0 <= i < |s| ==> s[i] in bound
    ensures |s| <= |bound|
  {
    if s != [] {
      forall i, j | 0 <= i < j < |s[1..]| ensures s[1..][i] != s[1..][j] {
        assert s[1..][i] == s[i + 1] && s[1..][j] == s[j + 1];
      }
      forall i | 0 <= i < |s[1..]| ensures s[1..][i] in bound - {s[0]} {
        assert s[1..][i] == s[i + 1];
      }
      DistinctWithin(s[1..], bound - {s[0]});
    }
  }

  /** A sequence without repetitions that holds x and nothing else is [x]. */
  lemma DistinctRepeated<T>(s: seq<T>, x: T)
    requires Distinct(s) && x in s && forall i :: 0 <= i < |s| ==> s[i] == x
    ensures s == [x]
  {
    DistinctWithin(s, {x});
  }

  /** The labels m gives to those of keys it knows, in order. */
  function LabelsOf<K, V>(m: map<K, V>, keys: seq<K>): (labels: seq<V>)
    ensures |labels| <= |keys|
  {
    if keys == [] then []
    else (if keys[0] in m then [m[keys[0]]] else []) + LabelsOf(m, keys[1..])
  }

  lemma {:induction false} LabelsOfAppend<K, V>(m: map<K, V>, a: seq<K>, b: seq<K>)
    ensures LabelsOf(m, a + b) == LabelsOf(m, a) + LabelsOf(m, b)
  {
    if a == [] {
      assert a + b == b;
    } else {
      assert (a + b)[1..] == a[1..] + b;
      LabelsOfAppend(m, a[1..], b);
    }
  }

  /** Labels given position by position are the labels LabelsOf computes. */
  lemma {:induction false} LabelsOfPointwise<K, V>(m: map<K, V>, keys: seq<K>, labels: seq<V>)
    requires |keys| == |labels|
    requires forall k :: 0 <= k < |keys| ==> keys[k] in m && m[keys[k]] == labels[k]
    ensures LabelsOf(m, keys) == labels
  {
    if keys != [] {
      assert keys[0] in m;
      forall k | 0 <= k < |keys[1..]| ensures keys[1..][k] in m && m[keys[1..][k]] == labels[1..][k] {
        assert keys[1..][k] == keys[k + 1] && labels[1..][k] == labels[k + 1];
      }
      LabelsOfPointwise(m, keys[1..], labels[1..]);
      assert labels == [labels[0]] + labels[1..];
    }
  }

  lemma Split<T>(s: seq<T>, j: nat)
    requires j < |s|
    ensures s == s[..j] + [s[j]] + s[j + 1..]
  {
  }

  lemma MultisetWithout<T>(s: seq<T>, j: nat)
    requires j < |s|
    ensures multiset(s[..j] + s[j + 1..]) == multiset(s) - multiset{s[j]}
  {
    Split(s, j);
  }

  lemma LabelsOfCons<K, V>(m: map<K, V>, s: seq<K>)
    requires s != []
    ensures LabelsOf(m, s) == LabelsOf(m, [s[0]]) + LabelsOf(m, s[1..])
  {
    assert [s[0]][1..] == [];
  }

  lemma LabelsOfSplit<K, V>(m: map<K, V>, s: seq<K>, j: nat)
    requires j < |s|
    ensures LabelsOf(m, s) == LabelsOf(m, s[..j]) + LabelsOf(m, [s[j]]) + LabelsOf(m, s[j + 1..])
    ensures LabelsOf(m, s[..j] + s[j + 1..]) == LabelsOf(m, s[..j]) + LabelsOf(m, s[j + 1..])
  {
    Split(s, j);
    LabelsOfAppend(m, s[..j] + [s[j]], s[j + 1..]);
    LabelsOfAppend(m, s[..j], [s[j]]);
    LabelsOfAppend(m, s[..j], s[j + 1..]);
  }

  /** Dropping the first element of s1 and a copy of it from s2 keeps them permutations. */
  lemma RemoveMatched<K>(s1: seq<K>, s2: seq<K>, j: nat)
    requires multiset(s1) == multiset(s2) && s1 != [] && j < |s2| && s2[j] == s1[0]
    ensures multiset(s1[1..]) == multiset(s2[..j] + s2[j + 1..])
  {
    assert s1[..0] + s1[1..] == s1[1..];
    MultisetWithout(s1, 0);
    MultisetWithout(s2, j);
  }

  lemma MultisetRegroup<V>(x: seq<V>, q: seq<V>, a: seq<V>, b: seq<V>)
    requires multiset(q) == multiset(a + b)
    ensures multiset(x + q) == multiset(a + x + b)
  {
  }

  /** Labelling a permutation of the keys gives a permutation of the labels. */
  lemma {:induction false} LabelsOfPermutation<K, V>(m: map<K, V>, s1: seq<K>, s2: seq<K>)
    requires multiset(s1) == multiset(s2)
    ensures multiset(LabelsOf(m, s1)) == multiset(LabelsOf(m, s2))
    decreases |s1|
  {
    if s1 == [] {
      assert |s2| == |multiset(s2)| == 0;
    } else {
      assert s1[0] in multiset(s2);
      var j :| 0 <= j < |s2| && s2[j] == s1[0];
      RemoveMatched(s1, s2, j);
      LabelsOfPermutation(m, s1[1..], s2[..j] + s2[j + 1..]);
      LabelsOfCons(m, s1);
      LabelsOfSplit(m, s2, j);
      MultisetRegroup(LabelsOf(m, [s1[0]]), LabelsOf(m, s1[1..]), LabelsOf(m, s2[..j]), LabelsOf(m, s2[j + 1..]));
    }
  }
}
