/**
 * Order-preserving "keep the first element of each key" and the stable sort
 * by an integer key. Several sources dedupe lists with the same loop over a
 * `map[key]bool` (`removeDuplicate`, `removeSDup`, Python list merging); the
 * functions here are the reference definitions those loops are proved against.
 */
module Keyed {

  /** The keys of the elements of s. */
  function Keys<T(==), K(==)>(s: seq<T>, key: T -> K): set<K>
  {
    set x | x in s :: key(x)
  }

  /**
   * The loop `if !allKeys[k] { allKeys[k] = true; res = append(res, item) }`
   * run over s with the keys already in `seen` marked.
   */
  function KeepFirst<T(==), K(==)>(s: seq<T>, key: T -> K, seen: set<K>): seq<T>
  {
    if s == [] then []
    else if key(s[0]) in seen then KeepFirst(s[1..], key, seen)
    else [s[0]] + KeepFirst(s[1..], key, seen + {key(s[0])})
  }

  /** Position of the first element of s whose key is k. */
  function IndexOfKey<T(==), K(==)>(s: seq<T>, key: T -> K, k: K): (i: nat)
    requires k in Keys(s, key)
    ensures i < |s| && key(s[i]) == k
    ensures forall j :: 0 <= j < i ==> key(s[j]) != k
  {
    if key(s[0]) == k then 0
    else
      assert k in Keys(s[1..], key) by {
        var x :| x in s && key(x) == k;
        var j :| 0 <= j < |s| && s[j] == x;
        assert j > 0 && s[1..][j - 1] == x;
      }
      1 + IndexOfKey(s[1..], key, k)
  }

  /** The first element of s whose key is k. */
  function FirstWithKey<T(==), K(==)>(s: seq<T>, key: T -> K, k: K): T
    requires k in Keys(s, key)
  {
    s[IndexOfKey(s, key, k)]
  }

  /** One step of a left-to-right scan: KeepFirst on the suffix from i. */
  lemma KeepFirstAt<T, K>(s: seq<T>, i: nat, key: T -> K, seen: set<K>)
    requires i < |s|
    ensures KeepFirst(s[i..], key, seen) ==
      if key(s[i]) in seen then KeepFirst(s[i + 1..], key, seen)
      else [s[i]] + KeepFirst(s[i + 1..], key, seen + {key(s[i])})
  {
    assert s[i..][0] == s[i];
    assert s[i..][1..] == s[i + 1..];
  }

  /** The invariant of the loop that keeps the first element of each key, carried over one element. */
  lemma KeepFirstLoopStep<T, K>(s: seq<T>, i: nat, key: T -> K, seen: set<K>, res: seq<T>)
    requires i < |s|
    requires res + KeepFirst(s[i..], key, seen) == KeepFirst(s, key, {})
    ensures key(s[i]) in seen ==> res + KeepFirst(s[i + 1..], key, seen) == KeepFirst(s, key, {})
    ensures key(s[i]) !in seen ==>
      (res + [s[i]]) + KeepFirst(s[i + 1..], key, seen + {key(s[i])}) == KeepFirst(s, key, {})
  {
    KeepFirstAt(s, i, key, seen);
    if key(s[i]) !in seen {
      var later := KeepFirst(s[i + 1..], key, seen + {key(s[i])});
      assert KeepFirst(s[i..], key, seen) == [s[i]] + later;
      assert res + ([s[i]] + later) == (res + [s[i]]) + later;
    }
  }

  /** Every element KeepFirst returns comes from s. */
  lemma {:induction false} KeepFirstElements<T, K>(s: seq<T>, key: T -> K, seen: set<K>)
    ensures forall x :: x in KeepFirst(s, key, seen) ==> x in s
  {
    if s != [] {
      KeepFirstElements(s[1..], key, seen);
      KeepFirstElements(s[1..], key, seen + {key(s[0])});
    }
  }

  /** KeepFirst keeps exactly the keys of s that were not yet seen. */
  lemma {:induction false} KeepFirstKeys<T, K>(s: seq<T>, key: T -> K, seen: set<K>)
    ensures Keys(KeepFirst(s, key, seen), key) == Keys(s, key) - seen
  {
    if s != [] {
      var k := key(s[0]);
      assert Keys(s, key) == {k} + Keys(s[1..], key) by {
        assert s == [s[0]] + s[1..];
      }
      if k in seen {
        KeepFirstKeys(s[1..], key, seen);
      } else {
        KeepFirstKeys(s[1..], key, seen + {k});
        var r := KeepFirst(s[1..], key, seen + {k});
        assert Keys([s[0]] + r, key) == {k} + Keys(r, key);
      }
    }
  }

  /** No two elements of r share a key. */
  predicate UniqueKeys<T(==), K(==)>(r: seq<T>, key: T -> K) {
    forall i, j :: 0 <= i < j < |r| ==> key(r[i]) != key(r[j])
  }

  /** No element of r has a key in seen. */
  predicate AvoidsKeys<T(==), K(==)>(r: seq<T>, key: T -> K, seen: set<K>) {
    forall i :: 0 <= i < |r| ==> key(r[i]) !in seen
  }

  /** The kept elements have pairwise different keys, none of them already seen. */
  lemma {:induction false} KeepFirstUnique<T, K>(s: seq<T>, key: T -> K, seen: set<K>)
    ensures AvoidsKeys(KeepFirst(s, key, seen), key, seen)
    ensures UniqueKeys(KeepFirst(s, key, seen), key)
  {
    if s != [] {
      var k := key(s[0]);
      if k in seen {
        KeepFirstUnique(s[1..], key, seen);
      } else {
        KeepFirstUnique(s[1..], key, seen + {k});
        var t := KeepFirst(s[1..], key, seen + {k});
        var r := [s[0]] + t;
        forall i, j | 0 <= i < j < |r| ensures key(r[i]) != key(r[j]) {
          if i > 0 {
            assert r[i] == t[i - 1] && r[j] == t[j - 1];
          } else {
            assert r[j] == t[j - 1];
            assert key(t[j - 1]) !in seen + {k};
          }
        }
        forall i | 0 <= i < |r| ensures key(r[i]) !in seen {
          if i > 0 {
            assert r[i] == t[i - 1];
            assert key(t[i - 1]) !in seen + {k};
          }
        }
      }
    }
  }

  /**
   * Each element of r is the first element of s with its key, and r lists
   * them in the order of those first occurrences.
   */
  predicate FirstOccurrences<T(==), K(==)>(s: seq<T>, key: T -> K, r: seq<T>) {
    (forall i :: 0 <= i < |r| ==> key(r[i]) in Keys(s, key) && r[i] == FirstWithKey(s, key, key(r[i]))) &&
    (forall i, j :: 0 <= i < j < |r| ==> IndexOfKey(s, key, key(r[i])) < IndexOfKey(s, key, key(r[j])))
  }

  /**
   * Each kept element is the first element of s with its key, and the kept
   * elements appear in the order of those first occurrences.
   */
  lemma {:induction false} KeepFirstIsFirst<T, K>(s: seq<T>, key: T -> K, seen: set<K>)
    ensures FirstOccurrences(s, key, KeepFirst(s, key, seen))
  {
    if s != [] {
      var k := key(s[0]);
      var seenT := if k in seen then seen else seen + {k};
      var t := KeepFirst(s[1..], key, seenT);
      KeepFirstIsFirst(s[1..], key, seenT);
      KeepFirstUnique(s[1..], key, seenT);
      // an element kept from s[1..] has a key other than k, so its first
      // occurrence in s is its first occurrence in s[1..], one place later
      forall i | 0 <= i < |t|
        ensures key(t[i]) in Keys(s, key)
        ensures IndexOfKey(s, key, key(t[i])) == 1 + IndexOfKey(s[1..], key, key(t[i]))
        ensures t[i] == FirstWithKey(s, key, key(t[i]))
      {
        assert key(t[i]) in Keys(s[1..], key);
        assert key(t[i]) !in seenT;
        IndexOfKeyTail(s, key, key(t[i]));
      }
      if k !in seen {
        var r := [s[0]] + t;
        assert KeepFirst(s, key, seen) == r;
        assert IndexOfKey(s, key, k) == 0;
        forall i, j | 0 <= i < j < |r|
          ensures IndexOfKey(s, key, key(r[i])) < IndexOfKey(s, key, key(r[j]))
        {
          assert r[j] == t[j - 1];
          if i > 0 {
            assert r[i] == t[i - 1];
          }
        }
      }
    }
  }

  /** For a key other than that of s[0], the first occurrence in s is one place after the first in s[1..]. */
  lemma IndexOfKeyTail<T, K>(s: seq<T>, key: T -> K, k: K)
    requires s != [] && k in Keys(s[1..], key) && k != key(s[0])
    ensures k in Keys(s, key)
    ensures IndexOfKey(s, key, k) == 1 + IndexOfKey(s[1..], key, k)
    ensures FirstWithKey(s, key, k) == FirstWithKey(s[1..], key, k)
  {
    var x :| x in s[1..] && key(x) == k;
    assert x in s;
  }

  /** The key of a list deduplicated by value. */
  function Itself<T>(x: T): T { x }

  /** Running the loop over s + t is running it over s, then over t with the keys of s marked. */
  lemma {:induction false} KeepFirstAppend<T, K>(s: seq<T>, t: seq<T>, key: T -> K, seen: set<K>)
    ensures KeepFirst(s + t, key, seen) == KeepFirst(s, key, seen) + KeepFirst(t, key, seen + Keys(s, key))
  {
    if s == [] {
      assert s + t == t;
      assert Keys(s, key) == {};
      assert seen + Keys(s, key) == seen;
    } else {
      var k := key(s[0]);
      assert (s + t)[0] == s[0] && (s + t)[1..] == s[1..] + t;
      assert Keys(s, key) == {k} + Keys(s[1..], key) by {
        assert s == [s[0]] + s[1..];
      }
      if k in seen {
        KeepFirstAppend(s[1..], t, key, seen);
        assert seen + Keys(s, key) == seen + Keys(s[1..], key);
      } else {
        KeepFirstAppend(s[1..], t, key, seen + {k});
        assert seen + {k} + Keys(s[1..], key) == seen + Keys(s, key);
      }
    }
  }

  /** Elements whose keys are all marked already are all dropped. */
  lemma {:induction false} KeepFirstAllSeen<T, K>(s: seq<T>, key: T -> K, seen: set<K>)
    requires Keys(s, key) <= seen
    ensures KeepFirst(s, key, seen) == []
  {
    if s != [] {
      assert key(s[0]) in Keys(s, key);
      assert Keys(s[1..], key) <= Keys(s, key) by {
        forall x | x in s[1..] ensures x in s {
        }
      }
      KeepFirstAllSeen(s[1..], key, seen);
    }
  }

  /** A list whose keys are pairwise different and not yet seen is kept whole. */
  lemma {:induction false} KeepFirstKeepsUnique<T, K>(s: seq<T>, key: T -> K, seen: set<K>)
    requires UniqueKeys(s, key) && AvoidsKeys(s, key, seen)
    ensures KeepFirst(s, key, seen) == s
  {
    if s != [] {
      var k := key(s[0]);
      var tail := s[1..];
      forall i | 0 <= i < |tail| ensures key(tail[i]) !in seen + {k} {
        assert tail[i] == s[i + 1];
      }
      assert UniqueKeys(tail, key) by {
        forall i, j | 0 <= i < j < |tail| ensures key(tail[i]) != key(tail[j]) {
          assert tail[i] == s[i + 1] && tail[j] == s[j + 1];
        }
      }
      KeepFirstKeepsUnique(tail, key, seen + {k});
      assert s == [s[0]] + tail;
    }
  }

  /** Inserting x into s before the first element whose key is not smaller. */
  function Insert<T(==)>(x: T, s: seq<T>, key: T -> int): seq<T>
  {
    if s == [] || key(x) <= key(s[0]) then [x] + s else [s[0]] + Insert(x, s[1..], key)
  }

  /**
   * Go's `sort.SliceStable` with the comparison `key(a) < key(b)`: a stable
   * insertion sort (an element is placed before the later elements of equal key).
   */
  function SortBy<T(==)>(s: seq<T>, key: T -> int): seq<T>
  {
    if s == [] then [] else Insert(s[0], SortBy(s[1..], key), key)
  }

  predicate SortedBy<T(==)>(s: seq<T>, key: T -> int) {
    forall i, j :: 0 <= i < j < |s| ==> key(s[i]) <= key(s[j])
  }

  lemma {:induction false} InsertPerm<T>(x: T, s: seq<T>, key: T -> int)
    ensures multiset(Insert(x, s, key)) == multiset{x} + multiset(s)
  {
    if s != [] && key(x) > key(s[0]) {
      InsertPerm(x, s[1..], key);
      assert s == [s[0]] + s[1..];
    }
  }

  lemma {:induction false} InsertFacts<T>(x: T, s: seq<T>, key: T -> int)
    requires SortedBy(s, key)
    ensures SortedBy(Insert(x, s, key), key)
    ensures multiset(Insert(x, s, key)) == multiset{x} + multiset(s)
  {
    InsertPerm(x, s, key);
    if s != [] && key(x) > key(s[0]) {
      InsertFacts(x, s[1..], key);
      var t := Insert(x, s[1..], key);
      forall j | 0 <= j < |t| ensures key(s[0]) <= key(t[j]) {
        assert t[j] in multiset(t);
        if t[j] != x {
          assert t[j] in multiset(s[1..]);
          var m :| 0 <= m < |s[1..]| && s[1..][m] == t[j];
          assert s[m + 1] == t[j];
        }
      }
      var r := [s[0]] + t;
      assert forall j :: 0 < j < |r| ==> r[j] == t[j - 1];
    }
  }

  /** SortBy returns a sorted permutation of its input. */
  lemma {:induction false} SortByFacts<T>(s: seq<T>, key: T -> int)
    ensures SortedBy(SortBy(s, key), key)
    ensures multiset(SortBy(s, key)) == multiset(s)
  {
    if s != [] {
      SortByFacts(s[1..], key);
      InsertFacts(s[0], SortBy(s[1..], key), key);
      assert s == [s[0]] + s[1..];
    }
  }

  lemma {:induction false} InsertFirstWithKey<T>(x: T, s: seq<T>, key: T -> int, k: int)
    requires k in Keys(s, key) || key(x) == k
    ensures k in Keys(Insert(x, s, key), key)
    ensures FirstWithKey(Insert(x, s, key), key, k) == if key(x) == k then x else FirstWithKey(s, key, k)
  {
    var r := Insert(x, s, key);
    if s == [] || key(x) <= key(s[0]) {
      assert r[0] == x;
      if key(x) != k {
        assert r[1..] == s;
        assert k in Keys(s, key);
        var i := IndexOfKey(s, key, k);
        assert r[i + 1] == s[i];
      }
    } else {
      if key(s[0]) == k {
        assert r[0] == s[0];
        assert IndexOfKey(s, key, k) == 0;
      } else {
        assert k in Keys(s[1..], key) || key(x) == k by {
          if key(x) != k {
            var y :| y in s && key(y) == k;
            var j :| 0 <= j < |s| && s[j] == y;
            assert j > 0 && s[1..][j - 1] == y;
          }
        }
        InsertFirstWithKey(x, s[1..], key, k);
        var t := Insert(x, s[1..], key);
        assert r == [s[0]] + t;
        assert t[IndexOfKey(t, key, k)] in r;
        assert IndexOfKey(r, key, k) == 1 + IndexOfKey(t, key, k);
        if key(x) != k {
          assert IndexOfKey(s, key, k) == 1 + IndexOfKey(s[1..], key, k);
        }
      }
    }
  }

  /** Stability: the first element of each key is the same before and after sorting. */
  lemma {:induction false} SortByFirstWithKey<T>(s: seq<T>, key: T -> int, k: int)
    requires k in Keys(s, key)
    ensures k in Keys(SortBy(s, key), key)
    ensures FirstWithKey(SortBy(s, key), key, k) == FirstWithKey(s, key, k)
  {
    if key(s[0]) == k {
      if |s| > 1 && k in Keys(s[1..], key) {
        InsertFirstWithKey(s[0], SortBy(s[1..], key), key, k);
      } else {
        InsertFirstWithKey(s[0], SortBy(s[1..], key), key, k);
      }
    } else {
      assert k in Keys(s[1..], key) by {
        var y :| y in s && key(y) == k;
        var j :| 0 <= j < |s| && s[j] == y;
        assert j > 0 && s[1..][j - 1] == y;
      }
      SortByFirstWithKey(s[1..], key, k);
      InsertFirstWithKey(s[0], SortBy(s[1..], key), key, k);
      assert IndexOfKey(s, key, k) == 1 + IndexOfKey(s[1..], key, k);
    }
  }

  /** Keys strictly increase along r. */
  predicate StrictlyAscending<T(==)>(r: seq<T>, key: T -> int) {
    forall i, j :: 0 <= i < j < |r| ==> key(r[i]) < key(r[j])
  }

  /** Keeping the first of each key of a sorted list leaves strictly ascending keys. */
  lemma {:induction false} KeepFirstSortedAscending<T>(s: seq<T>, key: T -> int, seen: set<int>)
    requires SortedBy(s, key)
    ensures StrictlyAscending(KeepFirst(s, key, seen), key)
  {
    if s != [] {
      var k := key(s[0]);
      var seen' := if k in seen then seen else seen + {k};
      KeepFirstSortedAscending(s[1..], key, seen');
      KeepFirstElements(s[1..], key, seen');
      KeepFirstUnique(s[1..], key, seen');
      if k !in seen {
        var t := KeepFirst(s[1..], key, seen');
        var r := [s[0]] + t;
        forall j | 0 < j < |r| ensures key(r[0]) < key(r[j]) {
          assert r[j] == t[j - 1];
          assert t[j - 1] in s[1..];
          var m :| 0 <= m < |s[1..]| && s[1..][m] == t[j - 1];
          assert s[m + 1] == t[j - 1];
          assert key(t[j - 1]) !in seen';
        }
        forall i, j | 0 < i < j < |r| ensures key(r[i]) < key(r[j]) {
          assert r[i] == t[i - 1] && r[j] == t[j - 1];
        }
      }
    }
  }
}
