/** The contract of Python's `sorted(key=...)`: ascending keys, a permutation, equal keys in their
    original order. */
module StableSort {
  import opened Common

  ghost predicate Ascending<T>(s: seq<T>, key: T -> real) {
    forall i, j :: 0 <= i < j < |s| ==> key(s[i]) <= key(s[j])
  }

  /** Insert after every element whose key is not greater. */
  function Insert<T>(s: seq<T>, x: T, key: T -> real): seq<T> {
    if s == [] || key(x) < key(s[0]) then [x] + s else [s[0]] + Insert(s[1..], x, key)
  }

  function Sort<T>(s: seq<T>, key: T -> real): seq<T> {
    if s == [] then [] else Insert(Sort(s[..|s| - 1], key), s[|s| - 1], key)
  }

  /** The elements whose key is at most `bound`. */
  function UpTo<T>(s: seq<T>, key: T -> real, bound: real): seq<T> {
    if s == [] then [] else (if key(s[0]) <= bound then [s[0]] else []) + UpTo(s[1..], key, bound)
  }

  lemma UpToStep<T>(s: seq<T>, key: T -> real, bound: real)
    requires s != []
    ensures UpTo(s, key, bound) ==
            if key(s[0]) <= bound then [s[0]] + UpTo(s[1..], key, bound)
            else UpTo(s[1..], key, bound)
  {
    assert [] + UpTo(s[1..], key, bound) == UpTo(s[1..], key, bound);
  }

  function WithKey<T>(s: seq<T>, key: T -> real, k: real): seq<T> {
    if s == [] then [] else (if key(s[0]) == k then [s[0]] else []) + WithKey(s[1..], key, k)
  }

  /** The element goes in at one position: not above anything before it, below everything after. */
  lemma {:induction false} InsertAt<T>(s: seq<T>, x: T, key: T -> real) returns (k: nat)
    requires Ascending(s, key)
    ensures k <= |s| && Insert(s, x, key) == s[..k] + [x] + s[k..]
    ensures forall i :: 0 <= i < k ==> key(s[i]) <= key(x)
    ensures forall i :: k <= i < |s| ==> key(x) < key(s[i])
  {
    k := 0;
    if s != [] && key(x) >= key(s[0]) {
      var i := InsertAt(s[1..], x, key);
      k := i + 1;
      ShiftByOne(s, i, x);
    } else {
      assert s[..0] + [x] + s[0..] == [x] + s;
    }
  }

  lemma InsertSound<T>(s: seq<T>, x: T, key: T -> real)
    requires Ascending(s, key)
    ensures Ascending(Insert(s, x, key), key)
    ensures multiset(Insert(s, x, key)) == multiset(s) + multiset{x}
  {
    hide Insert;
    var k := InsertAt(s, x, key);
    assert s == s[..k] + s[k..];
  }

  lemma {:induction false} NoneWithKey<T>(s: seq<T>, key: T -> real, k: real)
    requires forall i :: 0 <= i < |s| ==> key(s[i]) != k
    ensures WithKey(s, key, k) == []
  {
    if s != [] {
      NoneWithKey(s[1..], key, k);
    }
  }

  lemma {:induction false} InsertKeepsOrder<T>(s: seq<T>, x: T, key: T -> real, k: real)
    requires Ascending(s, key)
    ensures WithKey(Insert(s, x, key), key, k) == WithKey(s, key, k) + if key(x) == k then [x] else []
  {
    if s != [] && key(x) >= key(s[0]) {
      InsertKeepsOrder(s[1..], x, key, k);
    } else {
      assert ([x] + s)[1..] == s;
      if key(x) == k {
        NoneWithKey(s, key, k);
      }
    }
  }

  lemma {:induction false} WithKeyAppend<T>(s: seq<T>, x: T, key: T -> real, k: real)
    ensures WithKey(s + [x], key, k) == WithKey(s, key, k) + if key(x) == k then [x] else []
  {
    if s != [] {
      assert (s + [x])[1..] == s[1..] + [x];
      WithKeyAppend(s[1..], x, key, k);
    }
  }

  /** Ascending, a permutation, and stable. */
  lemma {:induction false} SortSound<T>(s: seq<T>, key: T -> real, k: real)
    ensures Ascending(Sort(s, key), key)
    ensures multiset(Sort(s, key)) == multiset(s)
    ensures WithKey(Sort(s, key), key, k) == WithKey(s, key, k)
  {
    hide Insert;
    if s != [] {
      var front, x := s[..|s| - 1], s[|s| - 1];
      SortSound(front, key, k);
      InsertSound(Sort(front, key), x, key);
      InsertKeepsOrder(Sort(front, key), x, key, k);
      WithKeyAppend(front, x, key, k);
      assert s == front + [x];
    }
  }

  lemma {:induction false} UpToAppend<T>(s: seq<T>, t: seq<T>, key: T -> real, bound: real)
    ensures UpTo(s + t, key, bound) == UpTo(s, key, bound) + UpTo(t, key, bound)
  {
    if s != [] {
      assert (s + t)[1..] == s[1..] + t;
      UpToAppend(s[1..], t, key, bound);
    } else {
      assert s + t == t;
    }
  }

  lemma {:induction false} UpToNone<T>(s: seq<T>, key: T -> real, bound: real)
    requires forall i :: 0 <= i < |s| ==> bound < key(s[i])
    ensures UpTo(s, key, bound) == []
  {
    if s != [] {
      UpToNone(s[1..], key, bound);
    }
  }

  /** Of an ascending list, the elements up to a bound are a prefix. */
  lemma {:induction false} UpToIsPrefix<T>(s: seq<T>, key: T -> real, bound: real)
    requires Ascending(s, key)
    ensures UpTo(s, key, bound) <= s
  {
    if s != [] {
      if key(s[0]) <= bound {
        UpToIsPrefix(s[1..], key, bound);
      } else {
        UpToNone(s, key, bound);
      }
    }
  }

  lemma {:induction false} UpToInsert<T>(s: seq<T>, x: T, key: T -> real, bound: real)
    requires Ascending(s, key)
    ensures UpTo(Insert(s, x, key), key, bound) ==
            if key(x) <= bound then Insert(UpTo(s, key, bound), x, key) else UpTo(s, key, bound)
  {
    if s != [] && key(x) >= key(s[0]) {
      UpToInsert(s[1..], x, key, bound);
      if key(s[0]) <= bound {
        var kept := UpTo(s, key, bound);
        assert kept[0] == s[0] && kept[1..] == UpTo(s[1..], key, bound);
      }
    } else {
      assert ([x] + s)[1..] == s;
      UpToIsPrefix(s, key, bound);
    }
  }

  /** Cutting off before or after sorting gives the same list. */
  lemma {:induction false} UpToSort<T>(s: seq<T>, key: T -> real, bound: real)
    ensures UpTo(Sort(s, key), key, bound) == Sort(UpTo(s, key, bound), key)
  {
    if s != [] {
      var front, x := s[..|s| - 1], s[|s| - 1];
      UpToSort(front, key, bound);
      SortSound(front, key, 0.0);
      UpToInsert(Sort(front, key), x, key, bound);
      UpToAppend(front, [x], key, bound);
      assert s == front + [x];
      var kept := UpTo(front, key, bound);
      assert (kept + [x])[..|kept|] == kept && kept + [] == kept;
      assert UpTo([x], key, bound) == if key(x) <= bound then [x] else [];
    }
  }

  lemma SortMembers<T(!new)>(s: seq<T>, key: T -> real)
    ensures forall x :: x in Sort(s, key) <==> x in s
  {
    hide Sort;
    SortSound(s, key, 0.0);
    forall x ensures x in Sort(s, key) <==> x in s {
      assert x in Sort(s, key) <==> x in multiset(Sort(s, key));
    }
  }
}
