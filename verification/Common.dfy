/** Small vocabulary shared by every module: options, sequence helpers and the priority queue. */
module Common {

  datatype Option<+T> = None | Some(value: T)

  function Get<K, V>(m: map<K, V>, k: K): Option<V> {
    if k in m then Some(m[k]) else None
  }

  function Last<T>(s: seq<T>): Option<T> {
    if s == [] then None else Some(s[|s| - 1])
  }

  lemma ShiftByOne<T>(s: seq<T>, i: nat, x: T)
    requires i < |s|
    ensures [s[0]] + (s[1..][..i] + [x] + s[1..][i..]) == s[..i + 1] + [x] + s[i + 1..]
  {
    assert s[..i + 1] == [s[0]] + s[1..][..i];
    assert s[i + 1..] == s[1..][i..];
  }

  /** The elements of `s` that satisfy `p`, in order. */
  function Filter<T(!new)>(s: seq<T>, p: T -> bool): (r: seq<T>)
    ensures |r| <= |s|
    ensures forall x :: x in r <==> x in s && p(x)
  {
    if s == [] then []
    else (if p(s[0]) then [s[0]] else []) + Filter(s[1..], p)
  }

  lemma FilterConcat<T(!new)>(a: seq<T>, b: seq<T>, p: T -> bool)
    ensures Filter(a + b, p) == Filter(a, p) + Filter(b, p)
  {
    if a == [] {
      assert a + b == b;
    } else {
      assert (a + b)[1..] == a[1..] + b;
      FilterConcat(a[1..], b, p);
    }
  }

  /** The last `n` elements (Python's `s[-n:]`). */
  function TakeLast<T>(s: seq<T>, n: nat): (r: seq<T>) {
    if |s| <= n then s else s[|s| - n..]
  }

  /** The sum of one figure over the values of a map. */
  ghost function Total<V>(m: map<string, V>, f: V -> real): real
    decreases |m|
  {
    if m == map[] then 0.0
    else
      var k :| k in m;
      f(m[k]) + Total(m - {k}, f)
  }

  lemma {:induction false} TotalSplit<V>(m: map<string, V>, k: string, f: V -> real)
    requires k in m
    ensures Total(m, f) == f(m[k]) + Total(m - {k}, f)
    decreases |m|
  {
    var j :| j in m && Total(m, f) == f(m[j]) + Total(m - {j}, f);
    if j != k {
      TotalSplit(m - {j}, k, f);
      TotalSplit(m - {k}, j, f);
      assert m - {j} - {k} == m - {k} - {j};
    }
  }

  lemma TotalPut<V>(m: map<string, V>, k: string, p: V, f: V -> real)
    ensures Total(m[k := p], f) == Total(m - {k}, f) + f(p)
  {
    TotalSplit(m[k := p], k, f);
    assert m[k := p] - {k} == m - {k};
  }

  lemma TotalMissing<V>(m: map<string, V>, k: string)
    requires k !in m
    ensures m - {k} == m
  {
  }

  lemma TotalNone<V>(m: map<string, V>, f: V -> real)
    requires m.Keys == {}
    ensures Total(m, f) == 0.0
  {
    assert m == map[];
  }

  /** Sum one figure over a map. */
  method TotalOf<V>(all: map<string, V>, f: V -> real) returns (r: real)
    ensures r == Total(all, f)
  {
    hide Total;
    r := 0.0;
    var left := all;
    while left.Keys != {}
      invariant r + Total(left, f) == Total(all, f)
      decreases |left.Keys|
    {
      var k :| k in left.Keys;
      TotalSplit(left, k, f);
      r := r + f(left[k]);
      assert left.Keys - {k} == (left - {k}).Keys;
      left := left - {k};
    }
    TotalNone(left, f);
  }
}

/** The contract of Python's `heapq` on (key, item) entries: `h[0]` is a least-keyed entry, a pop
    drops it, and a push adds one entry. The list is kept in key order, so a run of pops below a
    bound removes exactly a prefix. */
module HeapQueue {
  import opened Common

  datatype Entry<T> = Entry(key: real, item: T)

  ghost predicate Ordered<T>(h: seq<Entry<T>>) {
    forall i, j :: 0 <= i < j < |h| ==> h[i].key <= h[j].key
  }

  function Push<T>(h: seq<Entry<T>>, e: Entry<T>): (r: seq<Entry<T>>)
    ensures |r| == |h| + 1
  {
    if h == [] || e.key < h[0].key then [e] + h else [h[0]] + Push(h[1..], e)
  }

  /** A push inserts the entry at one position: not above anything before it, below everything after. */
  lemma {:induction false} PushAt<T>(h: seq<Entry<T>>, e: Entry<T>) returns (k: nat)
    requires Ordered(h)
    ensures k <= |h| && Push(h, e) == h[..k] + [e] + h[k..]
    ensures forall i :: 0 <= i < k ==> h[i].key <= e.key
    ensures forall i :: k <= i < |h| ==> e.key < h[i].key
  {
    k := 0;
    if h != [] && e.key >= h[0].key {
      var i := PushAt(h[1..], e);
      k := i + 1;
      ShiftByOne(h, i, e);
    } else {
      assert h[..0] + [e] + h[0..] == [e] + h;
    }
  }

  /** A push keeps the order. */
  lemma PushSound<T>(h: seq<Entry<T>>, e: Entry<T>) returns (k: nat)
    requires Ordered(h)
    ensures k <= |h| && Push(h, e) == h[..k] + [e] + h[k..]
    ensures Ordered(Push(h, e))
  {
    hide Push;
    k := PushAt(h, e);
  }

  lemma PushMembers<T(!new)>(h: seq<Entry<T>>, e: Entry<T>)
    requires Ordered(h)
    ensures Ordered(Push(h, e))
    ensures forall x :: x in Push(h, e) <==> x in h || x == e
  {
    hide Push;
    var k := PushSound(h, e);
    assert h == h[..k] + h[k..];
    forall x ensures x in Push(h, e) <==> x in h || x == e {
      assert x in h <==> x in h[..k] || x in h[k..];
    }
  }
}
