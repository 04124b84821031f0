/** Identifier text: decimal numerals, field joining, and the code-point order strings sort by. */
module Text {

  function Digit(d: nat): (r: char)
    requires d < 10
    ensures '0' <= r <= '9'
  {
    "0123456789"[d]
  }

  /** The decimal numeral of `n`, as Python renders an int in an f-string. */
  function Numeral(n: nat): (r: string)
    ensures r != [] && forall i :: 0 <= i < |r| ==> '0' <= r[i] <= '9'
    ensures |r| == 1 <==> n < 10
  {
    if n < 10 then [Digit(n)] else Numeral(n / 10) + [Digit(n % 10)]
  }

  lemma DigitInjective(a: nat, b: nat)
    requires a < 10 && b < 10 && Digit(a) == Digit(b)
    ensures a == b
  {
  }

  lemma {:induction false} NumeralInjective(a: nat, b: nat)
    requires Numeral(a) == Numeral(b)
    ensures a == b
  {
    var (s, t) := (Numeral(a), Numeral(b));
    assert s[|s| - 1] == Digit(a % 10) && t[|t| - 1] == Digit(b % 10);
    DigitInjective(a % 10, b % 10);
    if a >= 10 && b >= 10 {
      assert s[..|s| - 1] == Numeral(a / 10) && t[..|t| - 1] == Numeral(b / 10);
      NumeralInjective(a / 10, b / 10);
    }
  }

  /** A field without the separator can be read back off the front of a joined text. */
  lemma {:induction false} CutUnique(c: char, a: string, x: string, b: string, y: string)
    requires c !in a && c !in b
    requires a + [c] + x == b + [c] + y
    ensures a == b && x == y
  {
    var (s, t) := (a + [c] + x, b + [c] + y);
    assert a != [] ==> a[0] in a;
    assert b != [] ==> b[0] in b;
    assert s[0] == t[0];
    if a != [] && b != [] {
      assert s[1..] == a[1..] + [c] + x && t[1..] == b[1..] + [c] + y;
      CutUnique(c, a[1..], x, b[1..], y);
      assert a == [a[0]] + a[1..] && b == [b[0]] + b[1..];
    } else {
      assert s[1..] == x && t[1..] == y;
    }
  }

  lemma FieldUnique(a: string, x: string, b: string, y: string)
    requires ':' !in a && ':' !in b
    requires a + ":" + x == b + ":" + y
    ensures a == b && x == y
  {
    CutUnique(':', a, x, b, y);
  }

  /** Python's `<=` on strings: code-point lexicographic. */
  predicate AtMost(a: string, b: string) {
    a == [] || (b != [] && (a[0] < b[0] || (a[0] == b[0] && AtMost(a[1..], b[1..]))))
  }

  lemma {:induction false} AtMostTotal(a: string, b: string)
    ensures AtMost(a, b) || AtMost(b, a)
    ensures AtMost(a, b) && AtMost(b, a) ==> a == b
  {
    if a != [] && b != [] {
      AtMostTotal(a[1..], b[1..]);
      assert a == [a[0]] + a[1..] && b == [b[0]] + b[1..];
    }
  }

  lemma {:induction false} AtMostTransitive(a: string, b: string, c: string)
    requires AtMost(a, b) && AtMost(b, c)
    ensures AtMost(a, c)
  {
    if a != [] && b != [] && c != [] && a[0] == b[0] == c[0] {
      AtMostTransitive(a[1..], b[1..], c[1..]);
    }
  }

  ghost predicate Ascending(s: seq<string>) {
    forall i, j :: 0 <= i < j < |s| ==> AtMost(s[i], s[j]) && s[i] != s[j]
  }

  lemma {:induction false} LeastExists(keys: set<string>) returns (m: string)
    requires keys != {}
    ensures m in keys && forall k :: k in keys ==> AtMost(m, k)
  {
    m :| m in keys;
    AtMostTotal(m, m);
    if keys != {m} {
      var least := LeastExists(keys - {m});
      AtMostTotal(m, least);
      if AtMost(m, least) {
        forall k | k in keys - {m} ensures AtMost(m, k) {
          AtMostTransitive(m, least, k);
        }
      } else {
        m := least;
      }
    }
  }

  lemma HasLeast(keys: set<string>)
    requires keys != {}
    ensures exists m :: m in keys && forall k :: k in keys ==> AtMost(m, k)
  {
    var m := LeastExists(keys);
  }

  ghost function Least(keys: set<string>): (m: string)
    requires keys != {}
    ensures m in keys && forall k :: k in keys ==> AtMost(m, k)
  {
    HasLeast(keys);
    var m :| m in keys && forall k :: k in keys ==> AtMost(m, k);
    m
  }

  /** Sorted, duplicate-free listing of a set of keys, as `sorted(dict)` gives it. */
  ghost function Sorted(keys: set<string>): (r: seq<string>)
    ensures |r| == |keys|
    ensures forall k :: k in r <==> k in keys
  {
    if keys == {} then [] else [Least(keys)] + Sorted(keys - {Least(keys)})
  }

  lemma AscendingPrepend(m: string, rest: seq<string>)
    requires Ascending(rest) && forall k :: k in rest ==> AtMost(m, k) && k != m
    ensures Ascending([m] + rest)
  {
    var r := [m] + rest;
    forall i, j | 0 <= i < j < |r| ensures AtMost(r[i], r[j]) && r[i] != r[j] {
      assert r[j] == rest[j - 1] && rest[j - 1] in rest;
    }
  }

  lemma {:induction false} SortedAscends(keys: set<string>)
    ensures Ascending(Sorted(keys))
  {
    if keys != {} {
      var m := Least(keys);
      var rest := Sorted(keys - {m});
      SortedAscends(keys - {m});
      assert forall k :: k in rest ==> AtMost(m, k) && k != m;
      AscendingPrepend(m, rest);
    }
  }

  lemma AscendingAppend(s: seq<string>, m: string)
    requires Ascending(s) && forall k :: k in s ==> AtMost(k, m) && k != m
    ensures Ascending(s + [m])
  {
    hide AtMost;
    var r := s + [m];
    forall i, j | 0 <= i < j < |r| ensures AtMost(r[i], r[j]) && r[i] != r[j] {
      assert r[i] == s[i] && s[i] in s;
    }
  }

  /** There is only one ascending listing of a set. */
  lemma {:induction false} AscendingUnique(a: seq<string>, b: seq<string>)
    requires Ascending(a) && Ascending(b)
    requires forall k :: k in a <==> k in b
    ensures a == b
  {
    assert a != [] ==> a[0] in b;
    assert b != [] ==> b[0] in a;
    if a != [] {
      AtMostTotal(a[0], b[0]);
      assert a[0] == b[0];
      assert forall k :: k in a <==> k == a[0] || k in a[1..];
      assert forall k :: k in b <==> k == b[0] || k in b[1..];
      AscendingUnique(a[1..], b[1..]);
      assert a == [a[0]] + a[1..] && b == [b[0]] + b[1..];
    }
  }
}
