/** Normal forms of instrument symbols. */
module Symbols {
  import opened Common

  function UpperChar(c: char): char {
    if 'a' <= c <= 'z' then (c as int - 'a' as int + 'A' as int) as char else c
  }

  function Upper(text: string): string {
    seq(|text|, i requires 0 <= i < |text| => UpperChar(text[i]))
  }

  predicate Blank(c: char) {
    c == ' ' || c == '\t' || c == '\n' || c == '\r'
  }

  function Strip(text: string): string {
    if text != [] && Blank(text[0]) then Strip(text[1..])
    else if text != [] && Blank(text[|text| - 1]) then Strip(text[..|text| - 1])
    else text
  }

  function Without(text: string, dropped: string): string {
    if text == [] then [] else (if text[0] in dropped then [] else [text[0]]) + Without(text[1..], dropped)
  }

  /** Trimmed, upper-case, without separators. */
  function Normalize(symbol: string): string {
    Without(Upper(Strip(symbol)), "/_-")
  }

  /** Upper-case without separators. */
  function Clean(symbol: string): string {
    if symbol == [] then []
    else
      var head := if symbol[0] == '/' || symbol[0] == '_' || symbol[0] == '-' then [] else [UpperChar(symbol[0])];
      head + Clean(symbol[1..])
  }

  lemma {:induction false} CleanTwice(symbol: string)
    ensures Clean(Clean(symbol)) == Clean(symbol)
  {
    if symbol != [] {
      CleanTwice(symbol[1..]);
      var head := UpperChar(symbol[0]);
      assert ([head] + Clean(symbol[1..]))[1..] == Clean(symbol[1..]);
      assert [] + Clean(symbol[1..]) == Clean(symbol[1..]);
    }
  }

  predicate Separator(c: char) {
    c == '/' || c == '_' || c == '-'
  }

  lemma HeadClean(symbol: string)
    requires symbol != []
    ensures Clean(symbol) == (if Separator(symbol[0]) then [] else [UpperChar(symbol[0])]) + Clean(symbol[1..])
  {
  }

  lemma CleanOf(symbol: string)
    requires symbol == []
    ensures Clean(symbol) == []
  {
  }

  lemma {:induction false} CleanConcat(a: string, b: string)
    ensures Clean(a + b) == Clean(a) + Clean(b)
  {
    hide Clean, UpperChar, Separator;
    if a == [] {
      CleanOf(a);
      assert a + b == b;
    } else {
      CleanConcat(a[1..], b);
      assert (a + b)[1..] == a[1..] + b;
      HeadClean(a);
      HeadClean(a + b);
    }
  }

  lemma CleanOne(c: char)
    ensures Clean([c]) == if Separator(c) then [] else [UpperChar(c)]
  {
    assert [c][1..] == [];
  }

  /** Separators are dropped wherever they stand, and every other character is written once, in upper case. */
  lemma CleanDrops(a: string, c: char, b: string)
    ensures Clean(a + [c] + b) == Clean(a) + (if Separator(c) then [] else [UpperChar(c)]) + Clean(b)
  {
    hide Clean, UpperChar;
    CleanConcat(a + [c], b);
    CleanConcat(a, [c]);
    CleanOne(c);
  }

  predicate Plain(symbol: string) {
    forall c :: c in symbol ==> !Separator(c) && !('a' <= c <= 'z')
  }

  lemma UpperPlain(c: char)
    ensures !('a' <= UpperChar(c) <= 'z') && (UpperChar(c) == c <==> !('a' <= c <= 'z'))
    ensures !Separator(c) ==> !Separator(UpperChar(c))
  {
  }

  lemma {:induction false} CleanNoLonger(symbol: string)
    ensures |Clean(symbol)| <= |symbol|
  {
    if symbol != [] {
      CleanNoLonger(symbol[1..]);
    }
  }

  /** A normal form has no separator and no lower-case letter, and such symbols are their own normal forms. */
  lemma {:induction false} CleanFixed(symbol: string)
    ensures Plain(Clean(symbol)) && (Plain(symbol) <==> Clean(symbol) == symbol)
  {
    hide Clean, UpperChar, Separator;
    if symbol == [] {
      CleanNoLonger(symbol);
    } else {
      HeadClean(symbol);
      CleanFixed(symbol[1..]);
      CleanNoLonger(symbol[1..]);
      UpperPlain(symbol[0]);
      assert symbol == [symbol[0]] + symbol[1..];
    }
  }

  /** Stripping cuts the blanks off both ends and nothing else. */
  lemma {:induction false} StripExact(text: string) returns (i: nat, j: nat)
    ensures i <= j <= |text| && Strip(text) == text[i..j]
    ensures forall k :: (0 <= k < i || j <= k < |text|) ==> Blank(text[k])
    ensures i < j ==> !Blank(text[i]) && !Blank(text[j - 1])
  {
    if text != [] && Blank(text[0]) {
      i, j := StripExact(text[1..]);
      i, j := i + 1, j + 1;
    } else if text != [] && Blank(text[|text| - 1]) {
      i, j := StripExact(text[..|text| - 1]);
    } else {
      i, j := 0, |text|;
    }
  }

  lemma {:induction false} WithoutIsClean(text: string)
    ensures Without(Upper(text), "/_-") == Clean(text)
  {
    if text != [] {
      assert Upper(text)[0] == UpperChar(text[0]) && Upper(text)[1..] == Upper(text[1..]);
      WithoutIsClean(text[1..]);
    }
  }

  /** The two normal forms agree on symbols without blanks around them. */
  lemma NormalizeExact(symbol: string)
    ensures Normalize(symbol) == Clean(Strip(symbol))
    ensures symbol == [] || (!Blank(symbol[0]) && !Blank(symbol[|symbol| - 1])) ==> Normalize(symbol) == Clean(symbol)
  {
    hide Clean, Without, Upper;
    WithoutIsClean(Strip(symbol));
  }

  lemma {:induction false} WithoutNone(text: string, dropped: string)
    requires forall c :: c in text ==> c !in dropped
    ensures Without(text, dropped) == text
  {
    if text != [] {
      WithoutNone(text[1..], dropped);
      assert text == [text[0]] + text[1..];
    }
  }

  lemma EurusdIsNormal()
    ensures Strip("EURUSD") == "EURUSD" && Upper("EURUSD") == "EURUSD"
    ensures Normalize("EURUSD") == "EURUSD"
  {
    hide Without;
    assert Strip("EURUSD") == "EURUSD";
    assert Upper("EURUSD") == "EURUSD";
    WithoutNone("EURUSD", "/_-");
  }

  /** Base and quote currency of a six-letter symbol. */
  function PairOf(symbol: string): Option<(string, string)> {
    if |Normalize(symbol)| == 6 then Some((Normalize(symbol)[..3], Normalize(symbol)[3..])) else None
  }
}
