/** Decimal numbers and space-separated lines of text, as the standard streams print and read them. */
module Text {
  import opened Types

  // ---------- decimal numbers ----------

  function Digit(d: int): char
    requires 0 <= d < 10
  {
    "0123456789"[d]
  }

  predicate IsDigit(c: char) {
    '0' <= c <= '9'
  }

  function PrintNat(n: nat): string {
    if n < 10 then [Digit(n)] else PrintNat(n / 10) + [Digit(n % 10)]
  }

  function PrintInt(i: int): string {
    if i < 0 then "-" + PrintNat(-i) else PrintNat(i)
  }

  function ParseNat(s: string): Option<nat>
    decreases |s|
  {
    if s == "" || !IsDigit(s[|s| - 1]) then None
    else
      var d := s[|s| - 1] as int - '0' as int;
      if |s| == 1 then Some(d)
      else match ParseNat(s[..|s| - 1])
           case None => None
           case Some(n) => Some(10 * n + d)
  }

  function ParseInt(s: string): Option<int> {
    if s != "" && s[0] == '-' then
      match ParseNat(s[1..])
      case None => None
      case Some(n) => var k: int := n; Some(0 - k)
    else ParseNat(s)
  }

  /** Numerals contain only digits and a sign, so no separator of any of the file formats. */
  predicate Numeral(s: string) {
    s != "" && forall k :: 0 <= k < |s| ==> IsDigit(s[k]) || s[k] == '-'
  }

  lemma DigitRoundTrip(d: int)
    requires 0 <= d < 10
    ensures IsDigit(Digit(d)) && Digit(d) as int - '0' as int == d
  {
  }

  lemma {:induction false} NatRoundTrip(n: nat)
    ensures PrintNat(n) != "" && forall k :: 0 <= k < |PrintNat(n)| ==> IsDigit(PrintNat(n)[k])
    ensures ParseNat(PrintNat(n)) == Some(n)
  {
    hide Digit, IsDigit;
    DigitRoundTrip(n % 10);
    if n >= 10 {
      NatRoundTrip(n / 10);
      var s := PrintNat(n);
      assert s == PrintNat(n / 10) + [Digit(n % 10)];
      assert s[..|s| - 1] == PrintNat(n / 10);
    }
  }

  lemma IntRoundTrip(i: int)
    ensures Numeral(PrintInt(i)) && ParseInt(PrintInt(i)) == Some(i)
  {
    if i < 0 {
      NatRoundTrip(-i);
      var s := PrintNat(-i);
      assert ("-" + s)[1..] == s;
    } else {
      NatRoundTrip(i);
      assert IsDigit(PrintNat(i)[0]);
    }
  }

  // ---------- lines and words ----------

  /** The text before the first `c`, or all of it. */
  function Until(s: string, c: char): (t: string)
    ensures |t| <= |s| && t == s[..|t|]
    decreases |s|
  {
    if s == "" || s[0] == c then "" else [s[0]] + Until(s[1..], c)
  }

  lemma {:induction false} UntilSeparator(a: string, c: char, b: string)
    requires c !in a
    ensures Until(a + [c] + b, c) == a && Until(a, c) == a
    decreases |a|
  {
    if a == "" {
      assert a + [c] + b == [c] + b;
    } else {
      assert (a + [c] + b)[1..] == a[1..] + [c] + b;
      UntilSeparator(a[1..], c, b);
    }
  }

  /** Words as the extraction operator reads them: spaces in front are skipped. */
  function Words(s: string): seq<string>
    decreases |s|
  {
    if s == "" then []
    else if s[0] == ' ' then Words(s[1..])
    else
      var w := Until(s, ' ');
      assert w != "";
      [w] + Words(s[|w|..])
  }

  predicate Word(w: string) {
    w != "" && ' ' !in w && '\n' !in w
  }

  function Join(ws: seq<string>): string
    decreases |ws|
  {
    if ws == [] then "" else if |ws| == 1 then ws[0] else ws[0] + " " + Join(ws[1..])
  }

  lemma WordThenSpace(w: string, rest: string)
    requires Word(w)
    ensures Words(w + " " + rest) == [w] + Words(rest) && Words(w) == [w]
  {
    hide Until;
    UntilSeparator(w, ' ', rest);
    var s := w + [' '] + rest;
    assert s[|w|..] == [' '] + rest;
    assert ([' '] + rest)[1..] == rest;
    assert w[|w|..] == "";
    assert Words("") == [];
  }

  lemma {:induction false} WordsOfJoin(ws: seq<string>)
    requires forall k :: 0 <= k < |ws| ==> Word(ws[k])
    ensures Words(Join(ws)) == ws && '\n' !in Join(ws)
    decreases |ws|
  {
    hide Words;
    if ws == [] {
      assert Words("") == [] by { NoWords(); }
    } else {
      WordsOfJoin(ws[1..]);
      WordThenSpace(ws[0], Join(ws[1..]));
    }
  }

  lemma NoWords()
    ensures Words("") == []
  {
  }

  /** A file of lines, each ended by a newline. */
  function Unlines(ls: seq<string>): string
    decreases |ls|
  {
    if ls == [] then "" else Unlines(ls[..|ls| - 1]) + (ls[|ls| - 1] + "\n")
  }

  lemma {:induction false} UnlinesConcat(a: seq<string>, b: seq<string>)
    ensures Unlines(a + b) == Unlines(a) + Unlines(b)
    decreases |b|
  {
    if b == [] {
      assert a + b == a;
    } else {
      var n := |b| - 1;
      UnlinesConcat(a, b[..n]);
      assert (a + b)[..|a + b| - 1] == a + b[..n];
    }
  }

  /** One line of a file, from an offset up to the line end. */
  function GetLine(file: string, pos: nat): string
    requires pos <= |file|
  {
    Until(file[pos..], '\n')
  }

  lemma LineAt(before: string, line: string, after: string)
    requires '\n' !in line
    ensures GetLine(before + (line + "\n") + after, |before|) == line
  {
    var file := before + (line + "\n") + after;
    assert file[|before|..] == line + ['\n'] + after;
    UntilSeparator(line, '\n', after);
  }
}
