/** One row of the transaction file: columns, quoted lists and numbers (csv_reader.cc:12-103). */
module CsvText {
  import opened Types
  import opened Text

  datatype Row = Row(setNo: int, txn: Transaction, servers: seq<string>, leaders: seq<string>)

  // ---------- dropping characters ----------

  function Without(s: string, drop: string): string
    decreases |s|
  {
    if s == "" then ""
    else Without(s[..|s| - 1], drop) + (if s[|s| - 1] in drop then "" else [s[|s| - 1]])
  }

  lemma {:induction false} WithoutConcat(a: string, b: string, drop: string)
    ensures Without(a + b, drop) == Without(a, drop) + Without(b, drop)
    decreases |b|
  {
    if b == "" {
      assert a + b == a;
    } else {
      assert (a + b)[..|a + b| - 1] == a + b[..|b| - 1];
      WithoutConcat(a, b[..|b| - 1], drop);
    }
  }

  predicate Free(s: string, chars: string) {
    forall k :: 0 <= k < |s| ==> s[k] !in chars
  }

  lemma {:induction false} WithoutFree(s: string, drop: string)
    requires Free(s, drop)
    ensures Without(s, drop) == s
    decreases |s|
  {
    if s != "" {
      WithoutFree(s[..|s| - 1], drop);
    }
  }

  // ---------- splitting at commas ----------

  /** What the splitting loops hold: the finished pieces, the piece being read, the quote toggle. */
  datatype Cursor = Cursor(pieces: seq<string>, piece: string, inQuotes: bool)

  const START := Cursor([], "", false)

  /** One character: quotes toggle if they are meaningful, dropped characters vanish, commas split. */
  function Step(cur: Cursor, c: char, drop: string, quotes: bool): Cursor {
    if quotes && c == '"' then cur.(inQuotes := !cur.inQuotes)
    else if c in drop then cur
    else if c == ',' && !cur.inQuotes then Cursor(cur.pieces + [cur.piece], "", false)
    else cur.(piece := cur.piece + [c])
  }

  function Feed(cur: Cursor, s: string, drop: string, quotes: bool): Cursor
    decreases |s|
  {
    if s == "" then cur else Step(Feed(cur, s[..|s| - 1], drop, quotes), s[|s| - 1], drop, quotes)
  }

  function Split(s: string, drop: string, quotes: bool): seq<string> {
    var cur := Feed(START, s, drop, quotes);
    cur.pieces + [cur.piece]
  }

  lemma {:induction false} FeedConcat(cur: Cursor, a: string, b: string, drop: string, quotes: bool)
    ensures Feed(cur, a + b, drop, quotes) == Feed(Feed(cur, a, drop, quotes), b, drop, quotes)
    decreases |b|
  {
    if b == "" {
      assert a + b == a;
    } else {
      assert (a + b)[..|a + b| - 1] == a + b[..|b| - 1];
      FeedConcat(cur, a, b[..|b| - 1], drop, quotes);
    }
  }

  /** Characters without meaning to the splitter only grow the current piece. */
  lemma {:induction false} FeedPlain(cur: Cursor, s: string, drop: string, quotes: bool)
    requires Free(s, drop) && (quotes ==> '"' !in s) && (cur.inQuotes || ',' !in s)
    ensures Feed(cur, s, drop, quotes) == cur.(piece := cur.piece + s)
    decreases |s|
  {
    if s == "" {
      assert cur.piece + s == cur.piece;
    } else {
      FeedPlain(cur, s[..|s| - 1], drop, quotes);
      assert cur.piece + s == cur.piece + s[..|s| - 1] + [s[|s| - 1]];
    }
  }

  lemma FeedOne(cur: Cursor, c: char, drop: string, quotes: bool)
    ensures Feed(cur, [c], drop, quotes) == Step(cur, c, drop, quotes)
  {
  }

  lemma SplitAt(s: string, pieces: seq<string>, drop: string, quotes: bool)
    requires pieces != []
    requires Feed(START, s, drop, quotes) == Cursor(pieces[..|pieces| - 1], pieces[|pieces| - 1], false)
    ensures Split(s, drop, quotes) == pieces
  {
  }

  // ---------- columns of a line ----------

  function Columns(line: string): seq<string> {
    Split(line, "", true)
  }

  /** A column as a writer puts it: in quotes if it contains a comma. */
  function Quoted(column: string): string {
    if ',' in column then "\"" + column + "\"" else column
  }

  function CsvLine(columns: seq<string>): string
    requires columns != []
    decreases |columns|
  {
    var n := |columns| - 1;
    if n == 0 then Quoted(columns[0]) else CsvLine(columns[..n]) + "," + Quoted(columns[n])
  }

  lemma FeedQuoted(cur: Cursor, column: string)
    requires '"' !in column && cur.piece == "" && !cur.inQuotes
    ensures Feed(cur, Quoted(column), "", true) == cur.(piece := column)
  {
    if ',' in column {
      FeedConcat(cur, "\"" + column, "\"", "", true);
      FeedConcat(cur, "\"", column, "", true);
      FeedOne(cur, '"', "", true);
      FeedPlain(cur.(inQuotes := true), column, "", true);
      FeedOne(Cursor(cur.pieces, column, true), '"', "", true);
    } else {
      FeedPlain(cur, column, "", true);
    }
  }

  lemma {:induction false} FeedLine(columns: seq<string>)
    requires columns != [] && forall k :: 0 <= k < |columns| ==> '"' !in columns[k]
    ensures Feed(START, CsvLine(columns), "", true) == Cursor(columns[..|columns| - 1], columns[|columns| - 1], false)
    decreases |columns|
  {
    hide Feed, Quoted;
    var n := |columns| - 1;
    if n == 0 {
      FeedQuoted(START, columns[0]);
    } else {
      var before := columns[..n];
      FeedLine(before);
      FeedConcat(START, CsvLine(before) + ",", Quoted(columns[n]), "", true);
      FeedConcat(START, CsvLine(before), ",", "", true);
      FeedOne(Cursor(before[..n - 1], before[n - 1], false), ',', "", true);
      assert before == before[..n - 1] + [before[n - 1]];
      FeedQuoted(Cursor(before, "", false), columns[n]);
    }
  }

  /** Columns written with quotes where needed are read back exactly. */
  lemma ColumnsRoundTrip(columns: seq<string>)
    requires columns != [] && forall k :: 0 <= k < |columns| ==> '"' !in columns[k]
    ensures Columns(CsvLine(columns)) == columns
  {
    FeedLine(columns);
    SplitAt(CsvLine(columns), columns, "", true);
  }

  // ---------- lists inside a column ----------

  function Fields(column: string, drop: string): seq<string> {
    Split(column, drop, false)
  }

  function Commas(fields: seq<string>, separator: string): string
    requires fields != []
    decreases |fields|
  {
    var n := |fields| - 1;
    if n == 0 then fields[0] else Commas(fields[..n], separator) + separator + fields[n]
  }

  predicate Plain(fields: seq<string>, drop: string) {
    forall k :: 0 <= k < |fields| ==> Free(fields[k], drop) && ',' !in fields[k]
  }

  lemma {:induction false} FeedCommas(fields: seq<string>, drop: string)
    requires fields != [] && Plain(fields, drop) && ',' !in drop
    ensures Feed(START, Commas(fields, ","), drop, false) == Cursor(fields[..|fields| - 1], fields[|fields| - 1], false)
    decreases |fields|
  {
    var n := |fields| - 1;
    if n == 0 {
      FeedPlain(START, fields[0], drop, false);
    } else {
      var before := fields[..n];
      FeedCommas(before, drop);
      FeedConcat(START, Commas(before, ",") + ",", fields[n], drop, false);
      FeedConcat(START, Commas(before, ","), ",", drop, false);
      FeedOne(Cursor(before[..n - 1], before[n - 1], false), ',', drop, false);
      assert before == before[..n - 1] + [before[n - 1]];
      FeedPlain(Cursor(before, "", false), fields[n], drop, false);
    }
  }

  /** A bracketed list is read back exactly, for any brackets that are dropped. */
  lemma FieldsRoundTrip(open: char, fields: seq<string>, close: char, drop: string)
    requires fields != [] && Plain(fields, drop) && ',' !in drop && open in drop && close in drop
    ensures Fields([open] + Commas(fields, ",") + [close], drop) == fields
  {
    var list := Commas(fields, ",");
    FeedConcat(START, [open] + list, [close], drop, false);
    FeedConcat(START, [open], list, drop, false);
    FeedOne(START, open, drop, false);
    FeedCommas(fields, drop);
    FeedOne(Cursor(fields[..|fields| - 1], fields[|fields| - 1], false), close, drop, false);
    SplitAt([open] + list + [close], fields, drop, false);
  }

  // ---------- numbers ----------

  predicate Blank(c: char) {
    c in " \t\n\r" || c as int in {11, 12}
  }

  function Leading(s: string): string
    decreases |s|
  {
    if s == "" || !IsDigit(s[0]) then "" else [s[0]] + Leading(s[1..])
  }

  predicate Fits(i: int) {
    -0x8000_0000 <= i < 0x8000_0000
  }

  /** The standard conversion: blanks, a sign, digits; what follows is ignored. `None` is its exception. */
  function Stoi(s: string): Option<int>
    decreases |s|
  {
    if s != "" && Blank(s[0]) then Stoi(s[1..])
    else
      var signed := s != "" && s[0] in "+-";
      match ParseNat(Leading(if signed then s[1..] else s))
      case None => None
      case Some(n) =>
        var i := if signed && s[0] == '-' then 0 - n else n;
        if Fits(i) then Some(i) else None
  }

  lemma {:induction false} LeadingDigits(s: string)
    requires forall k :: 0 <= k < |s| ==> IsDigit(s[k])
    ensures Leading(s) == s
    decreases |s|
  {
    if s != "" {
      LeadingDigits(s[1..]);
    }
  }

  lemma {:induction false} LeadingStops(digits: string, rest: string)
    requires forall k :: 0 <= k < |digits| ==> IsDigit(digits[k])
    requires rest == "" || !IsDigit(rest[0])
    ensures Leading(digits + rest) == digits
    decreases |digits|
  {
    if digits == "" {
      assert digits + rest == rest;
    } else {
      assert (digits + rest)[1..] == digits[1..] + rest;
      LeadingStops(digits[1..], rest);
    }
  }

  lemma {:induction false} BlanksSkipped(blanks: string, s: string)
    requires forall k :: 0 <= k < |blanks| ==> Blank(blanks[k])
    ensures Stoi(blanks + s) == Stoi(s)
    decreases |blanks|
  {
    if blanks == "" {
      assert blanks + s == s;
    } else {
      assert (blanks + s)[1..] == blanks[1..] + s;
      BlanksSkipped(blanks[1..], s);
    }
  }

  /** Blanks, a sign, the digits of a number and then anything that is no digit: the number if it fits, else the exception. */
  lemma StoiReads(blanks: string, sign: string, n: nat, rest: string)
    requires (forall k :: 0 <= k < |blanks| ==> Blank(blanks[k])) && sign in {"", "+", "-"}
    requires rest == "" || !IsDigit(rest[0])
    ensures
      var i := if sign == "-" then 0 - n else n;
      Stoi(blanks + (sign + PrintNat(n) + rest)) == if Fits(i) then Some(i) else None
  {
    hide PrintNat, Stoi;
    NatRoundTrip(n);
    BlanksSkipped(blanks, sign + PrintNat(n) + rest);
    SignRead(sign, PrintNat(n), n, rest);
  }

  lemma SignRead(sign: string, digits: string, n: nat, rest: string)
    requires sign in {"", "+", "-"} && (rest == "" || !IsDigit(rest[0]))
    requires digits != "" && (forall k :: 0 <= k < |digits| ==> IsDigit(digits[k])) && ParseNat(digits) == Some(n)
    ensures
      var i := if sign == "-" then 0 - n else n;
      Stoi(sign + digits + rest) == if Fits(i) then Some(i) else None
  {
    hide ParseNat, Leading;
    var text := sign + digits + rest;
    LeadingStops(digits, rest);
    assert IsDigit(digits[0]);
    if sign == "" {
      assert text == digits + rest;
    } else {
      assert text[0] == sign[0] && text[1..] == digits + rest;
    }
  }

  /** Without a digit after blanks and a sign there is no number. */
  lemma StoiFails(blanks: string, sign: string, rest: string)
    requires (forall k :: 0 <= k < |blanks| ==> Blank(blanks[k])) && sign in {"", "+", "-"}
    requires rest == "" || (!IsDigit(rest[0]) && (sign == "" ==> !Blank(rest[0]) && rest[0] !in "+-"))
    ensures Stoi(blanks + (sign + rest)) == None
  {
    var text := sign + rest;
    BlanksSkipped(blanks, text);
    if sign == "" {
      assert text == rest;
    } else {
      assert text[0] == sign[0] && text[1..] == rest;
    }
  }

  lemma StoiRoundTrip(i: int)
    ensures Stoi(PrintInt(i)) == if Fits(i) then Some(i) else None
  {
    hide Stoi, PrintNat;
    var n: nat := if i < 0 then -i else i;
    var sign := if i < 0 then "-" else "";
    StoiReads("", sign, n, "");
    assert "" + (sign + PrintNat(n) + "") == PrintInt(i);
  }

  /** The bounds of the conversion. */
  lemma StoiBounds()
    ensures Stoi(PrintInt(2147483647)) == Some(2147483647) && Stoi(PrintInt(2147483648)) == None
    ensures Stoi(PrintInt(-2147483648)) == Some(-2147483648) && Stoi(PrintInt(-2147483649)) == None
  {
    hide Stoi, PrintInt;
    StoiRoundTrip(2147483647);
    StoiRoundTrip(2147483648);
    StoiRoundTrip(-2147483648);
    StoiRoundTrip(-2147483649);
  }

  // ---------- rows ----------

  function TransactionOf(column: string): Option<Transaction> {
    var fields := Fields(column, "() ");
    if |fields| < 3 then None
    else
      match (Stoi(fields[0]), Stoi(fields[1]), Stoi(fields[2]))
      case (Some(sender), Some(receiver), Some(amount)) => Some(Transaction(sender, receiver, amount))
      case _ => None
  }

  function ServersOf(column: string): seq<string> {
    if column == "" then [] else Fields(column, "[] ")
  }

  /** A blank set number reads as -1. */
  function NumberOf(column: string): Option<int> {
    if column == "" then Some(-1) else Stoi(column)
  }

  /** `None` is an exception of the source. */
  function RowOf(line: string): Option<Row> {
    RowFrom(Columns(Without(line, "\r\n ")))
  }

  function RowFrom(columns: seq<string>): Option<Row> {
    if |columns| < 4 then None
    else
      match (NumberOf(columns[0]), TransactionOf(columns[1]))
      case (Some(setNo), Some(txn)) => Some(Row(setNo, txn, ServersOf(columns[2]), ServersOf(columns[3])))
      case _ => None
  }

  /** A bracketed list of fields: the first three must be numbers, and what follows them is ignored. */
  lemma TransactionReads(fields: seq<string>)
    requires fields != [] && Plain(fields, "() ")
    ensures
      var t := TransactionOf("(" + Commas(fields, ",") + ")");
      && (t.Some? <==> |fields| >= 3 && forall k :: 0 <= k < 3 ==> Stoi(fields[k]).Some?)
      && (t.Some? ==> Some(t.value.sender) == Stoi(fields[0]) && Some(t.value.receiver) == Stoi(fields[1])
                      && Some(t.value.amount) == Stoi(fields[2]))
  {
    hide Fields, Commas, Stoi;
    FieldsRoundTrip('(', fields, ')', "() ");
  }

  /** A line of columns: the first four must be there and read, and what follows them is ignored. */
  lemma RowReads(columns: seq<string>)
    requires columns != [] && forall k :: 0 <= k < |columns| ==> Free(columns[k], "\"\r\n ")
    ensures
      var r := RowOf(CsvLine(columns));
      && (r.Some? <==> && |columns| >= 4 && TransactionOf(columns[1]).Some?
                       && (columns[0] != "" ==> Stoi(columns[0]).Some?))
      && (r.Some? ==> && (if columns[0] == "" then r.value.setNo == -1 else Some(r.value.setNo) == Stoi(columns[0]))
                      && Some(r.value.txn) == TransactionOf(columns[1])
                      && r.value.servers == ServersOf(columns[2]) && r.value.leaders == ServersOf(columns[3]))
  {
    hide Columns, CsvLine, Without, Stoi, TransactionOf, ServersOf;
    CsvLineFree(columns);
    WithoutFree(CsvLine(columns), "\r\n ");
    ColumnsRoundTrip(columns);
  }

  lemma {:induction false} CsvLineFree(columns: seq<string>)
    requires columns != [] && forall k :: 0 <= k < |columns| ==> Free(columns[k], "\"\r\n ")
    ensures Free(CsvLine(columns), "\r\n ")
    decreases |columns|
  {
    if |columns| > 1 {
      CsvLineFree(columns[..|columns| - 1]);
    }
  }

  /** A blank column names no server; a bracketed list names its fields. */
  lemma ServersRead(names: seq<string>)
    requires Plain(names, "[] ")
    ensures ServersOf("") == []
    ensures names != [] ==> ServersOf("[" + Commas(names, ",") + "]") == names
  {
    if names != [] {
      FieldsRoundTrip('[', names, ']', "[] ");
    }
  }

  // ---------- writing a row ----------

  function Numbers(txn: Transaction): seq<string> {
    [PrintInt(txn.sender), PrintInt(txn.receiver), PrintInt(txn.amount)]
  }

  function TransactionText(txn: Transaction, separator: string): string {
    "(" + Commas(Numbers(txn), separator) + ")"
  }

  function ServersText(servers: seq<string>, separator: string): string {
    if servers == [] then "" else "[" + Commas(servers, separator) + "]"
  }

  /** The set number of a header; rows that continue a set leave it blank. */
  function NumberText(setNo: int): string {
    if setNo == -1 then "" else PrintInt(setNo)
  }

  function ColumnTexts(row: Row, separator: string): seq<string> {
    [NumberText(row.setNo), TransactionText(row.txn, separator),
     ServersText(row.servers, separator), ServersText(row.leaders, separator)]
  }

  /** A row as the transaction files hold it, `", "` between the members of a list. */
  function RowText(row: Row): string {
    CsvLine(ColumnTexts(row, ", "))
  }

  /** Numbers of 32 bits and server names without any character that the format uses. */
  predicate Writable(row: Row) {
    && Fits(row.setNo) && Fits(row.txn.sender) && Fits(row.txn.receiver) && Fits(row.txn.amount)
    && Plain(row.servers, "[]\"\r\n ") && Plain(row.leaders, "[]\"\r\n ")
  }

  lemma {:induction false} CommasStripped(fields: seq<string>)
    requires fields != [] && Plain(fields, "\"\r\n ")
    ensures Without(Commas(fields, ", "), "\r\n ") == Commas(fields, ",")
    ensures '"' !in Commas(fields, ", ") && '"' !in Commas(fields, ",")
    ensures |fields| > 1 ==> ',' in Commas(fields, ", ") && ',' in Commas(fields, ",")
    ensures |fields| == 1 ==> ',' !in Commas(fields, ", ") && ',' !in Commas(fields, ",")
    decreases |fields|
  {
    hide Without;
    var n := |fields| - 1;
    WithoutFree(fields[n], "\r\n ");
    if n > 0 {
      var before := fields[..n];
      CommasStripped(before);
      WithoutConcat(Commas(before, ", ") + ", ", fields[n], "\r\n ");
      WithoutConcat(Commas(before, ", "), ", ", "\r\n ");
      SpaceDropped(",", "\r\n ");
      assert ", " == "," + " ";
    }
  }

  lemma SpaceDropped(s: string, drop: string)
    requires Free(s, drop) && ' ' in drop
    ensures Without(s + " ", drop) == s
  {
    assert (s + " ")[..|s|] == s;
    WithoutFree(s, drop);
  }

  lemma BracketStripped(open: string, spaced: string, dense: string, close: string)
    requires Without(spaced, "\r\n ") == dense
    requires Free(open, "\"\r\n ,") && Free(close, "\"\r\n ,")
    ensures Without(open + spaced + close, "\r\n ") == open + dense + close
    ensures ',' in open + spaced + close <==> ',' in spaced
    ensures '"' in open + spaced + close <==> '"' in spaced
  {
    hide Without;
    WithoutConcat(open + spaced, close, "\r\n ");
    WithoutConcat(open, spaced, "\r\n ");
    WithoutFree(open, "\r\n ");
    WithoutFree(close, "\r\n ");
  }

  /** The column of a bracketed list without its blanks. */
  lemma ListStripped(open: string, fields: seq<string>, close: string)
    requires fields != [] && Plain(fields, "\"\r\n ")
    requires Free(open, "\"\r\n ,") && Free(close, "\"\r\n ,")
    ensures
      var (spaced, dense) := (open + Commas(fields, ", ") + close, open + Commas(fields, ",") + close);
      Without(spaced, "\r\n ") == dense && '"' !in spaced && '"' !in dense && (',' in spaced <==> ',' in dense)
  {
    CommasStripped(fields);
    BracketStripped(open, Commas(fields, ", "), Commas(fields, ","), close);
  }

  /** Stripping blanks from a line strips them from its columns. */
  lemma QuotedStripped(spaced: string, dense: string)
    requires Without(spaced, "\r\n ") == dense && (',' in spaced <==> ',' in dense)
    ensures Without(Quoted(spaced), "\r\n ") == Quoted(dense)
  {
    hide Without;
    var quote := "\"";
    WithoutFree(quote, "\r\n ");
    WithoutConcat(quote + spaced, quote, "\r\n ");
    WithoutConcat(quote, spaced, "\r\n ");
  }

  lemma {:induction false} LineStripped(spaced: seq<string>, dense: seq<string>)
    requires |spaced| == |dense| > 0
    requires forall k :: 0 <= k < |spaced| ==> Without(spaced[k], "\r\n ") == dense[k]
    requires forall k :: 0 <= k < |spaced| ==> (',' in spaced[k] <==> ',' in dense[k])
    ensures Without(CsvLine(spaced), "\r\n ") == CsvLine(dense)
    decreases |spaced|
  {
    hide Without, Quoted;
    var n := |spaced| - 1;
    QuotedStripped(spaced[n], dense[n]);
    WithoutFree(",", "\r\n ");
    if n > 0 {
      LineStripped(spaced[..n], dense[..n]);
      WithoutConcat(CsvLine(spaced[..n]) + ",", Quoted(spaced[n]), "\r\n ");
      WithoutConcat(CsvLine(spaced[..n]), ",", "\r\n ");
    }
  }

  lemma NumeralPlain(i: int)
    ensures Free(PrintInt(i), "()[]\"\r\n ,") && PrintInt(i) != ""
  {
    IntRoundTrip(i);
  }

  lemma NumberColumn(setNo: int)
    requires Fits(setNo)
    ensures Without(NumberText(setNo), "\r\n ") == NumberText(setNo) && '"' !in NumberText(setNo)
    ensures NumberOf(NumberText(setNo)) == Some(setNo)
  {
    NumeralPlain(setNo);
    StoiRoundTrip(setNo);
    WithoutFree(NumberText(setNo), "\r\n ");
  }

  lemma TransactionStripped(txn: Transaction)
    ensures
      var (spaced, dense) := (TransactionText(txn, ", "), TransactionText(txn, ","));
      Without(spaced, "\r\n ") == dense && '"' !in dense && (',' in spaced <==> ',' in dense)
    ensures Plain(Numbers(txn), "() ")
  {
    hide PrintInt, Without, Commas;
    NumeralPlain(txn.sender);
    NumeralPlain(txn.receiver);
    NumeralPlain(txn.amount);
    ListStripped("(", Numbers(txn), ")");
  }

  lemma TransactionColumn(txn: Transaction)
    requires Fits(txn.sender) && Fits(txn.receiver) && Fits(txn.amount)
    ensures TransactionOf(TransactionText(txn, ",")) == Some(txn)
  {
    TransactionStripped(txn);
    FieldsRoundTrip('(', Numbers(txn), ')', "() ");
    StoiRoundTrip(txn.sender);
    StoiRoundTrip(txn.receiver);
    StoiRoundTrip(txn.amount);
  }

  lemma ServersColumn(servers: seq<string>)
    requires Plain(servers, "[]\"\r\n ")
    ensures
      var (spaced, dense) := (ServersText(servers, ", "), ServersText(servers, ","));
      && Without(spaced, "\r\n ") == dense && '"' !in dense && (',' in spaced <==> ',' in dense)
      && ServersOf(dense) == servers
  {
    if servers != [] {
      ListStripped("[", servers, "]");
      FieldsRoundTrip('[', servers, ']', "[] ");
    }
  }

  lemma RowStripped(row: Row, ending: string)
    requires Writable(row) && ending in ["", "\r"]
    ensures Without(RowText(row) + ending, "\r\n ") == CsvLine(ColumnTexts(row, ","))
  {
    hide Without, TransactionText, ServersText, NumberText, Columns, CsvLine;
    var spaced, dense := ColumnTexts(row, ", "), ColumnTexts(row, ",");
    NumberColumn(row.setNo);
    TransactionStripped(row.txn);
    ServersColumn(row.servers);
    ServersColumn(row.leaders);
    LineStripped(spaced, dense);
    WithoutConcat(RowText(row), ending, "\r\n ");
    EndingStripped(ending);
    assert CsvLine(dense) + "" == CsvLine(dense);
  }

  lemma EndingStripped(ending: string)
    requires ending in ["", "\r"]
    ensures Without(ending, "\r\n ") == ""
  {
  }

  lemma RowFromColumns(row: Row)
    requires Writable(row)
    ensures Columns(CsvLine(ColumnTexts(row, ","))) == ColumnTexts(row, ",")
    ensures RowFrom(ColumnTexts(row, ",")) == Some(row)
  {
    hide Without, TransactionText, ServersText, NumberText, TransactionOf, ServersOf, NumberOf, Columns, CsvLine;
    NumberColumn(row.setNo);
    TransactionStripped(row.txn);
    TransactionColumn(row.txn);
    ServersColumn(row.servers);
    ServersColumn(row.leaders);
    ColumnsRoundTrip(ColumnTexts(row, ","));
  }

  /** Whatever row a file holds in the usual layout is read back exactly, with either line ending. */
  lemma RowRoundTrip(row: Row, ending: string)
    requires Writable(row) && ending in ["", "\r"]
    ensures RowOf(RowText(row) + ending) == Some(row)
  {
    RowStripped(row, ending);
    RowFromColumns(row);
  }

  // ---------- the parsers ----------

  method ParseTransaction(column: string) returns (txn: Option<Transaction>)
    ensures txn == TransactionOf(column)
  {
    var fields, field := [], "";
    for i := 0 to |column|
      invariant Feed(START, column[..i], "() ", false) == Cursor(fields, field, false)
    {
      assert column[..i + 1][..i] == column[..i];
      var c := column[i];
      if c == '(' || c == ')' || c == ' ' {
      } else if c == ',' {
        fields, field := fields + [field], "";
      } else {
        field := field + [c];
      }
    }
    assert column[..|column|] == column;
    fields := fields + [field];
    if |fields| < 3 {
      return None;
    }
    var sender, receiver, amount := Stoi(fields[0]), Stoi(fields[1]), Stoi(fields[2]);
    if sender.None? || receiver.None? || amount.None? {
      return None;
    }
    return Some(Transaction(sender.value, receiver.value, amount.value));
  }

  method ParseServers(column: string) returns (servers: seq<string>)
    ensures servers == Fields(column, "[] ")
  {
    var server := "";
    servers := [];
    for i := 0 to |column|
      invariant Feed(START, column[..i], "[] ", false) == Cursor(servers, server, false)
    {
      assert column[..i + 1][..i] == column[..i];
      var c := column[i];
      if c == '[' || c == ']' || c == ' ' {
      } else if c == ',' {
        servers, server := servers + [server], "";
      } else {
        server := server + [c];
      }
    }
    assert column[..|column|] == column;
    servers := servers + [server];
  }

  /** Parses a line whose line ends and spaces have been removed. */
  method ParseCsvLine(line: string) returns (row: Option<Row>)
    ensures forall raw :: Without(raw, "\r\n ") == line ==> row == RowOf(raw)
  {
    var columns, column, inQuotes := [], "", false;
    for i := 0 to |line|
      invariant Feed(START, line[..i], "", true) == Cursor(columns, column, inQuotes)
    {
      assert line[..i + 1][..i] == line[..i];
      var c := line[i];
      if c == '"' {
        inQuotes := !inQuotes;
      } else if c == ',' && !inQuotes {
        columns, column := columns + [column], "";
      } else {
        column := column + [c];
      }
    }
    assert line[..|line|] == line;
    columns := columns + [column];
    var setNo := Some(-1);
    if columns[0] != "" {
      setNo := Stoi(columns[0]);
    }
    if setNo.None? || |columns| < 2 {
      return None;
    }
    var txn := ParseTransaction(columns[1]);
    if txn.None? || |columns| < 4 {
      return None;
    }
    var aliveServers, leaders := [], [];
    if columns[2] != "" {
      aliveServers := ParseServers(columns[2]);
    }
    if columns[3] != "" {
      leaders := ParseServers(columns[3]);
    }
    return Some(Row(setNo.value, txn.value, aliveServers, leaders));
  }
}
