/**
 The transaction file as sets (csv_reader.cc:106-177). The reader looks one row ahead: the
 header of the next set ends the current one and is kept for the next call.
 */
module CsvReader {
  import opened Types
  import opened CsvText

  datatype TransactionSet = TransactionSet(
    setNo: int,
    transactions: seq<Transaction>,
    servers: seq<string>,
    leaders: seq<string>,
    disconnected: seq<string>)

  // ---------- where sets begin ----------

  /** `None` stands for a line that does not parse. */
  type Rows = seq<Option<Row>>

  function RowsOf(lines: seq<string>): (rows: Rows)
    ensures |rows| == |lines|
  {
    seq(|lines|, i requires 0 <= i < |lines| => RowOf(lines[i]))
  }

  predicate IsHeader(r: Option<Row>, k: int) {
    r.Some? && r.value.setNo == k
  }

  /** The first header of set `k` at or after a position, or the end of the file. */
  function NextHeader(rows: Rows, from: nat, k: int): (i: nat)
    requires from <= |rows|
    ensures from <= i <= |rows| && (i < |rows| ==> IsHeader(rows[i], k))
    ensures forall j :: from <= j < i ==> !IsHeader(rows[j], k)
    decreases |rows| - from
  {
    if from == |rows| || IsHeader(rows[from], k) then from else NextHeader(rows, from + 1, k)
  }

  /** Set 1 begins with the file, set `k + 1` with the first header `k + 1` after the begin of set `k`. */
  function Start(rows: Rows, k: nat): (i: nat)
    requires k >= 1
    ensures i <= |rows| && (k > 1 && i < |rows| ==> IsHeader(rows[i], k))
    decreases k
  {
    if k == 1 then 0 else NextHeader(rows, Start(rows, k - 1), k)
  }

  function Block(rows: Rows, k: nat): Rows
    requires k >= 1
  {
    rows[Start(rows, k)..Start(rows, k + 1)]
  }

  predicate Readable(rows: Rows) {
    forall i :: 0 <= i < |rows| ==> rows[i].Some?
  }

  function Transactions(rows: Rows): seq<Transaction>
    requires Readable(rows)
  {
    seq(|rows|, i requires 0 <= i < |rows| => rows[i].value.txn)
  }

  /** Servers and leaders of a block: those of its last header of that number. */
  function Named(rows: Rows, k: int): (seq<string>, seq<string>)
    requires Readable(rows)
    decreases |rows|
  {
    if rows == [] then ([], [])
    else
      var r := rows[|rows| - 1].value;
      if r.setNo == k then (r.servers, r.leaders) else Named(rows[..|rows| - 1], k)
  }

  function Absent(all: seq<string>, present: seq<string>): seq<string>
    decreases |all|
  {
    if all == [] then []
    else
      var s := all[|all| - 1];
      Absent(all[..|all| - 1], present) + (if s in present then [] else [s])
  }

  // ---------- nothing is lost ----------

  function Blocks(rows: Rows, n: nat): Rows
    decreases n
  {
    if n == 0 then [] else Blocks(rows, n - 1) + Block(rows, n)
  }

  /** The sets read by the first `n` calls are the rows up to the next set, in order, each row once. */
  lemma {:induction false} BlocksArePrefix(rows: Rows, n: nat)
    ensures Blocks(rows, n) == rows[..Start(rows, n + 1)]
    decreases n
  {
    if n > 0 {
      BlocksArePrefix(rows, n - 1);
      var a, b := Start(rows, n), Start(rows, n + 1);
      assert rows[..b] == rows[..a] + rows[a..b];
    }
  }

  /** Every call but the first moves on, so some number of calls reads the whole file, whatever it holds. */
  lemma {:induction false} StartAdvances(rows: Rows, k: nat)
    requires k >= 1
    ensures Start(rows, k + 1) == |rows| || Start(rows, k + 1) >= k - 1
    decreases k
  {
    if k > 1 {
      StartAdvances(rows, k - 1);
    }
  }

  lemma NothingLost(rows: Rows)
    ensures Blocks(rows, |rows| + 1) == rows
  {
    hide Start, Blocks;
    var calls := |rows| + 1;
    var end := Start(rows, calls + 1);
    BlocksArePrefix(rows, calls);
    StartAdvances(rows, calls);
    assert rows[..end] == rows;
  }

  /** An empty set means the end of the file unless the file opens with the header of set 2. */
  lemma EmptySetMeansEnd(rows: Rows)
    ensures (forall k: nat :: k >= 1 && Block(rows, k) == [] ==> Start(rows, k) == |rows|)
            <==> (rows == [] || !IsHeader(rows[0], 2))
  {
    if rows != [] && IsHeader(rows[0], 2) {
      assert Start(rows, 2) == 0;
      assert Block(rows, 1) == [] && Start(rows, 1) != |rows|;
    } else {
      forall k: nat | k >= 1 && Block(rows, k) == []
        ensures Start(rows, k) == |rows|
      {
        assert Start(rows, k + 1) == Start(rows, k);
      }
    }
  }

  // ---------- sets written to a file and read back ----------

  /** What a file says about one set. */
  datatype SetText = SetText(transactions: seq<Transaction>, servers: seq<string>, leaders: seq<string>)

  /** The rows of set `k`: a numbered header, then rows with a blank number. */
  function SetRows(s: SetText, k: nat): (rows: seq<Row>)
    ensures |rows| == |s.transactions|
  {
    seq(|s.transactions|, i requires 0 <= i < |s.transactions| =>
      if i == 0 then Row(k, s.transactions[0], s.servers, s.leaders)
      else Row(-1, s.transactions[i], [], []))
  }

  /** The rows of sets 1, 2, 3 and so on. */
  function FileRows(sets: seq<SetText>): seq<Row>
    decreases |sets|
  {
    if sets == [] then [] else FileRows(sets[..|sets| - 1]) + SetRows(sets[|sets| - 1], |sets|)
  }

  function Read(rows: seq<Row>): (rs: Rows)
    ensures |rs| == |rows| && Readable(rs)
  {
    seq(|rows|, i requires 0 <= i < |rows| => Some(rows[i]))
  }

  ghost predicate NonEmpty(sets: seq<SetText>) {
    forall k :: 0 <= k < |sets| ==> sets[k].transactions != []
  }

  /** Set `k` fills its place in the file. */
  lemma {:induction false} FileAt(sets: seq<SetText>, k: nat)
    requires 1 <= k <= |sets|
    ensures |FileRows(sets[..k - 1])| + |sets[k - 1].transactions| == |FileRows(sets[..k])| <= |FileRows(sets)|
    ensures FileRows(sets)[|FileRows(sets[..k - 1])|..|FileRows(sets[..k])|] == SetRows(sets[k - 1], k)
    decreases |sets|
  {
    var n := |sets|;
    if k == n {
      assert sets[..k] == sets;
    } else {
      FileAt(sets[..n - 1], k);
      assert sets[..n - 1][..k] == sets[..k] && sets[..n - 1][..k - 1] == sets[..k - 1];
      var (a, b) := (|FileRows(sets[..k - 1])|, |FileRows(sets[..k])|);
      assert FileRows(sets)[a..b] == FileRows(sets[..n - 1])[a..b];
    }
  }

  /** In a file of numbered sets, set `k` begins where it was written. */
  lemma {:induction false} StartOfSet(sets: seq<SetText>, k: nat)
    requires NonEmpty(sets) && 1 <= k <= |sets| + 1
    ensures Start(Read(FileRows(sets)), k) == |FileRows(sets[..k - 1])|
    decreases k
  {
    if k > 1 {
      var rows := Read(FileRows(sets));
      StartOfSet(sets, k - 1);
      FileAt(sets, k - 1);
      var (a, b) := (|FileRows(sets[..k - 2])|, |FileRows(sets[..k - 1])|);
      forall j | a <= j < b
        ensures !IsHeader(rows[j], k)
      {
        assert FileRows(sets)[j] == SetRows(sets[k - 2], k - 1)[j - a];
      }
      if k <= |sets| {
        FileAt(sets, k);
        assert FileRows(sets)[b] == SetRows(sets[k - 1], k)[0];
        assert IsHeader(rows[b], k);
      } else {
        assert sets[..k - 1] == sets;
      }
    }
  }

  lemma {:induction false} NamedByHeader(s: SetText, k: nat, n: nat)
    requires 1 <= n <= |s.transactions|
    ensures Named(Read(SetRows(s, k))[..n], k) == (s.servers, s.leaders)
    decreases n
  {
    var rows := Read(SetRows(s, k))[..n];
    assert rows[..n - 1] == Read(SetRows(s, k))[..n - 1];
    if n > 1 {
      NamedByHeader(s, k, n - 1);
    }
  }

  /** Set by set, what was written is what the calls read; afterwards nothing is left. */
  lemma SetsRoundTrip(sets: seq<SetText>, k: nat)
    requires NonEmpty(sets) && 1 <= k <= |sets|
    ensures
      var block := Block(Read(FileRows(sets)), k);
      && Readable(block)
      && Transactions(block) == sets[k - 1].transactions
      && Named(block, k) == (sets[k - 1].servers, sets[k - 1].leaders)
    ensures Start(Read(FileRows(sets)), |sets| + 1) == |FileRows(sets)|
  {
    hide Start, Named, FileRows;
    var s := sets[k - 1];
    StartOfSet(sets, k);
    StartOfSet(sets, k + 1);
    StartOfSet(sets, |sets| + 1);
    FileAt(sets, k);
    var written := Read(SetRows(s, k));
    assert Block(Read(FileRows(sets)), k) == written;
    NamedByHeader(s, k, |s.transactions|);
    assert written[..|s.transactions|] == written;
    assert sets[..|sets|] == sets;
  }

  /** Lines written from rows parse to those rows. */
  lemma LinesRoundTrip(rows: seq<Row>, lines: seq<string>)
    requires |lines| == |rows|
    requires forall i :: 0 <= i < |rows| ==> Writable(rows[i]) && lines[i] in [RowText(rows[i]), RowText(rows[i]) + "\r"]
    ensures RowsOf(lines) == Read(rows)
  {
    forall i | 0 <= i < |rows|
      ensures RowOf(lines[i]) == Some(rows[i])
    {
      RowRoundTrip(rows[i], "");
      RowRoundTrip(rows[i], "\r");
      assert RowText(rows[i]) + "" == RowText(rows[i]);
    }
  }

  // ---------- the reader ----------

  /** A set that has taken in the rows of block `k` so far. */
  ghost predicate Collected(s: TransactionSet, rows: Rows, k: nat) {
    && Readable(rows) && s.transactions == Transactions(rows)
    && (k == 1 || rows != [] ==> (s.servers, s.leaders) == Named(rows, k))
  }

  /** The look-ahead holds one header and nothing else. */
  ghost predicate Holds(s: TransactionSet, r: Option<Row>) {
    r.Some? && s.transactions == [r.value.txn] && s.servers == r.value.servers && s.leaders == r.value.leaders
  }

  lemma CollectOne(s: TransactionSet, rows: Rows, k: nat, row: Row)
    requires Collected(s, rows, k) && (k == 1 || rows != [] || row.setNo == k)
    ensures Collected(if row.setNo == k
                      then s.(transactions := s.transactions + [row.txn], servers := row.servers, leaders := row.leaders)
                      else s.(transactions := s.transactions + [row.txn]),
                      rows + [Some(row)], k)
  {
  }

  /** A block begins empty, or with the header that was read ahead. */
  lemma AtStart(rows: Rows, k: nat, s: TransactionSet)
    requires k >= 1
    ensures k == 1 ==> Start(rows, k) == 0
    ensures Start(rows, k) <= Start(rows, k + 1)
    ensures k > 1 && Start(rows, k) < |rows| ==> Start(rows, k) < Start(rows, k + 1)
    ensures s.transactions == [] && (k == 1 ==> s.servers == [] && s.leaders == []) ==>
              Collected(s, rows[Start(rows, k)..Start(rows, k)], k)
    ensures k > 1 && Start(rows, k) < |rows| && Holds(s, rows[Start(rows, k)]) ==>
              Collected(s, rows[Start(rows, k)..Start(rows, k) + 1], k)
  {
    var start := Start(rows, k);
    assert rows[start..start] == [];
    if start < |rows| {
      assert rows[start..start + 1] == [rows[start]];
      assert [rows[start]][..0] == [];
    }
  }

  /** What the row at a position says about the block it may belong to. */
  lemma AtRow(rows: Rows, k: nat, pos: nat)
    requires k >= 1 && Start(rows, k) <= pos <= Start(rows, k + 1) && pos < |rows|
    ensures rows[pos].None? ==> !Readable(Block(rows, k))
    ensures rows[pos].Some? ==> (rows[pos].value.setNo == k + 1 <==> pos == Start(rows, k + 1))
    ensures pos < Start(rows, k + 1) ==> rows[Start(rows, k)..pos + 1] == rows[Start(rows, k)..pos] + [rows[pos]]
    ensures k > 1 && pos == Start(rows, k) ==> IsHeader(rows[pos], k)
  {
  }

  class CsvReader {
    const lines: seq<string>
    const allServers: seq<string>       // every configured server name, in map order
    var pos: nat                        // the next line of the file stream
    var currentSetNo: nat
    var currentTransactionSet: TransactionSet
    var nextTransactionSet: TransactionSet

    /** Between calls: the look-ahead holds the header of the next set, or the file is at its end. */
    ghost predicate Valid()
      reads this
    {
      if currentSetNo == 0 then
        && pos == 0 && nextTransactionSet.transactions == []
        && nextTransactionSet.servers == [] && nextTransactionSet.leaders == []
      else
        var (rows, start) := (RowsOf(lines), Start(RowsOf(lines), currentSetNo + 1));
        if start < |rows| then pos == start + 1 && Holds(nextTransactionSet, rows[start])
        else pos == |rows| && nextTransactionSet.transactions == []
    }

    constructor (lines: seq<string>, allServers: seq<string>)
      ensures Valid() && currentSetNo == 0 && this.lines == lines && this.allServers == allServers
    {
      this.lines, this.allServers := lines, allServers;
      pos, currentSetNo := 0, 0;
      currentTransactionSet := TransactionSet(0, [], [], [], []);
      nextTransactionSet := TransactionSet(0, [], [], [], []);
    }

    /**
     The number of transactions read, or `None` if a line of the set does not parse. The caller's
     variable `set0` is overwritten only if the set is not empty.
     */
    method ReadNextSet(set0: TransactionSet) returns (count: Option<nat>, t: TransactionSet)
      requires Valid()
      modifies this
      ensures currentSetNo == old(currentSetNo) + 1
      ensures count.Some? <==> Readable(Block(RowsOf(lines), currentSetNo))
      ensures count.Some? ==> Valid() && count.value == |Block(RowsOf(lines), currentSetNo)|
      ensures count == Some(0) ==> t == set0
      ensures count.Some? && count.value > 0 ==>
                var block := Block(RowsOf(lines), currentSetNo);
                var (servers, leaders) := Named(block, currentSetNo);
                t == TransactionSet(currentSetNo, Transactions(block), servers, leaders, Absent(allServers, servers))
    {
      t := set0;
      SwapSets();
      var read := ReadRows();
      if !read {
        return None, t;
      }
      if currentTransactionSet.transactions == [] {
        return Some(0), t;
      }
      t := TransactionSet(currentSetNo, currentTransactionSet.transactions,
                          currentTransactionSet.servers, currentTransactionSet.leaders, []);
      var disconnected := Disconnected(t.servers);
      t := t.(disconnected := disconnected);
      count := Some(|currentTransactionSet.transactions|);
    }

    /** In the middle of a set: the rows before `pos` are collected, the next header is not reached. */
    ghost predicate Collecting()
      reads this
    {
      var rows := RowsOf(lines);
      && currentSetNo >= 1 && nextTransactionSet.transactions == []
      && Start(rows, currentSetNo) <= pos <= Start(rows, currentSetNo + 1)
      && Collected(currentTransactionSet, rows[Start(rows, currentSetNo)..pos], currentSetNo)
    }

    /** Reads rows up to the next header. Fails at a line that does not parse. */
    method ReadRows() returns (read: bool)
      requires Collecting()
      modifies this`pos, this`currentTransactionSet, this`nextTransactionSet
      ensures read <==> Readable(Block(RowsOf(lines), currentSetNo))
      ensures read ==> Valid() && Collected(currentTransactionSet, Block(RowsOf(lines), currentSetNo), currentSetNo)
    {
      hide RowOf, Named, Transactions, Start, Without;
      ghost var rows := RowsOf(lines);
      while pos < |lines|
        modifies this`pos, this`currentTransactionSet, this`nextTransactionSet
        invariant Collecting()
      {
        var line := Without(lines[pos], "\r\n ");
        var l := ParseCsvLine(line);
        AtRow(rows, currentSetNo, pos);
        assert l == rows[pos];
        pos := pos + 1;
        if l.None? {
          return false;
        }
        var row := l.value;
        ghost var collected := rows[Start(rows, currentSetNo)..pos - 1];
        if row.setNo == currentSetNo {
          CollectOne(currentTransactionSet, collected, currentSetNo, row);
          currentTransactionSet := currentTransactionSet.(
            transactions := currentTransactionSet.transactions + [row.txn], servers := row.servers, leaders := row.leaders);
        } else if row.setNo == currentSetNo + 1 {
          nextTransactionSet := nextTransactionSet.(
            transactions := nextTransactionSet.transactions + [row.txn], servers := row.servers, leaders := row.leaders);
          return true;
        } else {
          CollectOne(currentTransactionSet, collected, currentSetNo, row);
          currentTransactionSet := currentTransactionSet.(transactions := currentTransactionSet.transactions + [row.txn]);
        }
      }
      read := true;
    }

    /** The look-ahead becomes the current set; its leaders, but nothing else, stay behind in the other. */
    method SwapSets()
      requires Valid()
      modifies this
      ensures currentSetNo == old(currentSetNo) + 1 && Collecting()
    {
      hide RowOf, Named, Transactions, Start;
      ghost var (rows, k) := (RowsOf(lines), currentSetNo + 1);
      AtStart(rows, k, nextTransactionSet);
      currentSetNo := currentSetNo + 1;
      var (current, next) := (currentTransactionSet, nextTransactionSet);
      currentTransactionSet := current.(servers := next.servers, leaders := next.leaders, transactions := next.transactions);
      nextTransactionSet := next.(servers := [], leaders := current.leaders, transactions := []);
    }

    method Disconnected(servers: seq<string>) returns (disconnected: seq<string>)
      ensures disconnected == Absent(allServers, servers)
    {
      disconnected := [];
      for i := 0 to |allServers|
        invariant disconnected == Absent(allServers[..i], servers)
      {
        assert allServers[..i + 1][..i] == allServers[..i];
        if allServers[i] !in servers {
          disconnected := disconnected + [allServers[i]];
        }
      }
      assert allServers[..|allServers|] == allServers;
    }
  }

  lemma {:induction false} AbsentExact(all: seq<string>, present: seq<string>, s: string)
    ensures s in Absent(all, present) <==> s in all && s !in present
    decreases |all|
  {
    if all != [] {
      AbsentExact(all[..|all| - 1], present, s);
    }
  }
}
