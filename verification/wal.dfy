/**
 The write-ahead log (wal.cc): a text file of one line per event, and an index from
 transaction to the byte offset of its PREPARE line.
 */
module WriteAheadLog {
  import opened Types
  import opened Text
  import opened ServerModel

  /** The content of one line. */
  datatype Rec = Rec(tag: string, tid: int, ballot: Ballot, txn: Transaction)

  function Fields(r: Rec): seq<string> {
    [r.tag, PrintInt(r.tid), PrintInt(r.ballot.num), PrintInt(r.ballot.serverId),
     PrintInt(r.txn.sender), PrintInt(r.txn.receiver), PrintInt(r.txn.amount)]
  }

  function Render(r: Rec): string {
    Join(Fields(r)) + "\n"
  }

  function Parse(line: string): Option<Rec> {
    var ws := Words(line);
    if |ws| != 7 then None
    else
      match (ParseInt(ws[1]), ParseInt(ws[2]), ParseInt(ws[3]), ParseInt(ws[4]), ParseInt(ws[5]), ParseInt(ws[6]))
      case (Some(tid), Some(num), Some(id), Some(sender), Some(receiver), Some(amount)) =>
        Some(Rec(ws[0], tid, Ballot(num, id), Transaction(sender, receiver, amount)))
      case _ => None
  }

  lemma ParseRender(r: Rec)
    requires Word(r.tag)
    ensures '\n' !in Join(Fields(r)) && Parse(Join(Fields(r))) == Some(r)
  {
    hide PrintInt, ParseInt, Words, Join;
    IntRoundTrip(r.tid);
    IntRoundTrip(r.ballot.num);
    IntRoundTrip(r.ballot.serverId);
    IntRoundTrip(r.txn.sender);
    IntRoundTrip(r.txn.receiver);
    IntRoundTrip(r.txn.amount);
    WordsOfJoin(Fields(r));
  }

  // ---------- tags ----------

  const IN_COMMIT := "IN_COMMIT"    // intra-shard commit, as the committing server writes it

  function TagOf(kind: Kind, status: Status): string {
    (if kind == Intra then "IS_" else "CS_") +
    (match status
     case NoStatus => ""
     case Prepared => "PREPARE"
     case Committed => "COMMIT"
     case Aborted => "ABORT")
  }

  /** Reading a tag back; IN_COMMIT and IS_COMMIT both mean an intra-shard commit. */
  function EntryOf(r: Rec): Entry {
    Entry(r.tid, r.ballot, r.txn,
          if r.tag == IN_COMMIT || (|r.tag| >= 1 && r.tag[0] == 'I') then Intra else Cross,
          if r.tag == IN_COMMIT || r.tag in {TagOf(Intra, Committed), TagOf(Cross, Committed)} then Committed
          else if r.tag in {TagOf(Intra, Prepared), TagOf(Cross, Prepared)} then Prepared
          else if r.tag in {TagOf(Intra, Aborted), TagOf(Cross, Aborted)} then Aborted
          else NoStatus)
  }

  predicate Opens(tag: string) {
    tag in {TagOf(Intra, Prepared), TagOf(Cross, Prepared)}
  }

  /** IN_COMMIT leaves the index alone. */
  predicate Closes(tag: string) {
    tag in {TagOf(Intra, Committed), TagOf(Cross, Committed), TagOf(Intra, Aborted), TagOf(Cross, Aborted)}
  }

  lemma TagsAreDistinct(e: Entry)
    ensures
      var r := Rec(TagOf(e.kind, e.status), e.tid, e.ballot, e.txn);
      && Word(r.tag) && EntryOf(r) == e
      && (Opens(r.tag) <==> e.status == Prepared)
      && (Closes(r.tag) <==> e.status in {Committed, Aborted})
  {
    assert TagOf(e.kind, e.status)[0] == if e.kind == Intra then 'I' else 'C';
    assert TagOf(e.kind, e.status)[1] == 'S' && IN_COMMIT[1] == 'N';
    match e.status
    case NoStatus =>
      assert |TagOf(e.kind, e.status)| == 3;
    case Prepared =>
      assert TagOf(e.kind, Prepared)[3] == 'P';
    case Committed =>
      assert TagOf(e.kind, Committed)[3] == 'C';
    case Aborted =>
      assert TagOf(e.kind, Aborted)[3] == 'A';
  }

  /** The layout of a line: tag, tid, ballot number and server, sender, receiver, amount, one space apart. */
  lemma LineLayout(r: Rec)
    ensures
      Render(r) ==
      r.tag + " " + PrintInt(r.tid) + " " + PrintInt(r.ballot.num) + " " + PrintInt(r.ballot.serverId) + " " +
      PrintInt(r.txn.sender) + " " + PrintInt(r.txn.receiver) + " " + PrintInt(r.txn.amount) + "\n"
  {
    hide PrintInt, Join;
    var ws := Fields(r);
    assert ws[0..] == ws;
    JoinLast(ws);
    JoinTail(ws, 5);
    JoinTail(ws, 4);
    JoinTail(ws, 3);
    JoinTail(ws, 2);
    JoinTail(ws, 1);
    JoinTail(ws, 0);
  }

  lemma JoinLast(ws: seq<string>)
    requires ws != []
    ensures Join(ws[|ws| - 1..]) == ws[|ws| - 1]
  {
  }

  lemma JoinTail(ws: seq<string>, k: nat)
    requires k + 1 < |ws|
    ensures Join(ws[k..]) == ws[k] + " " + Join(ws[k + 1..])
  {
    assert ws[k..][1..] == ws[k + 1..];
  }

  /** A line of the file as the source prints it. */
  lemma LineExample()
    ensures TagOf(Cross, Prepared) == "CS_PREPARE" && TagOf(Intra, Aborted) == "IS_ABORT"
    ensures Render(Rec(IN_COMMIT, 107, Ballot(2, 1), Transaction(1, 6, -40))) == "IN_COMMIT 107 2 1 1 6 -40\n"
  {
    hide Render, Join, Fields, PrintInt;
    LineLayout(Rec(IN_COMMIT, 107, Ballot(2, 1), Transaction(1, 6, -40)));
    Digits();
  }

  lemma Digits()
    ensures PrintInt(107) == "107" && PrintInt(-40) == "-40"
    ensures PrintInt(1) == "1" && PrintInt(2) == "2" && PrintInt(6) == "6"
  {
  }

  // ---------- whole files ----------

  function Lines(rs: seq<Rec>): seq<string> {
    seq(|rs|, i requires 0 <= i < |rs| => Join(Fields(rs[i])))
  }

  function RenderAll(rs: seq<Rec>): string {
    Unlines(Lines(rs))
  }

  /** How one line at offset `pos` moves the index. */
  function Mark(index: map<int, nat>, tag: string, tid: int, pos: nat): map<int, nat> {
    if Opens(tag) then index[tid := pos] else if Closes(tag) then index - {tid} else index
  }

  /** The index after writing the records one by one. */
  function IndexOf(rs: seq<Rec>): map<int, nat>
    decreases |rs|
  {
    if rs == [] then map[]
    else
      var k := |rs| - 1;
      Mark(IndexOf(rs[..k]), rs[k].tag, rs[k].tid, |RenderAll(rs[..k])|)
  }

  /** A left-to-right scan of the text itself: the records it holds and the index they leave. */
  function Scan(file: string, pos: nat, index: map<int, nat>): (seq<Rec>, map<int, nat>)
    requires pos <= |file|
    decreases |file| - pos
  {
    if pos == |file| then ([], index)
    else
      var line := GetLine(file, pos);
      var next := if pos + |line| < |file| then pos + |line| + 1 else |file|;
      match Parse(line)
      case None => Scan(file, next, index)
      case Some(r) =>
        var (rs, after) := Scan(file, next, Mark(index, r.tag, r.tid, pos));
        ([r] + rs, after)
  }

  ghost predicate Wellformed(rs: seq<Rec>) {
    forall k :: 0 <= k < |rs| ==> Word(rs[k].tag)
  }

  lemma AppendRendered(rs: seq<Rec>, r: Rec)
    ensures RenderAll(rs + [r]) == RenderAll(rs) + Render(r)
  {
    assert Lines(rs + [r])[..|rs|] == Lines(rs);
  }

  /** The file around record `k`. */
  lemma RenderAround(rs: seq<Rec>, k: nat)
    requires k < |rs|
    ensures RenderAll(rs) == RenderAll(rs[..k]) + Render(rs[k]) + RenderAll(rs[k + 1..])
    ensures |RenderAll(rs[..k + 1])| == |RenderAll(rs[..k])| + |Render(rs[k])|
  {
    hide Fields, Join;
    assert Lines(rs) == Lines(rs[..k + 1]) + Lines(rs[k + 1..]);
    UnlinesConcat(Lines(rs[..k + 1]), Lines(rs[k + 1..]));
    assert rs[..k + 1] == rs[..k] + [rs[k]];
    AppendRendered(rs[..k], rs[k]);
  }

  lemma ReadBack(rs: seq<Rec>, k: nat)
    requires Wellformed(rs) && k < |rs|
    ensures |RenderAll(rs[..k])| < |RenderAll(rs)|
    ensures Parse(GetLine(RenderAll(rs), |RenderAll(rs[..k])|)) == Some(rs[k])
    ensures |GetLine(RenderAll(rs), |RenderAll(rs[..k])|)| + 1 == |Render(rs[k])|
  {
    RenderAround(rs, k);
    ParseRender(rs[k]);
    LineAt(RenderAll(rs[..k]), Join(Fields(rs[k])), RenderAll(rs[k + 1..]));
  }

  lemma {:induction false} ScanFrom(rs: seq<Rec>, k: nat)
    requires Wellformed(rs) && k <= |rs|
    ensures |RenderAll(rs[..k])| <= |RenderAll(rs)|
    ensures Scan(RenderAll(rs), |RenderAll(rs[..k])|, IndexOf(rs[..k])) == (rs[k..], IndexOf(rs))
    decreases |rs| - k
  {
    hide RenderAll, Parse, GetLine, Mark;
    if k == |rs| {
      assert rs[..k] == rs;
    } else {
      ReadBack(rs, k);
      RenderAround(rs, k);
      assert rs[..k + 1][..k] == rs[..k];
      ScanFrom(rs, k + 1);
      assert rs[k..] == [rs[k]] + rs[k + 1..];
    }
  }

  /** The text alone determines both the records and the index. */
  lemma ScanExact(rs: seq<Rec>)
    requires Wellformed(rs)
    ensures Scan(RenderAll(rs), 0, map[]) == (rs, IndexOf(rs))
  {
    ScanFrom(rs, 0);
  }

  // ---------- lookups through the index ----------

  /** What a PREPARE line reads back as. */
  function AsPrepared(r: Rec): Entry {
    Entry(r.tid, r.ballot, r.txn, Cross, Prepared)
  }

  /** The prepared, undecided transactions of a sequence of records. */
  function Undecided(rs: seq<Rec>): map<int, Entry>
    decreases |rs|
  {
    if rs == [] then map[]
    else
      var (before, r) := (Undecided(rs[..|rs| - 1]), rs[|rs| - 1]);
      if Opens(r.tag) then before[r.tid := AsPrepared(r)] else if Closes(r.tag) then before - {r.tid} else before
  }

  /** A line that opens or closes the index entry of a tid. */
  predicate Moves(r: Rec, t: int) {
    r.tid == t && (Opens(r.tag) || Closes(r.tag))
  }

  /** The offset kept for a tid is that of its latest PREPARE line, which no later line has concluded. */
  lemma {:induction false} IndexPointsAt(rs: seq<Rec>, t: int) returns (k: nat)
    requires t in IndexOf(rs)
    ensures k < |rs| && IndexOf(rs)[t] == |RenderAll(rs[..k])| && rs[k].tid == t && Opens(rs[k].tag)
    ensures forall j :: k < j < |rs| ==> !Moves(rs[j], t)
    ensures t in Undecided(rs) && Undecided(rs)[t] == AsPrepared(rs[k])
    decreases |rs|
  {
    hide Opens, Closes, RenderAll;
    var n := |rs| - 1;
    if Opens(rs[n].tag) && rs[n].tid == t {
      k := n;
    } else {
      k := IndexPointsAt(rs[..n], t);
      assert rs[..n][..k] == rs[..k];
      assert !Moves(rs[n], t);
      forall j | k < j < n
        ensures !Moves(rs[j], t)
      {
        assert rs[..n][j] == rs[j];
      }
    }
  }

  lemma {:induction false} IndexKeys(rs: seq<Rec>)
    ensures IndexOf(rs).Keys == Undecided(rs).Keys
    decreases |rs|
  {
    if rs != [] {
      IndexKeys(rs[..|rs| - 1]);
    }
  }

  /** Reading one line at the stored offset returns exactly what was last prepared for the tid. */
  lemma LookupExact(rs: seq<Rec>, t: int)
    requires Wellformed(rs)
    ensures t in IndexOf(rs) <==> t in Undecided(rs)
    ensures t in IndexOf(rs) ==> IndexOf(rs)[t] <= |RenderAll(rs)|
    ensures t in IndexOf(rs) ==>
              var r := Parse(GetLine(RenderAll(rs), IndexOf(rs)[t]));
              r.Some? && AsPrepared(r.value) == Undecided(rs)[t] && r.value.tid == t
  {
    hide RenderAll, Parse, GetLine;
    IndexKeys(rs);
    if t in IndexOf(rs) {
      var k := IndexPointsAt(rs, t);
      ReadBack(rs, k);
    }
  }

  function Decoded(rs: seq<Rec>): seq<Entry> {
    seq(|rs|, i requires 0 <= i < |rs| => EntryOf(rs[i]))
  }

  // ---------- the log as a class ----------

  class Wal {
    var file: string
    var index: map<int, nat>
    ghost var recs: seq<Rec>
    ghost var entries: seq<Entry>        // the decoded lines of the file
    ghost var pending: map<int, Entry>   // what the index finds, by tid

    ghost predicate Valid()
      reads this
    {
      && Wellformed(recs) && file == RenderAll(recs) && index == IndexOf(recs)
      && entries == Decoded(recs) && pending == Undecided(recs)
    }

    constructor ()
      ensures Valid() && entries == [] && pending == map[]
    {
      file, index, recs := "", map[], [];
      entries, pending := [], map[];
    }

    /** Reads and parses the line at an offset that the index holds. */
    method GetTransactionFromFile(position: nat, ghost tid: int) returns (e: Entry)
      requires Valid() && tid in index && index[tid] == position
      ensures tid in pending && e == pending[tid]
      ensures e.tid == tid && e.kind == Cross && e.status == Prepared
    {
      LookupExact(recs, tid);
      var line := GetLine(file, position);
      e := AsPrepared(Parse(line).value);
    }

    /** Appends one line and keeps the record of it. */
    method Append(r: Rec)
      requires Word(r.tag) && Wellformed(recs) && file == RenderAll(recs)
      modifies this`file, this`recs, this`entries, this`pending
      ensures Wellformed(recs) && file == RenderAll(recs)
      ensures recs == old(recs) + [r] && entries == Decoded(recs) && pending == Undecided(recs)
    {
      hide Join, Fields, RenderAll, Decoded, Undecided;
      file := file + Join(Fields(r)) + "\n";
      AppendRendered(recs, r);
      recs := recs + [r];
      entries, pending := Decoded(recs), Undecided(recs);
    }

    method PrepareTransaction(req: TransferReq, ballot: Ballot) returns (e: Entry)
      requires Valid()
      modifies this
      ensures Valid() && e == PreparedEntry(req, ballot)
      ensures entries == old(entries) + [e] && pending == old(pending)[req.tid := e]
    {
      hide RenderAll, IndexOf, Undecided, Decoded;
      ghost var r := Rec("CS_PREPARE", req.tid, ballot, req.txn);
      RecordKept(recs, r, PreparedEntry(req, ballot));
      var position := |file|;
      index := index[req.tid := position];
      Append(Rec("CS_PREPARE", req.tid, ballot, req.txn));
      e := Entry(req.tid, ballot, req.txn, Cross, Prepared);
    }

    /** Commits an intra-shard transaction: one line, the index stays. */
    method CommitTransfer(req: TransferReq, ballot: Ballot) returns (e: Entry)
      requires Valid()
      modifies this
      ensures Valid() && e == CommittedEntry(req, ballot)
      ensures entries == old(entries) + [e] && pending == old(pending)
    {
      hide RenderAll, IndexOf, Undecided, Decoded;
      ghost var r := Rec(IN_COMMIT, req.tid, ballot, req.txn);
      InCommitKept(recs, r);
      Append(Rec(IN_COMMIT, req.tid, ballot, req.txn));
      e := Entry(req.tid, ballot, req.txn, Intra, Committed);
    }

    method CommitTransaction(tid: int) returns (e: Entry)
      requires Valid()
      modifies this
      ensures Valid() && e == Outcome(old(pending), tid, true) && (tid in old(pending) ==> e.tid == tid)
      ensures entries == (if tid in old(pending) then old(entries) + [e] else old(entries))
      ensures pending == old(pending) - {tid}
    {
      e := Conclude(tid, "CS_COMMIT", Committed);
    }

    method AbortTransaction(tid: int) returns (e: Entry)
      requires Valid()
      modifies this
      ensures Valid() && e == Outcome(old(pending), tid, false) && (tid in old(pending) ==> e.tid == tid)
      ensures entries == (if tid in old(pending) then old(entries) + [e] else old(entries))
      ensures pending == old(pending) - {tid}
    {
      e := Conclude(tid, "CS_ABORT", Aborted);
    }

    /** Reads a prepared transaction back through the index and logs how it ended. */
    method Conclude(tid: int, tag: string, status: Status) returns (e: Entry)
      requires Valid() && status in {Committed, Aborted} && tag == TagOf(Cross, status)
      modifies this
      ensures Valid()
      ensures e == if tid in old(pending) then old(pending)[tid].(status := status) else MISSING
      ensures tid in old(pending) ==> e.tid == tid
      ensures entries == (if tid in old(pending) then old(entries) + [e] else old(entries))
      ensures pending == old(pending) - {tid}
    {
      hide RenderAll, IndexOf, Undecided, Decoded;
      IndexKeys(recs);
      if tid !in index {
        assert pending - {tid} == pending;
        return MISSING;
      }
      var txn := GetTransactionFromFile(index[tid], tid);
      e := txn.(status := status);
      RecordKept(recs, Rec(tag, tid, txn.ballot, txn.txn), e);
      Append(Rec(tag, tid, txn.ballot, txn.txn));
      index := index - {tid};
    }

    /** Inserts a synchronised entry of any kind. */
    method InsertEntry(e: Entry)
      requires Valid()
      modifies this
      ensures Valid() && entries == old(entries) + [e] && pending == ServerModel.Index(old(pending), e)
    {
      hide RenderAll, IndexOf, Undecided, Decoded;
      var message := if e.kind == Intra then "IS_" else "CS_";
      var position := |file|;
      RecordKept(recs, Rec(TagOf(e.kind, e.status), e.tid, e.ballot, e.txn), e);
      match e.status {
        case Prepared =>
          index := index[e.tid := position];
          message := message + "PREPARE";
        case Committed =>
          message := message + "COMMIT";
          index := index - {e.tid};
        case Aborted =>
          message := message + "ABORT";
          index := index - {e.tid};
        case NoStatus =>
      }
      assert message == TagOf(e.kind, e.status);
      Append(Rec(message, e.tid, e.ballot, e.txn));
    }

    /** The file is always what its records print as; a scan of the text recovers log and index. */
    lemma FileDeterminesAll()
      requires Valid()
      ensures Scan(file, 0, map[]) == (recs, index) && entries == Decoded(Scan(file, 0, map[]).0)
    {
      ScanExact(recs);
    }
  }

  /** One more record whose tag is that of `e`: the decoded log, the index and the lookups after it. */
  lemma RecordKept(rs: seq<Rec>, r: Rec, e: Entry)
    requires r == Rec(TagOf(e.kind, e.status), e.tid, e.ballot, e.txn)
    ensures Word(r.tag) && Decoded(rs + [r]) == Decoded(rs) + [e]
    ensures Undecided(rs + [r]) == ServerModel.Index(Undecided(rs), e)
    ensures IndexOf(rs + [r]) == match e.status
                                 case Prepared => IndexOf(rs)[e.tid := |RenderAll(rs)|]
                                 case NoStatus => IndexOf(rs)
                                 case _ => IndexOf(rs) - {e.tid}
  {
    hide TagOf, EntryOf, Opens, Closes, RenderAll;
    TagsAreDistinct(e);
    assert (rs + [r])[..|rs|] == rs;
  }

  lemma InCommitKept(rs: seq<Rec>, r: Rec)
    requires r.tag == IN_COMMIT
    ensures Word(r.tag) && Decoded(rs + [r]) == Decoded(rs) + [Entry(r.tid, r.ballot, r.txn, Intra, Committed)]
    ensures Undecided(rs + [r]) == Undecided(rs) && IndexOf(rs + [r]) == IndexOf(rs)
  {
    assert (rs + [r])[..|rs|] == rs;
    assert IN_COMMIT[1] == 'N';
    assert forall k, s :: TagOf(k, s)[1] == 'S';
  }
}
