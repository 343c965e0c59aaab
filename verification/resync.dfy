/**
 When an acknowledged Sync applies nothing twice: exactly, on the log and the answer, and what
 that means when the answering log extends the asker's.
 */
module Resync {
  import opened Types
  import opened ServerModel
  import opened Conservation

  // ---------- when a Sync applies nothing twice ----------

  /** No transfer committed in `more` is committed in `log`, or twice in `more`. */
  ghost predicate NothingRepeated(log: seq<Entry>, more: seq<Entry>) {
    forall i :: 0 <= i < |more| && more[i].status == Committed ==>
      && (forall k :: 0 <= k < |log| && log[k].tid == more[i].tid ==> log[k].status != Committed)
      && (forall j :: 0 <= j < |more| && more[j].tid == more[i].tid && j != i ==> more[j].status != Committed)
  }

  ghost predicate AtMostOnce(log: seq<Entry>) {
    forall t :: Applied(log, t) <= 1
  }

  /** No two committed entries share an id. */
  ghost predicate NoPair(log: seq<Entry>) {
    forall i, j :: 0 <= i < j < |log| && log[i].status == Committed && log[j].status == Committed ==> log[i].tid != log[j].tid
  }

  lemma {:induction false} AppliedTwice(log: seq<Entry>, t: int)
    ensures Applied(log, t) >= 2 <==>
            exists i, j :: 0 <= i < j < |log| && log[i].tid == log[j].tid == t && log[i].status == log[j].status == Committed
    decreases |log|
  {
    if log != [] {
      var n := |log| - 1;
      AppliedTwice(log[..n], t);
      CountFinds(log[..n], t, Committed);
      assert forall k :: 0 <= k < n ==> log[..n][k] == log[k];
      if i, j :| 0 <= i < j < n && log[i].tid == log[j].tid == t && log[i].status == log[j].status == Committed {
        assert log[..n][i].tid == log[..n][j].tid == t;
      }
    }
  }

  lemma LogAfterSync(l: Server, res: SyncRes)
    requires res.ack
    ensures OnSyncReply(l, Ok, res).books.log == l.books.log + res.logs
  {
    Replayed(l.shard, l.books, res.logs);
  }

  lemma OnceIsNoPair(log: seq<Entry>)
    ensures AtMostOnce(log) <==> NoPair(log)
  {
    hide Applied;
    forall t
      ensures Applied(log, t) >= 2 <==>
              exists i, j :: 0 <= i < j < |log| && log[i].tid == log[j].tid == t && log[i].status == log[j].status == Committed
    {
      AppliedTwice(log, t);
    }
    if i, j :| 0 <= i < j < |log| && log[i].status == Committed && log[j].status == Committed && log[i].tid == log[j].tid {
      assert Applied(log, log[i].tid) >= 2;
    }
  }

  lemma JoinedPairs(log: seq<Entry>, more: seq<Entry>)
    requires NoPair(log)
    ensures NoPair(log + more) <==> NothingRepeated(log, more)
  {
    var all := log + more;
    assert forall i :: 0 <= i < |more| ==> all[|log| + i] == more[i];
    if NothingRepeated(log, more) {
      assert forall k :: |log| <= k < |all| ==> all[k] == more[k - |log|];
    } else {
      var i :| 0 <= i < |more| && more[i].status == Committed &&
               !(&& (forall k :: 0 <= k < |log| && log[k].tid == more[i].tid ==> log[k].status != Committed)
                 && (forall j :: 0 <= j < |more| && more[j].tid == more[i].tid && j != i ==> more[j].status != Committed));
      if k :| 0 <= k < |log| && log[k].tid == more[i].tid && log[k].status == Committed {
        assert all[k] == log[k] && all[|log| + i] == more[i];
      }
    }
  }

  /** Exactly when a server that applied nothing twice still has not: a check it can make on the answer. */
  lemma SyncAppliesOnce(l: Server, res: SyncRes)
    requires res.ack && AtMostOnce(l.books.log)
    ensures AtMostOnce(OnSyncReply(l, Ok, res).books.log) <==> NothingRepeated(l.books.log, res.logs)
  {
    hide AtMostOnce, NoPair, NothingRepeated, OnSyncReply;
    LogAfterSync(l, res);
    OnceIsNoPair(l.books.log);
    OnceIsNoPair(l.books.log + res.logs);
    JoinedPairs(l.books.log, res.logs);
  }

  /** A Sync from a log that extends the asker's logs again what the asker has after its mark. */
  lemma SyncFromExtension(l: Server, peer: Server, t: int, st: Status)
    requires l.books.log <= peer.books.log && -1 <= l.books.lastInserted < |l.books.log|
    requires OnSync(peer, SyncReq(l.books.lastInserted)).ack
    ensures
      var after := l.books.log + OnSync(peer, SyncReq(l.books.lastInserted)).logs;
      Count(after, t, st) == Count(peer.books.log, t, st) + Count(l.books.log[l.books.lastInserted + 1..], t, st)
  {
    hide Count;
    var mark, mine, theirs := l.books.lastInserted + 1, l.books.log, peer.books.log;
    CountConcat(mine, theirs[mark..], t, st);
    CountConcat(mine[..mark], mine[mark..], t, st);
    CountConcat(theirs[..mark], theirs[mark..], t, st);
    assert mine == mine[..mark] + mine[mark..] && theirs == theirs[..mark] + theirs[mark..] && mine[..mark] == theirs[..mark];
  }

  /**
   Of an answering log that extends the asker's, which the asker has not seen: a Sync from it applies
   nothing twice exactly if the asker has committed nothing after its mark.
   */
  lemma OnceFromExtension(l: Server, peer: Server)
    requires l.books.log <= peer.books.log && -1 <= l.books.lastInserted < |l.books.log|
    requires OnSync(peer, SyncReq(l.books.lastInserted)).ack && AtMostOnce(peer.books.log)
    ensures
      AtMostOnce(OnSyncReply(l, Ok, OnSync(peer, SyncReq(l.books.lastInserted))).books.log)
      <==> forall k :: l.books.lastInserted < k < |l.books.log| ==> l.books.log[k].status != Committed
  {
    hide Count;
    var mark := l.books.lastInserted + 1;
    var rest := l.books.log[mark..];
    var after := OnSyncReply(l, Ok, OnSync(peer, SyncReq(l.books.lastInserted))).books.log;
    LogAfterSync(l, OnSync(peer, SyncReq(l.books.lastInserted)));
    forall t
      ensures Applied(after, t) == Applied(peer.books.log, t) + Applied(rest, t)
      ensures Applied(rest, t) > 0 <==> exists k :: 0 <= k < |rest| && rest[k].tid == t && rest[k].status == Committed
      ensures Applied(rest, t) > 0 ==> Applied(peer.books.log, t) > 0
    {
      SyncFromExtension(l, peer, t, Committed);
      CountFinds(rest, t, Committed);
      CountFinds(peer.books.log, t, Committed);
    }
    assert forall k :: mark <= k < |l.books.log| ==> l.books.log[k] == rest[k - mark];
    if k :| mark <= k < |l.books.log| && l.books.log[k].status == Committed {
      assert rest[k - mark].status == Committed;
      assert Applied(rest, l.books.log[k].tid) > 0;
      assert Applied(after, l.books.log[k].tid) >= 2;
    }
  }
}
