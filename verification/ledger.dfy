/**
 What every handler keeps, in any role and in any order: balances are the opening
 balance plus the committed log, the pending transactions are those the log leaves
 undecided, and one transaction is decided at a time.
 */
module Ledger {
  import opened Types
  import opened ServerModel

  const OPENING := 10

  // ---------- balances refine the log ----------

  function Effect(e: Entry, client: int): int {
    if e.status != Committed then 0
    else (if e.txn.receiver == client then e.txn.amount else 0) - (if e.txn.sender == client then e.txn.amount else 0)
  }

  function Net(log: seq<Entry>, client: int): int
    decreases |log|
  {
    if log == [] then 0 else Net(log[..|log| - 1], client) + Effect(log[|log| - 1], client)
  }

  lemma NetAppend(log: seq<Entry>, e: Entry, client: int)
    ensures Net(log + [e], client) == Net(log, client) + Effect(e, client)
  {
  }

  ghost predicate RefinesLog(shard: Shard, books: Books) {
    && shard.Sound()
    && (forall t :: t in books.pending ==> books.pending[t].tid == t && t != -1)
    && (forall c {:trigger shard.Owns(c)} :: shard.Owns(c) ==> books.Balance(c) == OPENING + Net(books.log, c))
  }

  /** The tids in an event are tids of the client, which are never the sentinel -1. */
  predicate GenuineTids(e: Event) {
    match e
    case Run(req, _) => req.tid != -1
    case AcceptCall(a) => a.r.tid != -1
    case SyncReply(_, r) => forall i :: 0 <= i < |r.logs| ==> r.logs[i].tid != -1
    case _ => true
  }

  lemma AppendRefines(shard: Shard, books: Books, e: Entry, after: Books)
    requires RefinesLog(shard, books) && after.log == books.log + [e]
    requires forall k :: k in after.pending ==> after.pending[k].tid == k && k != -1
    requires forall c :: shard.Owns(c) ==> after.Balance(c) == books.Balance(c) + Effect(e, c)
    ensures RefinesLog(shard, after)
  {
  }

  lemma PrepareRefines(shard: Shard, books: Books, req: TransferReq, ballot: Ballot)
    requires RefinesLog(shard, books) && req.tid != -1
    ensures RefinesLog(shard, books.Prepare(req, ballot))
  {
  }

  lemma CommitRefines(shard: Shard, books: Books, req: TransferReq, ballot: Ballot)
    requires RefinesLog(shard, books)
    ensures RefinesLog(shard, books.Commit(req, ballot))
  {
  }

  lemma {:induction false} ReplayAllRefines(shard: Shard, books: Books, es: seq<Entry>)
    requires RefinesLog(shard, books) && forall i :: 0 <= i < |es| ==> es[i].tid != -1
    ensures RefinesLog(shard, ReplayAll(shard, books, es))
    ensures ReplayAll(shard, books, es).log == books.log + es
    decreases |es|
  {
    if es != [] {
      var mid := ReplayAll(shard, books, es[..|es| - 1]);
      ReplayAllRefines(shard, books, es[..|es| - 1]);
      AppendRefines(shard, mid, es[|es| - 1], Replay(shard, mid, es[|es| - 1]));
    }
  }

  lemma DecideRefines(shard: Shard, books: Books, tid: int, commit: bool)
    requires RefinesLog(shard, books)
    ensures RefinesLog(shard, DecideBooks(shard, books, tid, commit))
  {
  }

  /** The books after one call of the proposer, apart from locks, are unchanged or hold one more entry. */
  lemma RunRefines(s: Server, req: TransferReq, cross: bool)
    requires RefinesLog(s.shard, s.books) && req.tid != -1
    ensures RefinesLog(s.shard, RunPaxos(s, req, cross).s.books)
  {
    var locked := s.books.Lock(s.shard.Accounts(req.txn) + {req.txn.receiver});
    var unlocked := s.books.Unlock({req.txn.sender, req.txn.receiver});
    assert RunPaxos(s, req, cross).s.books in
      {s.books, locked, locked.Prepare(req, s.acceptor.promisedNum), unlocked, unlocked.Commit(req, s.acceptor.acceptNum)};
    PrepareRefines(s.shard, locked, req, s.acceptor.promisedNum);
    CommitRefines(s.shard, unlocked, req, s.acceptor.acceptNum);
  }

  lemma AcceptRefines(s: Server, a: AcceptReq)
    requires RefinesLog(s.shard, s.books) && a.r.tid != -1
    ensures RefinesLog(s.shard, OnAccept(s, a).0.books)
  {
  }

  lemma CommitCallRefines(s: Server, c: CommitReq)
    requires RefinesLog(s.shard, s.books)
    ensures RefinesLog(s.shard, OnCommit(s, c).books)
  {
    var unlocked := s.books.Unlock(s.shard.Accounts(s.acceptor.acceptVal.txn));
    CommitRefines(s.shard, unlocked, s.acceptor.acceptVal, s.acceptor.acceptNum);
  }

  lemma HandleRefines(s: Server, e: Event)
    requires RefinesLog(s.shard, s.books) && GenuineTids(e)
    ensures RefinesLog(s.shard, Handle(s, e).books) && Handle(s, e).shard == s.shard
  {
    match e
    case Run(req, cross) => RunRefines(s, req, cross);
    case AcceptCall(a) => AcceptRefines(s, a);
    case CommitCall(c) => CommitCallRefines(s, c);
    case SyncReply(st, r) => if st == Ok && r.ack { ReplayAllRefines(s.shard, s.books, r.logs); }
    case Decision(tid, commit) => DecideRefines(s.shard, s.books, tid, commit);
    case _ =>
  }

  /** After any interleaving of handlers, in any role and with any replies and synchronisations. */
  lemma {:induction false} BalancesRefineLog(s: Server, es: seq<Event>)
    requires s.shard.Sound() && s.books.log == [] && s.books.pending == map[]
    requires forall c :: s.shard.Owns(c) ==> s.books.Balance(c) == OPENING
    requires forall i :: 0 <= i < |es| ==> GenuineTids(es[i])
    ensures RefinesLog(s.shard, HandleAll(s, es).books) && HandleAll(s, es).shard == s.shard
    decreases |es|
  {
    if es != [] {
      BalancesRefineLog(s, es[..|es| - 1]);
      HandleRefines(HandleAll(s, es[..|es| - 1]), es[|es| - 1]);
    }
  }

  // ---------- replicas agree when their committed transactions do, in whatever order ----------

  function CommittedIn(log: seq<Entry>): multiset<Transaction>
    decreases |log|
  {
    if log == [] then multiset{}
    else CommittedIn(log[..|log| - 1]) + (if log[|log| - 1].status == Committed then multiset{log[|log| - 1].txn} else multiset{})
  }

  lemma {:induction false} Concat(a: seq<Entry>, b: seq<Entry>, client: int)
    ensures CommittedIn(a + b) == CommittedIn(a) + CommittedIn(b)
    ensures Net(a + b, client) == Net(a, client) + Net(b, client)
    decreases |b|
  {
    if b == [] {
      assert a + b == a;
    } else {
      assert (a + b)[..|a + b| - 1] == a + b[..|b| - 1];
      Concat(a, b[..|b| - 1], client);
    }
  }

  lemma {:induction false} FindCommitted(log: seq<Entry>, txn: Transaction) returns (i: nat)
    requires txn in CommittedIn(log)
    ensures i < |log| && log[i].status == Committed && log[i].txn == txn
    decreases |log|
  {
    var last := log[|log| - 1];
    if last.status == Committed && last.txn == txn {
      i := |log| - 1;
    } else {
      i := FindCommitted(log[..|log| - 1], txn);
    }
  }

  lemma SplitAt(log: seq<Entry>, i: nat, client: int)
    requires i < |log|
    ensures CommittedIn(log) == CommittedIn(log[..i] + log[i + 1..]) + CommittedIn([log[i]])
    ensures Net(log, client) == Net(log[..i] + log[i + 1..], client) + Effect(log[i], client)
  {
    var e := log[i];
    assert log == (log[..i] + [e]) + log[i + 1..];
    Concat(log[..i] + [e], log[i + 1..], client);
    Concat(log[..i], [e], client);
    Concat(log[..i], log[i + 1..], client);
    assert Net([e], client) == Effect(e, client) by { assert [e][..0] == []; }
  }

  lemma {:induction false} SameCommitsSameNet(a: seq<Entry>, b: seq<Entry>, client: int)
    requires CommittedIn(a) == CommittedIn(b)
    ensures Net(a, client) == Net(b, client)
    decreases |a| + |b|
  {
    if a == [] && b == [] {
    } else if a == [] {
      SameCommitsSameNet(a, b[..|b| - 1], client);
    } else {
      var e := a[|a| - 1];
      if e.status != Committed {
        SameCommitsSameNet(a[..|a| - 1], b, client);
      } else {
        assert e.txn in CommittedIn(a);
        var i := FindCommitted(b, e.txn);
        SplitAt(b, i, client);
        var rest := b[..i] + b[i + 1..];
        assert CommittedIn([b[i]]) == multiset{e.txn} by { assert [b[i]][..0] == []; }
        assert CommittedIn(a[..|a| - 1]) == CommittedIn(a) - multiset{e.txn} == CommittedIn(rest);
        SameCommitsSameNet(a[..|a| - 1], rest, client);
      }
    }
  }

  lemma ReplicasAgree(shard: Shard, a: Books, b: Books, client: int)
    requires RefinesLog(shard, a) && RefinesLog(shard, b) && shard.Owns(client)
    requires CommittedIn(a.log) == CommittedIn(b.log)
    ensures a.Balance(client) == b.Balance(client)
  {
    SameCommitsSameNet(a.log, b.log, client);
  }
}
