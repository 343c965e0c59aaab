/**
 Properties of one server that hold over every sequence of handlers: the proposer's flags,
 idempotent two-phase commit decisions, the WAL index as a function of the log, and exact
 synchronisation between two replicas.
 */
module Participant {
  import opened Types
  import opened ServerModel
  import opened Ledger

  // ---------- one transaction at a time ----------

  predicate Orderly(r: Round) {
    && !(r.awaitPrepare && r.awaitAccept)
    && (r.awaitPrepare || r.awaitAccept ==> r.running)
    && (r.running <==> r.tid != -1)
  }

  lemma HandleOrderly(s: Server, e: Event)
    requires Orderly(s.round) && GenuineTids(e)
    ensures Orderly(Handle(s, e).round)
  {
  }

  lemma {:induction false} OneAtATime(s: Server, es: seq<Event>)
    requires Orderly(s.round) && forall i :: 0 <= i < |es| ==> GenuineTids(es[i])
    ensures Orderly(HandleAll(s, es).round)
    decreases |es|
  {
    if es != [] {
      OneAtATime(s, es[..|es| - 1]);
      HandleOrderly(HandleAll(s, es[..|es| - 1]), es[|es| - 1]);
    }
  }

  /** What one call of the proposer can broadcast, and in which phase. */
  lemma RunCases(l: Server, req: TransferReq, cross: bool)
    requires Orderly(l.round)
    ensures
      var ran := RunPaxos(l, req, cross);
      match ran.out
      case Silent =>
        && ran.s.acceptor == l.acceptor && ran.s.books.log == l.books.log
        && (ran.s.round == l.round || !Waiting(ran.s)) && ran.s.inSync == l.inSync
        && (ran.answer.Some? ==> !ran.answer.value.ack)
      case Prepares(r) =>
        var ballot := Ballot(l.acceptor.ballotNum + 1, l.id);
        && !Waiting(l) && !l.inSync
        && ran.s == StartPrepare(l, req.tid, ballot) && r == PrepareReq(ballot, l.books.lastInserted)
      case Accepts(r) =>
        && l.round.awaitPrepare && l.round.prepareOks >= MAJORITY && l.round.tid == req.tid && !Conflicts(l, req.txn)
        && ran.s == Propose(l, req, cross) && r == AcceptReq(l.acceptor.promisedNum, req)
      case Commits(r) =>
        && l.round.awaitAccept && l.round.acceptOks >= MAJORITY && l.round.tid == req.tid
        && ran.s == Settle(l, req, cross) && r == CommitReq(l.acceptor.acceptNum)
  {
  }

  // ---------- decisions are idempotent ----------

  /** The sentinel entry of an unknown tid names accounts that no cluster owns, so nothing changes. */
  lemma UnknownDecisionChangesNothing(s: Server, tid: int, commit: bool)
    requires s.shard.Sound() && tid !in s.books.pending
    ensures Decide(s, tid, commit) == s
  {
  }

  /** A second decision for a tid, the same or the opposite one, is without effect. */
  lemma DecideTwice(s: Server, tid: int, first: bool, second: bool)
    requires s.shard.Sound() && !s.disconnected
    ensures Decide(Decide(s, tid, first), tid, second) == Decide(s, tid, first)
  {
  }

  function Prepares(log: seq<Entry>, tid: int): nat
    decreases |log|
  {
    if log == [] then 0
    else Prepares(log[..|log| - 1], tid) +
         (var e := log[|log| - 1]; if e.tid == tid && e.kind == Cross && e.status == Prepared then 1 else 0)
  }

  function Outcomes(log: seq<Entry>, tid: int): nat
    decreases |log|
  {
    if log == [] then 0
    else Outcomes(log[..|log| - 1], tid) +
         (var e := log[|log| - 1]; if e.tid == tid && e.kind == Cross && e.status in {Committed, Aborted} then 1 else 0)
  }

  ghost predicate OutcomesMatched(books: Books) {
    && (forall t :: t in books.pending ==> t != -1 && books.pending[t].tid == t && books.pending[t].kind == Cross)
    && (forall t :: Outcomes(books.log, t) + (if t in books.pending then 1 else 0) <= Prepares(books.log, t))
  }

  lemma AppendMatched(books: Books, e: Entry, after: Books)
    requires OutcomesMatched(books) && after.log == books.log + [e]
    requires
      || (after.pending == books.pending && e.kind == Intra)
      || (after.pending == books.pending[e.tid := e] && e.kind == Cross && e.status == Prepared && e.tid != -1)
      || (after.pending == books.pending - {e.tid} && e.tid in books.pending)
    ensures OutcomesMatched(after)
  {
  }

  predicate Unsynced(e: Event) {
    e.SyncReply? ==> e.status != Ok || !e.syncRes.ack
  }

  lemma RunMatched(s: Server, req: TransferReq, cross: bool)
    requires OutcomesMatched(s.books) && req.tid != -1
    ensures OutcomesMatched(RunPaxos(s, req, cross).s.books)
  {
    hide Outcomes, Prepares;
    var locked := s.books.Lock(s.shard.Accounts(req.txn) + {req.txn.receiver});
    var unlocked := s.books.Unlock({req.txn.sender, req.txn.receiver});
    AppendMatched(locked, PreparedEntry(req, s.acceptor.promisedNum), locked.Prepare(req, s.acceptor.promisedNum));
    AppendMatched(unlocked, CommittedEntry(req, s.acceptor.acceptNum), unlocked.Commit(req, s.acceptor.acceptNum));
  }

  lemma FollowerMatched(s: Server, a: AcceptReq, c: CommitReq)
    requires OutcomesMatched(s.books) && a.r.tid != -1
    ensures OutcomesMatched(OnAccept(s, a).0.books) && OutcomesMatched(OnCommit(s, c).books)
  {
    var locked := s.books.Lock(s.shard.Accounts(a.r.txn));
    AppendMatched(locked, PreparedEntry(a.r, a.ballot), locked.Prepare(a.r, a.ballot));
    var v, n := s.acceptor.acceptVal, s.acceptor.acceptNum;
    var unlocked := s.books.Unlock(s.shard.Accounts(v.txn));
    AppendMatched(unlocked, CommittedEntry(v, n), unlocked.Commit(v, n));
  }

  lemma HandleMatched(s: Server, e: Event)
    requires OutcomesMatched(s.books) && GenuineTids(e) && Unsynced(e)
    ensures OutcomesMatched(Handle(s, e).books)
  {
    match e
    case Run(req, cross) => RunMatched(s, req, cross);
    case AcceptCall(a) => FollowerMatched(s, a, CommitReq(a.ballot));
    case CommitCall(c) => FollowerMatched(s, AcceptReq(c.ballot, NO_REQUEST), c);
    case Decision(tid, commit) =>
      if !s.disconnected && tid in s.books.pending {
        AppendMatched(s.books, Outcome(s.books.pending, tid, commit), DecideBooks(s.shard, s.books, tid, commit));
      } else {
        assert s.books.pending - {tid} == s.books.pending || s.disconnected;
      }
    case _ =>
  }

  /** Without synchronisation, no stream of decisions adds more than one outcome per PREPARED entry. */
  lemma {:induction false} OneOutcomePerPrepare(s: Server, es: seq<Event>)
    requires s.books.log == [] && s.books.pending == map[]
    requires forall i :: 0 <= i < |es| ==> GenuineTids(es[i]) && Unsynced(es[i])
    ensures OutcomesMatched(HandleAll(s, es).books)
    decreases |es|
  {
    if es != [] {
      OneOutcomePerPrepare(s, es[..|es| - 1]);
      HandleMatched(HandleAll(s, es[..|es| - 1]), es[|es| - 1]);
    }
  }

  // ---------- the WAL index is a function of the log ----------

  function PendingOf(log: seq<Entry>): map<int, Entry>
    decreases |log|
  {
    if log == [] then map[] else Index(PendingOf(log[..|log| - 1]), log[|log| - 1])
  }

  /** Every request the client issued, by tid. */
  type Requests = map<int, TransferReq>

  ghost predicate Issued(reqs: Requests, req: TransferReq) {
    req.tid in reqs && reqs[req.tid] == req && req.tid != -1
  }

  ghost predicate KnownEntry(reqs: Requests, shard: Shard, e: Entry) {
    && Issued(reqs, TransferReq(e.tid, e.txn))
    && (e.status == Prepared ==> e.kind == Cross && shard.Crosses(e.txn))
  }

  /** Requests keep their content, and the client picks Transfer exactly for intra-shard ones. */
  ghost predicate KnownEvent(reqs: Requests, shard: Shard, e: Event) {
    match e
    case Run(req, cross) => Issued(reqs, req) && cross == shard.Crosses(req.txn)
    case AcceptCall(a) => Issued(reqs, a.r)
    case SyncReply(_, r) => forall i :: 0 <= i < |r.logs| ==> KnownEntry(reqs, shard, r.logs[i])
    case _ => true
  }

  ghost predicate Indexed(reqs: Requests, shard: Shard, books: Books) {
    IndexedLog(reqs, shard, books.log, books.pending)
  }

  ghost predicate IndexedLog(reqs: Requests, shard: Shard, log: seq<Entry>, pending: map<int, Entry>) {
    && (forall i :: 0 <= i < |log| ==> KnownEntry(reqs, shard, log[i]))
    && (forall t :: t in pending ==> KnownEntry(reqs, shard, pending[t]) && pending[t].tid == t && pending[t].status == Prepared)
    && pending == PendingOf(log)
  }

  ghost predicate Tracked(reqs: Requests, s: Server) {
    && s.shard.Sound()
    && Indexed(reqs, s.shard, s.books)
    && (s.acceptor.acceptVal == NO_REQUEST || Issued(reqs, s.acceptor.acceptVal))
  }

  lemma AppendIndexed(reqs: Requests, shard: Shard, books: Books, e: Entry, after: Books)
    requires Indexed(reqs, shard, books) && KnownEntry(reqs, shard, e)
    requires after.log == books.log + [e] && after.pending == Index(books.pending, e)
    ensures Indexed(reqs, shard, after)
  {
  }

  lemma CommitIndexed(reqs: Requests, shard: Shard, books: Books, req: TransferReq, ballot: Ballot)
    requires Indexed(reqs, shard, books) && Issued(reqs, req) && !shard.Crosses(req.txn)
    ensures Indexed(reqs, shard, books.Commit(req, ballot))
  {
  }

  lemma PrepareIndexed(reqs: Requests, shard: Shard, books: Books, req: TransferReq, ballot: Ballot)
    requires Indexed(reqs, shard, books) && Issued(reqs, req) && shard.Crosses(req.txn)
    ensures Indexed(reqs, shard, books.Prepare(req, ballot))
  {
  }

  lemma {:induction false} ReplayAllIndexed(reqs: Requests, shard: Shard, books: Books, es: seq<Entry>)
    requires Indexed(reqs, shard, books)
    requires forall i :: 0 <= i < |es| ==> KnownEntry(reqs, shard, es[i])
    ensures Indexed(reqs, shard, ReplayAll(shard, books, es))
    decreases |es|
  {
    if es != [] {
      var mid := ReplayAll(shard, books, es[..|es| - 1]);
      ReplayAllIndexed(reqs, shard, books, es[..|es| - 1]);
      AppendIndexed(reqs, shard, mid, es[|es| - 1], Replay(shard, mid, es[|es| - 1]));
    }
  }

  lemma RunTracked(reqs: Requests, s: Server, req: TransferReq, cross: bool)
    requires Tracked(reqs, s) && Issued(reqs, req) && cross == s.shard.Crosses(req.txn)
    ensures Tracked(reqs, RunPaxos(s, req, cross).s)
  {
    var after := RunPaxos(s, req, cross).s;
    var locked := s.books.Lock(s.shard.Accounts(req.txn) + {req.txn.receiver});
    var unlocked := s.books.Unlock({req.txn.sender, req.txn.receiver});
    assert Indexed(reqs, s.shard, after.books) by {
      if after.books.log == s.books.log {
      } else if cross {
        PrepareIndexed(reqs, s.shard, locked, req, s.acceptor.promisedNum);
      } else {
        CommitIndexed(reqs, s.shard, unlocked, req, s.acceptor.acceptNum);
      }
    }
  }

  lemma AcceptTracked(reqs: Requests, s: Server, a: AcceptReq)
    requires Tracked(reqs, s) && Issued(reqs, a.r)
    ensures Tracked(reqs, OnAccept(s, a).0)
  {
  }

  lemma CommitTracked(reqs: Requests, s: Server, c: CommitReq)
    requires Tracked(reqs, s)
    ensures Tracked(reqs, OnCommit(s, c))
  {
  }

  lemma HandleTracked(reqs: Requests, s: Server, e: Event)
    requires Tracked(reqs, s) && KnownEvent(reqs, s.shard, e)
    ensures Tracked(reqs, Handle(s, e))
  {
    match e
    case Run(req, cross) => RunTracked(reqs, s, req, cross);
    case AcceptCall(a) => AcceptTracked(reqs, s, a);
    case CommitCall(c) => CommitTracked(reqs, s, c);
    case SyncReply(st, r) => if st == Ok && r.ack { ReplayAllIndexed(reqs, s.shard, s.books, r.logs); }
    case Decision(tid, commit) =>
      if tid in s.books.pending {
        AppendIndexed(reqs, s.shard, s.books, Outcome(s.books.pending, tid, commit), DecideBooks(s.shard, s.books, tid, commit));
      } else {
        UnknownDecisionChangesNothing(s, tid, commit);
      }
    case _ =>
  }

  lemma {:induction false} IndexFollowsLog(reqs: Requests, s: Server, es: seq<Event>)
    requires s.shard.Sound() && s.books.log == [] && s.books.pending == map[] && s.acceptor.acceptVal == NO_REQUEST
    requires forall i :: 0 <= i < |es| ==> KnownEvent(reqs, s.shard, es[i])
    ensures Tracked(reqs, HandleAll(s, es)) && HandleAll(s, es).shard == s.shard
    decreases |es|
  {
    if es != [] {
      IndexFollowsLog(reqs, s, es[..|es| - 1]);
      HandleTracked(reqs, HandleAll(s, es[..|es| - 1]), es[|es| - 1]);
    }
  }

  // ---------- synchronisation is exact ----------

  /** A requester whose log is a prefix of the responder's ends up an exact copy of it. */
  lemma SyncExact(reqs: Requests, asker: Server, peer: Server)
    requires asker.shard == peer.shard
    requires Tracked(reqs, asker) && RefinesLog(asker.shard, asker.books)
    requires Tracked(reqs, peer) && RefinesLog(peer.shard, peer.books)
    requires asker.books.lastInserted == |asker.books.log| - 1 && asker.books.log <= peer.books.log
    requires OnSync(peer, SyncReq(asker.books.lastInserted)).ack
    ensures
      var after := OnSyncReply(asker, Ok, OnSync(peer, SyncReq(asker.books.lastInserted)));
      && after.books.log == peer.books.log
      && after.books.pending == peer.books.pending
      && after.books.lastInserted == |after.books.log| - 1
      && !after.inSync
      && forall c :: asker.shard.Owns(c) ==> after.books.Balance(c) == peer.books.Balance(c)
  {
    var res := OnSync(peer, SyncReq(asker.books.lastInserted));
    assert res.logs == peer.books.log[|asker.books.log|..];
    HandleTracked(reqs, asker, SyncReply(Ok, res));
    HandleRefines(asker, SyncReply(Ok, res));
    ReplayAllRefines(asker.shard, asker.books, res.logs);
    assert asker.books.log + res.logs == peer.books.log;
  }
}
