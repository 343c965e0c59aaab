/**
 What an answer stands for. A transfer is acknowledged exactly if its call has logged it as
 committed, a prepare request never commits anything, a refusal has a reason, and a decision that
 reaches a server through its call does there what its name says.
 */
module Answers {
  import opened Types
  import opened ServerModel
  import opened Ledger
  import opened Participant
  import opened Conservation
  import opened Locking
  import opened InCalls
  import Cluster

  // ---------- one call of the proposer ----------

  /** An answer ends the round and is about the request itself; without one either a phase opens or nothing happens. */
  lemma AnswerEndsRound(l: Server, req: TransferReq, cross: bool)
    ensures
      var ran := RunPaxos(l, req, cross);
      match ran.answer
      case None =>
        && (ran.s == l <==> ran.out == Silent)
        && (ran.out != Silent ==> !ran.out.Commits? && Waiting(ran.s))
      case Some(res) =>
        && res.tid == req.tid && ran.s.round.tid == -1 && !ran.s.round.running && !Waiting(ran.s)
        && (res.ack <==> ran.out.Commits?) && (!res.ack ==> ran.out == Silent)
  {
  }

  /** Within the shard: an ack comes with one COMMITTED entry of this very transfer, and nothing else logs or moves money. */
  lemma TransferLogs(l: Server, req: TransferReq)
    ensures
      var ran := RunPaxos(l, req, false);
      if ran.answer == Some(TransferRes(true, req.tid)) then
        exists ballot :: && ran.s.books.log == l.books.log + [Entry(req.tid, ballot, req.txn, Intra, Committed)]
                         && ran.s.books.lastInserted == |l.books.log| && ran.s.books.lastInsertedBallot == ballot
      else ran.s.books.log == l.books.log && ran.s.books.balances == l.books.balances
  {
  }

  /** Across shards: a PREPARED entry of this very transfer exactly when the accept phase opens, and no money moves. */
  lemma PrepareLogs(l: Server, req: TransferReq)
    ensures
      var ran := RunPaxos(l, req, true);
      && ran.s.books.balances == l.books.balances
      && (if ran.out.Accepts? then
            var e := Entry(req.tid, ran.out.a.ballot, req.txn, Cross, Prepared);
            && ran.s.books.log == l.books.log + [e] && ran.out.a.r == req && ran.s.books.pending == l.books.pending[req.tid := e]
            && ran.s.books.lastInserted == |l.books.log| && ran.s.books.lastInsertedBallot == ran.out.a.ballot
          else ran.s.books.log == l.books.log && ran.s.books.pending == l.books.pending)
  {
  }

  /**
   With a promise majority, exactly the transfers are refused that share an own account with a transfer
   under way or whose own sender cannot pay.
   */
  lemma RefusedExactly(reqs: Requests, l: Server, req: TransferReq, cross: bool)
    requires Locked(reqs, l) && Issued(reqs, req)
    requires !l.inSync && l.round.awaitPrepare && l.round.prepareOks >= MAJORITY && l.round.tid == req.tid
    ensures
      RunPaxos(l, req, cross).answer.Some? <==>
        || (exists t :: t in Holders(reqs, l) && !(Held(reqs, l.shard, t) !! Held(reqs, l.shard, req.tid)))
        || (l.shard.Owns(req.txn.sender) && l.books.Balance(req.txn.sender) < req.txn.amount)
  {
    var own := Held(reqs, l.shard, req.tid);
    assert Conflicts(l, req.txn) <==>
           (exists c :: c in own && c in l.books.locks) ||
           (l.shard.Owns(req.txn.sender) && l.books.Balance(req.txn.sender) < req.txn.amount);
    if c :| c in own && c in l.books.locks {
      assert l.shard.Owns(c);
    }
    if t :| t in Holders(reqs, l) && !(Held(reqs, l.shard, t) !! own) {
      var c :| c in Held(reqs, l.shard, t) && c in own;
      assert l.shard.Owns(c);
    }
  }

  /**
   The proposer treats itself as it expects an acceptor to: whatever it broadcasts, it promises, accepts and
   concludes itself. On the books it differs from a follower in the lock on a foreign receiver only.
   */
  lemma OwnAcceptor(l: Server, req: TransferReq, cross: bool)
    requires !l.disconnected && (cross <==> l.shard.Owns(req.txn.sender) != l.shard.Owns(req.txn.receiver))
    ensures
      var ran := RunPaxos(l, req, cross);
      match ran.out
      case Silent => ran.s.acceptor == l.acceptor
      case Prepares(p) => OnPrepare(l, p).res.ack && ran.s.acceptor == OnPrepare(l, p).s.acceptor && ran.s.books == l.books
      case Accepts(a) =>
        l.acceptor.promised ==>
          && OnAccept(l, a).1.ack && ran.s.acceptor == OnAccept(l, a).0.acceptor
          && ran.s.books == OnAccept(l, a).0.books.Lock({req.txn.receiver})
      case Commits(c) =>
        l.acceptor.promisedNum == l.acceptor.acceptNum && l.acceptor.acceptVal == req ==>
          && ran.s.acceptor == OnCommit(l, c).acceptor
          && (!cross && l.shard.Owns(req.txn.sender) ==> ran.s.books == OnCommit(l, c).books)
  {
    if !cross && l.shard.Owns(req.txn.sender) {
      assert l.books.locks - l.shard.Accounts(req.txn) == l.books.locks - {req.txn.sender, req.txn.receiver};
    }
    assert l.books.locks + (l.shard.Accounts(req.txn) + {req.txn.receiver}) ==
           l.books.locks + l.shard.Accounts(req.txn) + {req.txn.receiver};
  }

  // ---------- replies to the proposer ----------

  /** A reply to the current Prepare counts once, for or against; a deadline counts against; anything else counts nothing. */
  lemma PrepareReplyCounts(l: Server, status: RpcStatus, sent: PrepareReq, res: PrepareRes)
    ensures
      var (after, sync) := OnPrepareReply(l, status, sent, res);
      var heard := l.round.awaitPrepare && status == Ok && Mine(l, res.ballot, l.acceptor.promisedNum);
      var expired := l.round.awaitPrepare && status == DeadlineExceeded && Mine(l, sent.ballot, l.acceptor.promisedNum);
      && after.books == l.books && after.round.awaitAccept == l.round.awaitAccept
      && (!heard && !expired ==> after == l && sync == None)
      && after.round.prepareOks == l.round.prepareOks + (if heard && res.ack then 1 else 0)
      && after.round.prepareFails == l.round.prepareFails + (if expired || (heard && !res.ack) then 1 else 0)
  {
  }

  /** The same for Accepts. */
  lemma AcceptReplyCounts(l: Server, status: RpcStatus, sent: AcceptReq, res: AcceptRes)
    ensures
      var heard := l.round.awaitAccept && status == Ok && Mine(l, res.ballot, l.acceptor.acceptNum);
      var expired := l.round.awaitAccept && status == DeadlineExceeded && Mine(l, sent.ballot, l.acceptor.acceptNum);
      OnAcceptReply(l, status, sent, res) ==
      l.(round := l.round.(acceptOks := l.round.acceptOks + (if heard && res.ack then 1 else 0),
                           acceptFails := l.round.acceptFails + (if expired || (heard && !res.ack) then 1 else 0)))
  {
  }

  /** The ack of one follower decides either phase of the proposer in its cluster of three. */
  lemma OneFollowerIsEnough(l: Server, req: TransferReq, cross: bool, p: PrepareReq)
    requires RunPaxos(l, req, cross).out == Prepares(p)
    ensures
      var promised := OnPrepareReply(RunPaxos(l, req, cross).s, Ok, p, PrepareRes(true, p.ballot, None, None, None, None)).0;
      var proposed := RunPaxos(promised, req, cross);
      && (proposed.out.Accepts? <==> !Conflicts(l, req.txn))
      && (proposed.out.Accepts? ==>
            var voted := OnAcceptReply(proposed.s, Ok, proposed.out.a, AcceptRes(true, proposed.out.a.ballot));
            RunPaxos(voted, req, cross).answer == Some(TransferRes(true, req.tid)))
  {
  }

  /** Two expired or refused calls end either phase with a refusal; within the shard both accounts are then free. */
  lemma TwoFailuresRefuse(l: Server, req: TransferReq, cross: bool, p: PrepareReq, a: AcceptReq)
    requires RunPaxos(l, req, cross).out in {Prepares(p), Accepts(a)}
    ensures
      var ran := RunPaxos(l, req, cross);
      && (ran.out == Prepares(p) ==>
            var failed := Fails(ran.s, p);
            var again := RunPaxos(failed, req, cross);
            again.answer == Some(TransferRes(false, req.tid)) && again.s.books == l.books)
      && (ran.out == Accepts(a) && a.ballot.serverId == l.id ==>
            var again := RunPaxos(AcceptFails(ran.s, a), req, cross);
            && again.answer == Some(TransferRes(false, req.tid)) && again.s.books.balances == l.books.balances
            && (!cross ==> again.s.books.log == l.books.log &&
                           forall c :: c in again.s.books.locks <==> c in l.books.locks && c !in {req.txn.sender, req.txn.receiver}))
  {
  }

  const EXPIRED := PrepareRes(false, NO_BALLOT, None, None, None, None)

  /** One call expires, one is refused without a reason. */
  function Fails(l: Server, p: PrepareReq): Server {
    OnPrepareReply(OnPrepareReply(l, DeadlineExceeded, p, EXPIRED).0, Ok, p, EXPIRED.(ballot := p.ballot)).0
  }

  function AcceptFails(l: Server, a: AcceptReq): Server {
    OnAcceptReply(OnAcceptReply(l, DeadlineExceeded, a, AcceptRes(false, NO_BALLOT)), Ok, a, AcceptRes(false, a.ballot))
  }

  /** A follower whose number is as high rejects the Prepare, and the proposer then bids above that follower. */
  lemma BidsHigher(l: Server, req: TransferReq, cross: bool, p: PrepareReq, f: Server)
    requires RunPaxos(l, req, cross).out == Prepares(p)
    requires !f.disconnected && f.acceptor.ballotNum >= p.ballot.num && f.books.lastInserted <= l.books.lastInserted
    ensures
      var reply := OnPrepare(f, p);
      var (after, sync) := OnPrepareReply(RunPaxos(l, req, cross).s, Ok, p, reply.res);
      var again := RunPaxos(after, req, cross);
      && !reply.res.ack && reply.s == f && sync == None
      && again.out == Prepares(PrepareReq(Ballot(f.acceptor.ballotNum + 1, l.id), l.books.lastInserted))
      && (f.books.lastInserted == l.books.lastInserted ==> OnPrepare(f, again.out.p).res.ack)
  {
  }

  /** A proposer that lags behind asks that follower for what follows its mark; from an extending log it gets all of it. */
  lemma ProposerCatchesUp(l: Server, req: TransferReq, cross: bool, p: PrepareReq, f: Server)
    requires RunPaxos(l, req, cross).out == Prepares(p) && !f.disconnected
    requires f.books.lastInserted > l.books.lastInserted
    ensures
      var reply := OnPrepare(f, p);
      var (waiting, sync) := OnPrepareReply(RunPaxos(l, req, cross).s, Ok, p, reply.res);
      && !reply.res.ack && reply.res.serverId == Some(f.id) && reply.s == f
      && RunPaxos(waiting, req, cross) == Ran(waiting, Silent, None) && sync == Some(SyncReq(l.books.lastInserted))
      && var after := OnSyncReply(waiting, Ok, OnSync(f, sync.value));
         l.books.log <= f.books.log && l.books.lastInserted == |l.books.log| - 1 && f.books.lastInserted == |f.books.log| - 1 ==>
         && after.books.log == f.books.log && after.books.lastInserted == f.books.lastInserted
         && after.books.lastInsertedBallot == f.books.lastInsertedBallot
         && RunPaxos(after, req, cross).out ==
            Prepares(PrepareReq(Ballot(f.books.lastInsertedBallot.num + 1, l.id), f.books.lastInserted))
  {
    hide ReplayAll;
    if l.books.log <= f.books.log {
      var more := f.books.log[|l.books.log|..];
      Replayed(l.shard, l.books, more);
      assert l.books.log + more == f.books.log;
    }
  }

  // ---------- a call over its whole life ----------

  /** How many entries of a transaction and status the call's own steps have appended, whatever else ran in between. */
  function Appended(r: Request, s: Server, ticks: seq<Tick>, tid: int, status: Status): int
    decreases |ticks|
  {
    if ticks == [] then 0
    else
      var before := Advance(Life(PROCESS, r, []), s, ticks[..|ticks| - 1]).1;
      var after := Advance(Life(PROCESS, r, []), s, ticks).1;
      Appended(r, s, ticks[..|ticks| - 1], tid, status) +
      (if ticks[|ticks| - 1].Own? then Count(after.books.log, tid, status) - Count(before.books.log, tid, status) else 0)
  }

  function Answered(ack: bool, tid: int): seq<Response> {
    [Transferred(TransferRes(ack, tid))]
  }

  lemma LastTick(r: Request, s: Server, ticks: seq<Tick>)
    requires ticks != []
    ensures
      var (l, at) := Advance(Life(PROCESS, r, []), s, ticks[..|ticks| - 1]);
      Advance(Life(PROCESS, r, []), s, ticks) ==
      match ticks[|ticks| - 1]
      case Own => Fire(l, at)
      case Elsewhere(e) => (l, Handle(at, e))
  {
  }

  lemma FireTransfer(l: Life, s: Server, t: TransferReq)
    requires l.request == TransferRpc(t) && l.status in {PROCESS, RETRY} && l.answers == []
    ensures
      var (l', s') := Fire(l, s);
      && (l'.answers == [] || l'.answers == Answered(true, t.tid) || l'.answers == Answered(false, t.tid))
      && Count(s'.books.log, t.tid, Committed) ==
         Count(s.books.log, t.tid, Committed) + (if l'.answers == Answered(true, t.tid) then 1 else 0)
  {
    hide RunPaxos, Count;
    var ran := RunPaxos(s, t, false);
    AnswerEndsRound(s, t, false);
    TransferLogs(s, t);
    if ran.answer == Some(TransferRes(true, t.tid)) {
      var ballot :| ran.s.books.log == s.books.log + [Entry(t.tid, ballot, t.txn, Intra, Committed)];
      CountAppend(s.books.log, Entry(t.tid, ballot, t.txn, Intra, Committed), t.tid, Committed);
    } else {
      assert Answered(false, t.tid)[0] != Answered(true, t.tid)[0];
    }
  }

  /**
   The client of an intra-shard transfer gets one answer at most, under its own id, and it is an ack exactly
   if the call's steps have logged the transfer as committed, which they do once at most.
   */
  lemma {:induction false} AckIsCommit(t: TransferReq, s: Server, ticks: seq<Tick>)
    ensures
      var l := Advance(Life(PROCESS, TransferRpc(t), []), s, ticks).0;
      && (l.answers == [] || l.answers == Answered(true, t.tid) || l.answers == Answered(false, t.tid))
      && Appended(TransferRpc(t), s, ticks, t.tid, Committed) == if l.answers == Answered(true, t.tid) then 1 else 0
    decreases |ticks|
  {
    if ticks != [] {
      hide Fire, Handle, Count, Advance;
      var (r, before) := (TransferRpc(t), ticks[..|ticks| - 1]);
      AckIsCommit(t, s, before);
      AnsweredOnce(r, s, before);
      LastTick(r, s, ticks);
      var (l, at) := Advance(Life(PROCESS, r, []), s, before);
      if ticks[|ticks| - 1].Own? {
        if l.status in {PROCESS, RETRY} {
          FireTransfer(l, at, t);
        } else {
          FireEnded(l, at);
        }
      }
    } else {
      assert Advance(Life(PROCESS, TransferRpc(t), []), s, []) == (Life(PROCESS, TransferRpc(t), []), s);
    }
  }

  lemma FireEnded(l: Life, s: Server)
    requires l.status in {FINISH, DELETED}
    ensures Fire(l, s) == (l.(status := DELETED), s)
  {
  }

  /** Every other step of the server: genuine ids, and this transaction is in no other call. */
  ghost predicate Apart(t: TransferReq, ticks: seq<Tick>) {
    forall i :: 0 <= i < |ticks| && ticks[i].Elsewhere? ==>
      GenuineTids(ticks[i].e) && (ticks[i].e.Run? ==> ticks[i].e.req.tid != t.tid)
  }

  predicate InAccept(s: Server, tid: int) {
    s.round.awaitAccept && s.round.tid == tid
  }

  /** What is kept of a prepare request: it has logged PREPARED once if it is in the accept phase or was acknowledged. */
  ghost predicate PreparedOnce(l: Life, s: Server, t: TransferReq, prepared: int) {
    && Orderly(s.round) && l.request == TpcPrepareRpc(t)
    && (l.answers == [] || l.answers == Answered(true, t.tid) || l.answers == Answered(false, t.tid))
    && (l.answers == [] ==> prepared == if InAccept(s, t.tid) then 1 else 0)
    && (l.answers != [] ==> !InAccept(s, t.tid) && 0 <= prepared <= 1)
    && (l.answers == Answered(true, t.tid) ==> prepared == 1)
    && (l.status in {FINISH, DELETED} <==> l.answers != []) && l.status != CREATE
  }

  lemma FirePrepare(l: Life, s: Server, t: TransferReq, prepared: int)
    requires PreparedOnce(l, s, t, prepared) && t.tid != -1 && l.status in {PROCESS, RETRY}
    ensures
      var (l', s') := Fire(l, s);
      && PreparedOnce(l', s', t, prepared + Count(s'.books.log, t.tid, Prepared) - Count(s.books.log, t.tid, Prepared))
      && forall tid :: Count(s'.books.log, tid, Committed) == Count(s.books.log, tid, Committed)
  {
    hide RunPaxos, Count;
    var ran := RunPaxos(s, t, true);
    AnswerEndsRound(s, t, true);
    PrepareLogs(s, t);
    RunCases(s, t, true);
    assert Answered(false, t.tid)[0] != Answered(true, t.tid)[0];
    if ran.out.Accepts? {
      var e := PreparedEntry(t, ran.out.a.ballot);
      CountAppend(s.books.log, e, t.tid, Prepared);
      forall tid ensures Count(s.books.log + [e], tid, Committed) == Count(s.books.log, tid, Committed) {
        CountAppend(s.books.log, e, tid, Committed);
      }
    }
  }

  /** No other handler opens or closes the accept phase of this transaction. */
  lemma OthersKeepPhase(s: Server, e: Event, tid: int)
    requires Orderly(s.round) && GenuineTids(e) && (e.Run? ==> e.req.tid != tid)
    ensures InAccept(Handle(s, e), tid) <==> InAccept(s, tid)
  {
  }

  /**
   The client of a cross-shard prepare gets one answer at most. An ack means that the call's steps have logged
   the transfer as prepared, exactly once; they log nothing as committed.
   */
  lemma {:induction false} AckIsPrepared(t: TransferReq, s: Server, ticks: seq<Tick>)
    requires Orderly(s.round) && !InAccept(s, t.tid) && t.tid != -1 && Apart(t, ticks)
    ensures
      var (l, after) := Advance(Life(PROCESS, TpcPrepareRpc(t), []), s, ticks);
      PreparedOnce(l, after, t, Appended(TpcPrepareRpc(t), s, ticks, t.tid, Prepared))
    ensures forall tid :: Appended(TpcPrepareRpc(t), s, ticks, tid, Committed) == 0
    decreases |ticks|
  {
    if ticks != [] {
      hide Fire, Handle, Count, Advance, Orderly, InAccept;
      var (r, before) := (TpcPrepareRpc(t), ticks[..|ticks| - 1]);
      assert forall i :: 0 <= i < |before| ==> before[i] == ticks[i];
      AckIsPrepared(t, s, before);
      LastTick(r, s, ticks);
      var (l, at) := Advance(Life(PROCESS, r, []), s, before);
      match ticks[|ticks| - 1]
      case Own =>
        if l.status in {PROCESS, RETRY} {
          FirePrepare(l, at, t, Appended(r, s, before, t.tid, Prepared));
        } else {
          FireEnded(l, at);
        }
      case Elsewhere(e) =>
        HandleOrderly(at, e);
        OthersKeepPhase(at, e, t.tid);
    } else {
      assert Advance(Life(PROCESS, TpcPrepareRpc(t), []), s, []) == (Life(PROCESS, TpcPrepareRpc(t), []), s);
    }
  }

  // ---------- what the other calls do at a server ----------

  /** Each request runs the handler from which the state machines take their steps. */
  function EventOf(s: Server, r: Request): Event {
    match r
    case TpcPrepareRpc(t) => Run(t, true)
    case TransferRpc(t) => Run(t, false)
    case TpcCommitRpc(tid) => Decision(tid, true)
    case TpcAbortRpc(tid) => Decision(tid, false)
    case PrepareRpc(p) => PrepareCall(p)
    case AcceptRpc(a) => AcceptCall(a)
    case CommitRpc(c) => CommitCall(c)
    case SyncRpc(y) => SyncCall(y)
    case DisconnectRpc(servers) => Disconnect(s.id in servers)
    case BalanceRpc(_) => Disconnect(s.disconnected)
    case LogsRpc => Disconnect(s.disconnected)
  }

  lemma CallsAreEvents(s: Server, r: Request)
    ensures Serve(s, r).s == Handle(s, EventOf(s, r))
  {
  }

  /** A step of a call runs the handler once while there is no answer, and nothing afterwards. */
  lemma StepIsEvent(l: Life, s: Server)
    ensures Fire(l, s).1 == if l.status in {PROCESS, RETRY} then Handle(s, EventOf(s, l.request)) else s
  {
  }

  /** A delivered message is a call: what the state machine records as state and reply is what the call leaves and answers. */
  lemma DeliveryIsCall(p: Cluster.Peer)
    requires p.link != []
    ensures
      var after := Cluster.Receive(p);
      && after.link == p.link[1..] && after.calls == p.calls
      && match p.link[0]
         case MPrepare(r) =>
           var served := Serve(p.s, PrepareRpc(r));
           && served.response.Some? && served.response.value.PrepareAnswer? && after.s == served.s
           && after.replies == p.replies + {Cluster.ReplyPrepare(r, served.response.value.p)}
         case MAccept(a) =>
           var served := Serve(p.s, AcceptRpc(a));
           && served.response.Some? && served.response.value.AcceptAnswer? && after.s == served.s
           && after.replies == p.replies + {Cluster.ReplyAccept(a, served.response.value.a)}
         case MCommit(c) => after.s == Serve(p.s, CommitRpc(c)).s && after.replies == p.replies
  {
  }

  /** And a request is one: the state machine sends to both followers what the call sends out. */
  lemma RequestIsCall(c: Cluster.State, req: TransferReq, cross: bool)
    ensures
      var served := Serve(c.lead, if cross then TpcPrepareRpc(req) else TransferRpc(req));
      Cluster.Next(c, Cluster.Request(req, cross)) ==
      Cluster.State(served.s, Cluster.Send(c.a, served.out), Cluster.Send(c.b, served.out))
  {
  }

  /**
   A follower that lags behind asks for what follows its mark. With the answer it holds the proposer's log
   and promises the number it could not promise before.
   */
  lemma CatchesUp(l: Server, f: Server, p: PrepareReq)
    requires f.books.log <= l.books.log && f.books.lastInserted == |f.books.log| - 1
    requires p.lastInserted == l.books.lastInserted == |l.books.log| - 1 > f.books.lastInserted
    requires !f.disconnected && p.ballot.num > f.acceptor.ballotNum && p.ballot.num > l.books.lastInsertedBallot.num
    ensures
      var served := Serve(f, PrepareRpc(p));
      && served.response.value.PrepareAnswer? && !served.response.value.p.ack
      && served.s == f.(inSync := true) && served.sync == Some(SyncReq(f.books.lastInserted))
      && var after := OnSyncReply(served.s, Ok, OnSync(l, served.sync.value));
         && after.books.log == l.books.log && after.books.lastInserted == |after.books.log| - 1 && !after.inSync
         && after.acceptor.ballotNum == l.books.lastInsertedBallot.num
         && after.books.lastInsertedBallot == l.books.lastInsertedBallot
         && var again := Serve(after, PrepareRpc(p));
            again.response.value.PrepareAnswer? && again.response.value.p.ack && again.sync == None
  {
    hide ReplayAll;
    var more := l.books.log[|f.books.log|..];
    Replayed(f.shard, f.books, more);
    assert f.books.log + more == l.books.log;
  }

  /**
   A commit for a pending transfer logs that transfer as committed and moves its money on the own accounts,
   an abort logs it as aborted and moves nothing; both conclude it and release its own accounts only.
   */
  lemma DecisionServed(s: Server, tid: int, client: int)
    requires !s.disconnected && tid in s.books.pending && s.books.pending[tid].tid == tid && tid != -1
    ensures
      var e := s.books.pending[tid];
      var (committed, aborted) := (Serve(s, TpcCommitRpc(tid)).s.books, Serve(s, TpcAbortRpc(tid)).s.books);
      && committed.log == s.books.log + [e.(status := Committed)]
      && aborted.log == s.books.log + [e.(status := Aborted)]
      && committed.Balance(client) ==
         s.books.Balance(client) + (if s.shard.Owns(client) then Effect(e.(status := Committed), client) else 0)
      && aborted.Balance(client) == s.books.Balance(client)
      && committed.pending == aborted.pending == s.books.pending - {tid}
      && (client in committed.locks <==> client in aborted.locks)
      && (client in committed.locks <==>
          client in s.books.locks && !(s.shard.Owns(client) && client in {e.txn.sender, e.txn.receiver}))
  {
  }

  /** A decision for a transfer that is not pending, or at a server that is cut off, is answered and changes nothing. */
  lemma IdleDecisionServed(s: Server, tid: int)
    requires s.shard.Sound() && (s.disconnected || tid !in s.books.pending)
    ensures Serve(s, TpcCommitRpc(tid)).s == Serve(s, TpcAbortRpc(tid)).s == s
  {
    if !s.disconnected {
      UnknownDecisionChangesNothing(s, tid, true);
      UnknownDecisionChangesNothing(s, tid, false);
    }
  }

  /** A server cut off by name takes part in nothing: it refuses every promise and vote, and stays as it is. */
  lemma CutOff(s: Server, servers: seq<int>, r: Request)
    requires r.PrepareRpc? || r.AcceptRpc? || r.CommitRpc? || r.TpcCommitRpc? || r.TpcAbortRpc?
    ensures
      var after := Serve(s, DisconnectRpc(servers)).s;
      && after == s.(disconnected := after.disconnected) && (after.disconnected <==> s.id in servers)
      && (s.id in servers ==>
            && Serve(after, r).s == after
            && (r.PrepareRpc? ==> Serve(after, r).response == Some(PrepareAnswer(PrepareRes(false, r.prepare.ballot, None, None, None, None))))
            && (r.AcceptRpc? ==> Serve(after, r).response == Some(AcceptAnswer(AcceptRes(false, r.accept.ballot)))))
  {
  }

  /** What a client is told about an own account is what the log it is shown adds up to. */
  lemma BalanceMatchesLogs(s: Server, client: int)
    requires RefinesLog(s.shard, s.books) && s.shard.Owns(client)
    ensures
      var (balance, logs) := (Serve(s, BalanceRpc(client)).response, Serve(s, LogsRpc).response);
      && balance.Some? && logs.Some? && balance.value.BalanceIs? && logs.value.LogsAre?
      && balance.value.amount == OPENING + Net(logs.value.logs, client)
    ensures forall c :: c !in s.books.balances ==> Serve(s, BalanceRpc(c)).response == Some(BalanceIs(0))
  {
  }

  /** The answer to a Sync call makes an asker whose log is a prefix an exact copy. */
  lemma SyncServed(reqs: Requests, asker: Server, peer: Server)
    requires asker.shard == peer.shard
    requires Tracked(reqs, asker) && RefinesLog(asker.shard, asker.books)
    requires Tracked(reqs, peer) && RefinesLog(peer.shard, peer.books)
    requires asker.books.lastInserted == |asker.books.log| - 1 && asker.books.log <= peer.books.log
    ensures
      var response := Serve(peer, SyncRpc(SyncReq(asker.books.lastInserted))).response;
      && response.Some? && response.value.SyncAnswer?
      && (response.value.s.ack <==> peer.books.lastInserted > asker.books.lastInserted)
      && var after := OnSyncReply(asker, Ok, response.value.s);
         && !after.inSync
         && (response.value.s.ack ==> after.books.log == peer.books.log && after.books.pending == peer.books.pending)
         && (!response.value.s.ack ==> after.books == asker.books)
  {
    if peer.books.lastInserted > asker.books.lastInserted {
      hide OnSync, OnSyncReply;
      assert OnSync(peer, SyncReq(asker.books.lastInserted)).ack by { SyncIsTail(peer, asker.books.lastInserted); }
      SyncExact(reqs, asker, peer);
    }
  }

  /** The answer holds exactly the entries after the mark; a mark below -1 or beyond the log yields none. */
  lemma SyncIsTail(peer: Server, mark: int)
    ensures
      var (res, log) := (OnSync(peer, SyncReq(mark)), peer.books.log);
      && (res.ack <==> peer.books.lastInserted > mark)
      && |res.logs| == (if res.ack && -1 <= mark < |log| then |log| - mark - 1 else 0)
      && forall i :: 0 <= i < |res.logs| ==> res.logs[i] == log[mark + 1 + i]
  {
  }
}
