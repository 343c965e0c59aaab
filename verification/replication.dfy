/**
 Replication in one cluster: followers hold prefixes of the leader's log, the leader
 never has to synchronise, and a committed entry is never on the leader alone.
 */
module Replication {
  import opened Types
  import opened ServerModel
  import opened Participant
  import opened Cluster

  // ---------- the leader ----------

  function LeadKey(l: Server): int {
    3 * l.acceptor.ballotNum + (if l.round.awaitPrepare then 0 else if l.round.awaitAccept then 1 else 2)
  }

  ghost predicate LogOk(l: Server) {
    && l.books.lastInserted == |l.books.log| - 1
    && (forall i :: 0 <= i < |l.books.log| ==> 1 <= l.books.log[i].ballot.num <= l.acceptor.ballotNum)
    && (Waiting(l) ==> forall i :: 0 <= i < |l.books.log| ==> l.books.log[i].ballot.num < l.acceptor.ballotNum)
    && (forall i, j :: 0 <= i < j < |l.books.log| ==> l.books.log[i].ballot.num < l.books.log[j].ballot.num)
  }

  ghost predicate LeadOk(reqs: Requests, l: Server) {
    && LogOk(l)
    && Orderly(l.round)
    && !l.inSync
    && l.acceptor.ballotNum >= 0
    && (Waiting(l) ==> l.acceptor.promisedNum == Ballot(l.acceptor.ballotNum, l.id) && l.acceptor.ballotNum >= 1)
    && (l.round.awaitAccept ==>
          && l.acceptor.acceptNum == l.acceptor.promisedNum
          && Routed(reqs, l.shard, l.acceptor.acceptVal) && l.acceptor.acceptVal.tid == l.round.tid)
  }

  // ---------- a follower ----------

  /** The request `r` is what the leader proposed, and if decided committed, under `ballot`. */
  ghost predicate Proposed(l: Server, ballot: Ballot, r: TransferReq) {
    && ballot.serverId == l.id && 1 <= ballot.num <= l.acceptor.ballotNum
    && l.shard.Owns(r.txn.sender) && l.shard.Owns(r.txn.receiver)
    && (forall i :: 0 <= i < |l.books.log| && l.books.log[i].ballot.num == ballot.num ==>
          l.books.log[i] == CommittedEntry(r, ballot))
    && (l.round.awaitAccept && l.acceptor.ballotNum == ballot.num ==> l.acceptor.acceptVal == r)
    && (l.round.awaitPrepare ==> ballot.num < l.acceptor.ballotNum)
  }

  ghost predicate FollowerOk(l: Server, s: Server) {
    && s.shard == l.shard
    && s.books.log <= l.books.log
    && s.books.lastInserted == |s.books.log| - 1
    && 0 <= s.acceptor.acceptNum.num <= s.acceptor.promisedNum.num <= l.acceptor.ballotNum
    && (forall i :: 0 <= i < |l.books.log| && l.books.log[i].ballot.num < s.acceptor.promisedNum.num ==> i < |s.books.log|)
    && (s.acceptor.acceptNum.num >= 1 ==> Proposed(l, s.acceptor.acceptNum, s.acceptor.acceptVal))
    && (s.inSync ==> |s.books.log| < |l.books.log| && s.acceptor.promisedNum.num < l.acceptor.ballotNum)
  }

  ghost predicate MsgOk(l: Server, s: Server, m: Msg) {
    && 3 * s.acceptor.promisedNum.num < m.Key() <= LeadKey(l)
    && (s.inSync ==> s.acceptor.promisedNum.num < m.Num())
    && match m
       case MPrepare(p) =>
         && p.lastInserted < |l.books.log|
         && (forall i :: 0 <= i < |l.books.log| ==> (l.books.log[i].ballot.num < p.ballot.num <==> i <= p.lastInserted))
         && (s.inSync ==> s.books.lastInserted < p.lastInserted)
       case MAccept(a) => Proposed(l, a.ballot, a.r)
       case MCommit(c) =>
         exists i :: 0 <= i < |l.books.log| && l.books.log[i].ballot == c.ballot &&
                     (s.acceptor.promisedNum.num == c.ballot.num ==> |s.books.log| <= i)
  }

  ghost predicate LinkOk(l: Server, s: Server, link: seq<Msg>) {
    && (forall i :: 0 <= i < |link| ==> MsgOk(l, s, link[i]))
    && (forall i, j :: 0 <= i < j < |link| ==> link[i].Key() < link[j].Key())
  }

  ghost predicate ReplyOk(l: Server, s: Server, r: Reply) {
    match r
    case ReplyPrepare(sent, res) =>
      && res.ballot == sent.ballot
      && (res.ack ==> res.ballot.num <= s.acceptor.promisedNum.num)
      && (res.lastInserted.Some? ==> res.lastInserted.value <= l.books.lastInserted)
      && (res.latestBallotNum.Some? ==> res.ballot.num <= res.latestBallotNum.value)
    case ReplyAccept(asked, res) =>
      && res.ballot == asked.ballot
      && (res.ack ==> res.ballot.num <= s.acceptor.acceptNum.num)
  }

  ghost predicate PeerOk(l: Server, p: Peer) {
    && FollowerOk(l, p.s)
    && LinkOk(l, p.s, p.link)
    && (forall r :: r in p.replies ==> ReplyOk(l, p.s, r))
  }

  // ---------- quorums ----------

  /** The follower holds the leader's last entry, in its log or as the value it accepted. */
  ghost predicate HasLast(l: Server, s: Server)
    requires l.books.log != []
  {
    var last := l.books.log[|l.books.log| - 1];
    || s.books.log == l.books.log
    || CommittedEntry(s.acceptor.acceptVal, s.acceptor.acceptNum) == last
  }

  ghost predicate Quorums(l: Server, a: Server, b: Server) {
    && (l.round.awaitPrepare && l.round.prepareOks >= MAJORITY ==>
          a.acceptor.promisedNum.num == l.acceptor.ballotNum || b.acceptor.promisedNum.num == l.acceptor.ballotNum)
    && (l.round.awaitAccept ==> a.books.log == l.books.log || b.books.log == l.books.log)
    && (l.round.awaitAccept && l.round.acceptOks >= MAJORITY ==>
          a.acceptor.acceptNum.num == l.acceptor.ballotNum || b.acceptor.acceptNum.num == l.acceptor.ballotNum)
  }

  /** All entries but the last are on a follower too; some follower holds or accepted the last one. */
  ghost predicate Durable(l: Server, a: Server, b: Server) {
    l.books.log != [] ==>
      && (|a.books.log| >= |l.books.log| - 1 || |b.books.log| >= |l.books.log| - 1)
      && (HasLast(l, a) || HasLast(l, b))
  }

  ghost predicate Inv(reqs: Requests, c: State) {
    && LeadOk(reqs, c.lead)
    && PeerOk(c.lead, c.a) && PeerOk(c.lead, c.b)
    && Quorums(c.lead, c.a.s, c.b.s)
    && Durable(c.lead, c.a.s, c.b.s)
  }

  // ---------- leader steps, seen by one follower ----------

  /** The leader only counts, stops, or adopts a higher number; its log is unchanged. */
  ghost predicate Quiet(l: Server, l': Server) {
    && l'.id == l.id && l'.shard == l.shard && l'.books.log == l.books.log
    && l'.books.lastInserted == l.books.lastInserted
    && LeadKey(l) <= LeadKey(l') && l.acceptor.ballotNum <= l'.acceptor.ballotNum
    && (l'.round.awaitPrepare ==> l.round.awaitPrepare && l'.acceptor.ballotNum == l.acceptor.ballotNum)
    && (l'.round.awaitAccept ==> l.round.awaitAccept && l'.acceptor == l.acceptor)
  }

  lemma QuietPeer(l: Server, l': Server, p: Peer)
    requires PeerOk(l, p) && Quiet(l, l')
    ensures PeerOk(l', p)
  {
  }

  lemma PreparePeer(reqs: Requests, l: Server, l': Server, r: PrepareReq, p: Peer)
    requires LeadOk(reqs, l) && PeerOk(l, p) && !Waiting(l)
    requires r == PrepareReq(Ballot(l.acceptor.ballotNum + 1, l.id), l.books.lastInserted)
    requires l'.id == l.id && l'.shard == l.shard && l'.books == l.books
    requires l'.acceptor.ballotNum == r.ballot.num && l'.round.awaitPrepare && !l'.round.awaitAccept
    ensures PeerOk(l', Send(p, Prepares(r)))
  {
  }

  lemma AcceptPeer(reqs: Requests, l: Server, l': Server, r: AcceptReq, p: Peer)
    requires LeadOk(reqs, l) && PeerOk(l, p) && l.round.awaitPrepare
    requires r.ballot == l.acceptor.promisedNum && Routed(reqs, l.shard, r.r)
    requires l'.id == l.id && l'.shard == l.shard && l'.books.log == l.books.log && l'.books.lastInserted == l.books.lastInserted
    requires l'.acceptor.ballotNum == l.acceptor.ballotNum && l'.acceptor.acceptVal == r.r
    requires l'.round.awaitAccept && !l'.round.awaitPrepare
    ensures PeerOk(l', Send(p, Accepts(r)))
  {
  }

  lemma CommitPeer(reqs: Requests, l: Server, l': Server, p: Peer)
    requires LeadOk(reqs, l) && PeerOk(l, p) && l.round.awaitAccept
    requires l'.id == l.id && l'.shard == l.shard && l'.acceptor.ballotNum == l.acceptor.ballotNum
    requires l'.books.log == l.books.log + [CommittedEntry(l.acceptor.acceptVal, l.acceptor.acceptNum)]
    requires l'.books.lastInserted == |l.books.log| && !Waiting(l')
    ensures PeerOk(l', Send(p, Commits(CommitReq(l.acceptor.acceptNum))))
  {
    var last := |l.books.log|;
    assert forall i :: 0 <= i < last ==> l'.books.log[i] == l.books.log[i];
    assert FollowerOk(l', p.s);
    forall i | 0 <= i < |p.link| ensures MsgOk(l', p.s, p.link[i]) {
      assert MsgOk(l, p.s, p.link[i]);
      if p.link[i].MCommit? {
        var k :| 0 <= k < |l.books.log| && l.books.log[k].ballot == p.link[i].c.ballot &&
                 (p.s.acceptor.promisedNum.num == p.link[i].c.ballot.num ==> |p.s.books.log| <= k);
        assert l'.books.log[k].ballot == p.link[i].c.ballot;
      }
    }
    forall x | x in p.replies ensures ReplyOk(l', p.s, x) {
      assert ReplyOk(l, p.s, x);
    }
    assert l'.books.log[last].ballot == l.acceptor.acceptNum;
    assert MsgOk(l', p.s, MCommit(CommitReq(l.acceptor.acceptNum)));
  }

  // ---------- follower steps ----------

  /** What a follower step may change without harming its link, its replies or the quorums. */
  ghost predicate Grows(l: Server, s: Server, s': Server) {
    && s.books.log <= s'.books.log
    && s.acceptor.promisedNum.num <= s'.acceptor.promisedNum.num
    && s.acceptor.acceptNum.num <= s'.acceptor.acceptNum.num
    && (l.books.log != [] && HasLast(l, s) ==> HasLast(l, s'))
  }

  lemma RepliesKept(l: Server, s: Server, s': Server, replies: set<Reply>)
    requires Grows(l, s, s') && forall r :: r in replies ==> ReplyOk(l, s, r)
    ensures forall r :: r in replies ==> ReplyOk(l, s', r)
  {
  }

  lemma ReceivePrepare(reqs: Requests, l: Server, p: Peer)
    requires LeadOk(reqs, l) && PeerOk(l, p) && p.link != [] && p.link[0].MPrepare?
    ensures PeerOk(l, Receive(p)) && Grows(l, p.s, Receive(p).s)
  {
    hide Proposed;
    var m, s, s' := p.link[0].p, p.s, Receive(p).s;
    assert MsgOk(l, s, p.link[0]);
    assert FollowerOk(l, s');
    assert Grows(l, s, s');
    var rest := p.link[1..];
    forall i | 0 <= i < |rest| ensures MsgOk(l, s', rest[i]) {
      assert MsgOk(l, s, p.link[i + 1]) && p.link[0].Key() < p.link[i + 1].Key();
      if m.lastInserted >= 0 {
        assert l.books.log[m.lastInserted].ballot.num < m.ballot.num;
      }
    }
    RepliesKept(l, s, s', p.replies);
  }

  lemma ReceiveAccept(reqs: Requests, l: Server, p: Peer)
    requires LeadOk(reqs, l) && PeerOk(l, p) && p.link != [] && p.link[0].MAccept?
    ensures PeerOk(l, Receive(p)) && Grows(l, p.s, Receive(p).s)
  {
  }

  lemma ReceiveCommit(reqs: Requests, l: Server, p: Peer)
    requires LeadOk(reqs, l) && PeerOk(l, p) && p.link != [] && p.link[0].MCommit?
    ensures PeerOk(l, Receive(p)) && Grows(l, p.s, Receive(p).s)
  {
  }

  lemma ReceiveKept(reqs: Requests, l: Server, p: Peer)
    requires LeadOk(reqs, l) && PeerOk(l, p) && p.link != []
    ensures PeerOk(l, Receive(p)) && Grows(l, p.s, Receive(p).s)
  {
    match p.link[0]
    case MPrepare(_) => ReceivePrepare(reqs, l, p);
    case MAccept(_) => ReceiveAccept(reqs, l, p);
    case MCommit(_) => ReceiveCommit(reqs, l, p);
  }

  lemma LoseKept(l: Server, p: Peer, at: nat)
    requires PeerOk(l, p) && at < |p.link|
    ensures PeerOk(l, p.(link := p.link[..at] + p.link[at + 1..]))
  {
  }

  /** A successful synchronisation makes the follower's log equal to the leader's. */
  lemma SyncKept(reqs: Requests, l: Server, p: Peer)
    requires LeadOk(reqs, l) && PeerOk(l, p) && p.s.inSync
    ensures
      var s' := OnSyncReply(p.s, Ok, OnSync(l, SyncReq(p.s.books.lastInserted)));
      && s'.books.log == l.books.log
      && PeerOk(l, p.(s := s')) && Grows(l, p.s, s')
  {
    var s := p.s;
    var res := OnSync(l, SyncReq(s.books.lastInserted));
    var s' := OnSyncReply(s, Ok, res);
    Replayed(s.shard, s.books, res.logs);
    assert s.books.log + l.books.log[|s.books.log|..] == l.books.log;
    assert FollowerOk(l, s');
    forall i | 0 <= i < |p.link| ensures MsgOk(l, s', p.link[i]) {
      assert MsgOk(l, s, p.link[i]);
    }
    RepliesKept(l, s, s', p.replies);
  }

  lemma SyncExpireKept(l: Server, p: Peer)
    requires PeerOk(l, p)
    ensures
      var s' := OnSyncReply(p.s, DeadlineExceeded, SyncRes(false, [], NO_BALLOT));
      PeerOk(l, p.(s := s')) && Grows(l, p.s, s')
  {
  }

  lemma PartitionKept(l: Server, p: Peer, me: bool)
    requires PeerOk(l, p)
    ensures PeerOk(l, p.(s := p.s.(disconnected := me))) && Grows(l, p.s, p.s.(disconnected := me))
  {
  }

  /** Replacing a follower by a grown one keeps quorums and durability. */
  lemma GrowKept(reqs: Requests, c: State, first: bool, p: Peer)
    requires Inv(reqs, c) && PeerOk(c.lead, p) && Grows(c.lead, c.At(first).s, p.s)
    ensures Inv(reqs, c.With(first, p))
  {
  }

  // ---------- steps of the whole cluster ----------

  lemma QuietKept(reqs: Requests, c: State, l': Server)
    requires Inv(reqs, c) && Quiet(c.lead, l') && LeadOk(reqs, l') && Quorums(l', c.a.s, c.b.s)
    ensures Inv(reqs, c.(lead := l'))
  {
    QuietPeer(c.lead, l', c.a);
    QuietPeer(c.lead, l', c.b);
  }

  /** The leader after `ran`, and what it sent, in every follower's link. */
  function Spread(c: State, l': Server, out: Broadcast): State {
    State(l', Send(c.a, out), Send(c.b, out))
  }

  lemma PrepareKept(reqs: Requests, c: State, tid: int)
    requires Inv(reqs, c) && !Waiting(c.lead) && tid != -1
    ensures
      var ballot := Ballot(c.lead.acceptor.ballotNum + 1, c.lead.id);
      Inv(reqs, Spread(c, StartPrepare(c.lead, tid, ballot), Prepares(PrepareReq(ballot, c.lead.books.lastInserted))))
  {
    var ballot := Ballot(c.lead.acceptor.ballotNum + 1, c.lead.id);
    var l', r := StartPrepare(c.lead, tid, ballot), PrepareReq(ballot, c.lead.books.lastInserted);
    PreparePeer(reqs, c.lead, l', r, c.a);
    PreparePeer(reqs, c.lead, l', r, c.b);
  }

  lemma AcceptKept(reqs: Requests, c: State, req: TransferReq)
    requires Inv(reqs, c) && Routed(reqs, c.lead.shard, req)
    requires c.lead.round.awaitPrepare && c.lead.round.prepareOks >= MAJORITY && c.lead.round.tid == req.tid
    ensures Inv(reqs, Spread(c, Propose(c.lead, req, false), Accepts(AcceptReq(c.lead.acceptor.promisedNum, req))))
  {
    var l, r := c.lead, AcceptReq(c.lead.acceptor.promisedNum, req);
    var l' := Propose(l, req, false);
    AcceptPeer(reqs, l, l', r, c.a);
    AcceptPeer(reqs, l, l', r, c.b);
    assert LogOk(l') by { assert l'.books.log == l.books.log; }
    assert Quorums(l', c.a.s, c.b.s);
  }

  lemma CommitKept(reqs: Requests, c: State, req: TransferReq)
    requires Inv(reqs, c) && Routed(reqs, c.lead.shard, req)
    requires c.lead.round.awaitAccept && c.lead.round.acceptOks >= MAJORITY && c.lead.round.tid == req.tid
    ensures Inv(reqs, Spread(c, Settle(c.lead, req, false), Commits(CommitReq(c.lead.acceptor.acceptNum))))
  {
    var l' := Settle(c.lead, req, false);
    assert req == c.lead.acceptor.acceptVal;
    CommitPeer(reqs, c.lead, l', c.a);
    CommitPeer(reqs, c.lead, l', c.b);
    assert LogOk(l');
    assert Durable(l', c.a.s, c.b.s);
  }

  lemma SilentKept(reqs: Requests, c: State, req: TransferReq)
    requires Inv(reqs, c) && RunPaxos(c.lead, req, false).out.Silent?
    ensures Inv(reqs, c.(lead := RunPaxos(c.lead, req, false).s))
  {
    var l' := RunPaxos(c.lead, req, false).s;
    assert l'.books.log == c.lead.books.log;
    QuietKept(reqs, c, l');
  }

  lemma RequestKept(reqs: Requests, c: State, req: TransferReq)
    requires Inv(reqs, c) && Routed(reqs, c.lead.shard, req)
    ensures Inv(reqs, Next(c, Step.Request(req, false)))
  {
    RunCases(c.lead, req, false);
    match RunPaxos(c.lead, req, false).out
    case Silent => SilentKept(reqs, c, req);
    case Prepares(r) => PrepareKept(reqs, c, req.tid);
    case Accepts(r) => AcceptKept(reqs, c, req);
    case Commits(r) => CommitKept(reqs, c, req);
  }

  lemma HearKept(reqs: Requests, c: State, first: bool, r: Reply)
    requires Inv(reqs, c) && ReplyOk(c.lead, c.At(first).s, r)
    ensures Inv(reqs, c.(lead := Hear(c.lead, r)))
  {
    QuietKept(reqs, c, Hear(c.lead, r));
  }

  lemma AnswerKept(reqs: Requests, c: State, first: bool, r: Reply)
    requires Inv(reqs, c)
    ensures Inv(reqs, Next(c, Step.Answer(first, r)))
  {
    hide LeadOk, Hear;
    var p := c.At(first);
    if r in p.replies {
      assert ReplyOk(c.lead, p.s, r);
      var c1 := c.With(first, p.(replies := p.replies - {r}));
      GrowKept(reqs, c, first, p.(replies := p.replies - {r}));
      if r.Call() in p.calls {
        var c2 := c.With(first, p.(replies := p.replies - {r}, calls := p.calls - {r.Call()}));
        GrowKept(reqs, c, first, p.(replies := p.replies - {r}, calls := p.calls - {r.Call()}));
        HearKept(reqs, c2, first, r);
      }
    }
  }

  lemma TimeoutKept(reqs: Requests, c: State, call: Call)
    requires Inv(reqs, c)
    ensures Inv(reqs, c.(lead := Timeout(c.lead, call)))
  {
    hide PeerOk, HasLast;
    QuietKept(reqs, c, Timeout(c.lead, call));
  }

  lemma ExpireKept(reqs: Requests, c: State, first: bool, call: Call)
    requires Inv(reqs, c)
    ensures Inv(reqs, Next(c, Step.Expire(first, call)))
  {
    hide LinkOk, LeadOk, Timeout;
    var p := c.At(first);
    if call in p.calls {
      GrowKept(reqs, c, first, p.(calls := p.calls - {call}));
      TimeoutKept(reqs, c.With(first, p.(calls := p.calls - {call})), call);
    }
  }

  lemma BreakKept(reqs: Requests, c: State, first: bool, call: Call)
    requires Inv(reqs, c)
    ensures Inv(reqs, Next(c, Step.Break(first, call)))
  {
    hide LinkOk, LeadOk;
    var p := c.At(first);
    if call in p.calls {
      GrowKept(reqs, c, first, p.(calls := p.calls - {call}, broken := p.broken + {call}));
    }
  }

  /** Steps of one follower alone. */
  lemma FollowerKept(reqs: Requests, c: State, step: Step)
    requires Inv(reqs, c)
    requires step.Deliver? || step.Lose? || step.Synchronise? || step.SyncExpire? || step.Partition?
    ensures Inv(reqs, Next(c, step))
  {
    hide LeadOk, Receive, OnSyncReply, OnSync;
    var p := c.At(step.first);
    match step
    case Deliver(first) =>
      if p.link != [] {
        ReceiveKept(reqs, c.lead, p);
        GrowKept(reqs, c, first, Receive(p));
      }
    case Lose(first, at) =>
      if at < |p.link| {
        LoseKept(c.lead, p, at);
        GrowKept(reqs, c, first, p.(link := p.link[..at] + p.link[at + 1..]));
      }
    case Synchronise(first) =>
      if p.s.inSync {
        SyncKept(reqs, c.lead, p);
        GrowKept(reqs, c, first, p.(s := OnSyncReply(p.s, Ok, OnSync(c.lead, SyncReq(p.s.books.lastInserted)))));
      }
    case SyncExpire(first) =>
      SyncExpireKept(c.lead, p);
      GrowKept(reqs, c, first, p.(s := OnSyncReply(p.s, DeadlineExceeded, SyncRes(false, [], NO_BALLOT))));
    case Partition(first, me) =>
      PartitionKept(c.lead, p, me);
      GrowKept(reqs, c, first, p.(s := p.s.(disconnected := me)));
  }

  lemma NextKept(reqs: Requests, c: State, step: Step)
    requires Inv(reqs, c) && IntraStep(reqs, c.lead.shard, step)
    ensures Inv(reqs, Next(c, step))
  {
    hide PeerOk;
    match step
    case Request(req, _) => RequestKept(reqs, c, req);
    case Answer(first, r) => AnswerKept(reqs, c, first, r);
    case Expire(first, call) => ExpireKept(reqs, c, first, call);
    case Break(first, call) => BreakKept(reqs, c, first, call);
    case PartitionLead(me) => QuietKept(reqs, c, c.lead.(disconnected := me));
    case LeadSync(_) => assert !c.lead.inSync;
    case LeadSyncExpire => QuietKept(reqs, c, c.lead.(inSync := false));
    case _ => FollowerKept(reqs, c, step);
  }

  lemma NextShard(c: State, step: Step)
    ensures Next(c, step).lead.shard == c.lead.shard
  {
  }

  /** The states that a freshly started cluster can reach. */
  ghost predicate Fresh(c: State) {
    && c.a.s.shard == c.lead.shard == c.b.s.shard
    && c == Start(Initial(c.lead.id, c.lead.shard, c.lead.books.balances),
                  Initial(c.a.s.id, c.a.s.shard, c.a.s.books.balances),
                  Initial(c.b.s.id, c.b.s.shard, c.b.s.books.balances))
  }

  lemma {:induction false} RunKept(reqs: Requests, c: State, steps: seq<Step>)
    requires Fresh(c) && IntraShard(reqs, c.lead.shard, steps)
    ensures Inv(reqs, After(c, steps)) && After(c, steps).lead.shard == c.lead.shard
    decreases |steps|
  {
    if steps != [] {
      RunKept(reqs, c, steps[..|steps| - 1]);
      NextKept(reqs, After(c, steps[..|steps| - 1]), steps[|steps| - 1]);
      NextShard(After(c, steps[..|steps| - 1]), steps[|steps| - 1]);
    }
  }

  // ---------- main results ----------

  lemma PrefixReplication(reqs: Requests, c: State, steps: seq<Step>)
    requires Fresh(c) && IntraShard(reqs, c.lead.shard, steps)
    ensures
      var r := After(c, steps);
      && r.a.s.books.log <= r.lead.books.log && r.b.s.books.log <= r.lead.books.log
      && r.lead.books.lastInserted == |r.lead.books.log| - 1
      && r.a.s.books.lastInserted == |r.a.s.books.log| - 1
      && r.b.s.books.lastInserted == |r.b.s.books.log| - 1
      && !r.lead.inSync
  {
    RunKept(reqs, c, steps);
  }

  /** Every leader entry but the last is in two logs; the last is in, or accepted for, a second server. */
  lemma Durability(reqs: Requests, c: State, steps: seq<Step>, i: nat)
    requires Fresh(c) && IntraShard(reqs, c.lead.shard, steps)
    requires i < |After(c, steps).lead.books.log|
    ensures
      var r := After(c, steps);
      var e := r.lead.books.log[i];
      || (i < |r.a.s.books.log| && r.a.s.books.log[i] == e)
      || (i < |r.b.s.books.log| && r.b.s.books.log[i] == e)
      || (i == |r.lead.books.log| - 1 &&
          (CommittedEntry(r.a.s.acceptor.acceptVal, r.a.s.acceptor.acceptNum) == e ||
           CommittedEntry(r.b.s.acceptor.acceptVal, r.b.s.acceptor.acceptNum) == e))
  {
    hide After, LeadOk, Quorums, LinkOk, ReplyOk, Proposed;
    RunKept(reqs, c, steps);
  }
}
