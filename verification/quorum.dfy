/**
 Competing proposers in a cluster of three. Messages may be lost, reordered and duplicated;
 calls other than Prepare may carry anything. Only Syncs that set a server's number below that
 of its last promise are left out.
 */
module Quorum {
  import opened Types
  import opened ServerModel

  /** Three servers, every Prepare ever broadcast, and every answer ever given, by its author. */
  datatype World = World(servers: map<int, Server>, asked: set<PrepareReq>, answered: set<(int, PrepareRes)>)

  /** The votes: a proposer votes for itself by asking, another server by acknowledging. */
  ghost predicate Voted(w: World, voter: int, ballot: Ballot) {
    || (voter == ballot.serverId && exists p :: p in w.asked && p.ballot == ballot)
    || (exists a :: a in w.answered && a.0 == voter && a.1.ack && a.1.ballot == ballot)
  }

  ghost function Voters(w: World, ballot: Ballot): set<int> {
    set v | v in w.servers && Voted(w, v, ballot)
  }

  ghost predicate Owns(w: World, ballot: Ballot) {
    |Voters(w, ballot)| >= MAJORITY
  }

  /** What may happen at server `i`: a Prepare or its answer must have been sent, all else is free. */
  ghost predicate Possible(w: World, i: int, e: Event) {
    && i in w.servers
    && GenuineEvent(w.servers[i], e)
    && (e.PrepareCall? ==> e.prepare in w.asked && e.prepare.ballot.serverId != i)
    && (e.PrepareReply? && e.status == Ok ==> exists a :: a in w.answered && a.1 == e.prepareRes)
  }

  /** Genuine tids, and no Sync that sets the number below that of the server's last promise. */
  predicate GenuineEvent(s: Server, e: Event) {
    && (e.Run? ==> e.req.tid != -1)
    && (e.SyncReply? && e.status == Ok && e.syncRes.ack ==>
          s.acceptor.promisedNum.num <= e.syncRes.lastInsertedBallot.num)
  }

  function Asked(w: World, i: int, e: Event): set<PrepareReq>
    requires i in w.servers
  {
    if e.Run? && RunPaxos(w.servers[i], e.req, e.cross).out.Prepares? then {RunPaxos(w.servers[i], e.req, e.cross).out.p} else {}
  }

  function Answered(w: World, i: int, e: Event): set<(int, PrepareRes)>
    requires i in w.servers
  {
    if e.PrepareCall? then {(i, OnPrepare(w.servers[i], e.prepare).res)} else {}
  }

  function Next(w: World, i: int, e: Event): World
    requires i in w.servers
  {
    World(w.servers[i := Handle(w.servers[i], e)], w.asked + Asked(w, i, e), w.answered + Answered(w, i, e))
  }

  ghost predicate Path(ws: seq<World>, steps: seq<(int, Event)>) {
    && |ws| == |steps| + 1
    && forall k :: 0 <= k < |steps| ==>
         Possible(ws[k], steps[k].0, steps[k].1) && ws[k + 1] == Next(ws[k], steps[k].0, steps[k].1)
  }

  /** No votes yet, all servers as constructed. */
  ghost predicate Fresh(w: World) {
    && w.asked == {} && w.answered == {}
    && |w.servers| == 3
    && forall i :: i in w.servers ==>
         w.servers[i] == Initial(i, w.servers[i].shard, w.servers[i].books.balances)
  }

  // ---------- the invariant ----------

  ghost predicate VotesOk(w: World, i: int, s: Server) {
    && (forall b :: Voted(w, i, b) ==> b.num <= s.acceptor.promisedNum.num)
    && (forall b, c :: Voted(w, i, b) && Voted(w, i, c) && b.num == c.num ==> b == c)
  }

  ghost predicate BallotOk(s: Server) {
    s.acceptor.promisedNum.num <= s.acceptor.ballotNum
  }

  /** The number of `i`'s latest Prepare, acknowledged by another server. */
  ghost predicate Won(w: World, i: int, n: int) {
    && Voted(w, i, Ballot(n, i))
    && (forall p :: p in w.asked && p.ballot.serverId == i ==> p.ballot.num <= n)
    && (exists a :: a in w.answered && a.0 != i && a.0 in w.servers && a.1.ack && a.1.ballot == Ballot(n, i))
  }

  ghost predicate ServerOk(w: World, i: int, s: Server) {
    && s.id == i
    && VotesOk(w, i, s)
    && BallotOk(s)
    && (s.round.awaitPrepare && s.round.prepareOks >= MAJORITY ==> exists n :: Won(w, i, n))
  }

  ghost predicate AnswersOk(w: World) {
    forall a :: a in w.answered ==>
      && a.0 in w.servers && a.0 != a.1.ballot.serverId
      && (exists p :: p in w.asked && p.ballot == a.1.ballot)
      && (a.1.latestBallotNum.Some? ==> a.1.ballot.num <= a.1.latestBallotNum.value)
  }

  ghost predicate Inv(w: World) {
    && |w.servers| == 3
    && AnswersOk(w)
    && (forall p :: p in w.asked ==> p.ballot.serverId in w.servers)
    && (forall i :: i in w.servers ==> ServerOk(w, i, w.servers[i]))
  }

  /** Another server's step adds no vote of server `i` and no Prepare of its own. */
  lemma OthersKept(w: World, w': World, i: int)
    requires i in w.servers && w'.servers.Keys == w.servers.Keys && ServerOk(w, i, w.servers[i])
    requires w.asked <= w'.asked && w.answered <= w'.answered
    requires forall p :: p in w'.asked && p !in w.asked ==> p.ballot.serverId != i
    requires forall a :: a in w'.answered && a !in w.answered ==> a.0 != i
    ensures ServerOk(w', i, w.servers[i])
  {
    assert forall b :: Voted(w', i, b) <==> Voted(w, i, b);
    var s := w.servers[i];
    if s.round.awaitPrepare && s.round.prepareOks >= MAJORITY {
      var n :| Won(w, i, n);
      assert Won(w', i, n);
    }
  }

  /** A handler that neither votes nor counts keeps the server's part, as the number stays above its promise. */
  lemma QuietKept(w: World, i: int, s': Server)
    requires i in w.servers && ServerOk(w, i, w.servers[i])
    requires s'.id == i && BallotOk(s') && w.servers[i].acceptor.promisedNum == s'.acceptor.promisedNum
    requires s'.round.awaitPrepare && s'.round.prepareOks >= MAJORITY ==>
               w.servers[i].round.awaitPrepare && w.servers[i].round.prepareOks >= MAJORITY
    ensures ServerOk(w, i, s')
  {
  }

  /** One server's step keeps the invariant if that server's part and the answers are in order. */
  lemma Assemble(w: World, w': World, i: int)
    requires Inv(w) && i in w.servers && w'.servers.Keys == w.servers.Keys
    requires forall j :: j in w.servers && j != i ==> w'.servers[j] == w.servers[j]
    requires w.asked <= w'.asked && w.answered <= w'.answered
    requires forall p :: p in w'.asked && p !in w.asked ==> p.ballot.serverId == i
    requires forall a :: a in w'.answered && a !in w.answered ==> a.0 == i
    requires AnswersOk(w') && ServerOk(w', i, w'.servers[i])
    ensures Inv(w')
  {
    forall j | j in w.servers && j != i ensures ServerOk(w', j, w'.servers[j]) {
      OthersKept(w, w', j);
    }
    assert |w'.servers| == |w'.servers.Keys| == |w.servers.Keys| == |w.servers|;
  }

  lemma AskerKept(w: World, w': World, i: int, s': Server, p: PrepareReq)
    requires i in w.servers && ServerOk(w, i, w.servers[i])
    requires p.ballot == Ballot(w.servers[i].acceptor.ballotNum + 1, w.servers[i].id)
    requires w'.asked == w.asked + {p} && w'.answered == w.answered
    requires s'.id == w.servers[i].id && s'.acceptor.ballotNum == s'.acceptor.promisedNum.num == p.ballot.num && s'.round.prepareOks == 1
    ensures ServerOk(w', i, s')
  {
  }

  lemma AskedStays(w: World, w': World)
    requires AnswersOk(w) && w'.servers.Keys == w.servers.Keys && w.asked <= w'.asked && w'.answered == w.answered
    ensures AnswersOk(w')
  {
    forall a | a in w'.answered ensures exists q :: q in w'.asked && q.ballot == a.1.ballot {
      var q :| q in w.asked && q.ballot == a.1.ballot;
      assert q in w'.asked;
    }
  }

  lemma AskKept(w: World, i: int, e: Event)
    requires Inv(w) && Possible(w, i, e) && Asked(w, i, e) != {}
    ensures Inv(Next(w, i, e))
  {
    hide ServerOk, AnswersOk;
    assert e.Run?;
    var s, w' := w.servers[i], Next(w, i, e);
    var p := RunPaxos(s, e.req, e.cross).out.p;
    assert w'.answered == w.answered;
    AskerKept(w, w', i, w'.servers[i], p);
    AskedStays(w, w');
    Assemble(w, w', i);
  }

  /** Answering a Prepare votes at most for it, and then with a higher number than any vote before. */
  lemma AnswererKept(w: World, w': World, i: int, p: PrepareReq)
    requires i in w.servers && ServerOk(w, i, w.servers[i])
    requires w'.servers.Keys == w.servers.Keys && w'.asked == w.asked
    requires w'.answered == w.answered + {(i, OnPrepare(w.servers[i], p).res)} && p.ballot.serverId != i
    ensures ServerOk(w', i, OnPrepare(w.servers[i], p).s)
  {
    var s, res := w.servers[i], OnPrepare(w.servers[i], p).res;
    assert (i, res) in w'.answered;
    forall b ensures Voted(w', i, b) <==> Voted(w, i, b) || (res.ack && b == res.ballot) {
      if a :| a in w.answered && a.0 == i && a.1.ack && a.1.ballot == b { assert a in w'.answered; }
    }
    assert VotesOk(w', i, OnPrepare(s, p).s);
    if s.round.awaitPrepare && s.round.prepareOks >= MAJORITY {
      WonStays(w, w', i);
    }
  }

  lemma WonStays(w: World, w': World, i: int)
    requires w'.servers.Keys == w.servers.Keys && w'.asked == w.asked && w.answered <= w'.answered
    requires exists n :: Won(w, i, n)
    ensures exists n :: Won(w', i, n)
  {
    var n :| Won(w, i, n);
    assert Voted(w', i, Ballot(n, i)) by {
      if a :| a in w.answered && a.0 == i && a.1.ack && a.1.ballot == Ballot(n, i) { assert a in w'.answered; }
    }
    var a :| a in w.answered && a.0 != i && a.0 in w.servers && a.1.ack && a.1.ballot == Ballot(n, i);
    assert a in w'.answered;
    assert Won(w', i, n);
  }

  lemma AnswerOk(w: World, w': World, i: int, s: Server, p: PrepareReq)
    requires AnswersOk(w) && i in w.servers && p in w.asked && p.ballot.serverId != i
    requires w'.servers.Keys == w.servers.Keys && w'.asked == w.asked
    requires w'.answered == w.answered + {(i, OnPrepare(s, p).res)}
    ensures AnswersOk(w')
  {
  }

  lemma CallNext(w: World, i: int, p: PrepareReq)
    requires i in w.servers
    ensures
      var out := OnPrepare(w.servers[i], p);
      Next(w, i, PrepareCall(p)) == World(w.servers[i := out.s], w.asked, w.answered + {(i, out.res)})
  {
    hide OnPrepare;
    assert w.asked + {} == w.asked;
  }

  lemma CallKept(w: World, i: int, p: PrepareReq)
    requires Inv(w) && i in w.servers && p in w.asked && p.ballot.serverId != i
    ensures Inv(Next(w, i, PrepareCall(p)))
  {
    hide OnPrepare, Next, ServerOk, AnswersOk;
    CallNext(w, i, p);
    var w' := Next(w, i, PrepareCall(p));
    AnswererKept(w, w', i, p);
    AnswerOk(w, w', i, w.servers[i], p);
    Assemble(w, w', i);
  }

  /** An acknowledgement that is counted is for the latest Prepare, whose number is the ballot number. */
  lemma CountedIsLatest(w: World, i: int, s: Server, res: PrepareRes)
    requires AnswersOk(w) && ServerOk(w, i, s) && s.round.awaitPrepare && Mine(s, res.ballot, s.acceptor.promisedNum)
    requires res.ack && exists a :: a in w.answered && a.1 == res
    ensures Won(w, i, res.ballot.num)
  {
  }

  /** What a handler that neither asks, answers nor counts a promise leaves alone. */
  lemma QuietHandler(s: Server, e: Event)
    requires BallotOk(s) && GenuineEvent(s, e) && !e.PrepareCall?
    requires e.Run? ==> !RunPaxos(s, e.req, e.cross).out.Prepares?
    requires e.PrepareReply? ==> !(s.round.awaitPrepare && e.status == Ok && Mine(s, e.prepareRes.ballot, s.acceptor.promisedNum))
    ensures
      var s' := Handle(s, e);
      && s'.id == s.id && BallotOk(s') && s'.acceptor.promisedNum == s.acceptor.promisedNum
      && (s'.round.awaitPrepare && s'.round.prepareOks >= MAJORITY ==>
            s.round.awaitPrepare && s.round.prepareOks >= MAJORITY)
  {
  }

  lemma CounterKept(w: World, i: int, e: Event)
    requires Inv(w) && Possible(w, i, e) && e.PrepareReply?
    ensures ServerOk(w, i, Handle(w.servers[i], e))
  {
    hide AnswersOk, VotesOk, OnPrepareReply;
    var s, res := w.servers[i], e.prepareRes;
    assert ServerOk(w, i, s);
    if s.round.awaitPrepare && e.status == Ok && Mine(s, res.ballot, s.acceptor.promisedNum) {
      HeardKept(w, i, s, res);
    } else {
      QuietHandler(s, e);
      QuietKept(w, i, Handle(s, e));
    }
  }

  lemma HeardKept(w: World, i: int, s: Server, res: PrepareRes)
    requires AnswersOk(w) && ServerOk(w, i, s) && s.round.awaitPrepare && Mine(s, res.ballot, s.acceptor.promisedNum)
    requires exists a :: a in w.answered && a.1 == res
    ensures forall sent :: ServerOk(w, i, OnPrepareReply(s, Ok, sent, res).0)
  {
    forall sent ensures ServerOk(w, i, OnPrepareReply(s, Ok, sent, res).0) {
      var s' := OnPrepareReply(s, Ok, sent, res).0;
      if res.ack {
        CountedIsLatest(w, i, s, res);
      }
      assert s'.acceptor.ballotNum >= s.acceptor.promisedNum.num;
      assert VotesOk(w, i, s');
    }
  }

  lemma ReplyKept(w: World, i: int, e: Event)
    requires Inv(w) && Possible(w, i, e) && e.PrepareReply?
    ensures Inv(Next(w, i, e))
  {
    CounterKept(w, i, e);
    SameVotesKept(w, i, e);
  }

  /** A step that sends no Prepare and answers none leaves the other servers' parts alone. */
  lemma SameVotesKept(w: World, i: int, e: Event)
    requires Inv(w) && Possible(w, i, e) && Asked(w, i, e) == {} && !e.PrepareCall?
    requires ServerOk(w, i, Handle(w.servers[i], e))
    ensures Inv(Next(w, i, e))
  {
    hide ServerOk, AnswersOk, Handle, RunPaxos;
    var w' := Next(w, i, e);
    assert w'.asked == w.asked && w'.answered == w.answered;
    OthersSame(w, w', i, w'.servers[i]);
    AskedStays(w, w');
    Assemble(w, w', i);
  }

  lemma OthersSame(w: World, w': World, j: int, s: Server)
    requires w'.servers.Keys == w.servers.Keys && w'.asked == w.asked && w'.answered == w.answered && ServerOk(w, j, s)
    ensures ServerOk(w', j, s)
  {
    assert forall b :: Voted(w', j, b) <==> Voted(w, j, b);
    if s.round.awaitPrepare && s.round.prepareOks >= MAJORITY {
      var n :| Won(w, j, n);
      assert Won(w', j, n);
    }
  }

  lemma RestKept(w: World, i: int, e: Event)
    requires Inv(w) && Possible(w, i, e) && Asked(w, i, e) == {} && !e.PrepareCall? && !e.PrepareReply?
    ensures Inv(Next(w, i, e))
  {
    hide AnswersOk, VotesOk, Handle, RunPaxos, Next;
    assert ServerOk(w, i, w.servers[i]);
    QuietHandler(w.servers[i], e);
    QuietKept(w, i, Handle(w.servers[i], e));
    SameVotesKept(w, i, e);
  }

  lemma NextKept(w: World, i: int, e: Event)
    requires Inv(w) && Possible(w, i, e)
    ensures Inv(Next(w, i, e))
  {
    if Asked(w, i, e) != {} {
      AskKept(w, i, e);
    } else if e.PrepareCall? {
      CallKept(w, i, e.prepare);
    } else if e.PrepareReply? {
      ReplyKept(w, i, e);
    } else {
      RestKept(w, i, e);
    }
  }

  lemma {:induction false} PathKept(ws: seq<World>, steps: seq<(int, Event)>)
    requires Path(ws, steps) && Fresh(ws[0])
    ensures Inv(ws[|steps|])
    decreases |steps|
  {
    if steps == [] {
    } else {
      var k := |steps| - 1;
      PathKept(ws[..|steps|], steps[..k]);
      NextKept(ws[k], steps[k].0, steps[k].1);
    }
  }

  // ---------- main results ----------

  /** Two disjoint groups of voters cannot both be majorities of three. */
  lemma DisjointVoters(all: set<int>, a: set<int>, b: set<int>)
    requires a <= all && b <= all && a !! b
    ensures |a| + |b| <= |all|
  {
    Subset(a + b, all);
    assert |a + b| == |a| + |b|;
  }

  lemma {:induction false} Subset(a: set<int>, b: set<int>)
    requires a <= b
    ensures |a| <= |b|
  {
    assert b == a + (b - a);
  }

  /** No ballot number ever gives a quorum to two servers, although handlers compare only the number. */
  lemma OneOwnerPerNumber(ws: seq<World>, steps: seq<(int, Event)>, p: Ballot, q: Ballot)
    requires Path(ws, steps) && Fresh(ws[0])
    requires Owns(ws[|steps|], p) && Owns(ws[|steps|], q) && p.num == q.num
    ensures p == q
  {
    var w := ws[|steps|];
    PathKept(ws, steps);
    assert |w.servers.Keys| == 3;
    if p != q {
      forall v | v in Voters(w, p) ensures v !in Voters(w, q) {
        assert VotesOk(w, v, w.servers[v]);
      }
      DisjointVoters(w.servers.Keys, Voters(w, p), Voters(w, q));
    }
  }

  /** A server that sees a Prepare majority owns the number of its latest Prepare. */
  lemma CountedMajorityOwns(ws: seq<World>, steps: seq<(int, Event)>, i: int) returns (n: int)
    requires Path(ws, steps) && Fresh(ws[0]) && i in ws[|steps|].servers
    requires
      var r := ws[|steps|].servers[i].round;
      r.awaitPrepare && r.prepareOks >= MAJORITY
    ensures Owns(ws[|steps|], Ballot(n, i))
    ensures forall p :: p in ws[|steps|].asked && p.ballot.serverId == i ==> p.ballot.num <= n
  {
    PathKept(ws, steps);
    n := WinnerOwns(ws[|steps|], i);
  }

  lemma WinnerOwns(w: World, i: int) returns (n: int)
    requires i in w.servers && exists n :: Won(w, i, n)
    ensures Owns(w, Ballot(n, i))
    ensures forall p :: p in w.asked && p.ballot.serverId == i ==> p.ballot.num <= n
  {
    n :| Won(w, i, n);
    var b := Ballot(n, i);
    var a :| a in w.answered && a.0 != i && a.0 in w.servers && a.1.ack && a.1.ballot == b;
    assert Voted(w, a.0, b);
    Subset({i, a.0}, Voters(w, b));
  }

  /**
   Why Syncs that set the number below a promise are left out: then a server votes again for a
   number it has voted for. Exactly when the copied ballot is older than the vote and the new log
   end is what the second Prepare asks for.
   */
  lemma SyncLetsVoteAgain(s: Server, p: PrepareReq, res: SyncRes, q: PrepareReq)
    requires OnPrepare(s, p).res.ack && res.ack && q.ballot.num == p.ballot.num
    ensures OnPrepare(OnSyncReply(OnPrepare(s, p).s, Ok, res), q).res.ack <==>
            res.lastInsertedBallot.num < p.ballot.num && q.lastInserted == s.books.lastInserted + |res.logs|
    ensures !OnPrepare(OnPrepare(s, p).s, q).res.ack
  {
  }
}
