/**
 What a cross-shard commit rests on when each cluster has a single leader: both leaders
 acknowledged, and in each of the two clusters the leader and a follower logged PREPARED.
 */
module Backing {
  import opened Types
  import opened ServerModel
  import opened Participant
  import opened Coordinator
  import opened TwoPhase

  /** The leader of each cluster. */
  type Leaders = map<int, int>

  ghost predicate Led(lead: Leaders, w: World) {
    forall k :: k in lead ==> lead[k] in w.servers && w.servers[lead[k]].shard.id == k
  }

  predicate Leads(lead: Leaders, s: Server, i: int) {
    s.shard.id in lead && lead[s.shard.id] == i
  }

  /**
   Only leaders propose and they take no Paxos calls; an Accept call ends once, with an answer that
   its follower gave; rejections name a number at least as high as the rejected one; a leader's Sync
   answer reaches it while it waits for it and sets its number no lower than that of an Accept call
   it still has open.
   */
  ghost predicate LedStep(lead: Leaders, reqs: Requests, w: World, step: Step) {
    match step
    case Issue(tid, s, r) =>
      && tid in reqs && w.home(reqs[tid].txn.sender) in lead && s == lead[w.home(reqs[tid].txn.sender)]
      && w.home(reqs[tid].txn.receiver) in lead && r == lead[w.home(reqs[tid].txn.receiver)]
    case RunLocal(i, req) => i in w.servers && Leads(lead, w.servers[i], i)
    case Serve(i, e) => i in w.servers && (Leads(lead, w.servers[i], i) ==> LeadEvent(w, i, e) && !e.AcceptReply?)
    case _ => true
  }

  ghost predicate LeadEvent(w: World, i: int, e: Event)
    requires i in w.servers
  {
    var s := w.servers[i];
    && !e.PrepareCall? && !e.AcceptCall? && !e.CommitCall?
    && (e.AcceptReply? && e.status == Ok ==>
          exists f :: (i, f, e.acceptSent) in w.asking && (f, e.acceptSent, e.acceptRes) in w.votes)
    && (e.PrepareReply? && e.prepareRes.latestBallotNum.Some? ==>
          e.prepareRes.ballot.num <= e.prepareRes.latestBallotNum.value)
    && (e.SyncReply? && e.status == Ok && e.syncRes.ack ==>
          && s.inSync
          && forall x :: x in w.asking && x.0 == i ==> x.2.ballot.num <= e.syncRes.lastInsertedBallot.num)
  }

  // ---------- what has been logged stays logged ----------

  ghost predicate Logged(s: Server, tid: int) {
    exists k :: 0 <= k < |s.books.log| && s.books.log[k].tid == tid && s.books.log[k].status == Prepared
  }

  ghost predicate FollowerLogged(lead: Leaders, servers: map<int, Server>, cluster: int, tid: int) {
    exists f :: f in servers && servers[f].shard.id == cluster && cluster in lead && lead[cluster] != f && Logged(servers[f], tid)
  }

  ghost predicate OneSided(s: Server, txn: Transaction) {
    s.shard.Owns(txn.sender) != s.shard.Owns(txn.receiver)
  }

  ghost predicate Later(w: World, w': World) {
    && w'.home == w.home && w'.servers.Keys == w.servers.Keys
    && w.accepts <= w'.accepts && w.answers <= w'.answers
    && (forall i :: i in w.servers ==> w'.servers[i].shard == w.servers[i].shard &&
                                       w.servers[i].books.log <= w'.servers[i].books.log)
  }

  lemma LogGrows(s: Server, e: Event)
    ensures s.books.log <= Handle(s, e).books.log && Handle(s, e).shard == s.shard && Handle(s, e).id == s.id
  {
    if e.SyncReply? {
      Replayed(s.shard, s.books, e.syncRes.logs);
    }
  }

  lemma LoggedStays(s: Server, s': Server, tid: int)
    requires Logged(s, tid) && s.books.log <= s'.books.log
    ensures Logged(s', tid)
  {
  }

  lemma FollowerLoggedStays(lead: Leaders, w: World, w': World, cluster: int, tid: int)
    requires Later(w, w') && FollowerLogged(lead, w.servers, cluster, tid)
    ensures FollowerLogged(lead, w'.servers, cluster, tid)
  {
  }

  // ---------- votes ----------

  /** An acknowledged cross-shard Accept is in the voter's log as PREPARED. */
  ghost predicate VoteOk(w: World, f: int, a: AcceptReq, res: AcceptRes) {
    && f in w.servers && res.ballot == a.ballot
    && (res.ack && OneSided(w.servers[f], a.r.txn) ==> Logged(w.servers[f], a.r.tid))
  }

  // ---------- leaders ----------

  ghost predicate Supported(lead: Leaders, w: World, l: Server) {
    var v := l.acceptor.acceptVal;
    l.round.awaitAccept ==>
      && l.acceptor.acceptNum == l.acceptor.promisedNum && v.tid == l.round.tid
      && (OneSided(l, v.txn) ==> Logged(l, v.tid))
      && (OneSided(l, v.txn) && l.round.acceptOks >= MAJORITY ==> FollowerLogged(lead, w.servers, l.shard.id, v.tid))
  }

  /** An open Accept call goes to another server of the cluster; of the current number there is only the current one. */
  ghost predicate CallOk(w: World, l: Server, x: (int, int, AcceptReq)) {
    && x.1 in w.servers && x.1 != x.0 && w.servers[x.1].shard.id == l.shard.id
    && x.2.ballot.num <= l.acceptor.ballotNum
    && (l.round.awaitPrepare ==> x.2.ballot.num < l.acceptor.ballotNum)
    && (l.round.awaitAccept && x.2.ballot.num == l.acceptor.acceptNum.num ==>
          x.2 == AcceptReq(l.acceptor.acceptNum, l.acceptor.acceptVal))
  }

  ghost predicate LeadOk(lead: Leaders, w: World, i: int, l: Server) {
    && l.id == i && Orderly(l.round)
    && (Waiting(l) ==> l.acceptor.promisedNum == Ballot(l.acceptor.ballotNum, i) && !l.inSync)
    && (forall x :: x in w.asking && x.0 == i ==> CallOk(w, l, x))
    && Supported(lead, w, l)
  }

  /** What an acknowledged leg means: leader and follower of its cluster have the transaction in the log. */
  ghost predicate Backed(lead: Leaders, w: World, cluster: int, tid: int) {
    && cluster in lead && lead[cluster] in w.servers
    && Logged(w.servers[lead[cluster]], tid) && FollowerLogged(lead, w.servers, cluster, tid)
  }

  function Side(reqs: Requests, w: World, leg: Leg): int
    requires leg.tid in reqs
  {
    if leg.toSender then w.home(reqs[leg.tid].txn.sender) else w.home(reqs[leg.tid].txn.receiver)
  }

  ghost predicate RoutesOk(lead: Leaders, reqs: Requests, w: World) {
    forall t :: t in w.route ==>
      t in reqs && Side(reqs, w, Leg(t, true)) in lead && w.route[t].0 == lead[Side(reqs, w, Leg(t, true))] &&
      Side(reqs, w, Leg(t, false)) in lead && w.route[t].1 == lead[Side(reqs, w, Leg(t, false))]
  }

  ghost predicate AnswersOk(lead: Leaders, reqs: Requests, w: World) {
    forall a :: a in w.answers && a.1 ==> a.0.tid in reqs && Backed(lead, w, Side(reqs, w, a.0), a.0.tid)
  }

  function Acked(w: World, leg: Leg): nat {
    if leg !in w.open && (leg, true) in w.answers then 1 else 0
  }

  ghost predicate TalliesOk(w: World) {
    && (forall t :: t in w.client ==>
          w.client[t].successes <= if t == 0 then 0 else Acked(w, Leg(t, true)) + Acked(w, Leg(t, false)))
    && (forall v :: v in w.verdicts && v.commit ==> (Leg(v.tid, true), true) in w.answers && (Leg(v.tid, false), true) in w.answers)
  }

  ghost predicate BackInv(lead: Leaders, reqs: Requests, w: World) {
    TwoPhase.Inv(reqs, w) && Support(lead, reqs, w)
  }

  ghost predicate Support(lead: Leaders, reqs: Requests, w: World) {
    && Led(lead, w)
    && (forall v :: v in w.votes ==> VoteOk(w, v.0, v.1, v.2))
    && (forall k :: k in lead ==> LeadOk(lead, w, lead[k], w.servers[lead[k]]))
    && RoutesOk(lead, reqs, w)
    && AnswersOk(lead, reqs, w)
    && TalliesOk(w)
  }

  /** Everything but the acting leader's own part carries over to a later world. */
  lemma RestStays(lead: Leaders, reqs: Requests, w: World, w': World)
    requires Support(lead, reqs, w) && Later(w, w')
    ensures Led(lead, w')
    ensures forall v :: v in w.votes ==> VoteOk(w', v.0, v.1, v.2)
    ensures forall a :: a in w.answers && a.1 ==> a.0.tid in reqs && Backed(lead, w', Side(reqs, w', a.0), a.0.tid)
  {
  }

  lemma LeadStays(lead: Leaders, w: World, w': World, i: int, l: Server)
    requires Later(w, w') && LeadOk(lead, w, i, l)
    requires forall x :: x in w'.asking && x !in w.asking ==> x.0 != i
    ensures LeadOk(lead, w', i, l)
  {
  }

  // ---------- steps of a leader ----------

  /** A leader's call of the proposer: it keeps its part and never reuses a ballot number. */
  lemma RunLead(lead: Leaders, reqs: Requests, w: World, i: int, req: TransferReq, cross: bool)
    requires BackInv(lead, reqs, w) && i in w.servers && Leads(lead, w.servers[i], i) && Issued(reqs, req)
    requires cross == (w.home(req.txn.sender) != w.home(req.txn.receiver))
    requires Later(w, RunAt(w, i, req, cross))
    ensures LeadOk(lead, RunAt(w, i, req, cross), i, RunPaxos(w.servers[i], req, cross).s)
  {
    var l, w' := w.servers[i], RunAt(w, i, req, cross);
    var ran := RunPaxos(l, req, cross);
    assert LeadOk(lead, w, i, l);
    RunCases(l, req, cross);
    match ran.out
    case Silent => LeadStays(lead, w, w', i, l);
    case Prepares(r) =>
    case Accepts(r) =>
      if cross {
        var k := |l.books.log|;
        assert ran.s.books.log[k].tid == req.tid && ran.s.books.log[k].status == Prepared;
      }
    case Commits(r) =>
  }

  /** Acknowledging a cross-shard prepare: the accept majority contains a follower that logged it. */
  lemma AckBacked(lead: Leaders, reqs: Requests, w: World, leg: Leg)
    requires BackInv(lead, reqs, w) && leg in w.active
    requires
      var answer := RunPaxos(w.servers[Place(w, leg)], reqs[leg.tid], true).answer;
      answer.Some? && answer.value.ack
    ensures Backed(lead, w, Side(reqs, w, leg), leg.tid)
  {
  }

  lemma RunAtLater(w: World, i: int, req: TransferReq, cross: bool)
    requires i in w.servers
    ensures Later(w, RunAt(w, i, req, cross))
  {
    LogGrows(w.servers[i], Run(req, cross));
  }

  lemma ClientStays(lead: Leaders, reqs: Requests, w: World, w': World)
    requires RoutesOk(lead, reqs, w) && TalliesOk(w) && w'.home == w.home
    requires w'.client == w.client && w'.open == w.open && w'.route == w.route
    requires w'.answers == w.answers && w'.verdicts == w.verdicts
    ensures RoutesOk(lead, reqs, w') && TalliesOk(w')
  {
  }

  /** One server's step keeps the invariant if its own part, the accepts and the new votes are in order. */
  lemma Assemble(lead: Leaders, reqs: Requests, w: World, w': World, i: int)
    requires Support(lead, reqs, w) && Later(w, w') && i in w.servers
    requires forall j :: j in w.servers && j != i ==> w'.servers[j] == w.servers[j]
    requires w'.client == w.client && w'.open == w.open && w'.route == w.route
    requires w'.answers == w.answers && w'.verdicts == w.verdicts
    requires forall x :: x in w'.asking && x !in w.asking ==> x.0 == i
    requires forall v :: v in w'.votes && v !in w.votes ==> VoteOk(w', v.0, v.1, v.2)
    requires Leads(lead, w.servers[i], i) ==> LeadOk(lead, w', i, w'.servers[i])
    ensures Support(lead, reqs, w')
  {
    hide BackInv, LeadOk, VoteOk, Backed, RoutesOk, TalliesOk;
    ClientStays(lead, reqs, w, w');
    RestStays(lead, reqs, w, w');
    forall k | k in lead ensures LeadOk(lead, w', lead[k], w'.servers[lead[k]]) {
      if lead[k] != i {
        LeadStays(lead, w, w', lead[k], w.servers[lead[k]]);
      }
    }
  }

  lemma RunBacked(lead: Leaders, reqs: Requests, w: World, i: int, req: TransferReq, cross: bool)
    requires BackInv(lead, reqs, w) && i in w.servers && Leads(lead, w.servers[i], i) && Issued(reqs, req)
    requires cross == (w.home(req.txn.sender) != w.home(req.txn.receiver))
    ensures BackInv(lead, reqs, RunAt(w, i, req, cross))
  {
    TwoPhase.RunKept(reqs, w, i, req, cross);
    RunAtLater(w, i, req, cross);
    RunLead(lead, reqs, w, i, req, cross);
    Assemble(lead, reqs, w, RunAt(w, i, req, cross), i);
  }

  /** A positive answer of a leader is backed in the world after the call, too. */
  lemma AnswerBacked(lead: Leaders, reqs: Requests, w: World, leg: Leg, w': World)
    requires BackInv(lead, reqs, w) && leg in w.active && Later(w, w')
    requires
      var answer := RunPaxos(w.servers[Place(w, leg)], reqs[leg.tid], true).answer;
      answer.Some? && answer.value.ack
    ensures Backed(lead, w', Side(reqs, w', leg), leg.tid)
  {
    AckBacked(lead, reqs, w, leg);
    var k := Side(reqs, w, leg);
    LoggedStays(w.servers[lead[k]], w'.servers[lead[k]], leg.tid);
    FollowerLoggedStays(lead, w, w', k, leg.tid);
  }

  lemma AnswerRecorded(lead: Leaders, reqs: Requests, w: World, leg: Leg, answer: Option<TransferRes>)
    requires Support(lead, reqs, w) && leg.tid in reqs
    requires answer.Some? && answer.value.ack ==> Backed(lead, w, Side(reqs, w, leg), leg.tid)
    ensures Support(lead, reqs, Recorded(w, leg, answer))
  {
    var w' := Recorded(w, leg, answer);
    if answer.Some? {
      if answer.value.ack {
        LaterBacked(lead, w, w', Side(reqs, w', leg), leg.tid);
      }
      AnswersAdded(lead, reqs, w, w');
    }
  }

  lemma LegPlaced(lead: Leaders, reqs: Requests, w: World, leg: Leg)
    requires BackInv(lead, reqs, w) && leg in w.active
    ensures
      var i, req := Place(w, leg), reqs[leg.tid];
      && Leads(lead, w.servers[i], i) && Issued(reqs, req) && w.home(req.txn.sender) != w.home(req.txn.receiver)
  {
  }

  lemma RunLegBacked(lead: Leaders, reqs: Requests, w: World, leg: Leg)
    requires BackInv(lead, reqs, w) && leg in w.active
    ensures
      var w' := RunAt(w, Place(w, leg), reqs[leg.tid], true);
      BackInv(lead, reqs, w') && Later(w, w')
  {
    LegPlaced(lead, reqs, w, leg);
    RunBacked(lead, reqs, w, Place(w, leg), reqs[leg.tid], true);
    RunAtLater(w, Place(w, leg), reqs[leg.tid], true);
  }

  lemma CrossBacked(lead: Leaders, reqs: Requests, w: World, leg: Leg, w1: World, answer: Option<TransferRes>)
    requires BackInv(lead, reqs, w) && leg in w.active
    requires w1 == RunAt(w, Place(w, leg), reqs[leg.tid], true)
    requires answer == RunPaxos(w.servers[Place(w, leg)], reqs[leg.tid], true).answer
    ensures Support(lead, reqs, Recorded(w1, leg, answer))
  {
    RunLegBacked(lead, reqs, w, leg);
    if answer.Some? && answer.value.ack {
      AnswerBacked(lead, reqs, w, leg, w1);
    }
    AnswerRecorded(lead, reqs, w1, leg, answer);
  }

  lemma LaterBacked(lead: Leaders, w: World, w': World, cluster: int, tid: int)
    requires Backed(lead, w, cluster, tid) && w'.servers == w.servers
    ensures Backed(lead, w', cluster, tid)
  {
  }

  /** Recording an answer, or nothing, changes neither servers nor votes. */
  lemma AnswersAdded(lead: Leaders, reqs: Requests, w: World, w': World)
    requires Support(lead, reqs, w)
    requires w' == w.(active := w'.active, answers := w'.answers) && w.answers <= w'.answers
    requires forall a :: a in w'.answers && a !in w.answers && a.1 ==>
               a.0.tid in reqs && Backed(lead, w', Side(reqs, w', a.0), a.0.tid)
    ensures Support(lead, reqs, w')
  {
    hide LeadOk, Backed;
    RestStays(lead, reqs, w, w');
    forall k | k in lead ensures LeadOk(lead, w', lead[k], w'.servers[lead[k]]) {
      LeadStays(lead, w, w', lead[k], w.servers[lead[k]]);
    }
  }

  // ---------- other handlers ----------

  /** A vote counted by a leader is for its current Accept, so the voter logged that transaction. */
  lemma CountedVote(lead: Leaders, w: World, i: int, f: int, a: AcceptReq, res: AcceptRes)
    requires i in w.servers && Leads(lead, w.servers[i], i) && LeadOk(lead, w, i, w.servers[i])
    requires (i, f, a) in w.asking && (f, a, res) in w.votes && VoteOk(w, f, a, res)
    requires forall j :: j in w.servers ==> w.servers[j].shard.home == w.home
    requires
      var l := w.servers[i];
      l.round.awaitAccept && Mine(l, res.ballot, l.acceptor.acceptNum) && res.ack && OneSided(l, l.acceptor.acceptVal.txn)
    ensures FollowerLogged(lead, w.servers, w.servers[i].shard.id, w.servers[i].acceptor.acceptVal.tid)
  {
    assert CallOk(w, w.servers[i], (i, f, a));
  }

  lemma ServeLead(lead: Leaders, reqs: Requests, w: World, i: int, e: Event)
    requires BackInv(lead, reqs, w) && i in w.servers && Leads(lead, w.servers[i], i) && LeadEvent(w, i, e) && !e.Run?
    ensures LeadOk(lead, w, i, Handle(w.servers[i], e))
  {
    var l := w.servers[i];
    var l' := Handle(l, e);
    assert LeadOk(lead, w, i, l);
    LogGrows(l, e);
    if l'.round.awaitAccept {
      if OneSided(l, l.acceptor.acceptVal.txn) {
        LoggedStays(l, l', l.acceptor.acceptVal.tid);
        if e.AcceptReply? && e.status == Ok && e.acceptRes.ack && Mine(l, e.acceptRes.ballot, l.acceptor.acceptNum) {
          var f :| (i, f, e.acceptSent) in w.asking && (f, e.acceptSent, e.acceptRes) in w.votes;
          assert VoteOk(w, (f, e.acceptSent, e.acceptRes).0, e.acceptSent, e.acceptRes);
          CountedVote(lead, w, i, f, e.acceptSent, e.acceptRes);
        }
      }
    }
  }

  lemma ServeVotes(reqs: Requests, w: World, i: int, a: AcceptReq)
    requires i in w.servers && (w.servers[i].shard.id, a) in w.accepts
    ensures VoteOk(ServeAt(w, i, AcceptCall(a)), i, a, OnAccept(w.servers[i], a).1)
  {
    var s, w' := w.servers[i], ServeAt(w, i, AcceptCall(a));
    var s' := w'.servers[i];
    if OnAccept(s, a).1.ack {
      assert s'.shard == s.shard;
      if OneSided(s', a.r.txn) {
        var k := |s.books.log|;
        assert s'.books.log[k].tid == a.r.tid && s'.books.log[k].status == Prepared;
      }
    }
  }

  lemma ServeLater(w: World, i: int, e: Event)
    requires i in w.servers
    ensures Later(w, ServeAt(w, i, e))
  {
    LogGrows(w.servers[i], e);
  }

  lemma ServeBacked(lead: Leaders, reqs: Requests, w: World, i: int, e: Event)
    requires BackInv(lead, reqs, w) && i in w.servers && Deliverable(w, i, e)
    requires Leads(lead, w.servers[i], i) ==> LeadEvent(w, i, e)
    ensures Support(lead, reqs, ServeAt(w, i, e))
  {
    var w' := ServeAt(w, i, e);
    ServeLater(w, i, e);
    if e.AcceptCall? {
      ServeVotes(reqs, w, i, e.accept);
    }
    if Leads(lead, w.servers[i], i) {
      ServeLead(lead, reqs, w, i, e);
      LogGrows(w.servers[i], e);
      LeadStays(lead, w, w', i, w'.servers[i]);
    }
    Assemble(lead, reqs, w, w', i);
  }

  lemma EndBacked(lead: Leaders, reqs: Requests, w: World, i: int, f: int, e: Event)
    requires BackInv(lead, reqs, w) && Possible(reqs, w, CallEnds(i, f, e))
    ensures Support(lead, reqs, EndAt(w, i, f, e))
  {
    ServeBacked(lead, reqs, w, i, e);
    FewerCalls(lead, reqs, ServeAt(w, i, e), w.asking - {(i, f, e.acceptSent)});
  }

  lemma FewerCalls(lead: Leaders, reqs: Requests, w: World, fewer: set<(int, int, AcceptReq)>)
    requires Support(lead, reqs, w) && fewer <= w.asking
    ensures Support(lead, reqs, w.(asking := fewer))
  {
    hide LeadOk, VoteOk, Backed, RoutesOk, TalliesOk;
    var w' := w.(asking := fewer);
    ClientStays(lead, reqs, w, w');
    RestStays(lead, reqs, w, w');
    forall k | k in lead ensures LeadOk(lead, w', lead[k], w'.servers[lead[k]]) {
      LeadStays(lead, w, w', lead[k], w.servers[lead[k]]);
    }
  }

  // ---------- the client ----------

  lemma JudgeBacked(lead: Leaders, reqs: Requests, w: World, leg: Leg, e: Ended)
    requires BackInv(lead, reqs, w) && leg in w.open
    requires e == FAILED || (e == Ended(true, TransferRes(e.res.ack, leg.tid)) && (leg, e.res.ack) in w.answers)
    ensures Support(lead, reqs, Judge(w.(open := w.open - {leg}), e))
  {
    var w' := Judge(w.(open := w.open - {leg}), e);
    RestStays(lead, reqs, w, w');
    forall k | k in lead ensures LeadOk(lead, w', lead[k], w'.servers[lead[k]]) {
      LeadStays(lead, w, w', lead[k], w.servers[lead[k]]);
    }
    TalliesStay(reqs, w, leg, e);
  }

  lemma TalliesStay(reqs: Requests, w: World, leg: Leg, e: Ended)
    requires TwoPhase.Inv(reqs, w) && TalliesOk(w) && leg in w.open
    requires e == FAILED || (e == Ended(true, TransferRes(e.res.ack, leg.tid)) && (leg, e.res.ack) in w.answers)
    ensures TalliesOk(Judge(w.(open := w.open - {leg}), e))
  {
  }

  lemma IssueTallies(w: World, req: TransferReq, s: int, r: int)
    requires TalliesOk(w) && req.tid !in w.client && req.tid != 0
    ensures TalliesOk(IssueAt(w, req, s, r))
  {
  }

  lemma IssueBacked(lead: Leaders, reqs: Requests, w: World, req: TransferReq, s: int, r: int)
    requires Support(lead, reqs, w) && req.tid !in w.client && req.tid != 0 && req.tid in reqs && reqs[req.tid] == req
    requires w.home(req.txn.sender) in lead && s == lead[w.home(req.txn.sender)]
    requires w.home(req.txn.receiver) in lead && r == lead[w.home(req.txn.receiver)]
    ensures Support(lead, reqs, IssueAt(w, req, s, r))
  {
    var w' := IssueAt(w, req, s, r);
    RestStays(lead, reqs, w, w');
    forall k | k in lead ensures LeadOk(lead, w', lead[k], w'.servers[lead[k]]) {
      LeadStays(lead, w, w', lead[k], w.servers[lead[k]]);
    }
    IssueTallies(w, req, s, r);
  }

  lemma NextBacked(lead: Leaders, reqs: Requests, w: World, step: Step)
    requires BackInv(lead, reqs, w) && Possible(reqs, w, step) && LedStep(lead, reqs, w, step)
    ensures BackInv(lead, reqs, Next(reqs, w, step))
  {
    hide Support;
    TwoPhase.NextKept(reqs, w, step);
    match step
    case Issue(tid, s, r) => IssueBacked(lead, reqs, w, reqs[tid], s, r);
    case RunCross(leg) =>
      CrossBacked(lead, reqs, w, leg, RunAt(w, Place(w, leg), reqs[leg.tid], true),
                  RunPaxos(w.servers[Place(w, leg)], reqs[leg.tid], true).answer);
    case RunLocal(i, req) => RunBacked(lead, reqs, w, i, req, false);
    case Serve(i, e) => ServeBacked(lead, reqs, w, i, e);
    case CallEnds(i, f, e) => EndBacked(lead, reqs, w, i, f, e);
    case Hear(leg, ack) => JudgeBacked(lead, reqs, w, leg, Ended(true, TransferRes(ack, leg.tid)));
    case Fail(leg) => JudgeBacked(lead, reqs, w, leg, FAILED);
  }

  ghost predicate LedPath(lead: Leaders, reqs: Requests, ws: seq<World>, steps: seq<Step>) {
    && Path(reqs, ws, steps) && Fresh(reqs, ws[0]) && Led(lead, ws[0])
    && forall k :: 0 <= k < |steps| ==> LedStep(lead, reqs, ws[k], steps[k])
  }

  lemma {:induction false} LedPathKept(lead: Leaders, reqs: Requests, ws: seq<World>, steps: seq<Step>)
    requires LedPath(lead, reqs, ws, steps)
    ensures BackInv(lead, reqs, ws[|steps|])
    decreases |steps|
  {
    if steps == [] {
      TwoPhase.PathKept(reqs, ws, steps);
    } else {
      var k := |steps| - 1;
      LedPathKept(lead, reqs, ws[..|steps|], steps[..k]);
      NextBacked(lead, reqs, ws[k], steps[k]);
    }
  }

  /** A committed cross-shard entry on any server: both legs acked, and both clusters have it PREPARED twice. */
  lemma CommitBacked(lead: Leaders, reqs: Requests, ws: seq<World>, steps: seq<Step>, i: int, m: nat)
    requires LedPath(lead, reqs, ws, steps)
    requires i in ws[|steps|].servers && m < |ws[|steps|].servers[i].books.log|
    requires
      var e := ws[|steps|].servers[i].books.log[m];
      e.status == Committed && ws[0].home(e.txn.sender) != ws[0].home(e.txn.receiver)
    ensures
      var w := ws[|steps|];
      var e := w.servers[i].books.log[m];
      && (Leg(e.tid, true), true) in w.answers && (Leg(e.tid, false), true) in w.answers
      && Backed(lead, w, ws[0].home(e.txn.sender), e.tid)
      && Backed(lead, w, ws[0].home(e.txn.receiver), e.tid)
  {
    LedPathKept(lead, reqs, ws, steps);
    SameHome(reqs, ws, steps);
    var w := ws[|steps|];
    var e := w.servers[i].books.log[m];
    assert Sane(reqs, w.home, w.verdicts, w.servers[i]);
    assert Justified(reqs, w.home, w.verdicts, e);
    var v :| v in w.verdicts && v.tid == e.tid && v.commit;
    assert Backed(lead, w, Side(reqs, w, Leg(e.tid, true)), e.tid);
    assert Backed(lead, w, Side(reqs, w, Leg(e.tid, false)), e.tid);
  }

  lemma {:induction false} SameHome(reqs: Requests, ws: seq<World>, steps: seq<Step>)
    requires Path(reqs, ws, steps)
    ensures ws[|steps|].home == ws[0].home
    decreases |steps|
  {
    hide Handle, RunPaxos, Possible;
    if steps != [] {
      SameHome(reqs, ws[..|steps|], steps[..|steps| - 1]);
      assert ws[|steps|] == Next(reqs, ws[|steps| - 1], steps[|steps| - 1]);
    }
  }
}
