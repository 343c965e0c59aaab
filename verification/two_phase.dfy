/**
 Two-phase commit across clusters: every server of every cluster, the coordinating client,
 and a network that may lose, delay, reorder and repeat what servers send to each other.
 A call of the client is answered or fails at most once, and an Accept call ends at most once.
 */
module TwoPhase {
  import opened Types
  import opened ServerModel
  import opened Participant
  import opened Coordinator

  /** One of the two prepare calls of a cross-shard transaction. */
  datatype Leg = Leg(tid: int, toSender: bool)

  datatype World = World(
    home: int -> int,
    servers: map<int, Server>,
    accepts: set<(int, AcceptReq)>,    // every Accept ever broadcast, by cluster
    asking: set<(int, int, AcceptReq)>,         // Accept calls not ended yet: by whom, to whom
    votes: set<(int, AcceptReq, AcceptRes)>,    // every answer to one, by its author
    copies: set<(int, SyncRes)>,       // every Sync answer, by cluster
    client: Processing,
    route: map<int, (int, int)>,       // where the client sent the prepares of a tid
    open: set<Leg>,                    // calls the client has not seen end
    active: set<Leg>,                  // requests a server is still retrying
    answers: set<(Leg, bool)>,         // answers servers gave to the client
    verdicts: set<Verdict>)

  datatype Step =
    | Issue(tid: int, senderLeader: int, receiverLeader: int)
    | RunCross(leg: Leg)                       // a server runs a prepare request or retries it
    | RunLocal(i: int, req: TransferReq)       // a server runs an intra-shard transfer or retries it
    | Serve(i: int, e: Event)                  // any other handler
    | CallEnds(i: int, to: int, e: Event)      // an Accept call ends, answered or not
    | Hear(leg: Leg, ack: bool)             // an answer reaches the client
    | Fail(leg: Leg)                        // a prepare call fails

  function Place(w: World, leg: Leg): int
    requires leg.tid in w.route
  {
    if leg.toSender then w.route[leg.tid].0 else w.route[leg.tid].1
  }

  ghost predicate Possible(reqs: Requests, w: World, step: Step) {
    match step
    case Issue(tid, s, r) =>
      tid in reqs && tid !in w.route && s in w.servers && r in w.servers &&
      w.home(reqs[tid].txn.sender) != w.home(reqs[tid].txn.receiver)
    case RunCross(leg) => leg in w.active
    case RunLocal(i, req) =>
      i in w.servers && Issued(reqs, req) && w.home(req.txn.sender) == w.home(req.txn.receiver)
    case Serve(i, e) => i in w.servers && Deliverable(w, i, e)
    case CallEnds(i, f, e) =>
      && i in w.servers && e.AcceptReply? && (i, f, e.acceptSent) in w.asking
      && (e.status == Ok ==> (f, e.acceptSent, e.acceptRes) in w.votes)
    case Hear(leg, ack) => leg in w.open && (leg, ack) in w.answers
    case Fail(leg) => leg in w.open
  }

  /** Accepts, Sync answers and decisions are only delivered if sent to this cluster; all else is free. */
  ghost predicate Deliverable(w: World, i: int, e: Event)
    requires i in w.servers
  {
    var cluster := w.servers[i].shard.id;
    && !e.Run?
    && (e.AcceptCall? ==> (cluster, e.accept) in w.accepts)
    && (e.SyncReply? && e.status == Ok ==> (cluster, e.syncRes) in w.copies)
    && (e.Decision? ==> exists v :: v in w.verdicts && v.tid == e.tid && v.commit == e.isCommit &&
                                    cluster in {v.senderCluster, v.receiverCluster})
  }

  /** The Accept calls of one broadcast, to every other server of the cluster. */
  function Calls(w: World, i: int, out: Broadcast): set<(int, int, AcceptReq)>
    requires i in w.servers
  {
    if out.Accepts? then set f | f in w.servers && f != i && w.servers[f].shard.id == w.servers[i].shard.id :: (i, f, out.a)
    else {}
  }

  function RunAt(w: World, i: int, req: TransferReq, cross: bool): World
    requires i in w.servers
  {
    var ran := RunPaxos(w.servers[i], req, cross);
    w.(servers := w.servers[i := ran.s],
       accepts := w.accepts + (if ran.out.Accepts? then {(w.servers[i].shard.id, ran.out.a)} else {}),
       asking := w.asking + Calls(w, i, ran.out))
  }

  /** Both prepares of a cross-shard transfer are sent and its tally starts at zero. */
  function IssueAt(w: World, req: TransferReq, s: int, r: int): World {
    var legs := {Leg(req.tid, true), Leg(req.tid, false)};
    w.(client := w.client[req.tid := Tally(req.txn, 0, 0)], route := w.route[req.tid := (s, r)],
       open := w.open + legs, active := w.active + legs)
  }

  function ServeAt(w: World, i: int, e: Event): World
    requires i in w.servers
  {
    var s := w.servers[i];
    w.(servers := w.servers[i := Handle(s, e)],
       votes := w.votes + (if e.AcceptCall? then {(i, e.accept, OnAccept(s, e.accept).1)} else {}),
       copies := w.copies + (if e.SyncCall? then {(s.shard.id, OnSync(s, e.sync))} else {}))
  }

  function EndAt(w: World, i: int, f: int, e: Event): World
    requires i in w.servers && e.AcceptReply?
  {
    ServeAt(w, i, e).(asking := w.asking - {(i, f, e.acceptSent)})
  }

  /** A finished request is not retried any more and its answer is on the way. */
  function Recorded(w: World, leg: Leg, answer: Option<TransferRes>): World {
    if answer.None? then w
    else w.(active := w.active - {leg}, answers := w.answers + {(leg, answer.value.ack)})
  }

  function Judge(w: World, e: Ended): World {
    var (client, v) := Consume(w.home, w.client, e);
    w.(client := client, verdicts := w.verdicts + (if v.Some? then {v.value} else {}))
  }

  ghost predicate WellFormed(reqs: Requests, w: World) {
    && (forall t :: t in reqs ==> reqs[t].tid == t && t > 0)
    && (forall i :: i in w.servers ==> w.servers[i].shard.home == w.home && w.servers[i].shard.Sound())
    && (forall leg :: leg in w.active || leg in w.open ==> leg.tid in w.route)
    && (forall t :: t in w.route ==> t in reqs && w.route[t].0 in w.servers && w.route[t].1 in w.servers &&
                                     w.home(reqs[t].txn.sender) != w.home(reqs[t].txn.receiver))
  }

  ghost function Next(reqs: Requests, w: World, step: Step): World
    requires WellFormed(reqs, w) && Possible(reqs, w, step)
  {
    match step
    case Issue(tid, s, r) =>
      IssueAt(w, reqs[tid], s, r)
    case RunCross(leg) =>
      Recorded(RunAt(w, Place(w, leg), reqs[leg.tid], true), leg,
               RunPaxos(w.servers[Place(w, leg)], reqs[leg.tid], true).answer)
    case RunLocal(i, req) => RunAt(w, i, req, false)
    case Serve(i, e) => ServeAt(w, i, e)
    case CallEnds(i, f, e) => EndAt(w, i, f, e)
    case Hear(leg, ack) => Judge(w.(open := w.open - {leg}), Ended(true, TransferRes(ack, leg.tid)))
    case Fail(leg) => Judge(w.(open := w.open - {leg}), FAILED)
  }

  // ---------- one decision per transaction ----------

  function Unanswered(open: set<Leg>, tid: int): nat {
    (if Leg(tid, true) in open then 1 else 0) + (if Leg(tid, false) in open then 1 else 0)
  }

  ghost predicate TallyOk(reqs: Requests, w: World, tid: int) {
    if tid in w.client then
      && tid in reqs && w.client[tid].txn == reqs[tid].txn && w.client[tid].successes >= 0 && w.client[tid].failures >= 0
      && w.client[tid].successes + w.client[tid].failures + Unanswered(w.open, tid) <= 2
      && (forall v :: v in w.verdicts ==> v.tid != tid)
    else Unanswered(w.open, tid) == 0
  }

  ghost predicate ClientOk(reqs: Requests, w: World) {
    && (forall t :: t in w.client && t != 0 ==> t in w.route)
    && (forall t :: t in w.route ==> TallyOk(reqs, w, t))
    && (0 in w.client ==> w.client[0].txn == Transaction(0, 0, 0))
    && (forall v :: v in w.verdicts ==>
          if v.tid == 0 then v.senderCluster == v.receiverCluster == w.home(0)
          else v.tid in w.route && v.tid in reqs && v.senderCluster == w.home(reqs[v.tid].txn.sender)
                                && v.receiverCluster == w.home(reqs[v.tid].txn.receiver))
    && (forall u, v :: u in w.verdicts && v in w.verdicts && u.tid == v.tid && u.tid != 0 ==> u == v)
  }

  lemma JudgeKept(reqs: Requests, w: World, leg: Leg, e: Ended)
    requires WellFormed(reqs, w) && ClientOk(reqs, w) && leg in w.open
    requires e == FAILED || (e.ok && e.res.tid == leg.tid)
    ensures ClientOk(reqs, Judge(w.(open := w.open - {leg}), e))
    ensures WellFormed(reqs, Judge(w.(open := w.open - {leg}), e))
  {
  }

  // ---------- outcomes in the logs ----------

  ghost predicate Decided(verdicts: set<Verdict>, tid: int, commit: bool) {
    exists v :: v in verdicts && v.tid == tid && v.commit == commit
  }

  /** A logged outcome of a cross-shard transaction is the client's decision; only those abort. */
  ghost predicate Justified(reqs: Requests, home: int -> int, verdicts: set<Verdict>, e: Entry) {
    var crosses := home(e.txn.sender) != home(e.txn.receiver);
    && Issued(reqs, TransferReq(e.tid, e.txn))
    && (e.status == Committed && crosses ==> Decided(verdicts, e.tid, true))
    && (e.status == Aborted ==> crosses && Decided(verdicts, e.tid, false))
    && (e.status == Prepared ==> crosses)
  }

  ghost predicate AllJustified(reqs: Requests, home: int -> int, verdicts: set<Verdict>, log: seq<Entry>) {
    forall k :: 0 <= k < |log| ==> Justified(reqs, home, verdicts, log[k])
  }

  ghost predicate PendingOk(reqs: Requests, home: int -> int, pending: map<int, Entry>) {
    forall t :: t in pending ==> pending[t].tid == t && Issued(reqs, TransferReq(t, pending[t].txn)) &&
                                 home(pending[t].txn.sender) != home(pending[t].txn.receiver)
  }

  ghost predicate Sane(reqs: Requests, home: int -> int, verdicts: set<Verdict>, s: Server) {
    && s.shard.home == home && s.shard.Sound()
    && AllJustified(reqs, home, verdicts, s.books.log)
    && PendingOk(reqs, home, s.books.pending)
    && (s.acceptor.acceptVal == NO_REQUEST || Issued(reqs, s.acceptor.acceptVal))
  }

  ghost predicate Inv(reqs: Requests, w: World) {
    && WellFormed(reqs, w)
    && ClientOk(reqs, w)
    && (forall i :: i in w.servers ==> Sane(reqs, w.home, w.verdicts, w.servers[i]))
    && (forall a :: a in w.accepts ==> Issued(reqs, a.1.r))
    && (forall c :: c in w.copies ==> AllJustified(reqs, w.home, w.verdicts, c.1.logs))
  }

  lemma MoreVerdicts(reqs: Requests, home: int -> int, verdicts: set<Verdict>, more: set<Verdict>, log: seq<Entry>)
    requires AllJustified(reqs, home, verdicts, log) && verdicts <= more
    ensures AllJustified(reqs, home, more, log)
  {
  }

  lemma RunSane(reqs: Requests, home: int -> int, verdicts: set<Verdict>, s: Server, req: TransferReq, cross: bool)
    requires Sane(reqs, home, verdicts, s) && Issued(reqs, req)
    requires cross == (home(req.txn.sender) != home(req.txn.receiver))
    ensures Sane(reqs, home, verdicts, RunPaxos(s, req, cross).s)
    ensures RunPaxos(s, req, cross).out.Accepts? ==> RunPaxos(s, req, cross).out.a.r == req
  {
  }

  lemma AcceptSane(reqs: Requests, home: int -> int, verdicts: set<Verdict>, s: Server, a: AcceptReq)
    requires Sane(reqs, home, verdicts, s) && Issued(reqs, a.r)
    ensures Sane(reqs, home, verdicts, OnAccept(s, a).0)
  {
  }

  /** A follower commits only what its own cluster owns on both sides, so never a cross-shard transfer. */
  lemma CommitSane(reqs: Requests, home: int -> int, verdicts: set<Verdict>, s: Server, c: CommitReq)
    requires Sane(reqs, home, verdicts, s)
    ensures Sane(reqs, home, verdicts, OnCommit(s, c))
  {
  }

  lemma {:induction false} ReplaySane(reqs: Requests, home: int -> int, verdicts: set<Verdict>, shard: Shard, books: Books, es: seq<Entry>)
    requires AllJustified(reqs, home, verdicts, books.log) && PendingOk(reqs, home, books.pending)
    requires AllJustified(reqs, home, verdicts, es)
    ensures AllJustified(reqs, home, verdicts, ReplayAll(shard, books, es).log)
    ensures PendingOk(reqs, home, ReplayAll(shard, books, es).pending)
    decreases |es|
  {
    if es != [] {
      ReplaySane(reqs, home, verdicts, shard, books, es[..|es| - 1]);
      assert Justified(reqs, home, verdicts, es[|es| - 1]);
    }
  }

  lemma DecideSane(reqs: Requests, home: int -> int, verdicts: set<Verdict>, s: Server, tid: int, commit: bool)
    requires Sane(reqs, home, verdicts, s) && Decided(verdicts, tid, commit)
    ensures Sane(reqs, home, verdicts, Decide(s, tid, commit))
  {
  }

  lemma ServeSane(reqs: Requests, w: World, i: int, e: Event)
    requires Inv(reqs, w) && i in w.servers && Deliverable(w, i, e)
    ensures Sane(reqs, w.home, w.verdicts, Handle(w.servers[i], e))
    ensures Handle(w.servers[i], e).shard == w.servers[i].shard
  {
    var s := w.servers[i];
    assert Sane(reqs, w.home, w.verdicts, s);
    match e
    case AcceptCall(a) => AcceptSane(reqs, w.home, w.verdicts, s, a);
    case CommitCall(c) => CommitSane(reqs, w.home, w.verdicts, s, c);
    case SyncReply(st, r) =>
      if st == Ok && r.ack {
        assert AllJustified(reqs, w.home, w.verdicts, (s.shard.id, r).1.logs);
        ReplaySane(reqs, w.home, w.verdicts, s.shard, s.books, r.logs);
      }
    case Decision(tid, commit) => DecideSane(reqs, w.home, w.verdicts, s, tid, commit);
    case _ =>
  }

  lemma RunKept(reqs: Requests, w: World, i: int, req: TransferReq, cross: bool)
    requires Inv(reqs, w) && i in w.servers && Issued(reqs, req)
    requires cross == (w.home(req.txn.sender) != w.home(req.txn.receiver))
    ensures Inv(reqs, RunAt(w, i, req, cross))
  {
    RunSane(reqs, w.home, w.verdicts, w.servers[i], req, cross);
    var w' := RunAt(w, i, req, cross);
    forall t | t in w.route ensures TallyOk(reqs, w', t) { assert TallyOk(reqs, w, t); }
  }

  lemma ServeKept(reqs: Requests, w: World, i: int, e: Event)
    requires Inv(reqs, w) && i in w.servers && Deliverable(w, i, e)
    ensures Inv(reqs, ServeAt(w, i, e))
  {
    hide Handle, PendingOk, Justified, OnAccept;
    ServeSane(reqs, w, i, e);
    var w' := ServeAt(w, i, e);
    assert w'.servers[i].shard == w.servers[i].shard;
    forall t | t in w.route ensures TallyOk(reqs, w', t) { assert TallyOk(reqs, w, t); }
    assert Sane(reqs, w.home, w.verdicts, w.servers[i]);
  }

  lemma EndKept(reqs: Requests, w: World, i: int, f: int, e: Event)
    requires Inv(reqs, w) && Possible(reqs, w, CallEnds(i, f, e))
    ensures Inv(reqs, EndAt(w, i, f, e))
  {
    hide ServeAt, Sane, Justified;
    ServeKept(reqs, w, i, e);
    var w', w'' := ServeAt(w, i, e), EndAt(w, i, f, e);
    forall t | t in w.route ensures TallyOk(reqs, w'', t) { assert TallyOk(reqs, w', t); }
  }

  lemma ClientKept(reqs: Requests, w: World, leg: Leg, e: Ended)
    requires Inv(reqs, w) && leg in w.open && (e == FAILED || (e.ok && e.res.tid == leg.tid))
    ensures Inv(reqs, Judge(w.(open := w.open - {leg}), e))
  {
    JudgeKept(reqs, w, leg, e);
    var w' := Judge(w.(open := w.open - {leg}), e);
    forall i | i in w.servers ensures Sane(reqs, w.home, w'.verdicts, w.servers[i]) {
      MoreVerdicts(reqs, w.home, w.verdicts, w'.verdicts, w.servers[i].books.log);
    }
    forall c | c in w.copies ensures AllJustified(reqs, w.home, w'.verdicts, c.1.logs) {
      MoreVerdicts(reqs, w.home, w.verdicts, w'.verdicts, c.1.logs);
    }
  }

  lemma IssueKept(reqs: Requests, w: World, tid: int, s: int, r: int)
    requires Inv(reqs, w) && Possible(reqs, w, Issue(tid, s, r))
    ensures Inv(reqs, Next(reqs, w, Issue(tid, s, r)))
  {
    var w' := Next(reqs, w, Issue(tid, s, r));
    forall t | t in w'.route ensures TallyOk(reqs, w', t) {
      if t != tid { assert TallyOk(reqs, w, t); }
    }
  }

  lemma RecordedKept(reqs: Requests, w: World, leg: Leg, answer: Option<TransferRes>)
    requires Inv(reqs, w)
    ensures Inv(reqs, Recorded(w, leg, answer))
  {
    var w' := Recorded(w, leg, answer);
    forall t | t in w.route ensures TallyOk(reqs, w', t) { assert TallyOk(reqs, w, t); }
  }

  lemma NextKept(reqs: Requests, w: World, step: Step)
    requires Inv(reqs, w) && Possible(reqs, w, step)
    ensures Inv(reqs, Next(reqs, w, step))
  {
    hide RunPaxos, Handle;
    match step
    case Issue(tid, s, r) => IssueKept(reqs, w, tid, s, r);
    case RunCross(leg) =>
      RunKept(reqs, w, Place(w, leg), reqs[leg.tid], true);
      RecordedKept(reqs, RunAt(w, Place(w, leg), reqs[leg.tid], true), leg,
                   RunPaxos(w.servers[Place(w, leg)], reqs[leg.tid], true).answer);
    case RunLocal(i, req) => RunKept(reqs, w, i, req, false);
    case Serve(i, e) => ServeKept(reqs, w, i, e);
    case CallEnds(i, f, e) => EndKept(reqs, w, i, f, e);
    case Hear(leg, ack) => ClientKept(reqs, w, leg, Ended(true, TransferRes(ack, leg.tid)));
    case Fail(leg) => ClientKept(reqs, w, leg, FAILED);
  }

  /** A run: each world follows from the one before by a possible step. */
  ghost predicate Path(reqs: Requests, ws: seq<World>, steps: seq<Step>) {
    && |ws| == |steps| + 1
    && forall k :: 0 <= k < |steps| ==>
         WellFormed(reqs, ws[k]) && Possible(reqs, ws[k], steps[k]) && ws[k + 1] == Next(reqs, ws[k], steps[k])
  }

  ghost predicate Fresh(reqs: Requests, w: World) {
    && WellFormed(reqs, w)
    && w == World(w.home, w.servers, {}, {}, {}, {}, map[], map[], {}, {}, {}, {})
    && (forall i :: i in w.servers ==> w.servers[i] == Initial(i, w.servers[i].shard, w.servers[i].books.balances))
  }

  lemma {:induction false} PathKept(reqs: Requests, ws: seq<World>, steps: seq<Step>)
    requires Path(reqs, ws, steps) && Fresh(reqs, ws[0])
    ensures Inv(reqs, ws[|steps|])
    decreases |steps|
  {
    if steps != [] {
      var k := |steps| - 1;
      PathKept(reqs, ws[..|steps|], steps[..k]);
      NextKept(reqs, ws[k], steps[k]);
    }
  }

  /** Over all servers of all clusters, synchronised copies included, no tid is both committed and aborted. */
  lemma AtomicOutcome(reqs: Requests, ws: seq<World>, steps: seq<Step>, i: int, j: int, m: nat, n: nat)
    requires Path(reqs, ws, steps) && Fresh(reqs, ws[0])
    requires i in ws[|steps|].servers && m < |ws[|steps|].servers[i].books.log|
    requires j in ws[|steps|].servers && n < |ws[|steps|].servers[j].books.log|
    requires ws[|steps|].servers[i].books.log[m].tid == ws[|steps|].servers[j].books.log[n].tid
    requires ws[|steps|].servers[i].books.log[m].status == Committed
    ensures ws[|steps|].servers[j].books.log[n].status != Aborted
  {
    PathKept(reqs, ws, steps);
    var w := ws[|steps|];
    var d, e := w.servers[i].books.log[m], w.servers[j].books.log[n];
    assert Sane(reqs, w.home, w.verdicts, w.servers[i]) && Sane(reqs, w.home, w.verdicts, w.servers[j]);
    assert Justified(reqs, w.home, w.verdicts, d) && Justified(reqs, w.home, w.verdicts, e);
  }
}
