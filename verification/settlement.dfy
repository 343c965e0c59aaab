/**
 Conservation over whole runs. Whoever proposes and synchronises, the money differs from what it
 was by the unequally applied transfers. With one leader per cluster, whose Syncs bring nothing it
 has, every leader applies a cross-shard transfer at most once, and the money is exactly what it
 was as soon as both leaders of every committed transfer have handled the decision.
 */
module Settlement {
  import opened Types
  import opened ServerModel
  import opened Ledger
  import opened Participant
  import opened Coordinator
  import opened TwoPhase
  import opened Backing
  import opened Conservation
  import opened Origins
  import Resync
  import Sharding

  // ---------- the ledger of every server ----------

  ghost predicate AllRefine(w: World) {
    forall i :: i in w.servers ==> RefinesLog(w.servers[i].shard, w.servers[i].books)
  }

  lemma ServeRefines(reqs: Requests, w: World, i: int, e: Event)
    requires TwoPhase.Inv(reqs, w) && Possible(reqs, w, Serve(i, e)) && AllRefine(w)
    ensures Ledger.RefinesLog(w.servers[i].shard, Handle(w.servers[i], e).books)
    ensures Handle(w.servers[i], e).shard == w.servers[i].shard
  {
    if e.SyncReply? && e.status == Ok {
      var c := (w.servers[i].shard.id, e.syncRes);
      assert c in w.copies && AllJustified(reqs, w.home, w.verdicts, c.1.logs);
      forall k | 0 <= k < |e.syncRes.logs| ensures e.syncRes.logs[k].tid != -1 {
        assert Justified(reqs, w.home, w.verdicts, c.1.logs[k]);
      }
      HandleRefines(w.servers[i], e);
    } else if e.AcceptCall? {
      assert (w.servers[i].shard.id, e.accept) in w.accepts;
      AcceptRefines(w.servers[i], e.accept);
    } else if !e.SyncReply? {
      HandleRefines(w.servers[i], e);
    }
  }

  lemma RunAtRefines(w: World, i: int, req: TransferReq, cross: bool)
    requires AllRefine(w) && i in w.servers && req.tid != -1
    ensures AllRefine(RunAt(w, i, req, cross))
  {
    hide RunPaxos, Ledger.RefinesLog;
    RunRefines(w.servers[i], req, cross);
    LogGrows(w.servers[i], Run(req, cross));
  }

  lemma NextRefines(reqs: Requests, w: World, step: Step)
    requires TwoPhase.Inv(reqs, w) && Possible(reqs, w, step) && AllRefine(w)
    ensures AllRefine(Next(reqs, w, step))
  {
    hide Handle, Ledger.RefinesLog, RunAt, Justified, Consume;
    match step
    case RunCross(leg) => RunAtRefines(w, Place(w, leg), reqs[leg.tid], true);
    case RunLocal(i, req) => RunAtRefines(w, i, req, false);
    case Serve(i, e) => ServeRefines(reqs, w, i, e);
    case CallEnds(i, _, e) => ServeRefines(reqs, w, i, e);
    case _ =>
  }

  lemma {:induction false} PathRefines(reqs: Requests, ws: seq<World>, steps: seq<Step>)
    requires Path(reqs, ws, steps) && Fresh(reqs, ws[0]) && AllRefine(ws[0])
    ensures AllRefine(ws[|steps|])
    decreases |steps|
  {
    if steps != [] {
      var k := |steps| - 1;
      PathRefines(reqs, ws[..|steps|], steps[..k]);
      TwoPhase.PathKept(reqs, ws[..|steps|], steps[..k]);
      NextRefines(reqs, ws[k], steps[k]);
    }
  }

  // ---------- every leader prepares and decides a transfer at most once ----------

  ghost predicate Crossing(reqs: Requests, home: int -> int, t: int) {
    t in reqs && home(reqs[t].txn.sender) != home(reqs[t].txn.receiver)
  }

  /** This transfer has exactly one side in the server's cluster. */
  ghost predicate Sided(reqs: Requests, shard: Shard, t: int) {
    t in reqs && shard.Owns(reqs[t].txn.sender) != shard.Owns(reqs[t].txn.receiver)
  }

  /** One transfer in a leader's log: prepared at most once, then pending, then decided, applied at most once. */
  ghost predicate Handled(log: seq<Entry>, t: int, pending: bool, routed: bool) {
    var (p, c, a) := (Count(log, t, Prepared), Count(log, t, Committed), Count(log, t, Aborted));
    && p <= (if routed then 1 else 0) && c <= 1
    && (pending ==> p == 1 && c == 0)
    && (!pending && p == 1 ==> c + a >= 1)
    && (c == 1 ==> p == 1)
  }

  ghost predicate Once(reqs: Requests, routed: set<int>, l: Server) {
    && (forall t :: Sided(reqs, l.shard, t) ==> Handled(l.books.log, t, t in l.books.pending, t in routed))
    && (l.round.awaitAccept && Sided(reqs, l.shard, l.round.tid) ==> Count(l.books.log, l.round.tid, Prepared) == 1)
  }

  /** A request still being retried is PREPARED in its leader's log only while it waits for accepts. */
  ghost predicate Retried(w: World, i: int, l: Server, leg: Leg)
    requires leg.tid in w.route
  {
    Place(w, leg) == i ==> HeldOnce(l, leg.tid)
  }

  ghost predicate HeldOnce(l: Server, tid: int) {
    Count(l.books.log, tid, Prepared) == if l.round.awaitAccept && l.round.tid == tid then 1 else 0
  }

  ghost predicate OnceAll(lead: Leaders, reqs: Requests, w: World) {
    && (forall k :: k in lead && lead[k] in w.servers ==> Once(reqs, w.route.Keys, w.servers[lead[k]]))
    && (forall leg :: leg in w.active ==> leg.tid in w.route && Place(w, leg) in w.servers &&
                                          Retried(w, Place(w, leg), w.servers[Place(w, leg)], leg))
  }

  lemma AppendOnce(log: seq<Entry>, e: Entry, t: int)
    ensures Count(log + [e], t, Prepared) == Count(log, t, Prepared) + (if e.tid == t && e.status == Prepared then 1 else 0)
    ensures Count(log + [e], t, Committed) == Count(log, t, Committed) + (if e.tid == t && e.status == Committed then 1 else 0)
    ensures Count(log + [e], t, Aborted) == Count(log, t, Aborted) + (if e.tid == t && e.status == Aborted then 1 else 0)
  {
    CountAppend(log, e, t, Prepared);
    CountAppend(log, e, t, Committed);
    CountAppend(log, e, t, Aborted);
  }

  lemma ProposeOnce(reqs: Requests, routed: set<int>, l: Server, req: TransferReq, cross: bool)
    requires Once(reqs, routed, l) && Issued(reqs, req)
    requires Sided(reqs, l.shard, req.tid) == cross
    requires cross ==> req.tid in routed && Count(l.books.log, req.tid, Prepared) == 0
    requires l.round.tid == req.tid
    ensures Once(reqs, routed, Propose(l, req, cross))
    ensures forall t :: Count(Propose(l, req, cross).books.log, t, Prepared) ==
                        Count(l.books.log, t, Prepared) + (if cross && t == req.tid then 1 else 0)
  {
    hide Count;
    var l' := Propose(l, req, cross);
    forall t
      ensures cross ==> Count(l'.books.log, t, Prepared) == Count(l.books.log, t, Prepared) + (if t == req.tid then 1 else 0)
      ensures Sided(reqs, l.shard, t) ==> Handled(l'.books.log, t, t in l'.books.pending, t in routed)
    {
      if cross { AppendOnce(l.books.log, PreparedEntry(req, l.acceptor.promisedNum), t); }
    }
  }

  lemma SettleOnce(reqs: Requests, routed: set<int>, l: Server, req: TransferReq, cross: bool)
    requires Once(reqs, routed, l) && Issued(reqs, req) && Sided(reqs, l.shard, req.tid) == cross
    ensures Once(reqs, routed, Settle(l, req, cross))
    ensures forall t :: Count(Settle(l, req, cross).books.log, t, Prepared) == Count(l.books.log, t, Prepared)
  {
    hide Count;
    var l' := Settle(l, req, cross);
    forall t
      ensures Count(l'.books.log, t, Prepared) == Count(l.books.log, t, Prepared)
      ensures Sided(reqs, l.shard, t) ==> Handled(l'.books.log, t, t in l'.books.pending, t in routed)
    {
      AppendOnce(l.books.log, CommittedEntry(req, l.acceptor.acceptNum), t);
    }
  }

  lemma DecideOnce(reqs: Requests, home: int -> int, routed: set<int>, l: Server, tid: int, commit: bool)
    requires Once(reqs, routed, l) && PendingOk(reqs, home, l.books.pending) && l.shard.Sound()
    ensures Once(reqs, routed, Decide(l, tid, commit))
    ensures forall t :: Count(Decide(l, tid, commit).books.log, t, Prepared) == Count(l.books.log, t, Prepared)
  {
    hide Count;
    if tid !in l.books.pending {
      UnknownDecisionChangesNothing(l, tid, commit);
    } else if !l.disconnected {
      var l' := Decide(l, tid, commit);
      forall t
        ensures Count(l'.books.log, t, Prepared) == Count(l.books.log, t, Prepared)
        ensures Sided(reqs, l.shard, t) ==> Handled(l'.books.log, t, t in l'.books.pending, t in routed)
      {
        AppendOnce(l.books.log, Outcome(l.books.pending, tid, commit), t);
      }
    }
  }

  // ---------- a Sync at a leader ----------

  /** The Sync brings no PREPARED or COMMITTED entry of a cross-shard transfer that the leader has, or has it twice. */
  ghost predicate Novel(reqs: Requests, l: Server, res: SyncRes) {
    forall t :: Sided(reqs, l.shard, t) ==>
      && Count(l.books.log + res.logs, t, Prepared) <= 1
      && Count(l.books.log + res.logs, t, Committed) <= 1
  }

  /**
   Of an answering log that extends the asker's, which the asker has not seen: a Sync from it is novel
   exactly if the asker has neither prepared nor committed a cross-shard transfer after its mark.
   */
  lemma NovelFromExtension(reqs: Requests, l: Server, peer: Server)
    requires l.books.log <= peer.books.log && -1 <= l.books.lastInserted < |l.books.log|
    requires OnSync(peer, SyncReq(l.books.lastInserted)).ack
    requires forall t :: Sided(reqs, l.shard, t) ==>
               Count(peer.books.log, t, Prepared) <= 1 && Count(peer.books.log, t, Committed) <= 1
    ensures
      Novel(reqs, l, OnSync(peer, SyncReq(l.books.lastInserted)))
      <==> forall k :: l.books.lastInserted < k < |l.books.log| && Sided(reqs, l.shard, l.books.log[k].tid) ==>
             l.books.log[k].status !in {Prepared, Committed}
  {
    hide Count, Sided;
    var mark := l.books.lastInserted + 1;
    var log, theirs, rest := l.books.log, peer.books.log, l.books.log[mark..];
    var more := OnSync(peer, SyncReq(l.books.lastInserted)).logs;
    forall t, st
      ensures Count(log + more, t, st) == Count(theirs, t, st) + Count(rest, t, st)
      ensures Count(rest, t, st) > 0 <==> exists k :: 0 <= k < |rest| && rest[k].tid == t && rest[k].status == st
      ensures Count(rest, t, st) > 0 ==> Count(theirs, t, st) > 0
    {
      Resync.SyncFromExtension(l, peer, t, st);
      CountFinds(rest, t, st);
      CountFinds(theirs, t, st);
    }
    assert forall k :: mark <= k < |log| ==> log[k] == rest[k - mark];
    if k :| mark <= k < |log| && Sided(reqs, l.shard, log[k].tid) && log[k].status in {Prepared, Committed} {
      assert rest[k - mark].tid == log[k].tid;
      assert Count(rest, log[k].tid, log[k].status) > 0;
      assert Count(log + more, log[k].tid, log[k].status) >= 2;
    }
  }

  /** What a leader's cluster has prepared the leader has, so a novel Sync brings outcomes only. */
  lemma NovelBringsOutcomes(reqs: Requests, l: Server, res: SyncRes, k: nat)
    requires Novel(reqs, l, res) && Rooted(l, res.logs) && k < |res.logs|
    requires Issued(reqs, TransferReq(res.logs[k].tid, res.logs[k].txn))
    ensures res.logs[k].status != Prepared
  {
    if res.logs[k].status == Prepared {
      var t := res.logs[k].tid;
      CountConcat(l.books.log, res.logs, t, Prepared);
      CountFinds(res.logs, t, Prepared);
      CountFinds(l.books.log, t, Prepared);
      assert Sided(reqs, l.shard, t) && Logged(l, t);
    }
  }

  lemma SyncOnce(lead: Leaders, reqs: Requests, w: World, i: int, res: SyncRes)
    requires BackInv(lead, reqs, w) && AllRooted(lead, w)
    requires i in w.servers && Leads(lead, w.servers[i], i) && Once(reqs, w.route.Keys, w.servers[i])
    requires (w.servers[i].shard.id, res) in w.copies && res.ack && w.servers[i].inSync && Novel(reqs, w.servers[i], res)
    ensures Once(reqs, w.route.Keys, OnSyncReply(w.servers[i], Ok, res))
    ensures forall t :: HeldOnce(w.servers[i], t) ==> HeldOnce(OnSyncReply(w.servers[i], Ok, res), t)
  {
    hide Count, ReplayAll;
    var l, l' := w.servers[i], OnSyncReply(w.servers[i], Ok, res);
    var c := (l.shard.id, res);
    assert c in w.copies && AllJustified(reqs, w.home, w.verdicts, c.1.logs) && RootedAt(w, l);
    forall k | 0 <= k < |res.logs| ensures res.logs[k].status != Prepared {
      assert Justified(reqs, w.home, w.verdicts, res.logs[k]);
      NovelBringsOutcomes(reqs, l, res, k);
    }
    forall t
      ensures Count(l'.books.log, t, Prepared) == Count(l.books.log, t, Prepared)
      ensures Sided(reqs, l.shard, t) ==> Handled(l'.books.log, t, t in l'.books.pending, t in w.route)
    {
      SyncCounts(l, res, t);
      if Sided(reqs, l.shard, t) {
        assert Handled(l.books.log, t, t in l.books.pending, t in w.route);
        CommittedIsPrepared(lead, reqs, w, i, res.logs, t);
      }
    }
  }

  /** A Sync that brings outcomes only: what is pending and has no outcome in the answer stays pending. */
  lemma SyncCounts(l: Server, res: SyncRes, t: int)
    requires res.ack && forall k :: 0 <= k < |res.logs| ==> res.logs[k].status != Prepared
    ensures
      var after := OnSyncReply(l, Ok, res).books;
      && after.log == l.books.log + res.logs
      && Count(after.log, t, Prepared) == Count(l.books.log, t, Prepared)
      && Count(after.log, t, Committed) == Count(l.books.log, t, Committed) + Count(res.logs, t, Committed)
      && Count(after.log, t, Aborted) == Count(l.books.log, t, Aborted) + Count(res.logs, t, Aborted)
      && (t in after.pending <==>
          t in l.books.pending && Count(res.logs, t, Committed) == 0 && Count(res.logs, t, Aborted) == 0)
  {
    hide Count, ReplayAll;
    Resync.LogAfterSync(l, res);
    forall st: Status
      ensures Count(l.books.log + res.logs, t, st) == Count(l.books.log, t, st) + Count(res.logs, t, st)
      ensures Count(res.logs, t, st) > 0 <==> exists k :: 0 <= k < |res.logs| && res.logs[k].tid == t && res.logs[k].status == st
    {
      CountConcat(l.books.log, res.logs, t, st);
      CountFinds(res.logs, t, st);
    }
    ReplayedOutcomes(l.shard, l.books, res.logs, t);
  }

  /** A committed entry of a transfer with a side here is backed by the leader's own PREPARED entry. */
  lemma CommittedIsPrepared(lead: Leaders, reqs: Requests, w: World, i: int, log: seq<Entry>, t: int)
    requires BackInv(lead, reqs, w) && i in w.servers && Leads(lead, w.servers[i], i)
    requires AllJustified(reqs, w.home, w.verdicts, log) && Sided(reqs, w.servers[i].shard, t)
    ensures Count(log, t, Committed) > 0 ==> Count(w.servers[i].books.log, t, Prepared) > 0
  {
    if Count(log, t, Committed) > 0 {
      OutcomesDecided(reqs, w.home, w.verdicts, log, t);
      var side := w.servers[i].shard.Owns(reqs[t].txn.sender);
      assert (Leg(t, side), true) in w.answers;
      assert Backed(lead, w, Side(reqs, w, Leg(t, side)), t);
      CountFinds(w.servers[i].books.log, t, Prepared);
    }
  }

  /** A call of the proposer at a leader, for its own request or another one. */
  lemma RunOnce(reqs: Requests, w: World, l: Server, req: TransferReq, cross: bool)
    requires Once(reqs, w.route.Keys, l) && Orderly(l.round)
    requires Issued(reqs, req) && Sided(reqs, l.shard, req.tid) == cross
    requires cross ==> req.tid in w.route && HeldOnce(l, req.tid)
    ensures Once(reqs, w.route.Keys, RunPaxos(l, req, cross).s)
    ensures RunPaxos(l, req, cross).answer.None? && cross ==> HeldOnce(RunPaxos(l, req, cross).s, req.tid)
    ensures forall t :: Crossing(reqs, w.home, t) && t != req.tid && HeldOnce(l, t) ==> HeldOnce(RunPaxos(l, req, cross).s, t)
  {
    RunCases(l, req, cross);
    match RunPaxos(l, req, cross).out
    case Silent =>
    case Prepares(r) =>
    case Accepts(r) => ProposeOnce(reqs, w.route.Keys, l, req, cross);
    case Commits(r) => SettleOnce(reqs, w.route.Keys, l, req, cross);
  }

  /** A step of a leader other than a call of the proposer; a Sync it takes must be novel. */
  ghost predicate SteadyEvent(reqs: Requests, l: Server, e: Event) {
    e.SyncReply? && e.status == Ok && e.syncRes.ack ==> Novel(reqs, l, e.syncRes)
  }

  lemma ServeOnce(lead: Leaders, reqs: Requests, w: World, i: int, e: Event)
    requires BackInv(lead, reqs, w) && AllRooted(lead, w) && Possible(reqs, w, Serve(i, e))
    requires Leads(lead, w.servers[i], i) && Once(reqs, w.route.Keys, w.servers[i])
    requires LeadEvent(w, i, e) && SteadyEvent(reqs, w.servers[i], e)
    ensures Once(reqs, w.route.Keys, Handle(w.servers[i], e))
    ensures forall t :: HeldOnce(w.servers[i], t) ==> HeldOnce(Handle(w.servers[i], e), t)
  {
    hide Handled, Support, OnPrepare, OnAccept, OnCommit, RunPaxos;
    assert Sane(reqs, w.home, w.verdicts, w.servers[i]);
    if e.Decision? {
      DecideOnce(reqs, w.home, w.route.Keys, w.servers[i], e.tid, e.isCommit);
    } else if e.SyncReply? && e.status == Ok && e.syncRes.ack {
      SyncOnce(lead, reqs, w, i, e.syncRes);
    } else {
      QuietOnce(reqs, w.route.Keys, w.servers[i], e);
    }
  }

  /** Replies and failed Syncs leave log and index alone and open no phase. */
  lemma QuietOnce(reqs: Requests, routed: set<int>, l: Server, e: Event)
    requires Once(reqs, routed, l)
    requires !e.Run? && !e.PrepareCall? && !e.AcceptCall? && !e.CommitCall? && !e.Decision? && Unsynced(e)
    ensures Once(reqs, routed, Handle(l, e))
    ensures forall t :: HeldOnce(l, t) ==> HeldOnce(Handle(l, e), t)
  {
    hide Count, Handled, RunPaxos, OnPrepare, OnAccept, OnCommit;
  }

  // ---------- all leaders ----------

  /** The acting leader's part is in order, and the requests it retries are, too; then so are all. */
  lemma AssembleOnce(lead: Leaders, reqs: Requests, w: World, w': World, i: int)
    requires OnceAll(lead, reqs, w) && Led(lead, w) && RoutesOk(lead, reqs, w)
    requires w'.home == w.home && w'.route == w.route && w'.active <= w.active && w'.servers.Keys == w.servers.Keys
    requires i in w.servers && forall j :: j in w.servers && j != i ==> w'.servers[j] == w.servers[j]
    requires Leads(lead, w.servers[i], i) ==> Once(reqs, w.route.Keys, w'.servers[i])
    requires forall leg :: leg in w'.active && Place(w, leg) == i ==> HeldOnce(w'.servers[i], leg.tid)
    ensures OnceAll(lead, reqs, w')
  {
    forall k | k in lead && lead[k] in w'.servers ensures Once(reqs, w'.route.Keys, w'.servers[lead[k]]) {
      if lead[k] == i {
        assert Leads(lead, w.servers[i], i);
      }
    }
    forall leg | leg in w'.active ensures Retried(w', Place(w', leg), w'.servers[Place(w', leg)], leg) {
      assert Retried(w, Place(w, leg), w.servers[Place(w, leg)], leg);
    }
  }

  /** Every other request retried at the same leader is for another transaction and stays as it was. */
  lemma OthersHeld(lead: Leaders, reqs: Requests, w: World, leg: Leg, s': Server, active: set<Leg>)
    requires BackInv(lead, reqs, w) && OnceAll(lead, reqs, w) && leg in w.active && active <= w.active
    requires forall t :: Crossing(reqs, w.home, t) && t != leg.tid && HeldOnce(w.servers[Place(w, leg)], t) ==> HeldOnce(s', t)
    requires leg in active ==> HeldOnce(s', leg.tid)
    ensures forall x :: x in active && Place(w, x) == Place(w, leg) ==> HeldOnce(s', x.tid)
  {
  }

  lemma RunCrossOnce(lead: Leaders, reqs: Requests, w: World, leg: Leg, i: int, ran: Ran)
    requires BackInv(lead, reqs, w) && OnceAll(lead, reqs, w) && leg in w.active && i == Place(w, leg)
    requires ran == RunPaxos(w.servers[i], reqs[leg.tid], true)
    ensures OnceAll(lead, reqs, Recorded(RunAt(w, i, reqs[leg.tid], true), leg, ran.answer))
  {
    hide RunPaxos, HeldOnce;
    var l := w.servers[i];
    var w' := Recorded(RunAt(w, i, reqs[leg.tid], true), leg, ran.answer);
    LegPlaced(lead, reqs, w, leg);
    assert Retried(w, i, l, leg);
    LegSided(lead, reqs, w, leg);
    assert Once(reqs, w.route.Keys, l) && LeadOk(lead, w, i, l) && Sided(reqs, l.shard, leg.tid);
    RunOnce(reqs, w, l, reqs[leg.tid], true);
    OthersHeld(lead, reqs, w, leg, ran.s, w'.active);
    AssembleOnce(lead, reqs, w, w', i);
  }

  lemma RunLocalOnce(lead: Leaders, reqs: Requests, w: World, i: int, req: TransferReq)
    requires BackInv(lead, reqs, w) && OnceAll(lead, reqs, w)
    requires Possible(reqs, w, RunLocal(i, req)) && Leads(lead, w.servers[i], i)
    ensures OnceAll(lead, reqs, RunAt(w, i, req, false))
  {
    var w' := RunAt(w, i, req, false);
    RunOnce(reqs, w, w.servers[i], req, false);
    forall x | x in w'.active && Place(w, x) == i ensures HeldOnce(w'.servers[i], x.tid) {
      assert Retried(w, i, w.servers[i], x);
    }
    AssembleOnce(lead, reqs, w, w', i);
  }

  lemma ServeAllOnce(lead: Leaders, reqs: Requests, w: World, i: int, e: Event)
    requires BackInv(lead, reqs, w) && AllRooted(lead, w) && OnceAll(lead, reqs, w) && Possible(reqs, w, Serve(i, e))
    requires Leads(lead, w.servers[i], i) ==> LeadEvent(w, i, e) && SteadyEvent(reqs, w.servers[i], e)
    ensures OnceAll(lead, reqs, ServeAt(w, i, e))
  {
    hide Handle, Once;
    var w' := ServeAt(w, i, e);
    assert Sane(reqs, w.home, w.verdicts, w.servers[i]);
    if Leads(lead, w.servers[i], i) {
      ServeOnce(lead, reqs, w, i, e);
    }
    forall x | x in w'.active && Place(w, x) == i ensures HeldOnce(w'.servers[i], x.tid) {
      assert Retried(w, i, w.servers[i], x);
      assert Leads(lead, w.servers[i], i);
    }
    AssembleOnce(lead, reqs, w, w', i);
  }

  lemma IssueOnce(lead: Leaders, reqs: Requests, w: World, req: TransferReq, s: int, r: int)
    requires OnceAll(lead, reqs, w) && Led(lead, w) && WellFormed(reqs, w)
    requires req.tid in reqs && reqs[req.tid] == req && Crossing(reqs, w.home, req.tid) && req.tid !in w.route
    requires w.home(req.txn.sender) in lead && s == lead[w.home(req.txn.sender)]
    requires w.home(req.txn.receiver) in lead && r == lead[w.home(req.txn.receiver)]
    ensures OnceAll(lead, reqs, IssueAt(w, req, s, r))
  {
    var w' := IssueAt(w, req, s, r);
    forall leg | leg in w'.active
      ensures Place(w', leg) in w'.servers && Retried(w', Place(w', leg), w'.servers[Place(w', leg)], leg)
    {
      if leg.tid == req.tid {
        assert Sided(reqs, w.servers[Place(w', leg)].shard, req.tid);
      } else {
        assert Retried(w, Place(w, leg), w.servers[Place(w, leg)], leg);
      }
    }
  }

  /** A run with fixed leaders whose Syncs are novel. */
  ghost predicate SteadyPath(lead: Leaders, reqs: Requests, ws: seq<World>, steps: seq<Step>) {
    && LedPath(lead, reqs, ws, steps)
    && AllRefine(ws[0])
    && forall k :: 0 <= k < |steps| && steps[k].Serve? && Leads(lead, ws[k].servers[steps[k].i], steps[k].i) ==>
         SteadyEvent(reqs, ws[k].servers[steps[k].i], steps[k].e)
  }

  lemma EndOnce(lead: Leaders, reqs: Requests, w: World, w': World)
    requires OnceAll(lead, reqs, w) && w'.servers == w.servers && w'.route == w.route && w'.active == w.active
    ensures OnceAll(lead, reqs, w')
  {
    hide Once, HeldOnce;
    forall leg | leg in w'.active ensures Retried(w', Place(w', leg), w'.servers[Place(w', leg)], leg) {
      assert Retried(w, Place(w, leg), w.servers[Place(w, leg)], leg);
    }
  }

  lemma NextOnce(lead: Leaders, reqs: Requests, w: World, step: Step)
    requires BackInv(lead, reqs, w) && AllRooted(lead, w) && OnceAll(lead, reqs, w)
    requires Possible(reqs, w, step) && LedStep(lead, reqs, w, step)
    requires step.Serve? && Leads(lead, w.servers[step.i], step.i) ==> SteadyEvent(reqs, w.servers[step.i], step.e)
    ensures OnceAll(lead, reqs, Next(reqs, w, step))
  {
    match step
    case Issue(tid, s, r) => IssueOnce(lead, reqs, w, reqs[tid], s, r);
    case RunCross(leg) => RunCrossOnce(lead, reqs, w, leg, Place(w, leg), RunPaxos(w.servers[Place(w, leg)], reqs[leg.tid], true));
    case RunLocal(i, req) => RunLocalOnce(lead, reqs, w, i, req);
    case Serve(i, e) => ServeAllOnce(lead, reqs, w, i, e);
    case CallEnds(i, f, e) =>
      ServeAllOnce(lead, reqs, w, i, e);
      EndOnce(lead, reqs, ServeAt(w, i, e), EndAt(w, i, f, e));
    case Hear(leg, ack) =>
      ClientOnce(lead, reqs, w, leg, Ended(true, TransferRes(ack, leg.tid)));
    case Fail(leg) => ClientOnce(lead, reqs, w, leg, FAILED);
  }

  lemma ClientOnce(lead: Leaders, reqs: Requests, w: World, leg: Leg, e: Ended)
    requires OnceAll(lead, reqs, w)
    ensures OnceAll(lead, reqs, Judge(w.(open := w.open - {leg}), e))
  {
  }

  lemma FreshOnce(lead: Leaders, reqs: Requests, w: World)
    requires Fresh(reqs, w)
    ensures OnceAll(lead, reqs, w)
  {
    forall i | i in w.servers ensures Once(reqs, w.route.Keys, w.servers[i]) {
      assert w.servers[i] == Initial(i, w.servers[i].shard, w.servers[i].books.balances);
    }
  }

  lemma {:induction false} SteadyOnce(lead: Leaders, reqs: Requests, ws: seq<World>, steps: seq<Step>)
    requires SteadyPath(lead, reqs, ws, steps)
    ensures OnceAll(lead, reqs, ws[|steps|])
    decreases |steps|
  {
    if steps == [] {
      FreshOnce(lead, reqs, ws[0]);
    } else {
      var k := |steps| - 1;
      SteadyOnce(lead, reqs, ws[..|steps|], steps[..k]);
      LedPathKept(lead, reqs, ws[..|steps|], steps[..k]);
      PathRooted(lead, reqs, ws[..|steps|], steps[..k]);
      NextOnce(lead, reqs, ws[k], steps[k]);
    }
  }

  // ---------- main results ----------

  lemma OutcomesDecided(reqs: Requests, home: int -> int, verdicts: set<Verdict>, log: seq<Entry>, t: int)
    requires AllJustified(reqs, home, verdicts, log) && Crossing(reqs, home, t)
    ensures Count(log, t, Committed) > 0 ==> Decided(verdicts, t, true)
    ensures Count(log, t, Aborted) > 0 ==> Decided(verdicts, t, false)
  {
    CountFinds(log, t, Committed);
    CountFinds(log, t, Aborted);
    forall i | 0 <= i < |log| && log[i].tid == t
      ensures (log[i].status == Committed ==> Decided(verdicts, t, true)) && (log[i].status == Aborted ==> Decided(verdicts, t, false))
    {
      assert Justified(reqs, home, verdicts, log[i]);
    }
  }

  /** A leader applied a cross-shard transfer exactly once if it is committed and handled, else not at all. */
  lemma AppliedAt(lead: Leaders, reqs: Requests, w: World, k: int, t: int)
    requires BackInv(lead, reqs, w) && OnceAll(lead, reqs, w) && Crossing(reqs, w.home, t)
    requires k in lead && k in {w.home(reqs[t].txn.sender), w.home(reqs[t].txn.receiver)}
    ensures
      var books := w.servers[lead[k]].books;
      Applied(books.log, t) == if Decided(w.verdicts, t, true) && t !in books.pending then 1 else 0
  {
    var l := w.servers[lead[k]];
    assert Sane(reqs, w.home, w.verdicts, l) && Once(reqs, w.route.Keys, l) && Sided(reqs, l.shard, t);
    OutcomesDecided(reqs, w.home, w.verdicts, l.books.log, t);
    if Decided(w.verdicts, t, true) {
      assert !Decided(w.verdicts, t, false);
      var side := k == w.home(reqs[t].txn.sender);
      assert ((Leg(t, side), true) in w.answers);
      assert Backed(lead, w, Side(reqs, w, Leg(t, side)), t);
      CountFinds(l.books.log, t, Prepared);
    }
  }

  /** The books of each cluster's leader. */
  ghost function LeaderBooks(lead: Leaders, w: World, m: nat): map<int, Books>
    requires Led(lead, w) && forall k :: 1 <= k <= m ==> k in lead
  {
    map k | 1 <= k <= m :: w.servers[lead[k]].books
  }

  /** Clusters 1..m have leaders, clients are 1..n, and `ts` lists every transaction once. */
  ghost predicate Whole(lead: Leaders, reqs: Requests, home: int -> int, m: nat, n: nat, ts: seq<int>) {
    && (forall k :: 1 <= k <= m ==> k in lead)
    && Placed(home, m, n) && Distinct(ts)
    && (forall t :: t in ts <==> t in reqs)
    && (forall t :: t in reqs ==> 1 <= reqs[t].txn.sender <= n && 1 <= reqs[t].txn.receiver <= n)
  }

  /** Any server's log holds transactions of the client only, between clients 1..n. */
  lemma LogClosed(reqs: Requests, w: World, i: int, n: nat, ts: seq<int>)
    requires TwoPhase.Inv(reqs, w) && i in w.servers
    requires forall t :: t in ts <==> t in reqs
    requires forall t :: t in reqs ==> 1 <= reqs[t].txn.sender <= n && 1 <= reqs[t].txn.receiver <= n
    ensures
      var log := w.servers[i].books.log;
      && w.servers[i].shard.home == w.home && ClientsIn(log, n) && Known(reqs, log)
      && forall k :: 0 <= k < |log| ==> log[k].tid in ts
  {
    assert Sane(reqs, w.home, w.verdicts, w.servers[i]);
    var log := w.servers[i].books.log;
    forall k | 0 <= k < |log| ensures log[k].tid in reqs && reqs[log[k].tid].txn == log[k].txn {
      assert Justified(reqs, w.home, w.verdicts, log[k]);
    }
  }

  lemma LeadersClosed(lead: Leaders, reqs: Requests, w: World, m: nat, n: nat, ts: seq<int>)
    requires TwoPhase.Inv(reqs, w) && Led(lead, w) && AllRefine(w) && Whole(lead, reqs, w.home, m, n, ts)
    ensures Closed(reqs, w.home, LeaderBooks(lead, w, m), m, n, ts)
  {
    var books := LeaderBooks(lead, w, m);
    forall k | 1 <= k <= m
      ensures RefinesLog(Shard(w.home, k), books[k]) && ClientsIn(books[k].log, n) && Known(reqs, books[k].log)
      ensures forall i :: 0 <= i < |books[k].log| ==> books[k].log[i].tid in ts
    {
      LogClosed(reqs, w, lead[k], n, ts);
      assert w.servers[lead[k]].shard == Shard(w.home, k);
    }
  }

  /** The sharding arithmetic meets what the sums assume of a placement. */
  lemma LayoutPlaces(l: Sharding.Layout)
    requires l.Valid()
    ensures Placed(Sharding.Home(l), l.clusters, l.clients)
  {
    forall c | 1 <= c <= l.clients
      ensures 1 <= Sharding.Home(l)(c) <= l.clusters
    {
      Sharding.ClientsArePlaced(l, c);
    }
  }

  lemma NextLed(lead: Leaders, reqs: Requests, w: World, step: Step)
    requires TwoPhase.Inv(reqs, w) && Possible(reqs, w, step) && Led(lead, w)
    ensures Led(lead, Next(reqs, w, step))
  {
    hide RunPaxos, Handle;
    match step
    case RunCross(leg) => RunAtLater(w, Place(w, leg), reqs[leg.tid], true);
    case RunLocal(i, req) => RunAtLater(w, i, req, false);
    case Serve(i, e) => ServeLater(w, i, e);
    case CallEnds(i, _, e) => ServeLater(w, i, e);
    case _ =>
  }

  lemma {:induction false} PathLed(lead: Leaders, reqs: Requests, ws: seq<World>, steps: seq<Step>)
    requires Path(reqs, ws, steps) && Fresh(reqs, ws[0]) && Led(lead, ws[0])
    ensures Led(lead, ws[|steps|])
    decreases |steps|
  {
    if steps != [] {
      var k := |steps| - 1;
      PathLed(lead, reqs, ws[..|steps|], steps[..k]);
      TwoPhase.PathKept(reqs, ws[..|steps|], steps[..k]);
      NextLed(lead, reqs, ws[k], steps[k]);
    }
  }

  /**
   In every state of every run the money differs by the unequally applied transfers only. Any
   choice of one server per cluster will do, whoever proposes and whoever synchronises.
   */
  lemma MoneyAccounted(lead: Leaders, reqs: Requests, ws: seq<World>, steps: seq<Step>, m: nat, n: nat, ts: seq<int>)
    requires Path(reqs, ws, steps) && Fresh(reqs, ws[0]) && Led(lead, ws[0])
    requires AllRefine(ws[0]) && Whole(lead, reqs, ws[0].home, m, n, ts)
    ensures
      var w := ws[|steps|];
      && w.home == ws[0].home && Led(lead, w)
      && Closed(reqs, w.home, LeaderBooks(lead, w, m), m, n, ts)
      && Total(w.home, LeaderBooks(lead, w, m), m, n) ==
           OPENING * n + Imbalances(reqs, w.home, LeaderBooks(lead, w, m), m, ts)
  {
    TwoPhase.PathKept(reqs, ws, steps);
    PathLed(lead, reqs, ws, steps);
    PathRefines(reqs, ws, steps);
    SameHome(reqs, ws, steps);
    LeadersClosed(lead, reqs, ws[|steps|], m, n, ts);
    TotalByTransaction(reqs, ws[|steps|].home, LeaderBooks(lead, ws[|steps|], m), m, n, ts);
  }

  /** Once both leaders of every committed transfer have handled the decision, the total is exact. */
  lemma MoneyConserved(lead: Leaders, reqs: Requests, ws: seq<World>, steps: seq<Step>, m: nat, n: nat, ts: seq<int>)
    requires SteadyPath(lead, reqs, ws, steps) && Whole(lead, reqs, ws[0].home, m, n, ts)
    requires
      var w := ws[|steps|];
      forall v, k :: v in w.verdicts && v.commit && k in {v.senderCluster, v.receiverCluster} && k in lead && lead[k] in w.servers ==>
        v.tid !in w.servers[lead[k]].books.pending
    ensures
      var w := ws[|steps|];
      Led(lead, w) && Placed(w.home, m, n) && Total(w.home, LeaderBooks(lead, w, m), m, n) == OPENING * n
  {
    MoneyAccounted(lead, reqs, ws, steps, m, n, ts);
    LedPathKept(lead, reqs, ws, steps);
    SteadyOnce(lead, reqs, ws, steps);
    var w := ws[|steps|];
    var books := LeaderBooks(lead, w, m);
    forall j | 0 <= j < |ts|
      ensures Applied(books[w.home(reqs[ts[j]].txn.receiver)].log, ts[j]) == Applied(books[w.home(reqs[ts[j]].txn.sender)].log, ts[j])
    {
      HandledEqually(lead, reqs, w, ts[j]);
    }
    BalancedTotal(reqs, w.home, books, m, ts);
  }

  lemma HandledEqually(lead: Leaders, reqs: Requests, w: World, t: int)
    requires BackInv(lead, reqs, w) && OnceAll(lead, reqs, w) && t in reqs
    requires w.home(reqs[t].txn.sender) in lead && w.home(reqs[t].txn.receiver) in lead
    requires lead[w.home(reqs[t].txn.sender)] in w.servers && lead[w.home(reqs[t].txn.receiver)] in w.servers
    requires forall v, k :: v in w.verdicts && v.commit && k in {v.senderCluster, v.receiverCluster} && k in lead && lead[k] in w.servers ==>
        v.tid !in w.servers[lead[k]].books.pending
    ensures Applied(w.servers[lead[w.home(reqs[t].txn.receiver)]].books.log, t) ==
            Applied(w.servers[lead[w.home(reqs[t].txn.sender)]].books.log, t)
  {
    if Crossing(reqs, w.home, t) {
      AppliedAt(lead, reqs, w, w.home(reqs[t].txn.sender), t);
      AppliedAt(lead, reqs, w, w.home(reqs[t].txn.receiver), t);
    }
  }
}
