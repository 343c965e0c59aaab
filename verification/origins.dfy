/**
 Where PREPARED entries come from: with one leader per cluster, whatever any server of the
 cluster has prepared or copied, its leader has prepared first and still has in its log.
 */
module Origins {
  import opened Types
  import opened ServerModel
  import opened Participant
  import opened TwoPhase
  import opened Backing

  /** Every PREPARED entry of a log in the cluster of leader `l` is in the log of `l` too. */
  ghost predicate Rooted(l: Server, log: seq<Entry>) {
    forall k :: 0 <= k < |log| && log[k].status == Prepared ==> OneSided(l, log[k].txn) && Logged(l, log[k].tid)
  }

  ghost predicate RootedAt(w: World, l: Server) {
    && (forall i :: i in w.servers && w.servers[i].shard.id == l.shard.id ==> Rooted(l, w.servers[i].books.log))
    && (forall a :: a in w.accepts && a.0 == l.shard.id && OneSided(l, a.1.r.txn) ==> Logged(l, a.1.r.tid))
    && (forall c :: c in w.copies && c.0 == l.shard.id ==> Rooted(l, c.1.logs))
  }

  ghost predicate AllRooted(lead: Leaders, w: World) {
    forall k :: k in lead && lead[k] in w.servers ==> RootedAt(w, w.servers[lead[k]])
  }

  lemma RootedStays(l: Server, l': Server, log: seq<Entry>)
    requires Rooted(l, log) && l'.shard == l.shard && l.books.log <= l'.books.log
    ensures Rooted(l', log)
  {
    forall k | 0 <= k < |log| && log[k].status == Prepared
      ensures Logged(l', log[k].tid)
    {
      LoggedStays(l, l', log[k].tid);
    }
  }

  lemma Appended(l: Server, log: seq<Entry>, more: seq<Entry>)
    requires Rooted(l, log) && Rooted(l, more)
    ensures Rooted(l, log + more)
  {
  }

  /** A leader's call of the proposer: what it prepares or sends out, it has logged itself. */
  lemma RunRooted(l: Server, req: TransferReq, cross: bool)
    requires Rooted(l, l.books.log) && Orderly(l.round)
    requires OneSided(l, req.txn) == cross
    ensures
      var ran := RunPaxos(l, req, cross);
      && ran.s.shard == l.shard && l.books.log <= ran.s.books.log && Rooted(ran.s, ran.s.books.log)
      && (ran.out.Accepts? && OneSided(l, ran.out.a.r.txn) ==> Logged(ran.s, ran.out.a.r.tid))
  {
    var ran := RunPaxos(l, req, cross);
    LogGrows(l, Run(req, cross));
    RootedStays(l, ran.s, l.books.log);
    RunCases(l, req, cross);
    if ran.out.Accepts? && cross {
      var k := |l.books.log|;
      assert ran.s.books.log[k] == PreparedEntry(req, l.acceptor.promisedNum);
    }
  }

  /** Any other handler of a server in the leader's cluster. */
  lemma ServeRooted(l: Server, s: Server, e: Event)
    requires s.shard == l.shard && Rooted(l, s.books.log) && !e.Run?
    requires e.AcceptCall? && OneSided(l, e.accept.r.txn) ==> Logged(l, e.accept.r.tid)
    requires e.SyncReply? && e.status == Ok ==> Rooted(l, e.syncRes.logs)
    ensures Rooted(l, Handle(s, e).books.log)
  {
    if e.SyncReply? && e.status == Ok && e.syncRes.ack {
      Replayed(s.shard, s.books, e.syncRes.logs);
      Appended(l, s.books.log, e.syncRes.logs);
    }
  }

  /** One server's step: its own log, what it sends and what it copies are in order; then all is. */
  lemma AssembleRooted(lead: Leaders, w: World, w': World, i: int)
    requires AllRooted(lead, w) && Led(lead, w) && Later(w, w') && i in w.servers
    requires forall j :: j in w.servers && j != i ==> w'.servers[j] == w.servers[j]
    requires forall a :: a in w'.accepts && a !in w.accepts ==> a.0 == w.servers[i].shard.id
    requires forall c :: c in w'.copies && c !in w.copies ==> c.0 == w.servers[i].shard.id
    requires w.servers[i].shard.id in lead ==>
               var l := w'.servers[lead[w.servers[i].shard.id]];
               && Rooted(l, w'.servers[i].books.log)
               && (forall a :: a in w'.accepts && a !in w.accepts && OneSided(l, a.1.r.txn) ==> Logged(l, a.1.r.tid))
               && (forall c :: c in w'.copies && c !in w.copies ==> Rooted(l, c.1.logs))
    ensures AllRooted(lead, w')
  {
    hide Rooted, OneSided, Logged;
    forall k | k in lead
      ensures RootedAt(w', w'.servers[lead[k]])
    {
      var l, l' := w.servers[lead[k]], w'.servers[lead[k]];
      assert RootedAt(w, l) && l'.shard == l.shard && l.books.log <= l'.books.log;
      forall j | j in w'.servers && w'.servers[j].shard.id == k
        ensures Rooted(l', w'.servers[j].books.log)
      {
        if j != i { RootedStays(l, l', w.servers[j].books.log); }
      }
      forall a | a in w'.accepts && a.0 == k && OneSided(l', a.1.r.txn)
        ensures Logged(l', a.1.r.tid)
      {
        if a in w.accepts {
          SameSides(l, l', a.1.r.txn);
          LoggedStays(l, l', a.1.r.tid);
        }
      }
      forall c | c in w'.copies && c.0 == k
        ensures Rooted(l', c.1.logs)
      {
        if c in w.copies { RootedStays(l, l', c.1.logs); }
      }
    }
  }

  lemma SameSides(l: Server, l': Server, txn: Transaction)
    requires l'.shard == l.shard
    ensures OneSided(l', txn) == OneSided(l, txn)
  {
  }

  /** The leader that retries a leg has exactly one side of its transfer. */
  lemma LegSided(lead: Leaders, reqs: Requests, w: World, leg: Leg)
    requires BackInv(lead, reqs, w) && leg in w.active
    ensures OneSided(w.servers[Place(w, leg)], reqs[leg.tid].txn)
  {
    LegPlaced(lead, reqs, w, leg);
  }

  lemma RunAtRooted(lead: Leaders, reqs: Requests, w: World, i: int, req: TransferReq, cross: bool)
    requires BackInv(lead, reqs, w) && AllRooted(lead, w) && i in w.servers && Leads(lead, w.servers[i], i)
    requires OneSided(w.servers[i], req.txn) == cross
    ensures AllRooted(lead, RunAt(w, i, req, cross))
  {
    hide RunPaxos, Rooted;
    var l := w.servers[i];
    assert RootedAt(w, l) && LeadOk(lead, w, i, l);
    RunRooted(l, req, cross);
    RunAtLater(w, i, req, cross);
    AssembleRooted(lead, w, RunAt(w, i, req, cross), i);
  }

  lemma CopyRooted(l: Server, s: Server, req: SyncReq)
    requires Rooted(l, s.books.log)
    ensures Rooted(l, OnSync(s, req).logs)
  {
  }

  lemma ServeAtRooted(lead: Leaders, reqs: Requests, w: World, i: int, e: Event)
    requires BackInv(lead, reqs, w) && AllRooted(lead, w) && i in w.servers && Deliverable(w, i, e)
    ensures AllRooted(lead, ServeAt(w, i, e))
  {
    hide Rooted, Handle, OnSync;
    var s, w' := w.servers[i], ServeAt(w, i, e);
    ServeLater(w, i, e);
    if s.shard.id in lead {
      var l, l' := w.servers[lead[s.shard.id]], w'.servers[lead[s.shard.id]];
      assert RootedAt(w, l) && l.shard == s.shard;
      ServeRooted(l, s, e);
      RootedStays(l, l', w'.servers[i].books.log);
      if e.SyncCall? {
        CopyRooted(l, s, e.sync);
        RootedStays(l, l', OnSync(s, e.sync).logs);
      }
    }
    AssembleRooted(lead, w, w', i);
  }

  lemma EndRooted(lead: Leaders, w: World, w': World)
    requires AllRooted(lead, w) && w'.servers == w.servers && w'.accepts == w.accepts && w'.copies == w.copies
    ensures AllRooted(lead, w')
  {
    hide Rooted;
  }

  lemma NextRooted(lead: Leaders, reqs: Requests, w: World, step: Step)
    requires BackInv(lead, reqs, w) && AllRooted(lead, w) && Possible(reqs, w, step) && LedStep(lead, reqs, w, step)
    ensures AllRooted(lead, Next(reqs, w, step))
  {
    hide RunPaxos, Handle, Support;
    match step
    case RunCross(leg) =>
      LegPlaced(lead, reqs, w, leg);
      LegSided(lead, reqs, w, leg);
      RunAtRooted(lead, reqs, w, Place(w, leg), reqs[leg.tid], true);
    case RunLocal(i, req) =>
      assert !OneSided(w.servers[i], req.txn);
      RunAtRooted(lead, reqs, w, i, req, false);
    case Serve(i, e) => ServeAtRooted(lead, reqs, w, i, e);
    case CallEnds(i, f, e) =>
      ServeAtRooted(lead, reqs, w, i, e);
      EndRooted(lead, ServeAt(w, i, e), EndAt(w, i, f, e));
    case _ =>
  }

  lemma {:induction false} PathRooted(lead: Leaders, reqs: Requests, ws: seq<World>, steps: seq<Step>)
    requires LedPath(lead, reqs, ws, steps)
    ensures AllRooted(lead, ws[|steps|])
    decreases |steps|
  {
    if steps != [] {
      var k := |steps| - 1;
      PathRooted(lead, reqs, ws[..|steps|], steps[..k]);
      LedPathKept(lead, reqs, ws[..|steps|], steps[..k]);
      NextRooted(lead, reqs, ws[k], steps[k]);
    }
  }
}
