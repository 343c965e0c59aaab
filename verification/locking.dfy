/**
 Locks and funds at a server that alone proposes for its cluster. Whatever the replies,
 the retries and the order of decisions, the cluster's own locked accounts are exactly
 those of the transactions that still hold them, and every holder stays able to pay.
 Only a Sync can break this: it concludes transactions without releasing their accounts.
 */
module Locking {
  import opened Types
  import opened ServerModel
  import opened Ledger
  import opened Participant

  /** The handlers a sole proposer runs: no Paxos call from a peer. */
  ghost predicate LeaderEvent(reqs: Requests, shard: Shard, e: Event) {
    && !e.PrepareCall? && !e.AcceptCall? && !e.CommitCall?
    && (e.Run? ==> KnownEvent(reqs, shard, e))
    && (e.SyncReply? && e.status == Ok && e.syncRes.ack ==> KnownPrepares(reqs, shard, e.syncRes.logs))
  }

  /** PREPARED entries are of the client's cross-shard transfers. */
  ghost predicate KnownPrepares(reqs: Requests, shard: Shard, logs: seq<Entry>) {
    forall k :: 0 <= k < |logs| && logs[k].status == Prepared ==>
      logs[k].tid in reqs && logs[k].txn == reqs[logs[k].tid].txn && shard.Crosses(logs[k].txn)
  }

  ghost predicate OutcomesOnly(logs: seq<Entry>) {
    forall k :: 0 <= k < |logs| ==> logs[k].status != Prepared
  }

  /** Undecided prepared transactions, and an intra-shard one waiting for accepts. */
  function Holders(reqs: Requests, s: Server): set<int> {
    HoldersOf(reqs, s.shard, s.books.pending, s.round)
  }

  function HoldersOf(reqs: Requests, shard: Shard, pending: map<int, Entry>, round: Round): set<int> {
    pending.Keys +
    (if round.awaitAccept && round.tid in reqs && !shard.Crosses(reqs[round.tid].txn) then {round.tid} else {})
  }

  function Held(reqs: Requests, shard: Shard, t: int): set<int>
    requires t in reqs
  {
    shard.Accounts(reqs[t].txn)
  }

  /** Locked accounts of the cluster are those of the holders, and no two holders share one. */
  ghost predicate Exact(reqs: Requests, shard: Shard, holders: set<int>, locks: set<int>) {
    && holders <= reqs.Keys
    && (forall c {:trigger c in locks} {:trigger shard.Owns(c)} :: shard.Owns(c) ==>
          (c in locks <==> exists t :: t in holders && c in Held(reqs, shard, t)))
    && (forall t, u :: t in holders && u in holders && t != u ==> Held(reqs, shard, t) !! Held(reqs, shard, u))
  }

  /** No account is overdrawn and each holder's own sender still has its amount. */
  ghost predicate Funded(reqs: Requests, shard: Shard, holders: set<int>, balances: map<int, int>)
    requires holders <= reqs.Keys
  {
    && (forall c {:trigger shard.Owns(c)} :: shard.Owns(c) ==> BalanceIn(balances, c) >= 0)
    && (forall t :: t in holders && shard.Owns(reqs[t].txn.sender) ==>
          BalanceIn(balances, reqs[t].txn.sender) >= reqs[t].txn.amount)
  }

  /** Requests, round and index agree on which transactions are under way. */
  ghost predicate Tracks(reqs: Requests, s: Server) {
    && s.shard.Sound()
    && (forall t :: t in reqs ==> Issued(reqs, reqs[t]) && reqs[t].tid == t && reqs[t].txn.amount >= 0)
    && Orderly(s.round)
    && (s.round.running ==> s.round.tid in reqs)
    && (forall t :: t in s.books.pending ==> t in reqs && s.books.pending[t].txn == reqs[t].txn &&
                                             s.shard.Crosses(reqs[t].txn))
  }

  ghost predicate Locked(reqs: Requests, s: Server) {
    Tracks(reqs, s) && Exact(reqs, s.shard, Holders(reqs, s), s.books.locks)
  }

  ghost predicate Solvent(reqs: Requests, s: Server) {
    Holders(reqs, s) <= reqs.Keys && Funded(reqs, s.shard, Holders(reqs, s), s.books.balances)
  }

  ghost predicate Guarded(reqs: Requests, s: Server) {
    Locked(reqs, s) && Solvent(reqs, s)
  }

  lemma AddHolder(reqs: Requests, shard: Shard, holders: set<int>, locks: set<int>, t: int, locks': set<int>)
    requires Exact(reqs, shard, holders, locks) && t in reqs && Held(reqs, shard, t) !! locks
    requires forall c :: shard.Owns(c) ==> (c in locks' <==> c in locks || c in Held(reqs, shard, t))
    ensures Exact(reqs, shard, holders + {t}, locks')
  {
  }

  lemma RemoveHolder(reqs: Requests, shard: Shard, holders: set<int>, locks: set<int>, t: int, locks': set<int>)
    requires Exact(reqs, shard, holders, locks) && t in holders
    requires forall c :: shard.Owns(c) ==> (c in locks' <==> c in locks && c !in Held(reqs, shard, t))
    ensures Exact(reqs, shard, holders - {t}, locks')
  {
  }

  /** Paying the holder `t` leaves every other holder funded, because their accounts are disjoint. */
  lemma PayHolder(reqs: Requests, shard: Shard, holders: set<int>, locks: set<int>, balances: map<int, int>, t: int, balances': map<int, int>)
    requires Exact(reqs, shard, holders, locks) && t in holders && Funded(reqs, shard, holders, balances)
    requires reqs[t].txn.amount >= 0
    requires forall c :: shard.Owns(c) ==>
      BalanceIn(balances', c) == BalanceIn(balances, c) - (if c == reqs[t].txn.sender then reqs[t].txn.amount else 0)
                                                      + (if c == reqs[t].txn.receiver then reqs[t].txn.amount else 0)
    ensures Funded(reqs, shard, holders - {t}, balances')
  {
  }

  lemma ProposeLocked(reqs: Requests, s: Server, req: TransferReq, cross: bool)
    requires Locked(reqs, s) && Issued(reqs, req) && cross == s.shard.Crosses(req.txn)
    requires s.round.awaitPrepare && s.round.tid == req.tid && !Conflicts(s, req.txn)
    ensures Locked(reqs, Propose(s, req, cross))
    ensures Solvent(reqs, s) ==> Solvent(reqs, Propose(s, req, cross))
  {
    var s' := Propose(s, req, cross);
    AddHolder(reqs, s.shard, Holders(reqs, s), s.books.locks, req.tid, s'.books.locks);
    assert Holders(reqs, s') == Holders(reqs, s) + {req.tid};
  }

  lemma SettleLocked(reqs: Requests, s: Server, req: TransferReq, cross: bool)
    requires Locked(reqs, s) && Issued(reqs, req) && cross == s.shard.Crosses(req.txn)
    requires s.round.awaitAccept && s.round.tid == req.tid
    ensures Locked(reqs, Settle(s, req, cross)) && Locked(reqs, GiveUp(s, req, cross))
    ensures Solvent(reqs, s) ==> Solvent(reqs, Settle(s, req, cross)) && Solvent(reqs, GiveUp(s, req, cross))
  {
    var s', g := Settle(s, req, cross), GiveUp(s, req, cross);
    var holders := Holders(reqs, s);
    if cross {
      assert Holders(reqs, s') == Holders(reqs, g) == holders;
    } else {
      assert req.tid !in s.books.pending;
      RemoveHolder(reqs, s.shard, holders, s.books.locks, req.tid, s'.books.locks);
      assert Holders(reqs, s') == Holders(reqs, g) == holders - {req.tid};
      forall c | s.shard.Owns(c)
        ensures s'.books.Balance(c) == s.books.Balance(c) - (if c == req.txn.sender then req.txn.amount else 0)
                                                          + (if c == req.txn.receiver then req.txn.amount else 0) { }
      if Solvent(reqs, s) {
        PayHolder(reqs, s.shard, holders, s.books.locks, s.books.balances, req.tid, s'.books.balances);
      }
    }
  }

  lemma DecideLocked(reqs: Requests, s: Server, tid: int, commit: bool)
    requires Locked(reqs, s)
    ensures Locked(reqs, Decide(s, tid, commit)) && (Solvent(reqs, s) ==> Solvent(reqs, Decide(s, tid, commit)))
  {
    if tid !in s.books.pending {
      UnknownDecisionChangesNothing(s, tid, commit);
    } else if !s.disconnected {
      var s' := Decide(s, tid, commit);
      var holders := Holders(reqs, s);
      RemoveHolder(reqs, s.shard, holders, s.books.locks, tid, s'.books.locks);
      assert Holders(reqs, s') == holders - {tid};
      if commit && Solvent(reqs, s) {
        PayHolder(reqs, s.shard, holders, s.books.locks, s.books.balances, tid, s'.books.balances);
      }
    }
  }

  lemma RunLocked(reqs: Requests, s: Server, req: TransferReq, cross: bool)
    requires Locked(reqs, s) && Issued(reqs, req) && cross == s.shard.Crosses(req.txn)
    ensures Locked(reqs, RunPaxos(s, req, cross).s) && RunPaxos(s, req, cross).s.shard == s.shard
    ensures Solvent(reqs, s) ==> Solvent(reqs, RunPaxos(s, req, cross).s)
  {
    if s.inSync || (s.round.running && s.round.tid != req.tid) {
    } else if s.round.awaitPrepare && s.round.prepareOks >= MAJORITY && !Conflicts(s, req.txn) {
      ProposeLocked(reqs, s, req, cross);
    } else if s.round.awaitAccept && (s.round.acceptOks >= MAJORITY || s.round.acceptFails >= MAJORITY) {
      SettleLocked(reqs, s, req, cross);
    } else {
      assert Holders(reqs, RunPaxos(s, req, cross).s) == Holders(reqs, s);
    }
  }

  // ---------- a Sync at the proposer ----------

  /** An own account that is locked but held by no transaction. */
  ghost predicate Leaked(reqs: Requests, s: Server, account: int) {
    && s.shard.Owns(account) && account in s.books.locks
    && forall t :: t in Holders(reqs, s) && t in reqs ==> account !in Held(reqs, s.shard, t)
  }

  /** The index holds the same transactions with an account of the cluster as before. */
  ghost predicate SparesLocks(reqs: Requests, s: Server, res: SyncRes) {
    forall t :: t in reqs && Held(reqs, s.shard, t) != {} ==>
      (t in OnSyncReply(s, Ok, res).books.pending <==> t in s.books.pending)
  }

  /** The answer concludes no transaction that is pending here and holds an account of the cluster. */
  ghost predicate ConcludesNone(reqs: Requests, s: Server, logs: seq<Entry>) {
    forall k :: 0 <= k < |logs| && logs[k].status in {Committed, Aborted} && logs[k].tid in s.books.pending && logs[k].tid in reqs ==>
      Held(reqs, s.shard, logs[k].tid) == {}
  }

  /** The answer commits nothing on an account of the cluster. */
  ghost predicate SparesFunds(shard: Shard, logs: seq<Entry>) {
    forall k :: 0 <= k < |logs| && logs[k].status == Committed ==> shard.Accounts(logs[k].txn) == {}
  }

  lemma {:induction false} ReplayedBalances(shard: Shard, books: Books, es: seq<Entry>)
    requires SparesFunds(shard, es)
    ensures ReplayAll(shard, books, es).balances == books.balances
    decreases |es|
  {
    if es != [] {
      var n := |es| - 1;
      ReplayedBalances(shard, books, es[..n]);
      assert es[n].status == Committed ==> shard.Accounts(es[n].txn) == {};
      assert shard.Owns(es[n].txn.sender) ==> es[n].txn.sender in shard.Accounts(es[n].txn);
      assert shard.Owns(es[n].txn.receiver) ==> es[n].txn.receiver in shard.Accounts(es[n].txn);
    }
  }

  lemma {:induction false} ReplayedKnown(reqs: Requests, shard: Shard, books: Books, es: seq<Entry>)
    requires KnownPrepares(reqs, shard, es)
    requires forall t :: t in books.pending ==> t in reqs && books.pending[t].txn == reqs[t].txn && shard.Crosses(reqs[t].txn)
    ensures
      var after := ReplayAll(shard, books, es).pending;
      forall t :: t in after ==> t in reqs && after[t].txn == reqs[t].txn && shard.Crosses(reqs[t].txn)
    decreases |es|
  {
    if es != [] {
      ReplayedKnown(reqs, shard, books, es[..|es| - 1]);
    }
  }

  /** An acknowledged Sync touches neither locks nor the round. */
  lemma SyncTracks(reqs: Requests, s: Server, res: SyncRes)
    requires Tracks(reqs, s) && res.ack && KnownPrepares(reqs, s.shard, res.logs)
    ensures
      var s' := OnSyncReply(s, Ok, res);
      Tracks(reqs, s') && s'.books.locks == s.books.locks && s'.shard == s.shard && s'.round == s.round
  {
    Replayed(s.shard, s.books, res.logs);
    ReplayedKnown(reqs, s.shard, s.books, res.logs);
  }

  /** What it leaves pending if it prepares nothing. */
  lemma SyncHolders(reqs: Requests, s: Server, res: SyncRes)
    requires res.ack && OutcomesOnly(res.logs)
    ensures
      var s' := OnSyncReply(s, Ok, res);
      && Holders(reqs, s') <= Holders(reqs, s)
      && forall t :: t in s.books.pending ==>
           (t in s'.books.pending <==> !exists k :: 0 <= k < |res.logs| && Concludes(res.logs[k], t))
  {
    forall t
      ensures
        var after := ReplayAll(s.shard, s.books, res.logs).pending;
        t in after <==> t in s.books.pending && forall k :: 0 <= k < |res.logs| ==> !Concludes(res.logs[k], t)
    {
      ReplayedOutcomes(s.shard, s.books, res.logs, t);
    }
  }

  /** A concluded holder leaves its accounts locked. */
  lemma SyncLeaks(reqs: Requests, s: Server, res: SyncRes, k: nat)
    requires Locked(reqs, s) && res.ack && OutcomesOnly(res.logs) && k < |res.logs|
    requires res.logs[k].status in {Committed, Aborted} && res.logs[k].tid in s.books.pending
    ensures forall c :: c in Held(reqs, s.shard, res.logs[k].tid) ==> Leaked(reqs, OnSyncReply(s, Ok, res), c)
  {
    hide OnSyncReply;
    var t := res.logs[k].tid;
    SyncTracks(reqs, s, res);
    SyncHolders(reqs, s, res);
    assert Concludes(res.logs[k], t) && t in Holders(reqs, s) && t !in Holders(reqs, OnSyncReply(s, Ok, res));
  }

  /**
   Exactly when locking is still exact after an acknowledged Sync that prepares nothing: it concludes
   no transaction that is pending here and holds an account of the cluster. The leader can check this
   on the answer.
   */
  lemma SyncKeepsLocks(reqs: Requests, s: Server, res: SyncRes)
    requires Locked(reqs, s) && res.ack && OutcomesOnly(res.logs)
    ensures Locked(reqs, OnSyncReply(s, Ok, res)) <==> ConcludesNone(reqs, s, res.logs)
    ensures ConcludesNone(reqs, s, res.logs) ==> SparesLocks(reqs, s, res)
  {
    hide OnSyncReply, Exact;
    var s' := OnSyncReply(s, Ok, res);
    SyncTracks(reqs, s, res);
    SyncHolders(reqs, s, res);
    if ConcludesNone(reqs, s, res.logs) {
      forall t | t in reqs && Held(reqs, s.shard, t) != {} ensures t in s'.books.pending <==> t in s.books.pending {
        assert t in s'.books.pending ==> t in Holders(reqs, s);
      }
      SyncLocked(reqs, s, res);
    } else {
      var k :| 0 <= k < |res.logs| && res.logs[k].status in {Committed, Aborted} && res.logs[k].tid in s.books.pending &&
               res.logs[k].tid in reqs && Held(reqs, s.shard, res.logs[k].tid) != {};
      var c :| c in Held(reqs, s.shard, res.logs[k].tid);
      SyncLeaks(reqs, s, res, k);
      LeakIsInexact(reqs, s', c);
    }
  }

  lemma LeakIsInexact(reqs: Requests, s: Server, account: int)
    requires Leaked(reqs, s, account)
    ensures !Locked(reqs, s)
  {
  }

  /** Only holders of something matter. */
  lemma SameHolders(reqs: Requests, shard: Shard, holders: set<int>, after: set<int>, locks: set<int>)
    requires Exact(reqs, shard, holders, locks) && after <= reqs.Keys
    requires forall t :: t in reqs && Held(reqs, shard, t) != {} ==> (t in holders <==> t in after)
    ensures Exact(reqs, shard, after, locks)
  {
    forall c | shard.Owns(c)
      ensures c in locks <==> exists t :: t in after && c in Held(reqs, shard, t)
    {
      if c in locks {
        var t :| t in holders && c in Held(reqs, shard, t);
        assert t in after;
      }
    }
    forall t, u | t in after && u in after && t != u ensures Held(reqs, shard, t) !! Held(reqs, shard, u) {
      if Held(reqs, shard, t) != {} && Held(reqs, shard, u) != {} {
        assert t in holders && u in holders;
      }
    }
  }

  /** An event that keeps the locks exact. */
  ghost predicate Sparing(reqs: Requests, s: Server, e: Event) {
    && LeaderEvent(reqs, s.shard, e)
    && (e.SyncReply? && e.status == Ok && e.syncRes.ack ==> SparesLocks(reqs, s, e.syncRes))
  }

  lemma HoldersKnown(reqs: Requests, s: Server)
    requires Tracks(reqs, s)
    ensures Holders(reqs, s) <= reqs.Keys
  {
    forall t | t in Holders(reqs, s) ensures t in reqs {
      assert t in s.books.pending || t in reqs;
    }
  }

  lemma SyncLocked(reqs: Requests, s: Server, res: SyncRes)
    requires Locked(reqs, s) && res.ack && KnownPrepares(reqs, s.shard, res.logs) && SparesLocks(reqs, s, res)
    ensures Locked(reqs, OnSyncReply(s, Ok, res)) && OnSyncReply(s, Ok, res).shard == s.shard
    ensures Solvent(reqs, s) && SparesFunds(s.shard, res.logs) ==> Solvent(reqs, OnSyncReply(s, Ok, res))
  {
    hide Exact;
    var s' := OnSyncReply(s, Ok, res);
    SyncTracks(reqs, s, res);
    HoldersKnown(reqs, s);
    HoldersKnown(reqs, s');
    SameHolders(reqs, s.shard, Holders(reqs, s), Holders(reqs, s'), s.books.locks);
    if SparesFunds(s.shard, res.logs) {
      ReplayedBalances(s.shard, s.books, res.logs);
      SameFunds(reqs, s.shard, Holders(reqs, s), Holders(reqs, s'), s.books.balances);
    }
  }

  lemma SameFunds(reqs: Requests, shard: Shard, holders: set<int>, after: set<int>, balances: map<int, int>)
    requires holders <= reqs.Keys && after <= reqs.Keys
    requires forall t :: t in reqs && Held(reqs, shard, t) != {} ==> (t in holders <==> t in after)
    ensures Funded(reqs, shard, holders, balances) ==> Funded(reqs, shard, after, balances)
  {
    forall t | t in after && shard.Owns(reqs[t].txn.sender) ensures t in holders {
      assert reqs[t].txn.sender in Held(reqs, shard, t);
    }
  }

  lemma FailedSync(s: Server, st: RpcStatus, res: SyncRes)
    requires st != Ok || !res.ack
    ensures OnSyncReply(s, st, res) == s.(inSync := false)
  {
  }

  lemma HandleLocked(reqs: Requests, s: Server, e: Event)
    requires Locked(reqs, s) && Sparing(reqs, s, e)
    ensures Locked(reqs, Handle(s, e)) && Handle(s, e).shard == s.shard
    ensures Solvent(reqs, s) && KeepsFunds(s.shard, e) ==> Solvent(reqs, Handle(s, e))
  {
    hide RunPaxos, OnSyncReply, Exact, Funded, SparesLocks;
    match e
    case Run(req, cross) => RunLocked(reqs, s, req, cross);
    case Decision(tid, commit) => DecideLocked(reqs, s, tid, commit);
    case PrepareReply(_, _, _) => assert Holders(reqs, Handle(s, e)) == Holders(reqs, s);
    case AcceptReply(_, _, _) => assert Holders(reqs, Handle(s, e)) == Holders(reqs, s);
    case SyncReply(st, res) => if st == Ok && res.ack { SyncLocked(reqs, s, res); } else { FailedSync(s, st, res); }
    case _ =>
  }

  ghost predicate KeepsFunds(shard: Shard, e: Event) {
    e.SyncReply? && e.status == Ok && e.syncRes.ack ==> SparesFunds(shard, e.syncRes.logs)
  }

  // ---------- main results ----------

  /** Every event of the run is one of a sole proposer, and its Syncs spare the locks. */
  ghost predicate SparingRun(reqs: Requests, s: Server, es: seq<Event>) {
    forall i :: 0 <= i < |es| ==> Sparing(reqs, HandleAll(s, es[..i]), es[i])
  }

  /** Exact locking over every run of a sole proposer, and no overdraft unless a Sync moves money here. */
  lemma {:induction false} LocksExactAndFunded(reqs: Requests, s: Server, es: seq<Event>)
    requires Locked(reqs, s) && SparingRun(reqs, s, es)
    ensures Locked(reqs, HandleAll(s, es)) && HandleAll(s, es).shard == s.shard
    ensures Solvent(reqs, s) && (forall i :: 0 <= i < |es| ==> KeepsFunds(s.shard, es[i])) ==> Solvent(reqs, HandleAll(s, es))
    decreases |es|
  {
    if es != [] {
      var before := es[..|es| - 1];
      assert forall i :: 0 <= i < |before| ==> before[..i] == es[..i] && before[i] == es[i];
      LocksExactAndFunded(reqs, s, before);
      HandleLocked(reqs, HandleAll(s, before), es[|es| - 1]);
    }
  }

  lemma InitiallyGuarded(reqs: Requests, id: int, shard: Shard, balances: map<int, int>)
    requires shard.Sound()
    requires forall t :: t in reqs ==> reqs[t].tid == t && t != -1 && reqs[t].txn.amount >= 0
    requires forall c :: shard.Owns(c) ==> BalanceIn(balances, c) == OPENING
    ensures Guarded(reqs, Initial(id, shard, balances))
  {
  }

  /**
   Accounts of other clusters do leak: after the decision of a cross-shard transfer its receiver
   is still locked at the leader that prepared it, exactly if another cluster owns the receiver
   or the leader was cut off from the decision.
   */
  lemma ForeignReceiverStaysLocked(s: Server, req: TransferReq, commit: bool)
    requires req.tid != -1
    ensures
      var decided := Decide(Settle(Propose(s, req, true), req, true), req.tid, commit);
      req.txn.receiver in decided.books.locks <==> !s.shard.Owns(req.txn.receiver) || s.disconnected
  {
  }

  /**
   And it stays locked for good: no handler in any role releases an account of another cluster, as
   long as the intra-shard transfers the server is asked to run are its own.
   */
  lemma {:induction false} ForeignLockIsForever(s: Server, es: seq<Event>, account: int)
    requires !s.shard.Owns(account) && account in s.books.locks
    requires forall i :: 0 <= i < |es| ==> OwnTransfers(s.shard, es[i])
    ensures account in HandleAll(s, es).books.locks && HandleAll(s, es).shard == s.shard
    decreases |es|
  {
    if es != [] {
      ForeignLockIsForever(s, es[..|es| - 1], account);
      ForeignLockKept(HandleAll(s, es[..|es| - 1]), es[|es| - 1], account);
    }
  }

  ghost predicate OwnTransfers(shard: Shard, e: Event) {
    e.Run? && !e.cross ==> shard.Owns(e.req.txn.sender) && shard.Owns(e.req.txn.receiver)
  }

  lemma ForeignLockKept(s: Server, e: Event, account: int)
    requires !s.shard.Owns(account) && account in s.books.locks && OwnTransfers(s.shard, e)
    ensures account in Handle(s, e).books.locks && Handle(s, e).shard == s.shard
  {
    if e.SyncReply? && e.status == Ok && e.syncRes.ack {
      Replayed(s.shard, s.books, e.syncRes.logs);
    }
  }

  // ---------- an own account that no transaction holds any more ----------

  /** A Sync that prepares a transaction anew would make it a holder again. */
  ghost predicate PreparesNothing(e: Event) {
    e.SyncReply? && e.status == Ok && e.syncRes.ack ==> OutcomesOnly(e.syncRes.logs)
  }

  lemma LeakRun(reqs: Requests, s: Server, req: TransferReq, cross: bool, account: int)
    requires Tracks(reqs, s) && Leaked(reqs, s, account) && Issued(reqs, req) && cross == s.shard.Crosses(req.txn)
    ensures
      var s' := RunPaxos(s, req, cross).s;
      Tracks(reqs, s') && Leaked(reqs, s', account) && s'.shard == s.shard
  {
    RunCases(s, req, cross);
  }

  lemma LeakKept(reqs: Requests, s: Server, e: Event, account: int)
    requires Tracks(reqs, s) && Leaked(reqs, s, account) && LeaderEvent(reqs, s.shard, e) && PreparesNothing(e)
    ensures Tracks(reqs, Handle(s, e)) && Leaked(reqs, Handle(s, e), account) && Handle(s, e).shard == s.shard
  {
    hide RunPaxos, OnPrepare, OnAccept, OnCommit, OnSyncReply;
    match e
    case Run(req, cross) => LeakRun(reqs, s, req, cross, account);
    case SyncReply(st, res) => 
      if st == Ok && res.ack {
        SyncTracks(reqs, s, res);
        SyncHolders(reqs, s, res);
      } else {
        FailedSync(s, st, res);
      }
    case _ =>
  }

  /** It stays locked for good, and every transfer that touches it is refused. */
  lemma {:induction false} LeakIsForever(reqs: Requests, s: Server, es: seq<Event>, account: int)
    requires Tracks(reqs, s) && Leaked(reqs, s, account)
    requires forall i :: 0 <= i < |es| ==> LeaderEvent(reqs, s.shard, es[i]) && PreparesNothing(es[i])
    ensures
      var s' := HandleAll(s, es);
      && Tracks(reqs, s') && s'.shard == s.shard && Leaked(reqs, s', account)
      && forall txn: Transaction :: account in {txn.sender, txn.receiver} ==> Conflicts(s', txn)
    decreases |es|
  {
    if es != [] {
      LeakIsForever(reqs, s, es[..|es| - 1], account);
      LeakKept(reqs, HandleAll(s, es[..|es| - 1]), es[|es| - 1], account);
    }
  }
}
