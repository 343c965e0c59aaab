/**
 The server as an object (server.cc): each handler updates the fields step by step and is
 proved equal to the function of the same step in `ServerModel`. The in-memory log and the
 decoded lines of the WAL file stay equal under every handler, save a decision that finds the id
 -1 pending.
 */
module Servers {
  import opened Types
  import opened ServerModel
  import opened Sharding
  import opened WriteAheadLog
  import Ledger

  class ServerImpl {
    const serverId: int
    const shard: Shard
    const wal: Wal
    var balances: map<int, int>
    var locks: set<int>
    var log: seq<Entry>
    var lastInserted: int
    var lastInsertedBallot: Ballot
    var acceptor: Acceptor      // ballotNum, promised, promisedNum, accepted, acceptNum, acceptVal
    var round: Round            // the running transaction, the two await flags and the four counters
    var inSync: bool
    var iAmDisconnected: bool

    ghost function State(): Server
      reads this, wal
    {
      Server(serverId, shard, Ledgers(), acceptor, round, inSync, iAmDisconnected)
    }

    ghost function Ledgers(): Books
      reads this, wal
    {
      Books(balances, locks, log, wal.pending, lastInserted, lastInsertedBallot)
    }

    /**
     The file holds the log line by line, its index is the one a scan of the file yields, and
     the two phases of a round are never open together.
     */
    ghost predicate Valid()
      reads this, wal
    {
      wal.Valid() && wal.entries == log && !(round.awaitPrepare && round.awaitAccept)
    }

    constructor (layout: Layout, id: int)
      requires layout.Valid() && 1 <= ClusterOfServer(layout, id) <= layout.clusters
      ensures Valid() && fresh(wal)
      ensures shard == ShardOf(layout, ClusterOfServer(layout, id)) && shard.Sound()
      ensures State() == Initial(id, shard, balances)
      ensures forall c :: shard.Owns(c) <==> c in balances
      ensures Ledger.RefinesLog(shard, Ledgers())
    {
      serverId := id;
      shard := ShardOf(layout, ClusterOfServer(layout, id));
      wal := new Wal();
      balances, locks, log := map[], {}, [];
      lastInserted, lastInsertedBallot := -1, NO_BALLOT;
      acceptor := Acceptor(0, false, NO_BALLOT, false, NO_BALLOT, NO_REQUEST);
      round := Round(false, -1, false, false, 0, 0, 0, 0);
      inSync, iAmDisconnected := false, false;
      new;
      ShardsAreSound(layout, ClusterOfServer(layout, id));
      for i := 1 to layout.clients + 1
        modifies this`balances
        invariant forall c :: c in balances <==> 1 <= c < i && shard.Owns(c)
        invariant forall c :: c in balances ==> balances[c] == Ledger.OPENING
      {
        if IsClientInCluster(i) {
          balances := balances[i := 10];
        }
      }
    }

    predicate IsClientInCluster(client: int) {
      shard.Owns(client)
    }

    // ---------- locks ----------

    /** Locks the accounts that this cluster serves and counts the sides of the transfer it serves. */
    method LockLocal(txn: Transaction) returns (inCluster: nat)
      modifies this`locks
      ensures locks == old(locks) + shard.Accounts(txn)
      ensures inCluster == (if shard.Owns(txn.sender) then 1 else 0) + (if shard.Owns(txn.receiver) then 1 else 0)
    {
      inCluster := 0;
      if IsClientInCluster(txn.sender) {
        locks := locks + {txn.sender};
        inCluster := inCluster + 1;
      }
      if IsClientInCluster(txn.receiver) {
        locks := locks + {txn.receiver};
        inCluster := inCluster + 1;
      }
      assert locks == old(locks) + shard.Accounts(txn);
    }

    method UnlockLocal(txn: Transaction) returns (inCluster: nat)
      modifies this`locks
      ensures locks == old(locks) - shard.Accounts(txn)
      ensures inCluster == (if shard.Owns(txn.sender) then 1 else 0) + (if shard.Owns(txn.receiver) then 1 else 0)
    {
      inCluster := 0;
      if IsClientInCluster(txn.sender) {
        locks := locks - {txn.sender};
        inCluster := inCluster + 1;
      }
      if IsClientInCluster(txn.receiver) {
        locks := locks - {txn.receiver};
        inCluster := inCluster + 1;
      }
      assert locks == old(locks) - shard.Accounts(txn);
    }

    /** The proposer releases both sides, whichever cluster serves them. */
    method UnlockBoth(txn: Transaction)
      modifies this`locks
      ensures locks == old(locks) - {txn.sender, txn.receiver}
    {
      locks := locks - {txn.sender};
      locks := locks - {txn.receiver};
      assert locks == old(locks) - {txn.sender, txn.receiver};
    }

    // ---------- log writers ----------

    method PrepareTransaction(req: TransferReq, ballot: Ballot)
      requires Valid()
      modifies this`log, this`lastInserted, this`lastInsertedBallot, wal
      ensures Valid() && Ledgers() == old(Ledgers()).Prepare(req, ballot)
    {
      hide Wal.Valid;
      var entry := wal.PrepareTransaction(req, ballot);
      log := log + [entry];
      lastInserted := |log| - 1;
      lastInsertedBallot := ballot;
    }

    method CommitTransaction(req: TransferReq, ballot: Ballot)
      requires Valid()
      modifies this`log, this`balances, this`lastInserted, this`lastInsertedBallot, wal
      ensures Valid() && Ledgers() == old(Ledgers()).Commit(req, ballot)
    {
      hide Wal.Valid;
      var entry := wal.CommitTransfer(req, ballot);
      log := log + [entry];
      balances := Add(balances, entry.txn.sender, -entry.txn.amount);
      balances := Add(balances, entry.txn.receiver, entry.txn.amount);
      lastInserted := |log| - 1;
      lastInsertedBallot := ballot;
    }

    // ---------- proposer ----------

    method RunPaxos(req: TransferReq, isCrossShard: bool) returns (out: Broadcast, answer: Option<TransferRes>)
      requires Valid()
      modifies this, wal
      ensures Valid() && Ran(State(), out, answer) == ServerModel.RunPaxos(old(State()), req, isCrossShard)
    {
      hide Wal.Valid;
      out, answer := Silent, None;
      var tid := req.tid;
      if inSync || (round.running && round.tid != tid) {
        return;
      }
      if !round.awaitPrepare && !round.awaitAccept {
        acceptor := acceptor.(ballotNum := acceptor.ballotNum + 1);
        var ballot := Ballot(acceptor.ballotNum, serverId);
        acceptor := acceptor.(promised := true, promisedNum := ballot);
        round := round.(running := true, tid := tid, awaitPrepare := true, prepareOks := 1, prepareFails := 0);
        out := Prepares(PrepareReq(ballot, lastInserted));
      } else if round.awaitPrepare {
        if round.prepareOks >= MAJORITY {
          out, answer := DecidePrepare(req, isCrossShard);
        } else if round.prepareFails >= MAJORITY {
          round := round.(awaitPrepare := false, running := false, tid := -1);
          answer := Some(TransferRes(false, tid));
        }
      } else {
        if round.acceptOks >= MAJORITY {
          out := DecideAccept(req, isCrossShard);
          answer := Some(TransferRes(true, tid));
        } else if round.acceptFails >= MAJORITY {
          round := round.(awaitAccept := false, running := false, tid := -1);
          if !isCrossShard {
            UnlockBoth(req.txn);
          }
          answer := Some(TransferRes(false, tid));
        }
      }
    }

    /** A majority promised: check the transaction, lock its accounts and ask for accepts. */
    method DecidePrepare(req: TransferReq, isCrossShard: bool) returns (out: Broadcast, answer: Option<TransferRes>)
      requires Valid() && !inSync && (round.running ==> round.tid == req.tid)
      requires round.awaitPrepare && round.prepareOks >= MAJORITY
      modifies this, wal
      ensures Valid() && Ran(State(), out, answer) == ServerModel.RunPaxos(old(State()), req, isCrossShard)
    {
      hide Wal.Valid;
      out, answer := Silent, None;
      var sender, receiver, amount := req.txn.sender, req.txn.receiver, req.txn.amount;
      round := round.(awaitPrepare := false);
      var senderInCluster, receiverInCluster := IsClientInCluster(sender), IsClientInCluster(receiver);
      if (senderInCluster && sender in locks) || (receiverInCluster && receiver in locks) ||
         (senderInCluster && BalanceIn(balances, sender) < amount) {
        round := round.(running := false, tid := -1);
        answer := Some(TransferRes(false, req.tid));
        return;
      }
      var _ := LockLocal(req.txn);
      locks := locks + {receiver};
      assert locks == old(locks) + (shard.Accounts(req.txn) + {receiver});
      acceptor := acceptor.(accepted := true, acceptNum := acceptor.promisedNum, acceptVal := req);
      round := round.(awaitAccept := true, acceptOks := 1, acceptFails := 0);
      if isCrossShard {
        PrepareTransaction(req, acceptor.acceptNum);
      }
      out := Accepts(AcceptReq(acceptor.promisedNum, req));
    }

    /** A majority accepted: tell the peers and, within the shard, apply the transfer. */
    method DecideAccept(req: TransferReq, isCrossShard: bool) returns (out: Broadcast)
      requires Valid()
      modifies this, wal
      ensures Valid() && State() == Settle(old(State()), req, isCrossShard)
      ensures out == Commits(CommitReq(old(acceptor.acceptNum)))
    {
      hide Wal.Valid;
      out := Commits(CommitReq(acceptor.acceptNum));
      if !isCrossShard {
        UnlockBoth(req.txn);
        CommitTransaction(req, acceptor.acceptNum);
      }
      acceptor := acceptor.(promised := false, accepted := false);
      round := round.(awaitPrepare := false, awaitAccept := false, running := false, tid := -1);
    }

    method HandlePrepareReply(status: RpcStatus, request: PrepareReq, response: PrepareRes) returns (sync: Option<SyncReq>)
      requires Valid()
      modifies this`round, this`acceptor, this`inSync
      ensures Valid() && (State(), sync) == OnPrepareReply(old(State()), status, request, response)
    {
      hide Wal.Valid;
      sync := None;
      if !round.awaitPrepare { return; }
      var current := acceptor.promisedNum.num;
      if status == DeadlineExceeded && request.ballot.num == current && request.ballot.serverId == serverId {
        round := round.(prepareFails := round.prepareFails + 1);
      } else if status == Ok && response.ballot.num == current && response.ballot.serverId == serverId {
        if response.ack {
          round := round.(prepareOks := round.prepareOks + 1);
        } else {
          round := round.(prepareFails := round.prepareFails + 1);
        }
        if response.latestBallotNum.Some? {
          acceptor := acceptor.(ballotNum := response.latestBallotNum.value);
          round := round.(awaitPrepare := false);
        }
        if response.lastInserted.Some? && response.lastInserted.value > lastInserted {
          inSync := true;
          round := round.(awaitPrepare := false);
          sync := Some(SyncReq(lastInserted));
        }
      }
    }

    method HandleAcceptReply(status: RpcStatus, request: AcceptReq, response: AcceptRes)
      requires Valid()
      modifies this`round
      ensures Valid() && State() == OnAcceptReply(old(State()), status, request, response)
    {
      hide Wal.Valid;
      if !round.awaitAccept { return; }
      var current := acceptor.acceptNum.num;
      if status == DeadlineExceeded && request.ballot.num == current && request.ballot.serverId == serverId {
        round := round.(acceptFails := round.acceptFails + 1);
      } else if status == Ok && response.ballot.num == current && response.ballot.serverId == serverId {
        if response.ack {
          round := round.(acceptOks := round.acceptOks + 1);
        } else {
          round := round.(acceptFails := round.acceptFails + 1);
        }
      }
    }

    // ---------- acceptor ----------

    method ProcessPrepareCall(request: PrepareReq) returns (response: PrepareRes, sync: Option<SyncReq>)
      requires Valid()
      modifies this`acceptor, this`inSync
      ensures Valid() && Promise(State(), response, sync) == OnPrepare(old(State()), request)
    {
      hide Wal.Valid;
      sync := None;
      if iAmDisconnected {
        response := PrepareRes(false, request.ballot, None, None, None, None);
        return;
      }
      var ack := false;
      if request.ballot.num > acceptor.ballotNum {
        if request.lastInserted == lastInserted {
          ack := true;
          acceptor := acceptor.(promised := true, promisedNum := request.ballot, ballotNum := request.ballot.num);
        } else if request.lastInserted > lastInserted {
          inSync := true;
          sync := Some(SyncReq(lastInserted));
        }
      }
      response := PrepareRes(ack, request.ballot, None, None, None, None);
      if ack && acceptor.accepted {
        response := response.(acceptedBefore := Some((acceptor.acceptNum, acceptor.acceptVal)));
      } else if !ack {
        response := response.(serverId := Some(serverId));
        if request.ballot.num <= acceptor.ballotNum {
          response := response.(latestBallotNum := Some(acceptor.ballotNum));
        }
        if request.lastInserted < lastInserted {
          response := response.(lastInserted := Some(lastInserted));
        }
      }
    }

    method ProcessAcceptCall(request: AcceptReq) returns (response: AcceptRes)
      requires Valid()
      modifies this, wal
      ensures Valid() && (State(), response) == OnAccept(old(State()), request)
    {
      hide Wal.Valid;
      if iAmDisconnected {
        return AcceptRes(false, request.ballot);
      }
      var ack := false;
      if acceptor.promised && request.ballot.num == acceptor.promisedNum.num {
        ack := true;
        acceptor := acceptor.(accepted := true, acceptNum := request.ballot, acceptVal := request.r);
        var inCluster := LockLocal(request.r.txn);
        if inCluster == 1 {
          PrepareTransaction(acceptor.acceptVal, acceptor.acceptNum);
        }
      }
      response := AcceptRes(ack, request.ballot);
    }

    method ProcessCommitCall(request: CommitReq)
      requires Valid()
      modifies this, wal
      ensures Valid() && State() == OnCommit(old(State()), request)
    {
      hide Wal.Valid;
      if iAmDisconnected { return; }
      if acceptor.promisedNum.num == request.ballot.num && acceptor.acceptNum.num == request.ballot.num {
        lastInserted := |log| - 1;
        lastInsertedBallot := acceptor.acceptNum;
        var inCluster := UnlockLocal(acceptor.acceptVal.txn);
        if inCluster == 2 {
          CommitTransaction(acceptor.acceptVal, acceptor.acceptNum);
        }
        acceptor := acceptor.(promised := false, accepted := false);
      }
    }

    // ---------- synchronisation ----------

    method ProcessSyncCall(request: SyncReq) returns (response: SyncRes)
      ensures response == OnSync(State(), request)
    {
      var commitIdx := request.lastInserted;
      if lastInserted > commitIdx {
        var logs, i := [], commitIdx + 1;
        while 0 <= i < |log|      // the index is compared as unsigned, so a negative one ends the loop
          invariant i == commitIdx + 1 || 0 <= commitIdx + 1 < i <= |log|
          invariant logs == if i == commitIdx + 1 then [] else log[commitIdx + 1..i]
          decreases |log| - i
        {
          logs := logs + [log[i]];
          i := i + 1;
        }
        response := SyncRes(true, logs, lastInsertedBallot);
      } else {
        response := SyncRes(false, [], NO_BALLOT);
      }
    }

    method HandleSyncReply(status: RpcStatus, response: SyncRes)
      requires Valid()
      modifies this, wal
      ensures Valid() && State() == OnSyncReply(old(State()), status, response)
    {
      hide Wal.Valid;
      if status == Ok && response.ack {
        for i := 0 to |response.logs|
          modifies this`log, this`balances, wal
          invariant Valid() && Ledgers() == ReplayAll(shard, old(Ledgers()), response.logs[..i])
        {
          assert response.logs[..i + 1][..i] == response.logs[..i];
          InsertEntry(response.logs[i]);
        }
        assert response.logs[..|response.logs|] == response.logs;
        acceptor := acceptor.(ballotNum := response.lastInsertedBallot.num);
        lastInserted := lastInserted + |response.logs|;
        lastInsertedBallot := response.lastInsertedBallot;
      }
      inSync := false;
    }

    /** One synchronised entry goes to the log, to the file and into the balances. */
    method InsertEntry(entry: Entry)
      requires Valid()
      modifies this`log, this`balances, wal
      ensures Valid() && Ledgers() == Replay(shard, old(Ledgers()), entry)
    {
      hide Wal.Valid;
      log := log + [entry];
      wal.InsertEntry(entry);
      if entry.status == Committed && IsClientInCluster(entry.txn.sender) {
        balances := Add(balances, entry.txn.sender, -entry.txn.amount);
      }
      if entry.status == Committed && IsClientInCluster(entry.txn.receiver) {
        balances := Add(balances, entry.txn.receiver, entry.txn.amount);
      }
    }

    // ---------- two-phase commit ----------

    /** Log and file part ways exactly if a transaction is pending under the sentinel's own id. */
    method ProcessTpcDecision(tid: int, isCommit: bool)
      requires Valid()
      modifies this, wal
      ensures wal.Valid() && State() == Decide(old(State()), tid, isCommit)
      ensures Valid() <==> old(iAmDisconnected) || tid != -1 || -1 !in old(wal.pending)
    {
      hide Wal.Valid;
      if iAmDisconnected { return; }
      var entry;
      if isCommit {
        entry := wal.CommitTransaction(tid);
      } else {
        entry := wal.AbortTransaction(tid);
      }
      if entry.tid != -1 {
        log := log + [entry];
      }
      ApplyOutcome(entry, isCommit);
    }

    /** Releases the accounts of a decided transaction and, on commit, moves the money. */
    method ApplyOutcome(entry: Entry, isCommit: bool)
      modifies this`locks, this`balances
      ensures locks == old(locks) - shard.Accounts(entry.txn)
      ensures balances == if isCommit then ApplyOwn(shard, old(balances), entry.txn) else old(balances)
    {
      if IsClientInCluster(entry.txn.sender) {
        locks := locks - {entry.txn.sender};
        if isCommit {
          balances := Add(balances, entry.txn.sender, -entry.txn.amount);
        }
      }
      if IsClientInCluster(entry.txn.receiver) {
        locks := locks - {entry.txn.receiver};
        if isCommit {
          balances := Add(balances, entry.txn.receiver, entry.txn.amount);
        }
      }
      assert locks == old(locks) - shard.Accounts(entry.txn);
    }

    // ---------- queries and disconnection ----------

    method ProcessGetBalanceCall(client: int) returns (amount: int)
      ensures amount == Ledgers().Balance(client)
    {
      amount := BalanceIn(balances, client);
    }

    method ProcessGetLogsCall() returns (logs: seq<Entry>)
      ensures logs == log
    {
      logs := [];
      for i := 0 to |log|
        invariant logs == log[..i]
      {
        logs := logs + [log[i]];
      }
    }

    method ProcessDisconnectCall(servers: seq<int>)
      modifies this`iAmDisconnected
      ensures State() == old(State()).(disconnected := serverId in servers)
    {
      iAmDisconnected := false;
      for i := 0 to |servers|
        invariant iAmDisconnected <==> serverId in servers[..i]
      {
        if servers[i] == serverId {
          iAmDisconnected := true;
        }
      }
      assert servers[..|servers|] == servers;
    }

    /** The file can be read back into the log and the index, line by line. */
    lemma FileHoldsLog()
      requires Valid()
      ensures Decoded(Scan(wal.file, 0, map[]).0) == log
      ensures Scan(wal.file, 0, map[]).1 == wal.index
    {
      wal.FileDeterminesAll();
    }
  }

  /** A prepare call, an accept call and a decision under the id -1 take a new server to where its log and its file differ. */
  method DecideSentinel() returns (s: ServerImpl)
    ensures fresh(s) && s.wal.Valid() && s.wal.entries != s.log
    ensures s.log == [PreparedEntry(TransferReq(-1, Transaction(1, 3, 5)), Ballot(1, 2))]
  {
    var request, ballot := TransferReq(-1, Transaction(1, 3, 5)), Ballot(1, 2);
    s := new ServerImpl(Layout(2, 3, 4), 1);
    assert s.shard.Owns(1) && !s.shard.Owns(3);
    var promise, _ := s.ProcessPrepareCall(PrepareReq(ballot, -1));
    var vote := s.ProcessAcceptCall(AcceptReq(ballot, request));
    s.ProcessTpcDecision(-1, true);
  }
}
