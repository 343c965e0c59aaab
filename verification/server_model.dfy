/**
 The handlers of one server as functions on its state. `server.dfy` holds the class
 whose methods are proved equal to these functions; the protocol modules build their
 state machines from them.
 */
module ServerModel {
  import opened Types

  const MAJORITY := 2

  /** The clients that one cluster serves: `home` places every client in a cluster. */
  datatype Shard = Shard(home: int -> int, id: int) {
    predicate Owns(client: int) {
      home(client) == id
    }

    /** Neither the -1 of `MISSING` nor the 0 of an unset message field is a client. */
    ghost predicate Sound() {
      !Owns(-1) && !Owns(0)
    }

    function Accounts(txn: Transaction): set<int> {
      (if Owns(txn.sender) then {txn.sender} else {}) + (if Owns(txn.receiver) then {txn.receiver} else {})
    }

    predicate Crosses(txn: Transaction) {
      home(txn.sender) != home(txn.receiver)
    }
  }

  /** Accounts, locks and the replicated log. `pending` is what the WAL index reads back, by tid. */
  datatype Books = Books(
    balances: map<int, int>,
    locks: set<int>,
    log: seq<Entry>,
    pending: map<int, Entry>,
    lastInserted: int,
    lastInsertedBallot: Ballot)
  {
    function Balance(client: int): int {
      BalanceIn(balances, client)
    }

    function Prepare(req: TransferReq, ballot: Ballot): Books {
      var e := PreparedEntry(req, ballot);
      Books(balances, locks, log + [e], pending[req.tid := e], |log|, ballot)
    }

    function Commit(req: TransferReq, ballot: Ballot): Books {
      Books(Add(Add(balances, req.txn.sender, -req.txn.amount), req.txn.receiver, req.txn.amount),
            locks, log + [CommittedEntry(req, ballot)], pending, |log|, ballot)
    }

    function Unlock(accounts: set<int>): Books {
      this.(locks := locks - accounts)
    }

    function Lock(accounts: set<int>): Books {
      this.(locks := locks + accounts)
    }
  }

  /** Looking up a missing balance yields 0. */
  function BalanceIn(balances: map<int, int>, client: int): int {
    if client in balances then balances[client] else 0
  }

  function Add(balances: map<int, int>, client: int, amount: int): map<int, int> {
    balances[client := BalanceIn(balances, client) + amount]
  }

  /** The acceptor's promises; the proposer votes for itself through the same fields. */
  datatype Acceptor = Acceptor(
    ballotNum: int,
    promised: bool,
    promisedNum: Ballot,
    accepted: bool,
    acceptNum: Ballot,
    acceptVal: TransferReq)

  /** The proposer's current transaction. */
  datatype Round = Round(
    running: bool,
    tid: int,
    awaitPrepare: bool,
    awaitAccept: bool,
    prepareOks: int,
    prepareFails: int,
    acceptOks: int,
    acceptFails: int)
  {
    function Stop(): Round {
      this.(running := false, tid := -1, awaitPrepare := false, awaitAccept := false)
    }
  }

  datatype Server = Server(
    id: int,
    shard: Shard,
    books: Books,
    acceptor: Acceptor,
    round: Round,
    inSync: bool,
    disconnected: bool)

  const NO_BALLOT := Ballot(0, 0)
  const NO_REQUEST := TransferReq(0, Transaction(0, 0, 0))

  function Initial(id: int, shard: Shard, balances: map<int, int>): Server {
    Server(id, shard, Books(balances, {}, [], map[], -1, NO_BALLOT),
           Acceptor(0, false, NO_BALLOT, false, NO_BALLOT, NO_REQUEST),
           Round(false, -1, false, false, 0, 0, 0, 0), false, false)
  }

  // ---------- proposer ----------

  datatype Broadcast = Silent | Prepares(p: PrepareReq) | Accepts(a: AcceptReq) | Commits(c: CommitReq)

  /** One call of the proposer: the new state, what goes to all peers, and the answer if it is done. */
  datatype Ran = Ran(s: Server, out: Broadcast, answer: Option<TransferRes>)

  function RunPaxos(s: Server, req: TransferReq, cross: bool): Ran {
    if s.inSync || (s.round.running && s.round.tid != req.tid) then Ran(s, Silent, None)
    else if s.round.awaitPrepare then
      if s.round.prepareOks >= MAJORITY then
        if Conflicts(s, req.txn) then Ran(s.(round := s.round.Stop()), Silent, Some(TransferRes(false, req.tid)))
        else Ran(Propose(s, req, cross), Accepts(AcceptReq(s.acceptor.promisedNum, req)), None)
      else if s.round.prepareFails >= MAJORITY then
        Ran(s.(round := s.round.Stop()), Silent, Some(TransferRes(false, req.tid)))
      else Ran(s, Silent, None)
    else if s.round.awaitAccept then
      if s.round.acceptOks >= MAJORITY then
        Ran(Settle(s, req, cross), Commits(CommitReq(s.acceptor.acceptNum)), Some(TransferRes(true, req.tid)))
      else if s.round.acceptFails >= MAJORITY then
        Ran(GiveUp(s, req, cross), Silent, Some(TransferRes(false, req.tid)))
      else Ran(s, Silent, None)
    else
      var ballot := Ballot(s.acceptor.ballotNum + 1, s.id);
      Ran(StartPrepare(s, req.tid, ballot), Prepares(PrepareReq(ballot, s.books.lastInserted)), None)
  }

  /** A phase is open: calls to the peers have been sent and are being counted. */
  predicate Waiting(s: Server) {
    s.round.awaitPrepare || s.round.awaitAccept
  }

  function StartPrepare(s: Server, tid: int, ballot: Ballot): Server {
    s.(acceptor := s.acceptor.(ballotNum := ballot.num, promised := true, promisedNum := ballot),
       round := s.round.(running := true, tid := tid, awaitPrepare := true, prepareOks := 1, prepareFails := 0))
  }

  predicate Conflicts(s: Server, txn: Transaction) {
    || (s.shard.Owns(txn.sender) && txn.sender in s.books.locks)
    || (s.shard.Owns(txn.receiver) && txn.receiver in s.books.locks)
    || (s.shard.Owns(txn.sender) && s.books.Balance(txn.sender) < txn.amount)
  }

  /** Locks and moves on to the accept phase. The receiver is locked even if another cluster owns it. */
  function Propose(s: Server, req: TransferReq, cross: bool): Server {
    var books := s.books.Lock(s.shard.Accounts(req.txn) + {req.txn.receiver});
    s.(books := if cross then books.Prepare(req, s.acceptor.promisedNum) else books,
       acceptor := s.acceptor.(accepted := true, acceptNum := s.acceptor.promisedNum, acceptVal := req),
       round := s.round.(awaitPrepare := false, awaitAccept := true, acceptOks := 1, acceptFails := 0))
  }

  function Settle(s: Server, req: TransferReq, cross: bool): Server {
    s.(books := if cross then s.books
                else s.books.Unlock({req.txn.sender, req.txn.receiver}).Commit(req, s.acceptor.acceptNum),
       acceptor := s.acceptor.(promised := false, accepted := false),
       round := s.round.Stop())
  }

  function GiveUp(s: Server, req: TransferReq, cross: bool): Server {
    s.(books := if cross then s.books else s.books.Unlock({req.txn.sender, req.txn.receiver}),
       round := s.round.Stop())
  }

  function OnPrepareReply(s: Server, status: RpcStatus, sent: PrepareReq, res: PrepareRes): (Server, Option<SyncReq>) {
    if !s.round.awaitPrepare then (s, None)
    else if status == DeadlineExceeded && Mine(s, sent.ballot, s.acceptor.promisedNum) then
      (s.(round := s.round.(prepareFails := s.round.prepareFails + 1)), None)
    else if status == Ok && Mine(s, res.ballot, s.acceptor.promisedNum) then
      var outdated := res.latestBallotNum.Some?;
      var behind := res.lastInserted.Some? && res.lastInserted.value > s.books.lastInserted;
      (s.(acceptor := if outdated then s.acceptor.(ballotNum := res.latestBallotNum.value) else s.acceptor,
          round := s.round.(awaitPrepare := !outdated && !behind,
                            prepareOks := s.round.prepareOks + (if res.ack then 1 else 0),
                            prepareFails := s.round.prepareFails + (if res.ack then 0 else 1)),
          inSync := s.inSync || behind),
       if behind then Some(SyncReq(s.books.lastInserted)) else None)
    else (s, None)
  }

  function OnAcceptReply(s: Server, status: RpcStatus, sent: AcceptReq, res: AcceptRes): Server {
    if !s.round.awaitAccept then s
    else if status == DeadlineExceeded && Mine(s, sent.ballot, s.acceptor.acceptNum) then
      s.(round := s.round.(acceptFails := s.round.acceptFails + 1))
    else if status == Ok && Mine(s, res.ballot, s.acceptor.acceptNum) then
      s.(round := s.round.(acceptOks := s.round.acceptOks + (if res.ack then 1 else 0),
                           acceptFails := s.round.acceptFails + (if res.ack then 0 else 1)))
    else s
  }

  /** A reply counts if it carries this server's id and the current number; only the number is compared. */
  predicate Mine(s: Server, ballot: Ballot, current: Ballot) {
    ballot.num == current.num && ballot.serverId == s.id
  }

  // ---------- acceptor ----------

  /** The reply, and the Sync request the handler may send to the proposer. */
  datatype Promise = Promise(s: Server, res: PrepareRes, sync: Option<SyncReq>)

  function OnPrepare(s: Server, req: PrepareReq): Promise {
    if s.disconnected then Promise(s, PrepareRes(false, req.ballot, None, None, None, None), None)
    else if req.ballot.num > s.acceptor.ballotNum && req.lastInserted == s.books.lastInserted then
      Promise(s.(acceptor := s.acceptor.(ballotNum := req.ballot.num, promised := true, promisedNum := req.ballot)),
              PrepareRes(true, req.ballot,
                         if s.acceptor.accepted then Some((s.acceptor.acceptNum, s.acceptor.acceptVal)) else None,
                         None, None, None),
              None)
    else
      var behind := req.ballot.num > s.acceptor.ballotNum && req.lastInserted > s.books.lastInserted;
      Promise(s.(inSync := s.inSync || behind),
              PrepareRes(false, req.ballot, None,
                         if req.ballot.num <= s.acceptor.ballotNum then Some(s.acceptor.ballotNum) else None,
                         if req.lastInserted < s.books.lastInserted then Some(s.books.lastInserted) else None,
                         Some(s.id)),
              if behind then Some(SyncReq(s.books.lastInserted)) else None)
  }

  function OnAccept(s: Server, req: AcceptReq): (Server, AcceptRes) {
    if s.disconnected || !s.acceptor.promised || req.ballot.num != s.acceptor.promisedNum.num then
      (s, AcceptRes(false, req.ballot))
    else
      var txn := req.r.txn;
      var books := s.books.Lock(s.shard.Accounts(txn));
      (s.(books := if s.shard.Owns(txn.sender) != s.shard.Owns(txn.receiver) then books.Prepare(req.r, req.ballot) else books,
          acceptor := s.acceptor.(accepted := true, acceptNum := req.ballot, acceptVal := req.r)),
       AcceptRes(true, req.ballot))
  }

  function OnCommit(s: Server, req: CommitReq): Server {
    if s.disconnected || s.acceptor.promisedNum.num != req.ballot.num || s.acceptor.acceptNum.num != req.ballot.num then s
    else
      var txn := s.acceptor.acceptVal.txn;
      var books := s.books.Unlock(s.shard.Accounts(txn));
      s.(books := if s.shard.Owns(txn.sender) && s.shard.Owns(txn.receiver)
                  then books.Commit(s.acceptor.acceptVal, s.acceptor.acceptNum)
                  else books.(lastInserted := |s.books.log| - 1, lastInsertedBallot := s.acceptor.acceptNum),
         acceptor := s.acceptor.(promised := false, accepted := false))
  }

  // ---------- synchronisation ----------

  function OnSync(s: Server, req: SyncReq): SyncRes {
    if s.books.lastInserted > req.lastInserted then
      SyncRes(true, LogFrom(s.books.log, req.lastInserted + 1), s.books.lastInsertedBallot)
    else SyncRes(false, [], NO_BALLOT)
  }

  function LogFrom(log: seq<Entry>, start: int): seq<Entry> {
    if 0 <= start <= |log| then log[start..] else []
  }

  /** Appends one synchronised entry and replays its effect on balances and on the WAL index. */
  function Replay(shard: Shard, books: Books, e: Entry): Books {
    books.(log := books.log + [e],
           pending := Index(books.pending, e),
           balances := if e.status == Committed then ApplyOwn(shard, books.balances, e.txn) else books.balances)
  }

  /** The effect of a committed transfer on the clients of one cluster. */
  function ApplyOwn(shard: Shard, balances: map<int, int>, txn: Transaction): map<int, int> {
    var debited := if shard.Owns(txn.sender) then Add(balances, txn.sender, -txn.amount) else balances;
    if shard.Owns(txn.receiver) then Add(debited, txn.receiver, txn.amount) else debited
  }

  /** How a synchronised entry moves the WAL index: whatever it reads back is CROSS PREPARED. */
  function Index(pending: map<int, Entry>, e: Entry): map<int, Entry> {
    match e.status
    case Prepared => pending[e.tid := Entry(e.tid, e.ballot, e.txn, Cross, Prepared)]
    case Committed => pending - {e.tid}
    case Aborted => pending - {e.tid}
    case NoStatus => pending
  }

  function ReplayAll(shard: Shard, books: Books, es: seq<Entry>): Books
    decreases |es|
  {
    if es == [] then books else Replay(shard, ReplayAll(shard, books, es[..|es| - 1]), es[|es| - 1])
  }

  /** Replaying entries appends them all and touches no lock. */
  lemma {:induction false} Replayed(shard: Shard, books: Books, es: seq<Entry>)
    ensures ReplayAll(shard, books, es).log == books.log + es
    ensures ReplayAll(shard, books, es).locks == books.locks
    decreases |es|
  {
    if es != [] {
      Replayed(shard, books, es[..|es| - 1]);
    }
  }

  predicate Concludes(e: Entry, tid: int) {
    e.tid == tid && e.status in {Committed, Aborted}
  }

  /** Replaying entries none of which is PREPARED concludes pending transactions and opens none. */
  lemma {:induction false} ReplayedOutcomes(shard: Shard, books: Books, es: seq<Entry>, tid: int)
    requires forall k :: 0 <= k < |es| ==> es[k].status != Prepared
    ensures
      var after := ReplayAll(shard, books, es).pending;
      && (tid in after <==> tid in books.pending && forall k :: 0 <= k < |es| ==> !Concludes(es[k], tid))
      && (tid in after ==> after[tid] == books.pending[tid])
    decreases |es|
  {
    if es != [] {
      ReplayedOutcomes(shard, books, es[..|es| - 1], tid);
      assert forall k :: 0 <= k < |es| - 1 ==> es[..|es| - 1][k] == es[k];
    }
  }

  function OnSyncReply(s: Server, status: RpcStatus, res: SyncRes): Server {
    if status == Ok && res.ack then
      s.(books := ReplayAll(s.shard, s.books, res.logs).(lastInserted := s.books.lastInserted + |res.logs|,
                                                         lastInsertedBallot := res.lastInsertedBallot),
         acceptor := s.acceptor.(ballotNum := res.lastInsertedBallot.num),
         inSync := false)
    else s.(inSync := false)
  }

  // ---------- two-phase commit participant ----------

  function Outcome(pending: map<int, Entry>, tid: int, commit: bool): Entry {
    if tid in pending then pending[tid].(status := if commit then Committed else Aborted) else MISSING
  }

  function Decide(s: Server, tid: int, commit: bool): Server {
    if s.disconnected then s
    else s.(books := DecideBooks(s.shard, s.books, tid, commit))
  }

  function DecideBooks(shard: Shard, books: Books, tid: int, commit: bool): Books {
    var e := Outcome(books.pending, tid, commit);
    books.(log := if e.tid != -1 then books.log + [e] else books.log,
           pending := books.pending - {tid},
           locks := books.locks - shard.Accounts(e.txn),
           balances := if commit then ApplyOwn(shard, books.balances, e.txn) else books.balances)
  }

  // ---------- all handlers as one step function ----------

  datatype Event =
    | Run(req: TransferReq, cross: bool)
    | PrepareCall(prepare: PrepareReq)
    | AcceptCall(accept: AcceptReq)
    | CommitCall(commit: CommitReq)
    | SyncCall(sync: SyncReq)
    | PrepareReply(status: RpcStatus, prepareSent: PrepareReq, prepareRes: PrepareRes)
    | AcceptReply(status: RpcStatus, acceptSent: AcceptReq, acceptRes: AcceptRes)
    | SyncReply(status: RpcStatus, syncRes: SyncRes)
    | Decision(tid: int, isCommit: bool)
    | Disconnect(me: bool)

  function Handle(s: Server, e: Event): Server {
    match e
    case Run(req, cross) => RunPaxos(s, req, cross).s
    case PrepareCall(p) => OnPrepare(s, p).s
    case AcceptCall(a) => OnAccept(s, a).0
    case CommitCall(c) => OnCommit(s, c)
    case SyncCall(_) => s
    case PrepareReply(st, p, r) => OnPrepareReply(s, st, p, r).0
    case AcceptReply(st, a, r) => OnAcceptReply(s, st, a, r)
    case SyncReply(st, r) => OnSyncReply(s, st, r)
    case Decision(tid, commit) => Decide(s, tid, commit)
    case Disconnect(me) => s.(disconnected := me)
  }

  function HandleAll(s: Server, es: seq<Event>): Server
    decreases |es|
  {
    if es == [] then s else Handle(HandleAll(s, es[..|es| - 1]), es[|es| - 1])
  }
}
