/**
 The life of an incoming call (in_call.cc): registered, processed, retried by an alarm while the
 server has no answer, answered, deleted. Each time the completion queue names the call, it
 proceeds by one step.
 */
module InCalls {
  import opened Types
  import opened ServerModel
  import opened Servers
  import opened WriteAheadLog

  datatype Request =
    | TpcPrepareRpc(t: TransferReq)
    | TpcCommitRpc(tid: int)
    | TpcAbortRpc(tid: int)
    | TransferRpc(t: TransferReq)
    | BalanceRpc(client: int)
    | LogsRpc
    | PrepareRpc(prepare: PrepareReq)
    | AcceptRpc(accept: AcceptReq)
    | CommitRpc(commit: CommitReq)
    | SyncRpc(sync: SyncReq)
    | DisconnectRpc(servers: seq<int>)

  datatype Response =
    | Empty
    | Transferred(res: TransferRes)
    | BalanceIs(amount: int)
    | LogsAre(logs: seq<Entry>)
    | PrepareAnswer(p: PrepareRes)
    | AcceptAnswer(a: AcceptRes)
    | SyncAnswer(s: SyncRes)

  datatype Served = Served(s: Server, response: Option<Response>, out: Broadcast, sync: Option<SyncReq>)

  /** One processing of a request. Only transfers can be left without a response. */
  function Serve(s: Server, r: Request): Served {
    match r
    case TpcPrepareRpc(t) => ServeTransfer(RunPaxos(s, t, true))
    case TransferRpc(t) => ServeTransfer(RunPaxos(s, t, false))
    case TpcCommitRpc(tid) => Served(Decide(s, tid, true), Some(Empty), Silent, None)
    case TpcAbortRpc(tid) => Served(Decide(s, tid, false), Some(Empty), Silent, None)
    case BalanceRpc(c) => Served(s, Some(BalanceIs(s.books.Balance(c))), Silent, None)
    case LogsRpc => Served(s, Some(LogsAre(s.books.log)), Silent, None)
    case PrepareRpc(p) => var r := OnPrepare(s, p); Served(r.s, Some(PrepareAnswer(r.res)), Silent, r.sync)
    case AcceptRpc(a) => var (after, res) := OnAccept(s, a); Served(after, Some(AcceptAnswer(res)), Silent, None)
    case CommitRpc(c) => Served(OnCommit(s, c), Some(Empty), Silent, None)
    case SyncRpc(y) => Served(s, Some(SyncAnswer(OnSync(s, y))), Silent, None)
    case DisconnectRpc(servers) => Served(s.(disconnected := s.id in servers), Some(Empty), Silent, None)
  }

  function ServeTransfer(ran: Ran): Served {
    Served(ran.s, if ran.answer.Some? then Some(Transferred(ran.answer.value)) else None, ran.out, None)
  }

  /** The one request that log and file do not survive in step: a decision that finds the id -1 pending. */
  predicate DecidesSentinel(s: Server, r: Request) {
    (r.TpcCommitRpc? || r.TpcAbortRpc?) && r.tid == -1 && -1 in s.books.pending && !s.disconnected
  }

  // ---------- the life cycle ----------

  datatype CallStatus = CREATE | PROCESS | RETRY | FINISH | DELETED

  /** What the completion queue still holds for a call. At any time it is one thing at most. */
  datatype Waits = Nothing | Arrival | Alarm | Sent

  /** A call as a value: its request once arrived, and the responses handed to the transport. */
  datatype Life = Life(status: CallStatus, request: Request, answers: seq<Response>)

  function WaitsFor(status: CallStatus): Waits {
    match status
    case CREATE => Nothing
    case PROCESS => Arrival
    case RETRY => Alarm
    case FINISH => Sent
    case DELETED => Nothing
  }

  /** The completion queue names the call. */
  function Fire(l: Life, s: Server): (Life, Server) {
    match l.status
    case CREATE => (l.(status := PROCESS), s)
    case FINISH => (l.(status := DELETED), s)
    case DELETED => (l, s)
    case _ =>
      var served := Serve(s, l.request);
      (if served.response.Some? then Life(FINISH, l.request, l.answers + [served.response.value]) else l.(status := RETRY),
       served.s)
  }

  /** A step of the event loop: this call's, or any other handler's. */
  datatype Tick = Own | Elsewhere(e: Event)

  function Advance(l: Life, s: Server, ticks: seq<Tick>): (Life, Server)
    decreases |ticks|
  {
    if ticks == [] then (l, s)
    else
      var (l', s') := Advance(l, s, ticks[..|ticks| - 1]);
      match ticks[|ticks| - 1]
      case Own => Fire(l', s')
      case Elsewhere(e) => (l', Handle(s', e))
  }

  /** However its steps interleave with other handlers, a call is answered at most once, and then it is over. */
  lemma {:induction false} AnsweredOnce(r: Request, s: Server, ticks: seq<Tick>)
    ensures
      var l := Advance(Life(PROCESS, r, []), s, ticks).0;
      && l.request == r && |l.answers| <= 1 && l.status != CREATE
      && (l.status in {FINISH, DELETED} <==> |l.answers| == 1)
    decreases |ticks|
  {
    if ticks != [] {
      AnsweredOnce(r, s, ticks[..|ticks| - 1]);
    }
  }

  /** The answer is that of the first processing that gave one: every earlier one gave none. */
  lemma {:induction false} AnswerIsFirst(r: Request, s: Server, ticks: seq<Tick>) returns (n: nat)
    requires Advance(Life(PROCESS, r, []), s, ticks).0.answers != []
    ensures
      var l := Life(PROCESS, r, []);
      && n < |ticks| && ticks[n].Own?
      && Serve(Advance(l, s, ticks[..n]).1, r).response == Some(Advance(l, s, ticks).0.answers[0])
      && (forall m :: 0 <= m < n && ticks[m].Own? ==> Serve(Advance(l, s, ticks[..m]).1, r).response == None)
    decreases |ticks|
  {
    var l := Life(PROCESS, r, []);
    var k := |ticks| - 1;
    var before := ticks[..k];
    AnsweredOnce(r, s, before);
    if Advance(l, s, before).0.answers == [] {
      n := k;
      NoneBefore(r, s, before);
      forall m | 0 <= m < n && ticks[m].Own?
        ensures Serve(Advance(l, s, ticks[..m]).1, r).response == None
      {
        assert before[..m] == ticks[..m] && before[m] == ticks[m];
      }
    } else {
      n := AnswerIsFirst(r, s, before);
      assert before[..n] == ticks[..n];
      forall m | 0 <= m < n && ticks[m].Own?
        ensures Serve(Advance(l, s, ticks[..m]).1, r).response == None
      {
        assert before[..m] == ticks[..m] && before[m] == ticks[m];
      }
    }
  }

  /** As long as there is no answer, no processing has given one. */
  lemma {:induction false} NoneBefore(r: Request, s: Server, ticks: seq<Tick>)
    requires Advance(Life(PROCESS, r, []), s, ticks).0.answers == []
    ensures forall m :: 0 <= m < |ticks| && ticks[m].Own? ==>
              Serve(Advance(Life(PROCESS, r, []), s, ticks[..m]).1, r).response == None
    decreases |ticks|
  {
    var l := Life(PROCESS, r, []);
    if ticks != [] {
      var k := |ticks| - 1;
      var before := ticks[..k];
      AnsweredOnce(r, s, before);
      NoneBefore(r, s, before);
      forall m | 0 <= m < |ticks| && ticks[m].Own?
        ensures Serve(Advance(l, s, ticks[..m]).1, r).response == None
      {
        if m < k {
          assert before[..m] == ticks[..m] && before[m] == ticks[m];
        }
      }
    }
  }

  /** The queue names an unfinished call again: by an alarm if it has been processed in vain, else by its answer on the way. */
  lemma NeverForgotten(r: Request, s: Server, ticks: seq<Tick>)
    ensures
      var l := Advance(Life(PROCESS, r, []), s, ticks).0;
      && (WaitsFor(l.status) == Nothing <==> l.status == DELETED)
      && (WaitsFor(l.status) == Sent ==> |l.answers| == 1) && (WaitsFor(l.status) == Alarm ==> l.answers == [])
      && (WaitsFor(l.status) == Arrival <==> forall i :: 0 <= i < |ticks| ==> ticks[i].Elsewhere?)
  {
    AnsweredOnce(r, s, ticks);
    ArrivesOnce(r, s, ticks);
  }

  lemma {:induction false} ArrivesOnce(r: Request, s: Server, ticks: seq<Tick>)
    ensures Advance(Life(PROCESS, r, []), s, ticks).0.status == PROCESS <==> forall i :: 0 <= i < |ticks| ==> ticks[i].Elsewhere?
    decreases |ticks|
  {
    if ticks != [] {
      var before := ticks[..|ticks| - 1];
      ArrivesOnce(r, s, before);
      AnsweredOnce(r, s, before);
      assert forall i :: 0 <= i < |before| ==> before[i] == ticks[i];
    }
  }

  /** Requests other than transfers never retry: the first step after the arrival answers them. */
  lemma OthersAnswerAtOnce(r: Request, s: Server)
    ensures !r.TransferRpc? && !r.TpcPrepareRpc? ==> Fire(Life(PROCESS, r, []), s).0.status == FINISH
    ensures r.TransferRpc? || r.TpcPrepareRpc? ==>
              (Fire(Life(PROCESS, r, []), s).0.status == RETRY
               <==> RunPaxos(s, r.t, r.TpcPrepareRpc?).answer == None)
  {
  }

  // ---------- the call as an object ----------

  class InCall {
    const server: ServerImpl
    var status: CallStatus
    var request: Request                // filled in by the transport when the call arrives
    var answers: seq<Response>
    var waits: Waits

    ghost function Value(): Life
      reads this
    {
      Life(status, request, answers)
    }

    /** The queue holds exactly what the status calls for: nothing is lost and nothing comes twice. */
    ghost predicate Valid()
      reads this
    {
      && waits == WaitsFor(status) && |answers| <= 1
      && (status in {FINISH, DELETED} <==> |answers| == 1)
    }

    constructor (server: ServerImpl)
      ensures Valid() && status == PROCESS && answers == [] && this.server == server
      decreases 1
    {
      this.server := server;
      status, answers, waits := CREATE, [], Nothing;
      request := LogsRpc;
      new;
      var _, _, _ := Proceed();
    }

    /** The step taken when the completion queue names this call; it may register a successor. */
    method Proceed() returns (next: InCall?, out: Broadcast, sync: Option<SyncReq>)
      requires Valid() && status != DELETED
      requires status in {PROCESS, RETRY} ==> server.Valid()
      modifies this
      modifies if status in {PROCESS, RETRY} then {server, server.wal} else {}
      ensures Valid()
      ensures old(status) in {PROCESS, RETRY} ==>
                var s := old(server.State());
                && (Value(), server.State()) == Fire(old(Value()), s)
                && server.wal.Valid() && (server.Valid() <==> !DecidesSentinel(s, old(request)))
                && Serve(s, old(request)) == Served(server.State(), Serve(s, old(request)).response, out, sync)
      ensures old(status) !in {PROCESS, RETRY} ==>
                && Value() == old(Value()).(status := if old(status) == CREATE then PROCESS else DELETED)
                && out == Silent && sync == None
      ensures old(status) == PROCESS <==> next != null
      ensures next != null ==> fresh(next) && next.Valid() && next.status == PROCESS && next.server == server
      decreases if status == CREATE then 0 else 2
    {
      hide Serve, ServerImpl.Valid, ServerImpl.State;
      next, out, sync := null, Silent, None;
      if status == CREATE {
        status, waits := PROCESS, Arrival;
      } else if status == PROCESS || status == RETRY {
        if status == PROCESS {
          next := new InCall(server);
        }
        var response;
        response, out, sync := Process();
        if response.None? {
          status := RETRY;
          Retry();
        } else {
          answers := answers + [response.value];
          waits := Sent;
          status := FINISH;
        }
      } else {
        status, waits := DELETED, Nothing;
      }
    }

    /** Arms the alarm that names this call again. */
    method Retry()
      modifies this`waits
      ensures waits == Alarm
    {
      waits := Alarm;
    }

    /** Hands the request to the handler of its type. */
    method Process() returns (response: Option<Response>, out: Broadcast, sync: Option<SyncReq>)
      requires server.Valid()
      modifies server, server.wal
      ensures Served(server.State(), response, out, sync) == Serve(old(server.State()), request)
      ensures server.wal.Valid() && (server.Valid() <==> !DecidesSentinel(old(server.State()), request))
    {
      hide RunPaxos, Decide, OnPrepare, OnAccept, OnCommit, OnSync, Wal.Valid;
      response, out, sync := Some(Empty), Silent, None;
      match request {
        case TpcPrepareRpc(t) =>
          var answer;
          out, answer := server.RunPaxos(t, true);
          response := if answer.Some? then Some(Transferred(answer.value)) else None;
        case TransferRpc(t) =>
          var answer;
          out, answer := server.RunPaxos(t, false);
          response := if answer.Some? then Some(Transferred(answer.value)) else None;
        case TpcCommitRpc(tid) =>
          server.ProcessTpcDecision(tid, true);
        case TpcAbortRpc(tid) =>
          server.ProcessTpcDecision(tid, false);
        case BalanceRpc(client) =>
          var amount := server.ProcessGetBalanceCall(client);
          response := Some(BalanceIs(amount));
        case LogsRpc =>
          var logs := server.ProcessGetLogsCall();
          response := Some(LogsAre(logs));
        case PrepareRpc(p) =>
          var res;
          res, sync := server.ProcessPrepareCall(p);
          response := Some(PrepareAnswer(res));
        case AcceptRpc(a) =>
          var res := server.ProcessAcceptCall(a);
          response := Some(AcceptAnswer(res));
        case CommitRpc(c) =>
          server.ProcessCommitCall(c);
        case SyncRpc(y) =>
          var res := server.ProcessSyncCall(y);
          response := Some(SyncAnswer(res));
        case DisconnectRpc(servers) =>
          server.ProcessDisconnectCall(servers);
      }
    }
  }
}
