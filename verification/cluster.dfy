/**
 One cluster as a state machine: a server that alone proposes, its two followers, and
 first-in first-out links from the leader that may lose messages. A synchronisation call
 and its answer form one step.
 */
module Cluster {
  import opened Types
  import opened ServerModel
  import opened Participant

  datatype Msg = MPrepare(p: PrepareReq) | MAccept(a: AcceptReq) | MCommit(c: CommitReq)
  {
    function Num(): int {
      match this
      case MPrepare(p) => p.ballot.num
      case MAccept(a) => a.ballot.num
      case MCommit(c) => c.ballot.num
    }

    /** Orders the leader's messages: by ballot number, then by phase. */
    function Key(): int {
      3 * Num() + (if MPrepare? then 0 else if MAccept? then 1 else 2)
    }
  }

  /** An outgoing call of the leader that has not ended yet. Commit calls have no handler. */
  datatype Call = CallPrepare(p: PrepareReq) | CallAccept(a: AcceptReq)

  datatype Reply = ReplyPrepare(sent: PrepareReq, promise: PrepareRes) | ReplyAccept(asked: AcceptReq, vote: AcceptRes)
  {
    function Call(): Call {
      match this
      case ReplyPrepare(sent, _) => CallPrepare(sent)
      case ReplyAccept(asked, _) => CallAccept(asked)
    }
  }

  /**
   A follower, the link towards it, the leader's open calls to it, its replies in flight, and the
   calls of the leader's current phase that ended in an error other than the deadline.
   */
  datatype Peer = Peer(s: Server, link: seq<Msg>, calls: set<Call>, replies: set<Reply>, broken: set<Call>)

  datatype State = State(lead: Server, a: Peer, b: Peer) {
    function At(first: bool): Peer {
      if first then a else b
    }

    function With(first: bool, p: Peer): State {
      if first then this.(a := p) else this.(b := p)
    }
  }

  datatype Step =
    | Request(req: TransferReq, cross: bool)  // a request arrives or its retry alarm fires
    | Deliver(first: bool)                  // the follower handles the head of its link
    | Lose(first: bool, at: nat)            // a message is lost
    | Answer(first: bool, r: Reply)         // a reply reaches the leader
    | Expire(first: bool, call: Call)       // a call reaches its deadline
    | Break(first: bool, call: Call)        // a call ends in another error, which no handler counts
    | Synchronise(first: bool)              // the pending Sync call succeeds
    | SyncExpire(first: bool)               // the pending Sync call fails
    | Partition(first: bool, me: bool)      // a follower is told that it is (dis)connected
    | PartitionLead(me: bool)
    | LeadSync(first: bool)                 // the leader's pending Sync call succeeds
    | LeadSyncExpire                        // a Sync call of the leader fails
    | DecideLead(tid: int, commit: bool)    // the client's decision reaches the leader
    | DecidePeer(first: bool, tid: int, commit: bool)

  function Send(p: Peer, out: Broadcast): Peer {
    match out
    case Silent => p
    case Prepares(r) => p.(link := p.link + [MPrepare(r)], calls := p.calls + {CallPrepare(r)}, broken := {})
    case Accepts(r) => p.(link := p.link + [MAccept(r)], calls := p.calls + {CallAccept(r)}, broken := {})
    case Commits(r) => p.(link := p.link + [MCommit(r)])
  }

  function Receive(p: Peer): Peer
    requires p.link != []
  {
    match p.link[0]
    case MPrepare(r) =>
      var out := OnPrepare(p.s, r);
      p.(s := out.s, link := p.link[1..], replies := p.replies + {ReplyPrepare(r, out.res)})
    case MAccept(r) =>
      var out := OnAccept(p.s, r);
      p.(s := out.0, link := p.link[1..], replies := p.replies + {ReplyAccept(r, out.1)})
    case MCommit(r) => p.(s := OnCommit(p.s, r), link := p.link[1..])
  }

  /** The leader handles a reply if its call is still open. */
  function Hear(lead: Server, r: Reply): Server {
    match r
    case ReplyPrepare(sent, res) => OnPrepareReply(lead, Ok, sent, res).0
    case ReplyAccept(asked, res) => OnAcceptReply(lead, Ok, asked, res)
  }

  const EMPTY_PROMISE := PrepareRes(false, NO_BALLOT, None, None, None, None)

  function Timeout(lead: Server, call: Call): Server {
    Ended(lead, call, DeadlineExceeded)
  }

  /** The leader handles a call that ended without an answer. */
  function Ended(lead: Server, call: Call, status: RpcStatus): Server {
    match call
    case CallPrepare(p) => OnPrepareReply(lead, status, p, EMPTY_PROMISE).0
    case CallAccept(a) => OnAcceptReply(lead, status, a, AcceptRes(false, NO_BALLOT))
  }

  /** A step that is not enabled changes nothing. */
  function Next(c: State, step: Step): State {
    match step
    case Request(req, cross) =>
      var ran := RunPaxos(c.lead, req, cross);
      State(ran.s, Send(c.a, ran.out), Send(c.b, ran.out))
    case Deliver(first) =>
      if c.At(first).link == [] then c else c.With(first, Receive(c.At(first)))
    case Lose(first, at) =>
      var p := c.At(first);
      if at < |p.link| then c.With(first, p.(link := p.link[..at] + p.link[at + 1..])) else c
    case Answer(first, r) =>
      var p := c.At(first);
      if r !in p.replies then c
      else if r.Call() !in p.calls then c.With(first, p.(replies := p.replies - {r}))
      else c.With(first, p.(replies := p.replies - {r}, calls := p.calls - {r.Call()})).(lead := Hear(c.lead, r))
    case Expire(first, call) =>
      var p := c.At(first);
      if call !in p.calls then c
      else c.With(first, p.(calls := p.calls - {call})).(lead := Timeout(c.lead, call))
    case Break(first, call) =>
      var p := c.At(first);
      if call !in p.calls then c
      else c.With(first, p.(calls := p.calls - {call}, broken := p.broken + {call})).(lead := Ended(c.lead, call, OtherError))
    case Synchronise(first) =>
      var p := c.At(first);
      if !p.s.inSync then c
      else c.With(first, p.(s := OnSyncReply(p.s, Ok, OnSync(c.lead, SyncReq(p.s.books.lastInserted)))))
    case SyncExpire(first) =>
      var p := c.At(first);
      c.With(first, p.(s := OnSyncReply(p.s, DeadlineExceeded, SyncRes(false, [], NO_BALLOT))))
    case Partition(first, me) =>
      var p := c.At(first);
      c.With(first, p.(s := p.s.(disconnected := me)))
    case PartitionLead(me) => c.(lead := c.lead.(disconnected := me))
    case LeadSync(first) =>
      if !c.lead.inSync then c
      else c.(lead := OnSyncReply(c.lead, Ok, OnSync(c.At(first).s, SyncReq(c.lead.books.lastInserted))))
    case LeadSyncExpire => c.(lead := OnSyncReply(c.lead, DeadlineExceeded, SyncRes(false, [], NO_BALLOT)))
    case DecideLead(tid, commit) => c.(lead := Decide(c.lead, tid, commit))
    case DecidePeer(first, tid, commit) =>
      var p := c.At(first);
      c.With(first, p.(s := Decide(p.s, tid, commit)))
  }

  function After(c: State, steps: seq<Step>): State
    decreases |steps|
  {
    if steps == [] then c else Next(After(c, steps[..|steps| - 1]), steps[|steps| - 1])
  }

  /** The client's requests, each sent to a server of the cluster that owns both accounts. */
  ghost predicate Routed(reqs: Requests, shard: Shard, req: TransferReq) {
    Issued(reqs, req) && shard.Owns(req.txn.sender) && shard.Owns(req.txn.receiver)
  }

  /** Transfers within the cluster only, so that the client has nothing to decide. */
  ghost predicate IntraShard(reqs: Requests, shard: Shard, steps: seq<Step>) {
    forall i :: 0 <= i < |steps| ==> IntraStep(reqs, shard, steps[i])
  }

  ghost predicate IntraStep(reqs: Requests, shard: Shard, step: Step) {
    && (step.Request? ==> Routed(reqs, shard, step.req) && !step.cross)
    && !step.DecideLead? && !step.DecidePeer?
  }

  function Start(lead: Server, a: Server, b: Server): State {
    State(lead, Peer(a, [], {}, {}, {}), Peer(b, [], {}, {}, {}))
  }
}
