/**
 Liveness-flavoured facts about the leader's rounds: votes never give both a success and a
 failure majority, a round whose calls have all ended is decided at the next retry, and a
 lone proposer adopts a higher ballot number at most once per follower.
 */
module Rounds {
  import opened Types
  import opened ServerModel
  import opened Participant
  import opened Cluster
  import Replication

  // ---------- counting ----------

  /** The call that the current phase of the leader waits for. */
  function Current(l: Server): Call
    requires Waiting(l)
  {
    if l.round.awaitPrepare then CallPrepare(PrepareReq(l.acceptor.promisedNum, l.books.lastInserted))
    else CallAccept(AcceptReq(l.acceptor.acceptNum, l.acceptor.acceptVal))
  }

  /** The current call to this follower has been counted neither way: it is open or has broken. */
  function Uncounted(l: Server, p: Peer): int
    requires Waiting(l)
  {
    if Current(l) in p.calls || Current(l) in p.broken then 1 else 0
  }

  function CallNum(call: Call): int {
    match call
    case CallPrepare(p) => p.ballot.num
    case CallAccept(a) => a.ballot.num
  }

  ghost predicate CallsOk(l: Server, calls: set<Call>) {
    forall call :: call in calls ==>
      && CallNum(call) <= l.acceptor.ballotNum
      && (l.round.awaitPrepare && call.CallPrepare? && CallNum(call) == l.acceptor.ballotNum ==> call == Current(l))
      && (l.round.awaitPrepare && call.CallAccept? ==> CallNum(call) < l.acceptor.ballotNum)
      && (l.round.awaitAccept && call.CallAccept? && CallNum(call) == l.acceptor.ballotNum ==> call == Current(l))
  }

  ghost predicate Counted(c: State) {
    var l := c.lead;
    && CallsOk(l, c.a.calls) && CallsOk(l, c.b.calls)
    && c.a.calls !! c.a.broken && c.b.calls !! c.b.broken
    && (l.round.awaitPrepare ==>
          && l.round.prepareOks + l.round.prepareFails + Uncounted(l, c.a) + Uncounted(l, c.b) == 3
          && l.round.prepareOks >= 1 && l.round.prepareFails >= 0)
    && (l.round.awaitAccept ==>
          && l.round.acceptOks + l.round.acceptFails + Uncounted(l, c.a) + Uncounted(l, c.b) == 3
          && l.round.acceptOks >= 1 && l.round.acceptFails >= 0)
  }

  ghost predicate LoneLead(l: Server) {
    && Orderly(l.round)
    && (Waiting(l) ==> l.acceptor.promisedNum == Ballot(l.acceptor.ballotNum, l.id))
    && (l.round.awaitAccept ==> l.acceptor.acceptNum == l.acceptor.promisedNum)
  }

  /** A reply carries the ballot of its call; a rejection as outdated names a number at least as high. */
  ghost predicate Faithful(r: Reply) {
    match r
    case ReplyPrepare(sent, res) =>
      && res.ballot == sent.ballot
      && (res.latestBallotNum.Some? ==> sent.ballot.num <= res.latestBallotNum.value)
    case ReplyAccept(asked, res) => res.ballot == asked.ballot
  }

  ghost predicate Tallied(c: State) {
    && LoneLead(c.lead) && (c.lead.inSync ==> !Waiting(c.lead))
    && (forall r :: r in c.a.replies || r in c.b.replies ==> Faithful(r))
    && Counted(c)
  }

  /**
   Genuine tids, and no Sync of the leader that sets its number below that of a call it has
   open: an answer to such a call would be counted for a later ballot of the same number.
   */
  ghost predicate CanTake(c: State, step: Step) {
    && (step.Request? ==> step.req.tid != -1)
    && (step.LeadSync? && c.lead.inSync && OnSync(c.At(step.first).s, SyncReq(c.lead.books.lastInserted)).ack ==>
          NoneAbove(c, c.At(step.first).s.books.lastInsertedBallot.num))
  }

  ghost predicate NoneAbove(c: State, num: int) {
    forall call :: call in c.a.calls || call in c.b.calls ==> CallNum(call) <= num
  }

  ghost predicate CanTakeAll(c: State, steps: seq<Step>) {
    forall i :: 0 <= i < |steps| ==> CanTake(After(c, steps[..i]), steps[i])
  }

  lemma RequestTallied(c: State, req: TransferReq, cross: bool)
    requires Tallied(c) && req.tid != -1
    ensures Tallied(Next(c, Request(req, cross)))
  {
    RunCases(c.lead, req, cross);
    var l' := RunPaxos(c.lead, req, cross).s;
    match RunPaxos(c.lead, req, cross).out
    case Silent =>
    case Prepares(r) =>
      assert Current(l') == CallPrepare(r) && CallPrepare(r) !in c.a.calls && CallPrepare(r) !in c.b.calls;
    case Accepts(r) =>
      assert Current(l') == CallAccept(r) && CallAccept(r) !in c.a.calls && CallAccept(r) !in c.b.calls;
    case Commits(r) =>
  }

  /** Ending one call, by deadline or reply, moves exactly one unit from the open calls to the tallies. */
  lemma TimeoutTallied(c: State, first: bool, call: Call)
    requires Tallied(c)
    ensures Tallied(Next(c, Expire(first, call)))
  {
  }

  lemma BreakTallied(c: State, first: bool, call: Call)
    requires Tallied(c)
    ensures Tallied(Next(c, Break(first, call)))
  {
  }

  lemma PromiseTallied(c: State, first: bool, r: Reply)
    requires Tallied(c) && r.ReplyPrepare?
    ensures Tallied(Next(c, Answer(first, r)))
  {
    hide OnAcceptReply;
    if r in c.At(first).replies {
      assert Faithful(r);
    }
  }

  lemma VoteTallied(c: State, first: bool, r: Reply)
    requires Tallied(c) && r.ReplyAccept?
    ensures Tallied(Next(c, Answer(first, r)))
  {
    hide OnPrepareReply;
    if r in c.At(first).replies {
      assert Faithful(r);
    }
  }

  /** Steps that neither open nor end a call, nor move the leader within its round. */
  lemma QuietTallied(c: State, step: Step)
    requires Tallied(c) && CanTake(c, step) && !step.Request? && !step.Answer? && !step.Expire? && !step.Break?
    ensures Tallied(Next(c, step))
  {
    hide RunPaxos, OnPrepareReply, OnAcceptReply;
  }

  lemma NextTallied(c: State, step: Step)
    requires Tallied(c) && CanTake(c, step)
    ensures Tallied(Next(c, step))
  {
    hide Tallied;
    match step
    case Request(req, cross) => RequestTallied(c, req, cross);
    case Answer(first, r) =>
      if r.ReplyPrepare? { PromiseTallied(c, first, r); } else { VoteTallied(c, first, r); }
    case Expire(first, call) => TimeoutTallied(c, first, call);
    case Break(first, call) => BreakTallied(c, first, call);
    case _ => QuietTallied(c, step);
  }

  lemma {:induction false} RunTallied(c: State, steps: seq<Step>)
    requires Tallied(c) && CanTakeAll(c, steps)
    ensures Tallied(After(c, steps))
    decreases |steps|
  {
    if steps != [] {
      var before := steps[..|steps| - 1];
      assert forall i :: 0 <= i < |before| ==> before[..i] == steps[..i];
      RunTallied(c, before);
      NextTallied(After(c, before), steps[|steps| - 1]);
    }
  }

  /** Whatever mix of requests, decisions and Syncs: no phase counts a majority both ways. */
  lemma NeverBothMajorities(lead: Server, a: Server, b: Server, steps: seq<Step>)
    requires Orderly(lead.round) && !Waiting(lead) && CanTakeAll(Start(lead, a, b), steps)
    ensures
      var r := After(Start(lead, a, b), steps).lead.round;
      && !(r.awaitPrepare && r.prepareOks >= MAJORITY && r.prepareFails >= MAJORITY)
      && !(r.awaitAccept && r.acceptOks >= MAJORITY && r.acceptFails >= MAJORITY)
  {
    RunTallied(Start(lead, a, b), steps);
  }

  /** How many servers the current phase counts in favour, the leader included. */
  function Oks(l: Server): int {
    if l.round.awaitPrepare then l.round.prepareOks else l.round.acceptOks
  }

  /** The retry answers the client or opens the next phase. */
  predicate Decides(l: Server, req: TransferReq, cross: bool) {
    var ran := RunPaxos(l, req, cross);
    ran.answer.Some? || (l.round.awaitPrepare && ran.s.round.awaitAccept)
  }

  /**
   Once neither follower's call is open, the next retry decides, exactly unless a call has broken
   and no follower is in favour. Then every later retry hangs, too.
   */
  lemma DecidedOnRetry(lead: Server, a: Server, b: Server, steps: seq<Step>, req: TransferReq, cross: bool)
    requires Orderly(lead.round) && !Waiting(lead) && CanTakeAll(Start(lead, a, b), steps)
    requires
      var r := After(Start(lead, a, b), steps);
      && Waiting(r.lead) && r.lead.round.tid == req.tid
      && Current(r.lead) !in r.a.calls && Current(r.lead) !in r.b.calls
    ensures
      var r := After(Start(lead, a, b), steps);
      && (Decides(r.lead, req, cross) <==>
            (Current(r.lead) !in r.a.broken && Current(r.lead) !in r.b.broken) || Oks(r.lead) >= MAJORITY)
      && (!Decides(r.lead, req, cross) ==> RunPaxos(r.lead, req, cross) == Ran(r.lead, Silent, None))
  {
    RunTallied(Start(lead, a, b), steps);
  }

  // ---------- catching up with a higher ballot number ----------

  /** The number the leader is collecting promises for, or will use next. */
  function Bid(l: Server): int {
    if Waiting(l) then l.acceptor.ballotNum else l.acceptor.ballotNum + 1
  }

  /** This follower still rejects the leader's bid as outdated. */
  predicate Ahead(l: Server, s: Server) {
    s.acceptor.ballotNum >= Bid(l) && s.acceptor.promisedNum != Ballot(Bid(l), l.id)
  }

  function HowMany(c: State): nat {
    (if Ahead(c.lead, c.a.s) then 1 else 0) + (if Ahead(c.lead, c.b.s) then 1 else 0)
  }

  /** The leader adopts the number in a rejection and will have to start its Prepare again. */
  predicate Adopts(c: State, step: Step) {
    && step.Answer? && step.r in c.At(step.first).replies && step.r.Call() in c.At(step.first).calls
    && step.r.ReplyPrepare? && c.lead.round.awaitPrepare && step.r.promise.latestBallotNum.Some?
    && Mine(c.lead, step.r.promise.ballot, c.lead.acceptor.promisedNum)
  }

  function Adoptions(c: State, steps: seq<Step>): nat
    decreases |steps|
  {
    if steps == [] then 0
    else Adoptions(c, steps[..|steps| - 1]) + (if Adopts(After(c, steps[..|steps| - 1]), steps[|steps| - 1]) then 1 else 0)
  }

  ghost predicate RejectionOk(l: Server, p: Peer, sent: PrepareReq, res: PrepareRes) {
    && res.ballot == sent.ballot && sent.ballot.num <= l.acceptor.ballotNum
    && (res.latestBallotNum.Some? ==>
          && sent.ballot.num <= res.latestBallotNum.value
          && (l.round.awaitPrepare && sent.ballot.num == l.acceptor.ballotNum ==>
                && p.s.acceptor.ballotNum == res.latestBallotNum.value
                && p.s.acceptor.promisedNum != Ballot(l.acceptor.ballotNum, l.id)
                && forall i :: 0 <= i < |p.link| ==> 3 * l.acceptor.ballotNum < p.link[i].Key()))
  }

  ghost predicate LonePeer(l: Server, p: Peer) {
    var s := p.s.acceptor;
    && s.promisedNum.num <= s.ballotNum
    && (s.promisedNum.serverId == l.id ==> s.promisedNum.num <= l.acceptor.ballotNum)
    && (Waiting(l) && s.promisedNum == Ballot(l.acceptor.ballotNum, l.id) ==> s.ballotNum == l.acceptor.ballotNum)
    && (forall i :: 0 <= i < |p.link| ==>
          && p.link[i].Key() <= Replication.LeadKey(l)
          && (p.link[i].MPrepare? ==> p.link[i].p.ballot.serverId == l.id &&
                                      (s.promisedNum.serverId == l.id ==> s.promisedNum.num < p.link[i].Num())))
    && (forall i, j :: 0 <= i < j < |p.link| ==> p.link[i].Key() < p.link[j].Key())
    && (forall r :: r in p.replies && r.ReplyPrepare? ==> RejectionOk(l, p, r.sent, r.promise))
  }

  ghost predicate Lone(c: State) {
    LoneLead(c.lead) && LonePeer(c.lead, c.a) && LonePeer(c.lead, c.b)
  }

  predicate NoSync(step: Step) {
    !step.Synchronise? && !step.LeadSync? && (step.Request? ==> step.req.tid != -1)
  }

  lemma RequestLone(c: State, req: TransferReq, cross: bool)
    requires Lone(c) && req.tid != -1
    ensures Lone(Next(c, Request(req, cross))) && HowMany(Next(c, Request(req, cross))) <= HowMany(c)
  {
    RunCases(c.lead, req, cross);
    var ran := RunPaxos(c.lead, req, cross);
    RequestLonePeer(c.lead, ran.s, ran.out, c.a);
    RequestLonePeer(c.lead, ran.s, ran.out, c.b);
  }

  /** The leader moves within or past its current ballot, or opens the next one. */
  ghost predicate LeadMoves(l: Server, l': Server, out: Broadcast) {
    && l'.id == l.id && LoneLead(l')
    && match out
       case Silent => l'.acceptor == l.acceptor && (l'.round == l.round || !Waiting(l'))
       case Prepares(r) =>
         && !Waiting(l) && l'.round.awaitPrepare && r.ballot == Ballot(l'.acceptor.ballotNum, l.id)
         && l'.acceptor.ballotNum == l.acceptor.ballotNum + 1
       case Accepts(r) =>
         && l.round.awaitPrepare && l'.round.awaitAccept && l'.acceptor.ballotNum == l.acceptor.ballotNum
         && r.ballot == l.acceptor.promisedNum
       case Commits(r) =>
         && l.round.awaitAccept && !Waiting(l') && l'.acceptor.ballotNum == l.acceptor.ballotNum
         && r.ballot.num == l.acceptor.ballotNum
  }

  lemma RejectionMoves(l: Server, l': Server, out: Broadcast, p: Peer, sent: PrepareReq, res: PrepareRes)
    requires LoneLead(l) && RejectionOk(l, p, sent, res) && LeadMoves(l, l', out)
    ensures RejectionOk(l', Send(p, out), sent, res)
  {
  }

  lemma RequestLonePeer(l: Server, l': Server, out: Broadcast, p: Peer)
    requires LoneLead(l) && LonePeer(l, p) && LeadMoves(l, l', out)
    ensures LonePeer(l', Send(p, out)) && (Ahead(l', Send(p, out).s) ==> Ahead(l, p.s))
  {
    hide RejectionOk;
    forall r | r in p.replies && r.ReplyPrepare? ensures RejectionOk(l', Send(p, out), r.sent, r.promise) {
      RejectionMoves(l, l', out, p, r.sent, r.promise);
    }
  }

  lemma ReceiveLone(l: Server, p: Peer)
    requires LoneLead(l) && LonePeer(l, p) && p.link != []
    ensures LonePeer(l, Receive(p)) && (Ahead(l, Receive(p).s) ==> Ahead(l, p.s))
  {
    var p' := Receive(p);
    forall i | 0 <= i < |p'.link| ensures p'.link[i] == p.link[i + 1] && p.link[0].Key() < p'.link[i].Key() { }
    forall r | r in p'.replies && r.ReplyPrepare? ensures RejectionOk(l, p', r.sent, r.promise) {
      if r in p.replies {
        assert RejectionOk(l, p, r.sent, r.promise);
      }
    }
  }

  /** Follower steps that touch neither ballots nor replies: a lost message, a decision, a failed Sync. */
  lemma IdleLone(l: Server, p: Peer, p': Peer)
    requires LoneLead(l) && LonePeer(l, p)
    requires p'.s.acceptor == p.s.acceptor && p'.replies <= p.replies
    requires p'.link == p.link || exists at :: 0 <= at < |p.link| && p'.link == p.link[..at] + p.link[at + 1..]
    ensures LonePeer(l, p') && (Ahead(l, p'.s) <==> Ahead(l, p.s))
  {
  }

  /** What a reply or a deadline can do to the leader: count on, or adopt a number and stop waiting. */
  ghost predicate Hears(l: Server, l': Server) {
    && l'.id == l.id && LoneLead(l')
    && (|| (l'.acceptor == l.acceptor &&
            (Waiting(l') ==> l'.round.awaitPrepare == l.round.awaitPrepare && l'.round.awaitAccept == l.round.awaitAccept))
        || (l'.acceptor.ballotNum >= l.acceptor.ballotNum && l.round.awaitPrepare && !Waiting(l')))
  }

  lemma HeardLonePeer(l: Server, l': Server, p: Peer)
    requires LoneLead(l) && LonePeer(l, p) && Hears(l, l')
    ensures LonePeer(l', p) && (Ahead(l', p.s) ==> Ahead(l, p.s))
  {
  }

  lemma HearLone(l: Server, p: Peer, r: Reply)
    requires LoneLead(l) && LonePeer(l, p) && r in p.replies
    ensures Hears(l, Hear(l, r))
    ensures (&& r.ReplyPrepare? && l.round.awaitPrepare && r.promise.latestBallotNum.Some?
             && Mine(l, r.promise.ballot, l.acceptor.promisedNum))
            ==> Ahead(l, p.s) && !Ahead(Hear(l, r), p.s)
  {
  }

  /** Adopting the number of a follower's rejection takes that follower out of those ahead. */
  lemma AnswerLone(c: State, first: bool, r: Reply)
    requires Lone(c)
    ensures Lone(Next(c, Answer(first, r)))
    ensures HowMany(Next(c, Answer(first, r))) + (if Adopts(c, Answer(first, r)) then 1 else 0) <= HowMany(c)
  {
    hide LoneLead, LonePeer, Ahead, Hear;
    var p := c.At(first);
    if r in p.replies {
      var c' := Next(c, Answer(first, r));
      IdleLone(c.lead, p, c'.At(first));
      HearLone(c.lead, p, r);
      HeardLonePeer(c.lead, c'.lead, c'.a);
      HeardLonePeer(c.lead, c'.lead, c'.b);
    }
  }

  lemma ExpireLone(c: State, first: bool, call: Call)
    requires Lone(c)
    ensures Lone(Next(c, Expire(first, call))) && HowMany(Next(c, Expire(first, call))) <= HowMany(c)
  {
    if call in c.At(first).calls {
      var c' := Next(c, Expire(first, call));
      IdleLone(c.lead, c.At(first), c'.At(first));
      HeardLonePeer(c.lead, c'.lead, c'.a);
      HeardLonePeer(c.lead, c'.lead, c'.b);
    }
  }

  lemma BreakLone(c: State, first: bool, call: Call)
    requires Lone(c)
    ensures Lone(Next(c, Break(first, call))) && HowMany(Next(c, Break(first, call))) <= HowMany(c)
  {
    if call in c.At(first).calls {
      IdleLone(c.lead, c.At(first), Next(c, Break(first, call)).At(first));
    }
  }

  /** Steps of one follower alone. */
  lemma FollowerLone(c: State, step: Step)
    requires Lone(c) && (step.Deliver? || step.Lose? || step.SyncExpire? || step.Partition? || step.DecidePeer?)
    ensures Lone(Next(c, step)) && HowMany(Next(c, step)) <= HowMany(c)
  {
    hide LoneLead, LonePeer, Ahead, Receive;
    var p := c.At(step.first);
    if step.Deliver? {
      if p.link != [] { ReceiveLone(c.lead, p); }
    } else {
      IdleLone(c.lead, p, Next(c, step).At(step.first));
    }
  }

  lemma LeadLone(c: State, step: Step)
    requires Lone(c) && (step.PartitionLead? || step.LeadSyncExpire? || step.DecideLead?)
    ensures Lone(Next(c, step)) && HowMany(Next(c, step)) <= HowMany(c)
  {
    HeardLonePeer(c.lead, Next(c, step).lead, c.a);
    HeardLonePeer(c.lead, Next(c, step).lead, c.b);
  }

  lemma NextLone(c: State, step: Step)
    requires Lone(c) && NoSync(step)
    ensures Lone(Next(c, step))
    ensures HowMany(Next(c, step)) + (if Adopts(c, step) then 1 else 0) <= HowMany(c)
  {
    match step
    case Request(req, cross) => RequestLone(c, req, cross);
    case Answer(first, r) => AnswerLone(c, first, r);
    case Expire(first, call) => ExpireLone(c, first, call);
    case Break(first, call) => BreakLone(c, first, call);
    case Deliver(_) => FollowerLone(c, step);
    case Lose(_, _) => FollowerLone(c, step);
    case SyncExpire(_) => FollowerLone(c, step);
    case Partition(_, _) => FollowerLone(c, step);
    case DecidePeer(_, _, _) => FollowerLone(c, step);
    case PartitionLead(_) => LeadLone(c, step);
    case LeadSyncExpire => LeadLone(c, step);
    case DecideLead(_, _) => LeadLone(c, step);
  }

  lemma {:induction false} AdoptionsShrink(c: State, steps: seq<Step>)
    requires Lone(c) && forall i :: 0 <= i < |steps| ==> NoSync(steps[i])
    ensures Lone(After(c, steps))
    ensures Adoptions(c, steps) + HowMany(After(c, steps)) <= HowMany(c)
    decreases |steps|
  {
    if steps != [] {
      AdoptionsShrink(c, steps[..|steps| - 1]);
      NextLone(After(c, steps[..|steps| - 1]), steps[|steps| - 1]);
    }
  }

  /** Whatever higher numbers the followers start with, at most two adoptions happen in the whole run. */
  lemma AtMostTwoRestarts(lead: Server, a: Server, b: Server, steps: seq<Step>)
    requires Orderly(lead.round) && !Waiting(lead)
    requires forall s :: s in {a, b} ==>
      && s.acceptor.promisedNum.num <= s.acceptor.ballotNum
      && (s.acceptor.promisedNum.serverId == lead.id ==> s.acceptor.promisedNum.num <= lead.acceptor.ballotNum)
    requires forall i :: 0 <= i < |steps| ==> NoSync(steps[i])
    ensures Adoptions(Start(lead, a, b), steps) <= HowMany(Start(lead, a, b)) <= 2
  {
    AdoptionsShrink(Start(lead, a, b), steps);
  }
}
