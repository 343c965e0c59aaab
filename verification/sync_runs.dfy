/**
 Runs of one cluster, from freshly started servers, in which a Sync of the leader goes wrong: a
 transfer is applied twice, one Prepare gets a majority both ways, one ballot number gets two
 owners, an account stays locked for good. And one without a Sync: a round that the leader gives up
 leaves accounts locked at a follower.
 */
module SyncRuns {
  import opened Types
  import opened ServerModel
  import opened Participant
  import opened Cluster
  import opened Conservation
  import Locking
  import Replication

  // ---------- a run that applies a transfer twice ----------

  const SHARD := Shard(c => if 1 <= c <= 5 then 1 else if 6 <= c <= 10 then 2 else 0, 1)
  const OWN := map[1 := 10, 2 := 10, 3 := 10, 4 := 10, 5 := 10]
  const FRESH := Start(Initial(1, SHARD, OWN), Initial(2, SHARD, OWN), Initial(3, SHARD, OWN))

  const FIRST := Ballot(1, 1)
  const SECOND := Ballot(2, 1)
  const CROSSING := TransferReq(7, Transaction(1, 6, 6))
  const LOCAL := TransferReq(8, Transaction(2, 3, 1))
  const PREPARED := PreparedEntry(CROSSING, FIRST)
  const COMMITTED := PREPARED.(status := Committed)

  const ASK1 := PrepareReq(FIRST, -1)
  const PROMISE1 := PrepareRes(true, FIRST, None, None, None, None)
  const ACCEPT1 := AcceptReq(FIRST, CROSSING)
  const VOTE1 := AcceptRes(true, FIRST)
  const ASK2 := PrepareReq(SECOND, 0)
  const REJECT2 := PrepareRes(false, SECOND, None, None, Some(1), Some(2))
  const ASK3 := PrepareReq(SECOND, 1)
  const PROMISE3 := PrepareRes(true, SECOND, None, None, None, None)

  /** The books of the leader: fresh, prepared, committed, and committed again by the Sync. */
  const LEAD_PREPARED := Books(OWN, {1, 6}, [PREPARED], map[7 := PREPARED], 0, FIRST)
  const LEAD_COMMITTED := Books(OWN[1 := 4], {6}, [PREPARED, COMMITTED], map[], 0, FIRST)
  const LEAD_SYNCED := Books(OWN[1 := -2], {6}, [PREPARED, COMMITTED, COMMITTED], map[], 1, FIRST)

  /** The books of the follower; the late Paxos Commit moves its mark past the decision. */
  const PEER_PREPARED := Books(OWN, {1}, [PREPARED], map[7 := PREPARED], 0, FIRST)
  const PEER_COMMITTED := Books(OWN[1 := 4], {}, [PREPARED, COMMITTED], map[], 0, FIRST)
  const PEER_UNLOCKED := PEER_PREPARED.(locks := {})
  const PEER_MARKED := PEER_COMMITTED.(lastInserted := 1)

  function Lead(books: Books, acceptor: Acceptor, round: Round, inSync: bool): Server {
    Server(1, SHARD, books, acceptor, round, inSync, false)
  }

  function Follower(id: int, books: Books, acceptor: Acceptor): Server {
    Server(id, SHARD, books, acceptor, Round(false, -1, false, false, 0, 0, 0, 0), false, false)
  }

  const NEW_BOOKS := Books(OWN, {}, [], map[], -1, NO_BALLOT)
  const NO_VOTES := Acceptor(0, false, NO_BALLOT, false, NO_BALLOT, NO_REQUEST)
  const PROMISED1 := Acceptor(1, true, FIRST, false, NO_BALLOT, NO_REQUEST)
  const ACCEPTED1 := Acceptor(1, true, FIRST, true, FIRST, CROSSING)
  const DONE1 := Acceptor(1, false, FIRST, false, FIRST, CROSSING)
  const PROMISED2 := Acceptor(2, true, SECOND, false, FIRST, CROSSING)
  const LOWERED := PROMISED2.(ballotNum := 1)

  const L1 := Lead(NEW_BOOKS, PROMISED1, Round(true, 7, true, false, 1, 0, 0, 0), false)
  const L2 := L1.(round := L1.round.(prepareOks := 2))
  const L3 := Lead(LEAD_PREPARED, ACCEPTED1, Round(true, 7, false, true, 2, 0, 1, 0), false)
  const L4 := L3.(round := L3.round.(acceptOks := 2))
  const L5 := Lead(LEAD_PREPARED, DONE1, Round(false, -1, false, false, 2, 0, 2, 0), false)
  const L6 := L5.(books := LEAD_COMMITTED)
  const L7 := Lead(LEAD_COMMITTED, PROMISED2, Round(true, 8, true, false, 1, 0, 2, 0), false)
  const L8 := Lead(LEAD_COMMITTED, PROMISED2, Round(true, 8, false, false, 1, 1, 2, 0), true)
  const L9 := Lead(LEAD_SYNCED, LOWERED, Round(true, 8, false, false, 1, 1, 2, 0), false)
  const L10 := Lead(LEAD_SYNCED, PROMISED2, Round(true, 8, true, false, 1, 0, 2, 0), false)
  const L11 := L10.(round := L10.round.(prepareOks := 2))
  const L12 := L11.(round := L11.round.(prepareFails := 1))
  const L13 := L11.(round := L11.round.(prepareFails := 2))

  lemma Proposes()
    ensures RunPaxos(FRESH.lead, CROSSING, true) == Ran(L1, Prepares(ASK1), None)
    ensures OnPrepareReply(L1, Ok, ASK1, PROMISE1).0 == L2
    ensures RunPaxos(L2, CROSSING, true) == Ran(L3, Accepts(ACCEPT1), None)
  {
    assert NEW_BOOKS.locks + (SHARD.Accounts(CROSSING.txn) + {6}) == {1, 6};
  }

  lemma Commits7()
    ensures OnAcceptReply(L3, Ok, ACCEPT1, VOTE1) == L4
    ensures RunPaxos(L4, CROSSING, true) == Ran(L5, Commits(CommitReq(FIRST)), Some(TransferRes(true, 7)))
    ensures Decide(L5, 7, true) == L6
  {
    assert {1, 6} - SHARD.Accounts(CROSSING.txn) == {6};
    assert map[7 := PREPARED] - {7} == map[];
  }

  lemma Follows(id: int)
    ensures OnPrepare(Follower(id, NEW_BOOKS, NO_VOTES), ASK1) == Promise(Follower(id, NEW_BOOKS, PROMISED1), PROMISE1, None)
    ensures OnAccept(Follower(id, NEW_BOOKS, PROMISED1), ACCEPT1) == (Follower(id, PEER_PREPARED, ACCEPTED1), VOTE1)
    ensures Decide(Follower(id, PEER_PREPARED, ACCEPTED1), 7, true) == Follower(id, PEER_COMMITTED, ACCEPTED1)
    ensures OnCommit(Follower(id, PEER_COMMITTED, ACCEPTED1), CommitReq(FIRST)) == Follower(id, PEER_MARKED, DONE1)
  {
    assert SHARD.Owns(1) && !SHARD.Owns(6) && NEW_BOOKS.Lock({1}).Prepare(CROSSING, FIRST) == PEER_PREPARED;
    assert NEW_BOOKS.locks + SHARD.Accounts(CROSSING.txn) == {1};
    assert {1} - SHARD.Accounts(CROSSING.txn) == {};
    assert map[7 := PREPARED] - {7} == map[];
  }

  /** A follower that gets the Paxos Commit before the decision stays where the leader is, and promises. */
  lemma FollowsUndecided(id: int)
    ensures OnCommit(Follower(id, PEER_PREPARED, ACCEPTED1), CommitReq(FIRST)) == Follower(id, PEER_UNLOCKED, DONE1)
    ensures OnPrepare(Follower(id, PEER_UNLOCKED, DONE1), ASK2) == Promise(Follower(id, PEER_UNLOCKED, PROMISED2), PROMISE3, None)
  {
    assert PEER_PREPARED.locks - SHARD.Accounts(CROSSING.txn) == {};
  }

  lemma Copies()
    ensures RunPaxos(L6, LOCAL, false) == Ran(L7, Prepares(ASK2), None)
    ensures OnPrepare(Follower(2, PEER_MARKED, DONE1), ASK2) == Promise(Follower(2, PEER_MARKED, DONE1), REJECT2, None)
    ensures OnPrepareReply(L7, Ok, ASK2, REJECT2) == (L8, Some(SyncReq(0)))
    ensures OnSync(Follower(2, PEER_MARKED, DONE1), SyncReq(0)) == SyncRes(true, [COMMITTED], FIRST)
    ensures OnSyncReply(L8, Ok, SyncRes(true, [COMMITTED], FIRST)) == L9
  {
    assert PEER_MARKED.log[1..] == [COMMITTED];
    assert ReplayAll(SHARD, LEAD_COMMITTED, []) == LEAD_COMMITTED;
    assert [COMMITTED][..0] == [];
    assert LEAD_COMMITTED.pending - {7} == LEAD_COMMITTED.pending;
  }

  lemma CountsBothWays()
    ensures RunPaxos(L9, LOCAL, false) == Ran(L10, Prepares(ASK3), None)
    ensures OnPrepare(Follower(2, PEER_MARKED, DONE1), ASK3) == Promise(Follower(2, PEER_MARKED, PROMISED2), PROMISE3, None)
    ensures OnPrepareReply(L10, Ok, ASK3, PROMISE3).0 == L11
    ensures Timeout(L11, CallPrepare(ASK2)) == L12 && Timeout(L12, CallPrepare(ASK3)) == L13
  {
  }

  /** One more step of the run. */
  lemma Take(c: State, steps: seq<Step>, step: Step) returns (c': State, steps': seq<Step>)
    requires c == After(FRESH, steps)
    ensures steps' == steps + [step] && c' == Next(c, step) && c' == After(FRESH, steps')
  {
    c', steps' := Next(c, step), steps + [step];
    assert steps'[..|steps|] == steps;
  }

  /** The first follower hears the head of its link and its reply reaches the leader. */
  lemma RoundTrip(c: State, steps: seq<Step>, r: Reply) returns (c': State, steps': seq<Step>)
    requires c == After(FRESH, steps) && c.a.link != [] && r.Call() in c.a.calls && r in Receive(c.a).replies
    requires Receive(c.a).calls == c.a.calls
    ensures c' == After(FRESH, steps')
    ensures c'.lead == Hear(c.lead, r) && c'.a.s == Receive(c.a).s && c'.a.link == c.a.link[1..] && c'.b == c.b
  {
    var d, ds := Take(c, steps, Deliver(true));
    c', steps' := Take(d, ds, Step.Answer(true, r));
  }

  /** Prepare, promise, accept and vote for the crossing transfer, and the leader's acknowledgement. */
  lemma RunToAck() returns (c: State, steps: seq<Step>)
    ensures c == After(FRESH, steps) && c.lead == L5 && c.a.s == Follower(2, PEER_PREPARED, ACCEPTED1)
    ensures c.a.link == [MCommit(CommitReq(FIRST))]
    ensures c.b.s == FRESH.b.s && c.b.link == [MPrepare(ASK1), MAccept(ACCEPT1), MCommit(CommitReq(FIRST))]
  {
    hide RunPaxos, OnPrepare, OnAccept, OnPrepareReply, OnAcceptReply;
    Proposes();
    Commits7();
    Follows(2);
    c, steps := Take(FRESH, [], Request(CROSSING, true));
    c, steps := RoundTrip(c, steps, ReplyPrepare(ASK1, PROMISE1));
    c, steps := Take(c, steps, Request(CROSSING, true));
    c, steps := RoundTrip(c, steps, ReplyAccept(ACCEPT1, VOTE1));
    c, steps := Take(c, steps, Request(CROSSING, true));
  }

  /** The decision overtakes the Paxos Commit at the follower, which then is ahead of the leader. */
  lemma RunToSync() returns (c: State, steps: seq<Step>)
    ensures c == After(FRESH, steps) && c.lead == L9 && c.a.s == Follower(2, PEER_MARKED, DONE1) && c.a.link == []
    ensures CallPrepare(ASK2) in c.b.calls && c.b.s == FRESH.b.s
    ensures c.b.link == [MPrepare(ASK1), MAccept(ACCEPT1), MCommit(CommitReq(FIRST)), MPrepare(ASK2)]
  {
    hide RunPaxos, OnPrepare, OnAccept, OnPrepareReply, OnAcceptReply, OnCommit, OnSync, OnSyncReply, Decide;
    Commits7();
    Follows(2);
    Copies();
    c, steps := RunToAck();
    c, steps := Take(c, steps, DecideLead(7, true));
    c, steps := Take(c, steps, DecidePeer(true, 7, true));
    c, steps := Take(c, steps, Deliver(true));
    c, steps := Take(c, steps, Request(LOCAL, false));
    c, steps := RoundTrip(c, steps, ReplyPrepare(ASK2, REJECT2));
    c, steps := Take(c, steps, LeadSync(true));
  }

  /** From freshly started servers, one Sync of the leader applies a transfer twice and overdraws its sender. */
  lemma SyncAppliesTwice() returns (steps: seq<Step>)
    ensures Replication.Fresh(FRESH) && SHARD.Sound()
    ensures
      var l := After(FRESH, steps).lead;
      && Applied(l.books.log, CROSSING.tid) == 2
      && l.books.Balance(1) == 10 - 2 * CROSSING.txn.amount < 0
      && l.acceptor.ballotNum == 1 && l.acceptor.promisedNum == SECOND
  {
    var c;
    c, steps := RunToSync();
    var log := L9.books.log;
    assert log[..2] == [PREPARED, COMMITTED] && log[..2][..1] == [PREPARED] && log[..1][..0] == [];
    assert Count(log[..2][..1], 7, Committed) == Count(log[..1], 7, Committed) == 0;
    assert Count(log[..2], 7, Committed) == 1;
  }

  /** The answers to its Prepare from before the Sync then count for the one after it. */
  lemma SyncCountsBothWays() returns (steps: seq<Step>)
    ensures
      var r := After(FRESH, steps).lead.round;
      r.awaitPrepare && r.prepareOks >= MAJORITY && r.prepareFails >= MAJORITY
  {
    hide RunPaxos, OnPrepare, OnPrepareReply, Timeout;
    CountsBothWays();
    var c;
    c, steps := RunToSync();
    c, steps := Take(c, steps, Request(LOCAL, false));
    c, steps := RoundTrip(c, steps, ReplyPrepare(ASK3, PROMISE3));
    c, steps := Take(c, steps, Expire(false, CallPrepare(ASK2)));
    c, steps := Take(c, steps, Expire(false, CallPrepare(ASK3)));
  }

  /**
   And number 2 then has two owners: servers 1 and 3 vote for server 1's ballot, and server 1,
   whose number the Sync has set back, votes with server 2 for server 2's ballot.
   */
  lemma SyncGivesTwoOwners() returns (steps: seq<Step>)
    ensures
      var c := After(FRESH, steps);
      var p := RunPaxos(c.a.s, LOCAL, false).out;
      && c.lead.acceptor.promisedNum == SECOND && ReplyPrepare(ASK2, PROMISE3) in c.b.replies && PROMISE3.ack
      && p == Prepares(PrepareReq(Ballot(2, 2), 1)) && OnPrepare(c.lead, p.p).res.ack
  {
    hide OnAccept, OnCommit, Decide, OnSync, OnSyncReply;
    Follows(3);
    FollowsUndecided(3);
    var c;
    c, steps := RunToSync();
    c, steps := Take(c, steps, Deliver(false));
    c, steps := Take(c, steps, Deliver(false));
    c, steps := Take(c, steps, Deliver(false));
    c, steps := Take(c, steps, Deliver(false));
  }

  // ---------- the same Sync before the leader has handled the decision ----------

  const LEAD_TOLD := Books(OWN[1 := 4], {1, 6}, [PREPARED, COMMITTED], map[], 1, FIRST)
  const LEAKED := L9.(books := LEAD_TOLD)
  const ISSUED := map[7 := CROSSING, 8 := LOCAL]

  lemma CopiesUndecided()
    ensures RunPaxos(L5, LOCAL, false) == Ran(L7.(books := LEAD_PREPARED), Prepares(ASK2), None)
    ensures OnPrepareReply(L7.(books := LEAD_PREPARED), Ok, ASK2, REJECT2).0 == L8.(books := LEAD_PREPARED)
    ensures OnSyncReply(L8.(books := LEAD_PREPARED), Ok, SyncRes(true, [COMMITTED], FIRST)) == LEAKED
  {
    assert ReplayAll(SHARD, LEAD_PREPARED, []) == LEAD_PREPARED;
    assert [COMMITTED][..0] == [];
    assert LEAD_PREPARED.pending - {7} == map[];
  }

  /** It applies the transfer once, but the sender's account stays locked with nothing pending. */
  lemma SyncBringsDecision() returns (steps: seq<Step>)
    ensures After(FRESH, steps).lead == LEAKED
    ensures
      && LEAKED.books.log == [PREPARED, COMMITTED] && LEAKED.books.pending == map[]
      && LEAKED.books.Balance(1) == 10 - CROSSING.txn.amount && 1 in LEAKED.books.locks
  {
    hide RunPaxos, OnPrepare, OnPrepareReply, OnCommit, OnSync, OnSyncReply, Decide;
    Commits7();
    Follows(2);
    Copies();
    CopiesUndecided();
    var c;
    c, steps := RunToAck();
    c, steps := Take(c, steps, DecidePeer(true, 7, true));
    c, steps := Take(c, steps, Deliver(true));
    c, steps := Take(c, steps, Request(LOCAL, false));
    c, steps := RoundTrip(c, steps, ReplyPrepare(ASK2, REJECT2));
    c, steps := Take(c, steps, LeadSync(true));
  }

  /** The decision itself then finds nothing pending and releases nothing. */
  lemma SyncLeaksLock() returns (steps: seq<Step>)
    ensures After(FRESH, steps).lead == LEAKED && !Waiting(LEAKED)
    ensures Locking.Tracks(ISSUED, LEAKED) && Locking.Leaked(ISSUED, LEAKED, 1)
    ensures steps != [] && steps[|steps| - 1] == DecideLead(7, true)
  {
    steps := SyncBringsDecision();
    var c;
    c, steps := Take(After(FRESH, steps), steps, DecideLead(7, true));
    assert SHARD.Sound();
    UnknownDecisionChangesNothing(LEAKED, 7, true);
    assert Locking.Holders(ISSUED, LEAKED) == {};
  }

  /** Whatever this leader is asked from then on, it refuses every transfer of that account. */
  lemma LeakedForGood(es: seq<Event>, txn: Transaction)
    requires forall i :: 0 <= i < |es| ==> Locking.LeaderEvent(ISSUED, SHARD, es[i]) && Locking.PreparesNothing(es[i])
    requires 1 in {txn.sender, txn.receiver}
    ensures Conflicts(HandleAll(LEAKED, es), txn)
  {
    var steps := SyncLeaksLock();
    Locking.LeakIsForever(ISSUED, LEAKED, es, 1);
  }

  // ---------- a Sync that repeats although the leader has nothing after its mark ----------

  const THIRD := Ballot(3, 1)
  const OTHER := TransferReq(9, Transaction(2, 7, 1))
  const PREPARED9 := PreparedEntry(OTHER, SECOND)
  const COMMITTED9 := PREPARED9.(status := Committed)
  const ACCEPT2 := AcceptReq(SECOND, OTHER)
  const VOTE2 := AcceptRes(true, SECOND)
  const ASK4 := PrepareReq(THIRD, 2)
  const REJECT4 := PrepareRes(false, THIRD, None, None, Some(3), Some(2))

  const ACCEPTED2 := Acceptor(2, true, SECOND, true, SECOND, OTHER)
  const DONE2 := Acceptor(2, false, SECOND, false, SECOND, OTHER)
  const PROMISED3 := Acceptor(3, true, THIRD, false, SECOND, OTHER)

  const LEAD_BOTH := Books(OWN[1 := 4], {2, 6, 7}, [PREPARED, COMMITTED, PREPARED9], map[9 := PREPARED9], 2, SECOND)
  const LEAD_AGAIN :=
    Books(OWN[1 := -2], {2, 6, 7}, [PREPARED, COMMITTED, PREPARED9, COMMITTED], map[9 := PREPARED9], 3, SECOND)
  const PEER_BOTH := Books(OWN, {2}, [PREPARED, PREPARED9], map[7 := PREPARED, 9 := PREPARED9], 1, SECOND)
  const PEER_ONE := Books(OWN[2 := 9], {}, [PREPARED, PREPARED9, COMMITTED9], map[7 := PREPARED], 1, SECOND)
  const PEER_NONE := Books(OWN[2 := 9][1 := 4], {}, [PREPARED, PREPARED9, COMMITTED9, COMMITTED], map[], 1, SECOND)

  const M1 := Lead(LEAD_COMMITTED, PROMISED2, Round(true, 9, true, false, 1, 0, 2, 0), false)
  const M2 := M1.(round := M1.round.(prepareOks := 2))
  const M3 := Lead(LEAD_BOTH, ACCEPTED2, Round(true, 9, false, true, 2, 0, 1, 0), false)
  const M4 := M3.(round := M3.round.(acceptOks := 2))
  const M5 := Lead(LEAD_BOTH, DONE2, Round(false, -1, false, false, 2, 0, 2, 0), false)
  const M6 := Lead(LEAD_BOTH, PROMISED3, Round(true, 8, true, false, 1, 0, 2, 0), false)
  const M7 := Lead(LEAD_BOTH, PROMISED3, Round(true, 8, false, false, 1, 1, 2, 0), true)
  const M8 := Lead(LEAD_AGAIN, PROMISED3.(ballotNum := 2), Round(true, 8, false, false, 1, 1, 2, 0), false)

  lemma Proposes9()
    ensures RunPaxos(L6, OTHER, true) == Ran(M1, Prepares(ASK2), None)
    ensures OnPrepareReply(M1, Ok, ASK2, PROMISE3).0 == M2
    ensures RunPaxos(M2, OTHER, true) == Ran(M3, Accepts(ACCEPT2), None)
    ensures OnAcceptReply(M3, Ok, ACCEPT2, VOTE2) == M4
    ensures RunPaxos(M4, OTHER, true) == Ran(M5, Commits(CommitReq(SECOND)), Some(TransferRes(true, 9)))
  {
    assert SHARD.Accounts(OTHER.txn) == {2};
    assert LEAD_COMMITTED.Lock({2} + {7}).Prepare(OTHER, SECOND) == LEAD_BOTH by {
      assert LEAD_COMMITTED.log + [PREPARED9] == [PREPARED, COMMITTED, PREPARED9];
    }
  }

  lemma Follows9()
    ensures OnAccept(Follower(2, PEER_UNLOCKED, PROMISED2), ACCEPT2) == (Follower(2, PEER_BOTH, ACCEPTED2), VOTE2)
    ensures Decide(Follower(2, PEER_BOTH, ACCEPTED2), 9, true) == Follower(2, PEER_ONE, ACCEPTED2)
  {
    assert SHARD.Accounts(OTHER.txn) == {2} && SHARD.Owns(2) && !SHARD.Owns(7);
    assert PEER_UNLOCKED.Lock({2}).Prepare(OTHER, SECOND) == PEER_BOTH by {
      assert PEER_UNLOCKED.log + [PREPARED9] == [PREPARED, PREPARED9];
    }
    assert PEER_BOTH.log + [COMMITTED9] == [PREPARED, PREPARED9, COMMITTED9];
    assert PEER_BOTH.pending - {9} == map[7 := PREPARED];
  }

  lemma FollowsBoth()
    ensures Decide(Follower(2, PEER_ONE, ACCEPTED2), 7, true) == Follower(2, PEER_NONE, ACCEPTED2)
    ensures OnCommit(Follower(2, PEER_NONE, ACCEPTED2), CommitReq(SECOND)) == Follower(2, PEER_NONE.(lastInserted := 3), DONE2)
    ensures
      OnPrepare(Follower(2, PEER_NONE.(lastInserted := 3), DONE2), ASK4) ==
      Promise(Follower(2, PEER_NONE.(lastInserted := 3), DONE2), REJECT4, None)
  {
    assert SHARD.Accounts(OTHER.txn) == {2} && SHARD.Accounts(CROSSING.txn) == {1};
    assert PEER_ONE.log + [COMMITTED] == [PREPARED, PREPARED9, COMMITTED9, COMMITTED];
    assert PEER_ONE.pending - {7} == map[];
  }

  lemma CopiesAgain()
    ensures RunPaxos(M5, LOCAL, false) == Ran(M6, Prepares(ASK4), None)
    ensures OnPrepareReply(M6, Ok, ASK4, REJECT4) == (M7, Some(SyncReq(2)))
    ensures OnSync(Follower(2, PEER_NONE.(lastInserted := 3), DONE2), SyncReq(2)) == SyncRes(true, [COMMITTED], SECOND)
    ensures OnSyncReply(M7, Ok, SyncRes(true, [COMMITTED], SECOND)) == M8
  {
    assert PEER_NONE.log[3..] == [COMMITTED];
    assert ReplayAll(SHARD, LEAD_BOTH, []) == LEAD_BOTH;
    assert [COMMITTED][..0] == [];
    assert LEAD_BOTH.pending - {7} == LEAD_BOTH.pending;
  }

  /** The second crossing transfer up to its acknowledgement; only the leader has handled the first decision. */
  lemma RunToSecondAck() returns (c: State, steps: seq<Step>)
    ensures c == After(FRESH, steps) && c.lead == M5
    ensures c.a.s == Follower(2, PEER_BOTH, ACCEPTED2) && c.a.link == [MCommit(CommitReq(SECOND))]
  {
    hide RunPaxos, OnPrepare, OnAccept, OnPrepareReply, OnAcceptReply, OnCommit, Decide;
    Commits7();
    FollowsUndecided(2);
    Proposes9();
    Follows9();
    c, steps := RunToAck();
    c, steps := Take(c, steps, Deliver(true));
    c, steps := Take(c, steps, DecideLead(7, true));
    c, steps := Take(c, steps, Request(OTHER, true));
    c, steps := RoundTrip(c, steps, ReplyPrepare(ASK2, PROMISE3));
    c, steps := Take(c, steps, Request(OTHER, true));
    c, steps := RoundTrip(c, steps, ReplyAccept(ACCEPT2, VOTE2));
    c, steps := Take(c, steps, Request(OTHER, true));
  }

  /** The decisions overtake each other at the follower, whose log then does not extend the leader's. */
  lemma SyncRepeatsUnseen() returns (before: seq<Step>, after: seq<Step>)
    ensures after == before + [LeadSync(true)]
    ensures
      var books := After(FRESH, before).lead.books;
      books.lastInserted == |books.log| - 1 && Applied(books.log, CROSSING.tid) == 1
    ensures Applied(After(FRESH, after).lead.books.log, CROSSING.tid) == 2
  {
    hide RunPaxos, OnPrepare, OnPrepareReply, OnCommit, OnSync, OnSyncReply, Decide;
    Follows9();
    FollowsBoth();
    CopiesAgain();
    var c;
    c, before := RunToSecondAck();
    c, before := Take(c, before, DecidePeer(true, 9, true));
    c, before := Take(c, before, DecidePeer(true, 7, true));
    c, before := Take(c, before, Deliver(true));
    c, before := Take(c, before, Request(LOCAL, false));
    c, before := RoundTrip(c, before, ReplyPrepare(ASK4, REJECT4));
    c, after := Take(c, before, LeadSync(true));
    AppliedOnceOrTwice();
  }

  lemma AppliedOnceOrTwice()
    ensures Applied(LEAD_BOTH.log, 7) == 1 && Applied(LEAD_AGAIN.log, 7) == 2
  {
    assert LEAD_AGAIN.log == LEAD_BOTH.log + [COMMITTED];
    CountConcat(LEAD_BOTH.log, [COMMITTED], 7, Committed);
    assert LEAD_BOTH.log == LEAD_COMMITTED.log + [PREPARED9];
    CountConcat(LEAD_COMMITTED.log, [PREPARED9], 7, Committed);
    CountConcat([PREPARED], [COMMITTED], 7, Committed);
    assert LEAD_COMMITTED.log == [PREPARED] + [COMMITTED];
    assert [PREPARED][..0] == [] && [COMMITTED][..0] == [] && [PREPARED9][..0] == [];
  }

  // ---------- a round that is given up ----------

  const ACCEPT8 := AcceptReq(FIRST, LOCAL)
  const ACCEPTED8 := Acceptor(1, true, FIRST, true, FIRST, LOCAL)
  const LOCKED8 := NEW_BOOKS.(locks := {2, 3})

  const G1 := Lead(NEW_BOOKS, PROMISED1, Round(true, 8, true, false, 1, 0, 0, 0), false)
  const G2 := G1.(round := G1.round.(prepareOks := 2))
  const G3 := Lead(LOCKED8, ACCEPTED8, Round(true, 8, false, true, 2, 0, 1, 0), false)
  const G4 := G3.(round := G3.round.(acceptFails := 1))
  const G5 := G3.(round := G3.round.(acceptFails := 2))
  const G6 := Lead(NEW_BOOKS, ACCEPTED8, Round(false, -1, false, false, 2, 0, 1, 2), false)

  lemma GivesUp()
    ensures RunPaxos(FRESH.lead, LOCAL, false) == Ran(G1, Prepares(ASK1), None)
    ensures OnPrepareReply(G1, Ok, ASK1, PROMISE1).0 == G2
    ensures RunPaxos(G2, LOCAL, false) == Ran(G3, Accepts(ACCEPT8), None)
    ensures Timeout(G3, CallAccept(ACCEPT8)) == G4 && Timeout(G4, CallAccept(ACCEPT8)) == G5
    ensures RunPaxos(G5, LOCAL, false) == Ran(G6, Silent, Some(TransferRes(false, 8)))
  {
    assert NEW_BOOKS.locks + (SHARD.Accounts(LOCAL.txn) + {3}) == {2, 3};
    assert LOCKED8.locks - {2, 3} == {};
  }

  lemma Votes8()
    ensures OnPrepare(Follower(2, NEW_BOOKS, NO_VOTES), ASK1) == Promise(Follower(2, NEW_BOOKS, PROMISED1), PROMISE1, None)
    ensures OnAccept(Follower(2, NEW_BOOKS, PROMISED1), ACCEPT8).0 == Follower(2, LOCKED8, ACCEPTED8)
  {
    assert NEW_BOOKS.locks + SHARD.Accounts(LOCAL.txn) == {2, 3};
  }

  /**
   Both Accept calls reach their deadline, one of them after the follower has voted. The leader answers with a
   refusal and unlocks; no message to the follower is left, and as a leader it would refuse both accounts.
   */
  lemma GiveUpKeepsVote() returns (steps: seq<Step>)
    ensures
      var c := After(FRESH, steps);
      && c.lead == G6 && c.lead.books.locks == {} && c.lead.books.log == []
      && c.a.s.books.locks == {2, 3} && c.a.s.books.log == [] && c.a.link == []
      && forall txn: Transaction :: txn.sender in {2, 3} || txn.receiver in {2, 3} ==> Conflicts(c.a.s, txn)
  {
    hide RunPaxos, OnPrepare, OnAccept, OnPrepareReply, OnAcceptReply, Timeout;
    GivesUp();
    Votes8();
    var c;
    c, steps := Take(FRESH, [], Request(LOCAL, false));
    c, steps := RoundTrip(c, steps, ReplyPrepare(ASK1, PROMISE1));
    c, steps := Take(c, steps, Request(LOCAL, false));
    c, steps := Take(c, steps, Deliver(true));
    c, steps := Take(c, steps, Expire(true, CallAccept(ACCEPT8)));
    c, steps := Take(c, steps, Expire(false, CallAccept(ACCEPT8)));
    c, steps := Take(c, steps, Request(LOCAL, false));
  }
}
