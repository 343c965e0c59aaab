/**
 The acceptor's side of one transaction: what a promise, a vote and a commit do at a follower, and
 which of its own accounts are locked after any sequence of handlers. A vote whose commit never comes
 keeps its accounts locked.
 */
module Acceptors {
  import opened Types
  import opened ServerModel
  import opened Ledger

  /** An account that this server's cluster serves and the transfer touches. */
  predicate Touches(shard: Shard, txn: Transaction, account: int) {
    shard.Owns(account) && account in {txn.sender, txn.receiver}
  }

  // ---------- one call ----------

  /** A promise is given for higher numbers at the same mark only; it moves nothing but the promise. */
  lemma PromiseKeepsBooks(s: Server, p: PrepareReq)
    ensures
      var r := OnPrepare(s, p);
      && r.s.books == s.books && r.s.round == s.round && r.res.ballot == p.ballot
      && r.s.acceptor.acceptVal == s.acceptor.acceptVal && r.s.acceptor.acceptNum == s.acceptor.acceptNum
      && (if r.res.ack then
            && s.acceptor.ballotNum < p.ballot.num && p.lastInserted == s.books.lastInserted
            && r.s.acceptor.promised && r.s.acceptor.promisedNum == p.ballot && r.s.acceptor.ballotNum == p.ballot.num
            && (r.res.acceptedBefore == None <==> !s.acceptor.accepted)
            && (s.acceptor.accepted ==> r.res.acceptedBefore == Some((s.acceptor.acceptNum, s.acceptor.acceptVal)))
          else r.s.acceptor == s.acceptor && r.res.acceptedBefore == None)
  {
  }

  /**
   A vote is given under the number promised only; refused, it changes nothing. It locks exactly the own
   accounts and logs PREPARED for a one-sided transfer.
   */
  lemma VoteLocks(s: Server, a: AcceptReq, account: int)
    ensures
      var (after, res) := OnAccept(s, a);
      var txn := a.r.txn;
      && res.ballot == a.ballot && after.books.balances == s.books.balances
      && (res.ack <==> !s.disconnected && s.acceptor.promised && a.ballot.num == s.acceptor.promisedNum.num)
      && (!res.ack ==> after == s)
      && (account in after.books.locks <==> account in s.books.locks || (res.ack && Touches(s.shard, txn, account)))
      && (res.ack ==> after.acceptor.accepted && after.acceptor.acceptVal == a.r && after.acceptor.acceptNum == a.ballot)
      && (var oneSided := s.shard.Owns(txn.sender) != s.shard.Owns(txn.receiver);
          res.ack ==>
            && after.books.log == s.books.log + (if oneSided then [Entry(a.r.tid, a.ballot, txn, Cross, Prepared)] else [])
            && (oneSided ==> after.books.lastInserted == |s.books.log| && after.books.lastInsertedBallot == a.ballot))
  {
  }

  /** The commit is for what this server has promised and accepted last. */
  predicate Matches(s: Server, c: CommitReq) {
    !s.disconnected && s.acceptor.promisedNum.num == c.ballot.num == s.acceptor.acceptNum.num
  }

  /**
   A commit that matches releases exactly the own accounts of the accepted transfer, moves the mark to the log
   end and rules out any vote until the next promise; a transfer with both sides here is logged and applied. Any other changes nothing.
   */
  lemma CommitReleases(s: Server, c: CommitReq, account: int)
    ensures
      var after := OnCommit(s, c);
      var (v, txn) := (s.acceptor.acceptVal, s.acceptor.acceptVal.txn);
      if !Matches(s, c) then after == s
      else
        && (account in after.books.locks <==> account in s.books.locks && !Touches(s.shard, txn, account))
        && !after.acceptor.accepted && (forall a: AcceptReq :: !OnAccept(after, a).1.ack)
        && after.books.lastInserted == |after.books.log| - 1 && after.books.lastInsertedBallot == s.acceptor.acceptNum
        && (if s.shard.Owns(txn.sender) && s.shard.Owns(txn.receiver) then
              var e := Entry(v.tid, s.acceptor.acceptNum, txn, Intra, Committed);
              after.books.log == s.books.log + [e] && after.books.Balance(account) == s.books.Balance(account) + Effect(e, account)
            else after.books.log == s.books.log && after.books.balances == s.books.balances)
  {
  }

  /** A vote and its commit leave the locks as they were exactly if the accounts were free. */
  lemma VoteThenCommit(s: Server, a: AcceptReq)
    requires OnAccept(s, a).1.ack
    ensures
      OnCommit(OnAccept(s, a).0, CommitReq(a.ballot)).books.locks == s.books.locks
      <==> forall account :: Touches(s.shard, a.r.txn, account) ==> account !in s.books.locks
  {
    var locks := OnCommit(OnAccept(s, a).0, CommitReq(a.ballot)).books.locks;
    forall account
      ensures account in locks <==> account in s.books.locks && !Touches(s.shard, a.r.txn, account)
    {
      VoteLocks(s, a, account);
      CommitReleases(OnAccept(s, a).0, CommitReq(a.ballot), account);
    }
  }

  // ---------- any sequence of handlers ----------

  /** The event is a vote of this server that touches the account. */
  predicate Votes(s: Server, e: Event, account: int) {
    e.AcceptCall? && OnAccept(s, e.accept).1.ack && Touches(s.shard, e.accept.r.txn, account)
  }

  /** The event commits or decides, at this server, a transfer that touches the account. */
  predicate Releases(s: Server, e: Event, account: int) {
    || (e.CommitCall? && Matches(s, e.commit) && Touches(s.shard, s.acceptor.acceptVal.txn, account))
    || (e.Decision? && !s.disconnected && e.tid in s.books.pending && Touches(s.shard, s.books.pending[e.tid].txn, account))
  }

  ghost predicate NeverReleased(s: Server, es: seq<Event>, from: nat, account: int) {
    forall j :: from <= j < |es| ==> !Releases(HandleAll(s, es[..j]), es[j], account)
  }

  /** A vote at some position that nothing after it has released. */
  ghost predicate VoteStands(s: Server, es: seq<Event>, i: nat, account: int)
    requires i < |es|
  {
    Votes(HandleAll(s, es[..i]), es[i], account) && NeverReleased(s, es, i + 1, account)
  }

  ghost predicate SomeVoteStands(s: Server, es: seq<Event>, account: int) {
    exists i :: 0 <= i < |es| && VoteStands(s, es, i, account)
  }

  lemma LocksAfter(s: Server, e: Event, account: int)
    requires s.shard.Sound() && s.shard.Owns(account) && !e.Run?
    ensures account in Handle(s, e).books.locks <==>
            Votes(s, e, account) || (account in s.books.locks && !Releases(s, e, account))
    ensures Handle(s, e).shard == s.shard
  {
    hide ReplayAll;
    if e.SyncReply? {
      Replayed(s.shard, s.books, e.syncRes.logs);
    }
  }

  lemma OneMoreEvent(s: Server, es: seq<Event>, account: int)
    requires es != []
    ensures
      var (before, n) := (es[..|es| - 1], |es| - 1);
      var released := Releases(HandleAll(s, before), es[n], account);
      && (NeverReleased(s, es, 0, account) <==> NeverReleased(s, before, 0, account) && !released)
      && (SomeVoteStands(s, es, account) <==>
          (SomeVoteStands(s, before, account) && !released) || Votes(HandleAll(s, before), es[n], account))
  {
    hide Releases, Votes, HandleAll;
    var before, n := es[..|es| - 1], |es| - 1;
    assert forall j :: 0 <= j <= n ==> es[..j] == before[..j];
    assert forall j :: 0 <= j < n ==> es[j] == before[j];
    forall i | 0 <= i < n
      ensures VoteStands(s, es, i, account) <==> VoteStands(s, before, i, account) && !Releases(HandleAll(s, before), es[n], account)
    {
    }
    assert VoteStands(s, es, n, account) <==> Votes(HandleAll(s, before), es[n], account);
  }

  /**
   After any handlers in the acceptor's role, Syncs and decisions included, an own account is locked exactly if
   a vote for it still stands, or it was locked at first and nothing has released it.
   */
  lemma {:induction false} LocksFollowVotes(s: Server, es: seq<Event>, account: int)
    requires s.shard.Sound() && s.shard.Owns(account) && forall i :: 0 <= i < |es| ==> !es[i].Run?
    ensures HandleAll(s, es).shard == s.shard
    ensures account in HandleAll(s, es).books.locks <==>
            SomeVoteStands(s, es, account) || (account in s.books.locks && NeverReleased(s, es, 0, account))
    decreases |es|
  {
    hide Votes, Releases, SomeVoteStands, NeverReleased, Handle;
    if es != [] {
      var before := es[..|es| - 1];
      LocksFollowVotes(s, before, account);
      LocksAfter(HandleAll(s, before), es[|es| - 1], account);
      OneMoreEvent(s, es, account);
    } else {
      NothingYet(s, account);
    }
  }

  lemma NothingYet(s: Server, account: int)
    ensures NeverReleased(s, [], 0, account) && !SomeVoteStands(s, [], account)
  {
  }
}
