# Models of the sharded, replicated bank

The project models a bank whose accounts are sharded over clusters of three servers. Each cluster
runs a modified Paxos per transaction; a client coordinates two-phase commit for transfers that
cross clusters; every server keeps a text write-ahead log (WAL) with an index of byte offsets.

`dafny verify dfyconfig.toml` checks everything. The files, from the bottom up:

- `types.dfy` — the values that servers, client and WAL exchange.
- `text.dfy`, `wal.dfy` — decimal numbers, lines, and the WAL as a class over one text file.
- `sharding.dfy` — how clients and servers are spread over clusters.
- `server_model.dfy` — every handler of one server as a function on its state. `server.dfy` — the
  server as a class whose methods update its fields and are proved equal to those functions.
- `in_call.dfy` — the life of an incoming call, as a class on top of the server.
- `ledger.dfy`, `participant.dfy`, `locking.dfy` — what one server keeps over every sequence of
  handlers.
- `cluster.dfy`, `replication.dfy`, `rounds.dfy` — one cluster with a single proposer as a state
  machine: prefix replication, durability, decisions, ballot catch-up.
- `resync.dfy`, `sync_runs.dfy` — exactly when a Sync applies nothing twice, and concrete runs in
  which a Sync of the leader, or a round that it gives up, goes wrong.
- `acceptors.dfy` — what a promise, a vote and a commit do at a follower, and which of its accounts
  are locked after any handlers.
- `answers.dfy` — what the answer to a call stands for: an ack and a logged commit, a refusal and its
  reason, a decision and its effect.
- `quorum.dfy` — one cluster with competing proposers.
- `coordinator.dfy`, `two_phase.dfy`, `backing.dfy` — the client as a class, all clusters together,
  atomicity, and what a commit rests on.
- `conservation.dfy`, `origins.dfy`, `settlement.dfy` — money summed over clusters, where prepared
  entries come from, and conservation over whole runs.
- `csv_text.dfy`, `csv_reader.dfy` — the transaction file: rows, and sets with one row of look-ahead.

How the pieces connect: the class methods are proved equal to the functions of `server_model.dfy`
(and those of the client, the WAL and the reader to functions of their own files); the state
machines take their steps from the same functions; the run theorems are about those machines.

## Assumptions

They appear as preconditions or in the definitions of the steps:

- A cluster has three servers, because the majority is the constant 2 (src/server/server.h:88).
- The client's transaction ids are fresh and positive (src/client/client.cc:55-57). Amounts are
  non-negative where overdrafts are excluded.
- `Transfer` is used exactly for transfers within one cluster (src/client/client.cc:64-72).
- Writes to the WAL succeed, it starts empty, and the append position is the file length.
- `Replication`: one server of the cluster proposes transfers within the cluster; a link may lose
  messages but keeps their order; a Sync call and its answer are one step.
- `Rounds`: the same machine with any mix of intra-shard and cross-shard requests, decisions and
  Syncs, whose calls end by a reply, at the deadline or with another error. A Sync of the leader may
  not set its number below that of a call it has open.
- `Locking`: one server proposes for its cluster; replies, decisions and Syncs come as they like. A
  Sync may prepare only cross-shard transfers of the client; which Syncs keep the locks exact is
  proved.
- `Quorum`: any number of proposers, any loss, reordering and repetition. A Sync may not set a
  server's number below that of its last promise.
- `TwoPhase`: any loss, delay, reordering and repetition between servers, Sync included; a call of
  the client is answered or fails at most once. `Settlement.MoneyAccounted` adds nothing to this.
- `Backing`: in addition one leader per cluster; each of its Accept calls ends at most once; an
  acknowledged Sync reaches it only while it waits for one, and does not set its number below that of
  an Accept call it has open.
  `Settlement.MoneyConserved`: such a Sync brings no PREPARED or COMMITTED entry of a cross-shard
  transfer that the leader already has.
- Counters and ballots that the constructor leaves unset start at zero
  (src/server/server.cc:21-40).

## Findings

- One Sync of a leader may apply a committed transfer twice (src/server/server.cc:455-469 and
  570-596), and overdraw its sender: a decision does not move `last_inserted`, so the answer holds
  entries that the leader has. `SyncRuns.SyncAppliesTwice` is a run from freshly started servers. It
  also happens when the leader has nothing after its mark, because decisions reach replicas in
  different orders: `SyncRuns.SyncRepeatsUnseen`. `Resync.SyncAppliesOnce` says exactly when it does
  not happen, on the leader's log and the answer: a check the leader can make before it replays.
- A Sync that brings the outcome of a pending transfer takes it from the index and leaves its accounts
  locked (src/server/server.cc:570-596). The decision then finds nothing pending and releases nothing:
  `SyncRuns.SyncLeaksLock`. The account is refused for good: `Locking.LeakIsForever`.
  `Locking.SyncKeepsLocks` says exactly when a Sync of outcomes leaks no lock, again on the answer.
- The same Sync sets the leader's ballot number back (src/server/server.cc:593). Then answers to an
  earlier Prepare count for a later one, which gets a majority both ways
  (`SyncRuns.SyncCountsBothWays`), and a server votes twice for one number, which gets two owners
  (`SyncRuns.SyncGivesTwoOwners`; `Quorum.SyncLetsVoteAgain` says exactly when a vote repeats).
- The leader of a cross-shard sender locks the receiver too (src/server/server.cc:251):
  `Locking.ForeignReceiverStaysLocked`. No handler ever releases it, as long as the server's
  intra-shard requests are its own: `Locking.ForeignLockIsForever`.
- A leader that gives up a round after its Accept calls have expired tells nobody
  (src/server/server.cc:316-327): a follower that has voted keeps the accounts locked
  (`SyncRuns.GiveUpKeepsVote`). `Acceptors.LocksFollowVotes` says exactly which accounts stay locked.
- A failed prepare call is counted under transaction 0 (src/client/client.cc:227-229), so it never
  aborts its transaction: `Coordinator.FailedCallDecidesNothing`.
- A decision for a transaction pending under the id -1 is written to the WAL but not to the log
  (src/server/server.cc:145-146): `Servers.ServerImpl.ProcessTpcDecision` gives the condition, and
  `Servers.DecideSentinel` takes a new server there with three calls.
- A call that ends with an error other than the deadline is counted by no handler
  (src/server/server.cc:521-564), so a round may hang: `Rounds.DecidedOnRetry` says exactly when.
- An empty set does not mean the end of the transaction file if the file opens with the header of
  set 2: `CsvReader.EmptySetMeansEnd` gives the condition.

## Model

| member | source | states |
|---|---|---|
| Servers.ServerImpl.constructor | src/server/server.cc:21-93 | a new server is `Initial`: exactly its own clients hold an account, each opened with 10, and log, WAL and balances agree |
| Servers.ServerImpl.RunPaxos | src/server/server.cc:189-334 | one call of the proposer takes the server, the broadcast and the answer to those of the protocol model; WAL and log stay equal line by line |
| Servers.ServerImpl.DecidePrepare | src/server/server.cc:228-272 | with a promise majority: refuse on a conflict, or lock, accept for itself, log a cross-shard prepare and ask for accepts |
| Servers.ServerImpl.DecideAccept | src/server/server.cc:285-314 | with an accept majority: announce the commit; within the shard unlock, apply and log the transfer |
| Servers.ServerImpl.PrepareTransaction | src/server/server.cc:169-175 | one PREPARED entry is added to WAL, index and log alike and moves `last_inserted` to the log end |
| Servers.ServerImpl.CommitTransaction | src/server/server.cc:177-187 | one COMMITTED entry is added to WAL and log, both balances move by the amount |
| Servers.ServerImpl.ProcessPrepareCall | src/server/server.cc:337-376 | the promise, the rejection with its reasons, or the request to synchronise, as in the protocol model |
| Servers.ServerImpl.ProcessAcceptCall | src/server/server.cc:378-418 | the vote, the locks and the PREPARED entry if one side is local |
| Servers.ServerImpl.ProcessCommitCall | src/server/server.cc:420-453 | unlocking, the COMMITTED entry if both sides are local, and the end of the promise |
| Servers.ServerImpl.ProcessSyncCall | src/server/server.cc:455-469 | copies entry by entry the log after the asker's last entry, if there is more, with the ballot of the last insertion |
| Servers.ServerImpl.HandlePrepareReply | src/server/server.cc:521-554 | counting, adopting a higher number, asking for a Sync |
| Servers.ServerImpl.HandleAcceptReply | src/server/server.cc:556-564 | counting of accepts and refusals |
| Servers.ServerImpl.HandleSyncReply | src/server/server.cc:566-600 | every copied entry is in log, WAL, index and balances; marks and ballot number follow the answer |
| Servers.ServerImpl.InsertEntry | src/server/server.cc:570-591 | one copied entry replayed into log, WAL and balances |
| Servers.ServerImpl.ProcessTpcDecision | src/server/server.cc:141-162 | the outcome read back from the WAL is logged once, releases its accounts and, on commit, moves the money; log and file stay equal exactly unless a transaction is pending under the sentinel -1 |
| Servers.DecideSentinel | src/server/server.cc:141-162 | a prepare, an accept and a decision under the id -1 take a new server to where its log and its file differ |
| Servers.ServerImpl.ProcessGetBalanceCall | src/server/server.cc:471-474 | the balance of the books |
| Servers.ServerImpl.ProcessGetLogsCall | src/server/server.cc:489-494 | a copy of the log in order |
| Servers.ServerImpl.ProcessDisconnectCall | src/server/server.cc:496-519 | the server is cut off exactly if its id is in the request |
| Servers.ServerImpl.FileHoldsLog | src/server/wal.cc:40-180 | scanning the WAL text of a server from left to right yields its in-memory log and its index |
| WriteAheadLog.ParseRender | src/server/wal.cc:19-27 | a printed line parses back to its fields, signed numbers included |
| WriteAheadLog.LineLayout | src/server/wal.cc:57 | a line is tag, id, ballot number and server, sender, receiver and amount, one space apart |
| WriteAheadLog.ScanExact | src/server/wal.cc:40-180 | the text alone determines the records and the index: the index is a fast form of a scan |
| WriteAheadLog.IndexPointsAt | src/server/wal.cc:53-58 | the offset kept for a transaction is that of a PREPARE line of its own, and no later line opens or closes the entry |
| WriteAheadLog.LookupExact | src/server/wal.cc:7-37 | a transaction is indexed if and only if it is prepared and undecided, and one line read at its offset is exactly what was last prepared |
| WriteAheadLog.Wal.GetTransactionFromFile | src/server/wal.cc:7-37 | reading at an indexed offset returns the pending entry of that transaction |
| WriteAheadLog.Wal.PrepareTransaction | src/server/wal.cc:40-68 | one line and one index entry; decoding and looking up see exactly the new entry |
| WriteAheadLog.Wal.CommitTransfer | src/server/wal.cc:70-95 | one IN_COMMIT line that decodes as an intra-shard commit; the index stays |
| WriteAheadLog.Wal.Conclude | src/server/wal.cc:97-150 | an indexed transaction is concluded with its own data and leaves the index; an unknown one changes nothing and yields the sentinel |
| WriteAheadLog.Wal.CommitTransaction | src/server/wal.cc:97-122 | a pending transaction is read back, logged as committed and forgotten |
| WriteAheadLog.Wal.AbortTransaction | src/server/wal.cc:124-150 | a pending transaction is read back, logged as aborted and forgotten |
| WriteAheadLog.Wal.InsertEntry | src/server/wal.cc:152-180 | a copied entry of any kind decodes to itself and moves the index by its status |
| WriteAheadLog.TagsAreDistinct | src/server/wal.cc:160-176 | tags tell kind and status apart, and which lines open or close an index entry |
| WriteAheadLog.RecordKept | src/server/wal.cc:152-180 | decoded log, lookups and index after one more line |
| InCalls.InCall.Proceed | src/server/in_call.cc:20-131 | one step of a call: processing equals the handler of its type, exactly the first processing registers a successor, no answer arms the alarm; log and file stay equal exactly unless a decision finds the id -1 pending |
| InCalls.InCall.Process | src/server/in_call.cc:61-125 | dispatch by request type, for every request; the same exact condition on log and file |
| InCalls.AnsweredOnce | src/server/in_call.cc:59-130 | however its steps interleave with other handlers a call is answered at most once, and is finished exactly if answered |
| InCalls.AnswerIsFirst | src/server/in_call.cc:59-89 | the answer is that of the first processing that gives one; all earlier ones gave none |
| InCalls.NeverForgotten | src/server/in_call.cc:59-130 | until it is deleted the queue always names a call again: it waits for its arrival until it is first processed, for an alarm only while unanswered, for its end only when answered |
| InCalls.OthersAnswerAtOnce | src/server/in_call.cc:71-124 | only transfers retry, and exactly while the proposer has no answer |
| Answers.AnswerEndsRound | src/server/server.cc:189-334 | every answer of the proposer carries the request's own id, ends the round, and is an ack exactly if the commit is broadcast; without an answer a phase opens or nothing changes |
| Answers.TransferLogs | src/server/server.cc:285-314 | an intra-shard call acks if and only if it appends one COMMITTED entry of its own transfer; any other call leaves log and balances alone |
| Answers.PrepareLogs | src/server/server.cc:246-272 | a cross-shard call appends PREPARED of its own transfer exactly when it asks for accepts, and never moves money |
| Answers.RefusedExactly | src/server/server.cc:228-244 | with a promise majority a request is refused if and only if it shares an own account with a transfer under way or its own sender cannot pay |
| Answers.OwnAcceptor | src/server/server.cc:203-307 | the proposer promises, accepts and concludes itself what it broadcasts, exactly as an acceptor does, and its books differ from an acceptor's in the lock on a foreign receiver only |
| Answers.PrepareReplyCounts | src/server/server.cc:521-525 | a reply to the current Prepare counts once for or against, its deadline counts against, everything else counts nothing |
| Answers.AcceptReplyCounts | src/server/server.cc:556-564 | the same for Accepts, which change nothing but the two counters |
| Answers.OneFollowerIsEnough | src/server/server.cc:189-314 | the ack of one follower ends the prepare phase and that of one follower ends the accept phase with an ack to the client |
| Answers.TwoFailuresRefuse | src/server/server.cc:274-327 | two expired or refused calls end either phase with a refusal that moves no money and, within the shard, leaves both accounts free |
| Answers.BidsHigher | src/server/server.cc:364-373 | a follower with a number as high rejects the Prepare, and the proposer's next Prepare is above that follower's number, which promises it |
| Answers.ProposerCatchesUp | src/server/server.cc:537-552 | a proposer that lags behind waits and asks for what follows its mark; from a log that extends its own it gets all of it and proposes again |
| Answers.AckIsCommit | src/server/in_call.cc:81-89 | over the whole life of a Transfer call, whatever runs in between: at most one answer, under its own id, an ack if and only if the call's steps logged the transfer as committed, once |
| Answers.AckIsPrepared | src/server/in_call.cc:62-70 | over the whole life of a TpcPrepare call: an ack implies that its steps logged the transfer as prepared exactly once; they never log it twice and never commit anything |
| Answers.DecisionServed | src/server/in_call.cc:71-80 | TpcCommit logs the pending transfer as committed and moves its money on own accounts, TpcAbort logs it as aborted and moves nothing; both conclude it and release exactly its own accounts |
| Answers.IdleDecisionServed | src/server/server.cc:141-162 | either call for a transfer that is not pending, or at a server that is cut off, changes nothing |
| Answers.CutOff | src/server/server.cc:496-519 | a Disconnect call cuts the server off exactly if it names it; from then on it refuses each promise and vote, and no Paxos or decision call changes it |
| Answers.BalanceMatchesLogs | src/server/server.cc:471-494 | the balance a client is told is 10 plus the committed net of the log it is shown, and 0 for a client the server does not know |
| Answers.SyncServed | src/server/in_call.cc:105-109 | the answer to a Sync call is an ack exactly if the peer is ahead, and makes an asker whose log is a prefix an exact copy |
| Answers.SyncIsTail | src/server/server.cc:455-469 | the answer holds exactly the entries after the asker's mark; a mark below -1 yields none, because the index is compared as unsigned |
| Answers.CatchesUp | src/server/server.cc:347-362 | a follower that lags behind refuses a Prepare and asks for a Sync; with the proposer's answer it has the proposer's log and promises that same Prepare |
| Answers.CallsAreEvents | src/server/in_call.cc:61-125 | each call leaves the server as the handler of the state machines does, so what holds over all handlers holds over all calls |
| Answers.StepIsEvent | src/server/in_call.cc:59-130 | each step of a call runs that handler once while the call is unanswered, a retry included, and nothing afterwards |
| Answers.DeliveryIsCall | src/server/in_call.cc:90-104 | a message delivered in the cluster machine leaves the state and sends the reply of the call that carries it |
| Answers.RequestIsCall | src/server/in_call.cc:62-89 | a request in the cluster machine broadcasts to both followers what its call sends out |
| Ledger.BalancesRefineLog | src/server/server.cc:141-187 | after any interleaving of handlers in any role, every local balance is 10 plus the net of the committed log |
| Ledger.SameCommitsSameNet | src/server/server.cc:420-453 | the net of a log depends only on the multiset of its committed transfers |
| Ledger.ReplicasAgree | src/server/server.cc:566-597 | replicas with the same committed transfers agree on every local balance, whatever the order |
| Participant.OneAtATime | src/server/server.cc:200-331 | over any sequence of handlers the await flags exclude each other, either implies a running round, and running means a transaction id is set |
| Participant.UnknownDecisionChangesNothing | src/server/server.cc:141-162 | a decision for a transaction that is not pending changes nothing, because the sentinel names no client |
| Participant.DecideTwice | src/server/server.cc:141-162 | a repeated or contradicting decision has no effect |
| Participant.OneOutcomePerPrepare | src/server/server.cc:141-175 | without acknowledged Syncs no stream of decisions logs more outcomes than PREPARED entries, for every transaction |
| Participant.IndexFollowsLog | src/server/wal.cc:40-180 | over any sequence of handlers, Sync included, the index reads back exactly the undecided PREPARED entries of the log |
| Participant.SyncExact | src/server/server.cc:455-469 | an acknowledged Sync to a log that extends the asker's makes log, pending transactions and local balances equal |
| Locking.LocksExactAndFunded | src/server/server.cc:236-311 | at a sole proposer, over every run whose Syncs leave the index entries with own accounts as they are, the local locks are exactly those of the undecided and in-flight transfers, which share no account; if those Syncs also commit nothing on own accounts, no local balance is negative and every holder can still pay |
| Locking.SyncKeepsLocks | src/server/server.cc:566-597 | an acknowledged Sync that prepares nothing keeps the locks exact if and only if it concludes no pending transaction that holds an own account |
| Locking.SyncLeaks | src/server/server.cc:566-597 | every own account of a pending transaction that a Sync concludes is left locked with no holder |
| Locking.LeakIsForever | src/server/server.cc:236-251 | over every further run of a sole proposer that prepares nothing anew by Sync, such an account stays locked and every transfer that touches it is in conflict |
| Locking.InitiallyGuarded | src/server/server.cc:75-82 | a new server meets that invariant |
| Locking.ForeignReceiverStaysLocked | src/server/server.cc:251 | right after its decision a prepared receiver is still locked exactly if it is foreign or the server was cut off |
| Locking.ForeignLockIsForever | src/server/server.cc:236-251 | over any sequence of handlers in any role, Sync included, a locked account of another cluster stays locked, if the server's intra-shard requests are its own |
| Acceptors.PromiseKeepsBooks | src/server/server.cc:337-376 | a promise is given only to a higher number at the same mark, reports what was accepted before, and changes nothing but the promise; a refusal changes no promise |
| Acceptors.VoteLocks | src/server/server.cc:378-418 | a vote locks exactly the own accounts of the request, logs PREPARED exactly if one side is own, and moves no money; a refusal changes nothing |
| Acceptors.CommitReleases | src/server/server.cc:420-453 | a commit that matches promise and vote unlocks exactly the own accounts of the accepted transfer, in both branches, and applies it exactly if both sides are own; any other commit changes nothing |
| Acceptors.VoteThenCommit | src/server/server.cc:378-453 | a vote and its commit leave the locks as they were if and only if the accounts were free |
| Acceptors.LocksFollowVotes | src/server/server.cc:378-453 | after any handlers in the acceptor's role, Syncs and decisions included, an own account is locked if and only if a vote for it is not yet committed or decided, or it was locked at first and never released |
| Replication.PrefixReplication | src/server/server.cc:189-469 | in every reachable state each follower's log is a prefix of the leader's, every `last_inserted` is the log end, and the leader never needs a Sync |
| Replication.Durability | src/server/server.cc:228-314 | every leader entry is in a follower's log too, or is the last one and a follower accepted it under its ballot |
| Replication.RunKept | src/server/server.cc:189-453 | the inductive invariant behind both, over every run |
| Rounds.NeverBothMajorities | src/server/server.cc:521-564 | over any mix of requests, decisions and Syncs that leave no stale call open, successes and failures are never both a majority |
| Rounds.DecidedOnRetry | src/server/server.cc:228-331 | in the same runs, once neither follower's call is open, the next retry of an intra-shard or cross-shard request answers or opens the accept phase, if and only if no call ended with an error other than the deadline or a majority is in favour; else the retry changes nothing |
| Rounds.AtMostTwoRestarts | src/server/server.cc:530-535 | whatever numbers the followers start with and whatever is requested or decided, a lone proposer without Syncs restarts for an outdated number at most twice in the whole run |
| SyncRuns.SyncAppliesTwice | src/server/server.cc:566-597 | a run from fresh servers after which the leader has applied one transfer twice, its sender is overdrawn and its number is below its promise |
| SyncRuns.SyncCountsBothWays | src/server/server.cc:521-535 | the run continues to a Prepare with a majority of successes and of failures |
| SyncRuns.SyncGivesTwoOwners | src/server/server.cc:593 | the run continues to two ballots of one number with two votes each |
| SyncRuns.SyncBringsDecision | src/server/server.cc:566-597 | the same Sync before the leader handles the decision brings it exactly once, and leaves the sender locked with nothing pending |
| SyncRuns.SyncLeaksLock | src/server/server.cc:141-162 | the run continues to the decision, after which the sender's account is locked, no transaction holds it and no phase is open |
| SyncRuns.LeakedForGood | src/server/server.cc:236-244 | from there on this leader is in conflict with every transfer of that account |
| SyncRuns.SyncRepeatsUnseen | src/server/server.cc:455-469 | a run from fresh servers to a leader with nothing after its mark, which its next Sync makes apply a transfer a second time |
| SyncRuns.GiveUpKeepsVote | src/server/server.cc:316-327 | a run from fresh servers after which the leader has refused a transfer and unlocked it, while a follower that voted keeps both accounts locked with no message on its way |
| Resync.SyncAppliesOnce | src/server/server.cc:570-591 | a server that applied nothing twice still has not after a Sync if and only if no committed entry of the answer repeats one of the log or of the answer: a check on the answer |
| Resync.SyncFromExtension | src/server/server.cc:455-469 | a Sync from a log that extends the asker's adds again, for every transaction and status, what the asker has after its mark; the asker cannot know that the log extends its own |
| Resync.OnceFromExtension | src/server/server.cc:455-469 | of an answering log that extends the asker's, nothing is applied twice if and only if the asker has committed nothing after its mark |
| Quorum.OneOwnerPerNumber | src/server/server.cc:203-229 | with competing proposers, and Syncs that stay above the last promise, no ballot number gives a vote majority to two servers |
| Quorum.CountedMajorityOwns | src/server/server.cc:521-535 | a proposer that counts a promise majority has one, for its latest Prepare |
| Quorum.SyncLetsVoteAgain | src/server/server.cc:593 | exactly when a Sync lets a server vote again for a number |
| Coordinator.Client.ProcessTransactions | src/client/client.cc:41-74 | each transfer of a set goes to its leader or, with a fresh tally, to both leaders, in order |
| Coordinator.Client.Submit | src/client/client.cc:44-72 | the messages and the tally of one transfer |
| Coordinator.Client.ConsumeReplies | src/client/client.cc:213-254 | draining the queue leaves the tallies and sends the decisions of `Drain` |
| Coordinator.Client.ConsumeReply | src/client/client.cc:226-249 | one reply is counted; the second one for a transaction decides it and removes its tally |
| Coordinator.Client.Tell | src/client/client.cc:185-211 | the decision goes to the servers of the two clusters and to no other |
| Coordinator.DecidedOnce | src/client/client.cc:226-249 | a transaction whose two prepares are answered is decided exactly once, committed if and only if both acked, whatever other replies are mixed in |
| Coordinator.FailedCallDecidesNothing | src/client/client.cc:227-229 | a failed call leaves every transaction other than 0 as it was |
| Coordinator.OpenedExact | src/client/client.cc:64-72 | after a set exactly its cross-shard transfers have a new tally at zero |
| Coordinator.RecipientsExact | src/client/client.cc:185-211 | a server is told a decision if and only if it belongs to one of the two clusters |
| Coordinator.ToldInOrder | src/client/client.cc:185-211 | recipients follow the directory part by part |
| Coordinator.RoutedExactly | src/client/client.cc:44-72 | over a whole set: a Transfer goes out exactly to the leader of its cluster, a prepare exactly to the leaders of both clusters, each once, and nothing else is sent |
| Coordinator.AnnouncedExactly | src/client/client.cc:185-211 | a decision becomes one message with its id and its outcome to each server of its two clusters, and no other message |
| Coordinator.ToldExactly | src/client/client.cc:213-254 | draining sends a decision about a transaction if and only if both its prepares are answered; it says commit if and only if both acked, and reaches each server of the two clusters once |
| Coordinator.SetDecided | src/client/client.cc:41-74 | the same for every cross-shard transfer of a set that the client has sent |
| Coordinator.DrainAnnounces | src/client/client.cc:213-254 | what draining sends is the announcements of the decisions taken, in order |
| TwoPhase.AtomicOutcome | src/client/client.cc:226-249 | over all servers of all clusters, Sync copies included, no transaction has both a COMMITTED and an ABORTED entry |
| TwoPhase.PathKept | src/server/server.cc:141-187 | the inductive invariant behind it: every logged outcome is the client's one decision |
| Backing.CommitBacked | src/server/server.cc:262-311 | a committed cross-shard entry on any server implies that both leaders acked and that in both clusters the leader and a follower logged it PREPARED; leader Syncs included that set no number below that of an Accept call still open |
| Backing.LedPathKept | src/server/server.cc:409-412 | the inductive invariant behind it, under the same bound on Syncs |
| Conservation.TotalByTransaction | src/server/server.cc:148-161 | leaders' balances over their own clients sum to 10 per client plus, per transfer, its amount times receiver-side minus sender-side applications |
| Conservation.BalancedTotal | src/server/server.cc:177-183 | transfers applied equally often on both sides cancel out |
| Origins.PathRooted | src/server/server.cc:378-413 | with one leader per cluster, whatever a server of the cluster or a Sync answer holds as PREPARED, the leader has in its log too |
| Settlement.AppliedAt | src/server/server.cc:141-162 | a leader has applied a cross-shard transfer once if it is committed and not pending there, else not at all |
| Settlement.SyncOnce | src/server/server.cc:566-597 | a leader Sync that brings nothing the leader has keeps every transfer prepared, pending and applied at most once |
| Settlement.NovelFromExtension | src/server/server.cc:455-469 | of an answering log that extends the asker's: the Sync brings nothing the asker has if and only if the asker has prepared and committed no cross-shard transfer after its mark |
| Settlement.MoneyAccounted | src/server/server.cc:148-183 | in every state of every run, with competing proposers and any Syncs, the total over one server per cluster differs from the opening total by the unequally applied transfers only |
| Settlement.MoneyConserved | src/client/client.cc:231-246 | with one leader per cluster and Syncs that bring it nothing it has and set no number below that of an Accept call still open, once both leaders of every committed transfer have handled it, the total is exactly 10 per client |
| Settlement.LayoutPlaces | src/utils/utils.cc:6-8 | the sharding arithmetic places every client in a cluster, as the sums assume |
| Sharding.ShardIsRange | src/utils/utils.cc:6-8 | each cluster serves one contiguous range of clients |
| Sharding.Monotone | src/utils/utils.cc:6-8 | higher ids never map to lower clusters |
| Sharding.Balanced | src/utils/utils.cc:6-8 | shards differ in size by at most one and none is empty |
| Sharding.ClientsArePlaced | src/utils/utils.cc:6-16 | the ids with a cluster in range are exactly 1 to the number of clients |
| Sharding.ServersOfCluster | src/utils/utils.cc:10-12 | every cluster has exactly the next `cluster_size` server ids |
| Sharding.ServersArePlaced | src/utils/utils.cc:10-12 | the servers with a cluster in range are exactly 1 to clusters times cluster size |
| Sharding.ShardsAreSound | src/utils/utils.cc:14-16 | no cluster owns the sentinel -1 or the unset 0 |
| Sharding.GetServersInCluster | src/utils/utils.cc:18-24 | the names of exactly that cluster's servers, in directory order |
| Sharding.NamesInOrder | src/utils/utils.cc:18-24 | the names follow the directory part by part |
| CsvText.ColumnsRoundTrip | src/utils/csv_reader.cc:62-79 | columns written with quotes around commas are read back exactly |
| CsvText.FieldsRoundTrip | src/utils/csv_reader.cc:17-60 | a bracketed list is read back exactly |
| CsvText.RowRoundTrip | src/utils/csv_reader.cc:12-103 | a row in the usual layout, with either line ending, is read back exactly |
| CsvText.StoiRoundTrip | src/utils/csv_reader.cc:34-36 | a printed number converts back if it has 32 bits, else it is the exception |
| CsvText.StoiReads | src/utils/csv_reader.cc:34-36 | blanks, a sign, digits and then anything that is no digit: the number if it fits, else the exception |
| CsvText.StoiFails | src/utils/csv_reader.cc:34-36 | without a digit after blanks and sign there is an exception |
| CsvText.StoiBounds | src/utils/csv_reader.cc:34-36 | the largest and smallest number that convert |
| CsvText.TransactionReads | src/utils/csv_reader.cc:17-40 | a transaction column reads if and only if its first three fields are numbers; further fields are ignored |
| CsvText.ServersRead | src/utils/csv_reader.cc:42-60 | a blank column names no server, a bracketed list names its fields in order |
| CsvText.RowReads | src/utils/csv_reader.cc:62-103 | a line reads if and only if it has four columns, a blank or numeric first one and a transaction in the second; further columns are ignored |
| CsvText.ParseCsvLine | src/utils/csv_reader.cc:62-103 | the row of a stripped line, or the error the source throws |
| CsvText.ParseTransaction | src/utils/csv_reader.cc:17-40 | the transaction of a column, or the error |
| CsvText.ParseServers | src/utils/csv_reader.cc:42-60 | the names of a column |
| CsvReader.CsvReader.ReadNextSet | src/utils/csv_reader.cc:129-177 | the k-th call returns exactly block k with its header's servers and leaders, and fails exactly if a row of the block does not parse |
| CsvReader.CsvReader.ReadRows | src/utils/csv_reader.cc:141-159 | the rows up to the next header, which is kept for the next call |
| CsvReader.CsvReader.SwapSets | src/utils/csv_reader.cc:131-139 | the look-ahead becomes the current set |
| CsvReader.CsvReader.Disconnected | src/utils/csv_reader.cc:170-174 | the configured servers that the set does not name, in order |
| CsvReader.AbsentExact | src/utils/csv_reader.cc:170-174 | a server is listed as disconnected if and only if it is configured and not named |
| CsvReader.BlocksArePrefix | src/utils/csv_reader.cc:129-177 | the first n sets are the rows up to set n + 1, in order, each once |
| CsvReader.NothingLost | src/utils/csv_reader.cc:129-177 | for any file at all, enough calls read every row |
| CsvReader.EmptySetMeansEnd | src/utils/csv_reader.cc:161-163 | an empty set always means the end of the file if and only if the file does not open with header 2 |
| CsvReader.SetsRoundTrip | src/utils/csv_reader.cc:129-177 | in a file of sets numbered 1, 2, 3 and so on with blank continuation rows, call k returns set k as written, and nothing is left over |
| CsvReader.LinesRoundTrip | src/utils/csv_reader.cc:141-143 | lines written from rows parse to those rows |

## Left out

- Paxos agreement with competing proposers: promised accept values are never adopted, so the code does not keep it.
- Equal logs when decisions reach replicas in different orders, and followers holding cross-shard locks until the decision: the code does not keep either.
- LocksExactAndFunded: leaves out Syncs of the proposer that change which pending transactions hold own accounts, where locking is no longer exact (SyncLeaksLock), and for the funds those that commit on own accounts, which may overdraw (SyncAppliesTwice).
- LocksFollowVotes: covers the acceptor's role, without requests of its own; a proposer's locks are those of LocksExactAndFunded.
- AckIsPrepared: no other call of the server carries the same transaction id, as the client's ids are fresh.
- OutCall: which handler the completion queue gives a reply to; the state machines deliver replies by type.
- SyncKeepsLocks: says nothing of Syncs that bring PREPARED entries.
- LeakIsForever: leaves out Syncs that bring PREPARED entries, with which a transaction may hold the account again and release it.
- PrefixReplication: covers transfers within the cluster; with cross-shard decisions `last_inserted` stays behind the log end.
- Durability: same runs as PrefixReplication.
- DecidedOnRetry: a reply that forces a restart or a Sync closes the phase, which the precondition rules out.
- NeverBothMajorities: leaves out Syncs of the leader that set its number below that of an open call; there it may fail, as SyncCountsBothWays shows.
- OneOwnerPerNumber: leaves out Syncs that set a number below a promise; there it may fail, as SyncGivesTwoOwners shows.
- CommitBacked: leaves out leader Syncs that set the number below that of an open Accept call, whose vote might then count for a later Accept; there it may fail, and no failing run is shown.
- LedPathKept: same Syncs as CommitBacked.
- MoneyConserved: leaves out the same Syncs, and those that bring entries the leader has; such a Sync may apply a transfer twice, as SyncAppliesTwice shows.
- OneOutcomePerPrepare: leaves out acknowledged Syncs, which may copy outcomes a second time.
- ServerImpl: the acceptor's six fields and the proposer's eight are two record-valued fields; the map of disconnected peers, which no handler reads, is omitted.
- ProcessGetBalanceCall: reading an unknown client's balance does not create an entry for it, as the source's map does.
- ReadNextSet: nothing is said about later calls once a line has failed to parse.
- Stoi: 32-bit range and blanks are modelled; locales are not.
- ClusterOfClient: the source divides in double precision; the model takes the exact integer ceiling.
- 32-bit wrap-around of ids, counters, ballots and balances.
- gRPC stubs, queues, contexts and deadlines beyond "answered" and "deadline exceeded"; what is sent becomes an output of the method.
- LevelDB, which mirrors the balances, printing, performance counters, logging, wall-clock time and the command loop.
- File-open failures, restarts, existing WAL files, process control and the data race between the client's two threads.
- CSV beyond quote toggling: escaped quotes and line breaks inside quotes.
