/** The values that servers, the client and the write-ahead log exchange. */
module Types {

  datatype Option<+T> = None | Some(value: T)

  datatype Transaction = Transaction(sender: int, receiver: int, amount: int)

  datatype TransferReq = TransferReq(tid: int, txn: Transaction)

  datatype TransferRes = TransferRes(ack: bool, tid: int)

  datatype Ballot = Ballot(num: int, serverId: int)

  datatype Kind = Intra | Cross

  datatype Status = NoStatus | Prepared | Committed | Aborted

  /** One log entry; the write-ahead log keeps the same fields as one line of text. */
  datatype Entry = Entry(tid: int, ballot: Ballot, txn: Transaction, kind: Kind, status: Status)

  /** What a lookup of an unknown transaction returns instead of an entry. */
  const MISSING := Entry(-1, Ballot(-1, -1), Transaction(-1, -1, -1), Cross, NoStatus)

  function PreparedEntry(req: TransferReq, ballot: Ballot): Entry {
    Entry(req.tid, ballot, req.txn, Cross, Prepared)
  }

  function CommittedEntry(req: TransferReq, ballot: Ballot): Entry {
    Entry(req.tid, ballot, req.txn, Intra, Committed)
  }

  datatype PrepareReq = PrepareReq(ballot: Ballot, lastInserted: int)

  datatype PrepareRes = PrepareRes(
    ack: bool,
    ballot: Ballot,
    acceptedBefore: Option<(Ballot, TransferReq)>,
    latestBallotNum: Option<int>,
    lastInserted: Option<int>,
    serverId: Option<int>)

  datatype AcceptReq = AcceptReq(ballot: Ballot, r: TransferReq)

  datatype AcceptRes = AcceptRes(ack: bool, ballot: Ballot)

  datatype CommitReq = CommitReq(ballot: Ballot)

  datatype SyncReq = SyncReq(lastInserted: int)

  datatype SyncRes = SyncRes(ack: bool, logs: seq<Entry>, lastInsertedBallot: Ballot)

  /** How an outgoing call ended. Errors other than a deadline are not counted by any handler. */
  datatype RpcStatus = Ok | DeadlineExceeded | OtherError
}
