/** The client: it routes transfers, and coordinates two-phase commit for those that cross shards. */
module Coordinator {
  import opened Types

  datatype Tally = Tally(txn: Transaction, successes: int, failures: int)

  /** An ended TpcPrepare call. A failed call leaves the reply unset, so its tid is 0. */
  datatype Ended = Ended(ok: bool, res: TransferRes)

  const FAILED := Ended(false, TransferRes(false, 0))

  /** A decision, sent to every server of the two clusters. */
  datatype Verdict = Verdict(tid: int, commit: bool, senderCluster: int, receiverCluster: int)

  type Processing = map<int, Tally>

  /** What the tally is after one more reply; a tid that is not being processed starts from zero. */
  function Counted(processing: Processing, e: Ended): Tally {
    var t := if e.res.tid in processing then processing[e.res.tid] else Tally(Transaction(0, 0, 0), 0, 0);
    if e.ok && e.res.ack then t.(successes := t.successes + 1) else t.(failures := t.failures + 1)
  }

  predicate Commits(t: Tally) {
    t.successes == 2
  }

  predicate Aborts(t: Tally) {
    t.failures > 0 && t.successes + t.failures == 2
  }

  function Consume(home: int -> int, processing: Processing, e: Ended): (Processing, Option<Verdict>) {
    var t := Counted(processing, e);
    if Commits(t) || Aborts(t) then
      (processing - {e.res.tid}, Some(Verdict(e.res.tid, Commits(t), home(t.txn.sender), home(t.txn.receiver))))
    else (processing[e.res.tid := t], None)
  }

  /** All replies in order: the remaining tallies and the decisions taken. */
  function ConsumeAll(home: int -> int, processing: Processing, es: seq<Ended>): (Processing, seq<Verdict>)
    decreases |es|
  {
    if es == [] then (processing, [])
    else
      var (before, verdicts) := ConsumeAll(home, processing, es[..|es| - 1]);
      var (after, verdict) := Consume(home, before, es[|es| - 1]);
      (after, verdicts + (if verdict.Some? then [verdict.value] else []))
  }

  function Acks(es: seq<Ended>, tid: int): nat
    decreases |es|
  {
    if es == [] then 0
    else Acks(es[..|es| - 1], tid) + (var e := es[|es| - 1]; if e.res.tid == tid && e.ok && e.res.ack then 1 else 0)
  }

  function Replies(es: seq<Ended>, tid: int): nat
    decreases |es|
  {
    if es == [] then 0
    else Replies(es[..|es| - 1], tid) + (if es[|es| - 1].res.tid == tid then 1 else 0)
  }

  /** The decisions for one tid, in order. */
  function For(vs: seq<Verdict>, tid: int): seq<Verdict>
    decreases |vs|
  {
    if vs == [] then []
    else For(vs[..|vs| - 1], tid) + (if vs[|vs| - 1].tid == tid then [vs[|vs| - 1]] else [])
  }

  /** A tid whose two prepares are answered is decided exactly once, and committed iff both acked. */
  lemma {:induction false} DecidedOnce(home: int -> int, processing: Processing, es: seq<Ended>, tid: int)
    requires tid in processing && processing[tid].successes == 0 && processing[tid].failures == 0
    requires Replies(es, tid) <= 2
    ensures Acks(es, tid) <= Replies(es, tid)
    ensures
      var (after, vs) := ConsumeAll(home, processing, es);
      var txn := processing[tid].txn;
      if Replies(es, tid) < 2 then
        For(vs, tid) == [] && tid in after && after[tid] == Tally(txn, Acks(es, tid), Replies(es, tid) - Acks(es, tid))
      else
        tid !in after && For(vs, tid) == [Verdict(tid, Acks(es, tid) == 2, home(txn.sender), home(txn.receiver))]
    decreases |es|
  {
    if es != [] {
      var e := es[|es| - 1];
      DecidedOnce(home, processing, es[..|es| - 1], tid);
      var (before, vs) := ConsumeAll(home, processing, es[..|es| - 1]);
      var verdict := Consume(home, before, e).1;
      if verdict.Some? {
        assert (vs + [verdict.value])[..|vs|] == vs;
      } else {
        assert vs + [] == vs;
      }
    }
  }

  /** A failed call is counted under tid 0, so a failure never aborts the transaction it belongs to. */
  lemma FailedCallDecidesNothing(home: int -> int, processing: Processing, tid: int)
    requires tid != 0
    ensures tid in Consume(home, processing, FAILED).0 <==> tid in processing
    ensures tid in processing ==> Consume(home, processing, FAILED).0[tid] == processing[tid]
    ensures Consume(home, processing, FAILED).1.Some? ==> Consume(home, processing, FAILED).1.value.tid != tid
  {
  }

  // ---------- the client as a class ----------

  datatype Outgoing =
    | SendTransfer(req: TransferReq, to: string)
    | SendPrepare(req: TransferReq, to: string)
    | SendDecision(tid: int, commit: bool, to: string)

  /** What the client sends for one transfer: to its only leader, or a prepare to each of two. */
  function Route(home: int -> int, leaders: seq<string>, req: TransferReq): seq<Outgoing>
    requires 1 <= home(req.txn.sender) <= |leaders| && 1 <= home(req.txn.receiver) <= |leaders|
  {
    var (s, r) := (home(req.txn.sender), home(req.txn.receiver));
    if s == r then [SendTransfer(req, leaders[s - 1])]
    else [SendPrepare(req, leaders[s - 1]), SendPrepare(req, leaders[r - 1])]
  }

  ghost predicate Routable(home: int -> int, leaders: seq<string>, txns: seq<Transaction>) {
    forall k :: 0 <= k < |txns| ==>
      1 <= home(txns[k].sender) <= |leaders| && 1 <= home(txns[k].receiver) <= |leaders|
  }

  function RouteAll(home: int -> int, leaders: seq<string>, txns: seq<Transaction>, tids: seq<int>): seq<Outgoing>
    requires |tids| == |txns| && Routable(home, leaders, txns)
    decreases |txns|
  {
    if txns == [] then []
    else
      var k := |txns| - 1;
      assert forall i :: 0 <= i < k ==> txns[..k][i] == txns[i];
      RouteAll(home, leaders, txns[..k], tids[..k]) + Route(home, leaders, TransferReq(tids[k], txns[k]))
  }

  /** The tallies after a set is sent: a cross-shard transfer starts at zero. */
  function Opened(home: int -> int, processing: Processing, txns: seq<Transaction>, tids: seq<int>): Processing
    requires |tids| == |txns|
    decreases |txns|
  {
    if txns == [] then processing
    else
      var k := |txns| - 1;
      OpenedBy(home, Opened(home, processing, txns[..k], tids[..k]), txns[k], tids[k])
  }

  function OpenedBy(home: int -> int, processing: Processing, txn: Transaction, tid: int): Processing {
    if home(txn.sender) == home(txn.receiver) then processing else processing[tid := Tally(txn, 0, 0)]
  }

  lemma NoneSent(home: int -> int, leaders: seq<string>, processing: Processing, txns: seq<Transaction>, tids: seq<int>)
    requires |tids| == |txns|
    ensures RouteAll(home, leaders, txns[..0], tids[..0]) == [] && Opened(home, processing, txns[..0], tids[..0]) == processing
  {
  }

  lemma OneMoreSent(home: int -> int, leaders: seq<string>, processing: Processing, txns: seq<Transaction>, tids: seq<int>, i: nat)
    requires i < |txns| == |tids| && Routable(home, leaders, txns)
    ensures Routable(home, leaders, txns[..i]) && Routable(home, leaders, txns[..i + 1])
    ensures RouteAll(home, leaders, txns[..i + 1], tids[..i + 1]) ==
            RouteAll(home, leaders, txns[..i], tids[..i]) + Route(home, leaders, TransferReq(tids[i], txns[i]))
    ensures Opened(home, processing, txns[..i + 1], tids[..i + 1]) ==
            OpenedBy(home, Opened(home, processing, txns[..i], tids[..i]), txns[i], tids[i])
  {
    assert txns[..i + 1][..i] == txns[..i] && tids[..i + 1][..i] == tids[..i];
  }

  /** This message is the prepare of a cross-shard transfer to a leader of one of its clusters, or an intra-shard transfer. */
  ghost predicate Due(home: int -> int, leaders: seq<string>, req: TransferReq, m: Outgoing)
    requires 1 <= home(req.txn.sender) <= |leaders| && 1 <= home(req.txn.receiver) <= |leaders|
  {
    var (s, r) := (home(req.txn.sender), home(req.txn.receiver));
    match m
    case SendTransfer(q, to) => q == req && s == r && to == leaders[s - 1]
    case SendPrepare(q, to) => q == req && s != r && (to == leaders[s - 1] || to == leaders[r - 1])
    case SendDecision(_, _, _) => false
  }

  ghost predicate NoRepeats<T>(xs: seq<T>) {
    forall k, l :: 0 <= k < l < |xs| ==> xs[k] != xs[l]
  }

  lemma RoutedOnce(home: int -> int, leaders: seq<string>, req: TransferReq, m: Outgoing)
    requires 1 <= home(req.txn.sender) <= |leaders| && 1 <= home(req.txn.receiver) <= |leaders| && NoRepeats(leaders)
    ensures multiset(Route(home, leaders, req))[m] == if Due(home, leaders, req, m) then 1 else 0
    ensures Route(home, leaders, req) != [] && Route(home, leaders, req)[0].to == leaders[home(req.txn.sender) - 1]
  {
  }

  /** Some transfer of the set asks for this message. */
  ghost predicate Asked(home: int -> int, leaders: seq<string>, txns: seq<Transaction>, tids: seq<int>, m: Outgoing)
    requires |tids| == |txns| && Routable(home, leaders, txns)
  {
    exists k :: 0 <= k < |txns| && Due(home, leaders, TransferReq(tids[k], txns[k]), m)
  }

  lemma OneMoreAsked(home: int -> int, leaders: seq<string>, txns: seq<Transaction>, tids: seq<int>, m: Outgoing)
    requires |tids| == |txns| > 0 && Routable(home, leaders, txns) && NoRepeats(tids)
    ensures
      var n := |txns| - 1;
      && Routable(home, leaders, txns[..n]) && NoRepeats(tids[..n])
      && (Asked(home, leaders, txns, tids, m) <==>
          Asked(home, leaders, txns[..n], tids[..n], m) || Due(home, leaders, TransferReq(tids[n], txns[n]), m))
      && !(Asked(home, leaders, txns[..n], tids[..n], m) && Due(home, leaders, TransferReq(tids[n], txns[n]), m))
  {
    var n := |txns| - 1;
    assert forall k :: 0 <= k < n ==> txns[..n][k] == txns[k] && tids[..n][k] == tids[k];
    if k :| 0 <= k < n && Due(home, leaders, TransferReq(tids[k], txns[k]), m) {
      assert Due(home, leaders, TransferReq(tids[..n][k], txns[..n][k]), m) && tids[k] != tids[n];
    }
  }

  /** Over a whole set: a message is sent, and once, exactly if a transfer of the set asks for it. */
  lemma {:induction false} RoutedExactly(home: int -> int, leaders: seq<string>, txns: seq<Transaction>, tids: seq<int>, m: Outgoing)
    requires |tids| == |txns| && Routable(home, leaders, txns) && NoRepeats(tids) && NoRepeats(leaders)
    ensures multiset(RouteAll(home, leaders, txns, tids))[m] == if Asked(home, leaders, txns, tids, m) then 1 else 0
    decreases |txns|
  {
    if txns != [] {
      hide Route, Due, Asked, NoRepeats, Routable;
      var n := |txns| - 1;
      RoutedOnce(home, leaders, TransferReq(tids[n], txns[n]), m);
      OneMoreAsked(home, leaders, txns, tids, m);
      RoutedExactly(home, leaders, txns[..n], tids[..n], m);
    }
  }

  /** With fresh tids every cross-shard transfer of the set is open at zero, and nothing else changes. */
  lemma {:induction false} OpenedExact(home: int -> int, processing: Processing, txns: seq<Transaction>, tids: seq<int>, t: int)
    requires |tids| == |txns|
    requires NoRepeats(tids)
    ensures
      var after := Opened(home, processing, txns, tids);
      && (forall k :: 0 <= k < |txns| && tids[k] == t && home(txns[k].sender) != home(txns[k].receiver) ==>
            t in after && after[t] == Tally(txns[k], 0, 0))
      && ((forall k :: 0 <= k < |txns| && tids[k] == t ==> home(txns[k].sender) == home(txns[k].receiver)) ==>
            (t in after <==> t in processing) && (t in processing ==> after[t] == processing[t]))
    decreases |txns|
  {
    if txns != [] {
      var n := |txns| - 1;
      OpenedExact(home, processing, txns[..n], tids[..n], t);
      assert forall k :: 0 <= k < n ==> txns[..n][k] == txns[k] && tids[..n][k] == tids[k];
    }
  }

  /** Servers by name, as the driver numbers them. */
  type Directory = seq<(string, int)>

  function Recipients(directory: Directory, clusterOf: int -> int, a: int, b: int): seq<string>
    decreases |directory|
  {
    if directory == [] then []
    else
      var last := directory[|directory| - 1];
      Recipients(directory[..|directory| - 1], clusterOf, a, b) +
      (if clusterOf(last.1) == a || clusterOf(last.1) == b then [last.0] else [])
  }

  /** Exactly the servers of the two clusters are told the decision. */
  lemma {:induction false} RecipientsExact(directory: Directory, clusterOf: int -> int, a: int, b: int, name: string)
    ensures name in Recipients(directory, clusterOf, a, b) <==>
            exists k :: 0 <= k < |directory| && directory[k].0 == name && clusterOf(directory[k].1) in {a, b}
    decreases |directory|
  {
    if directory != [] {
      RecipientsExact(directory[..|directory| - 1], clusterOf, a, b, name);
      if k :| 0 <= k < |directory| - 1 && directory[k].0 == name && clusterOf(directory[k].1) in {a, b} {
        assert directory[..|directory| - 1][k] == directory[k];
      }
    }
  }

  /** In the order of the directory. */
  lemma {:induction false} ToldInOrder(a: Directory, b: Directory, clusterOf: int -> int, j: int, k: int)
    ensures Recipients(a + b, clusterOf, j, k) == Recipients(a, clusterOf, j, k) + Recipients(b, clusterOf, j, k)
    decreases |b|
  {
    if b == [] {
      assert a + b == a;
    } else {
      assert (a + b)[..|a + b| - 1] == a + b[..|b| - 1];
      ToldInOrder(a, b[..|b| - 1], clusterOf, j, k);
    }
  }

  function AnnounceTo(names: seq<string>, tid: int, commit: bool): seq<Outgoing> {
    seq(|names|, i requires 0 <= i < |names| => SendDecision(tid, commit, names[i]))
  }

  function Announce(directory: Directory, clusterOf: int -> int, v: Verdict): seq<Outgoing> {
    AnnounceTo(Recipients(directory, clusterOf, v.senderCluster, v.receiverCluster), v.tid, v.commit)
  }

  function AnnounceAll(directory: Directory, clusterOf: int -> int, vs: seq<Verdict>): seq<Outgoing>
    decreases |vs|
  {
    if vs == [] then [] else AnnounceAll(directory, clusterOf, vs[..|vs| - 1]) + Announce(directory, clusterOf, vs[|vs| - 1])
  }

  function AnnounceIf(directory: Directory, clusterOf: int -> int, v: Option<Verdict>): seq<Outgoing> {
    if v.Some? then Announce(directory, clusterOf, v.value) else []
  }

  /** The tallies and everything sent while draining a queue of replies. */
  function Drain(home: int -> int, directory: Directory, clusterOf: int -> int, processing: Processing, es: seq<Ended>)
    : (Processing, seq<Outgoing>)
    decreases |es|
  {
    if es == [] then (processing, [])
    else
      var (before, out) := Drain(home, directory, clusterOf, processing, es[..|es| - 1]);
      var (after, v) := Consume(home, before, es[|es| - 1]);
      (after, out + AnnounceIf(directory, clusterOf, v))
  }

  /** Draining sends exactly the announcements of the decisions, in their order. */
  lemma {:induction false} DrainAnnounces(home: int -> int, directory: Directory, clusterOf: int -> int, processing: Processing, es: seq<Ended>)
    ensures
      var (after, vs) := ConsumeAll(home, processing, es);
      Drain(home, directory, clusterOf, processing, es) == (after, AnnounceAll(directory, clusterOf, vs))
    decreases |es|
  {
    if es != [] {
      DrainAnnounces(home, directory, clusterOf, processing, es[..|es| - 1]);
      var (before, vs) := ConsumeAll(home, processing, es[..|es| - 1]);
      var v := Consume(home, before, es[|es| - 1]).1;
      if v.Some? {
        assert (vs + [v.value])[..|vs|] == vs;
      } else {
        var all := AnnounceAll(directory, clusterOf, vs);
        assert vs + [] == vs && all + [] == all;
      }
    }
  }

  /** The server is told: its name stands in the directory with a server of one of the two clusters. */
  ghost predicate Concerned(directory: Directory, clusterOf: int -> int, a: int, b: int, name: string) {
    exists k :: 0 <= k < |directory| && directory[k].0 == name && clusterOf(directory[k].1) in {a, b}
  }

  ghost predicate Named(directory: Directory) {
    forall k, l :: 0 <= k < l < |directory| ==> directory[k].0 != directory[l].0
  }

  lemma {:induction false} ToldOnce(directory: Directory, clusterOf: int -> int, a: int, b: int, name: string)
    requires Named(directory)
    ensures multiset(Recipients(directory, clusterOf, a, b))[name] == if Concerned(directory, clusterOf, a, b, name) then 1 else 0
    decreases |directory|
  {
    RecipientsExact(directory, clusterOf, a, b, name);
    if directory != [] {
      ToldOnce(directory[..|directory| - 1], clusterOf, a, b, name);
      RecipientsExact(directory[..|directory| - 1], clusterOf, a, b, name);
    }
  }

  lemma {:induction false} AnnouncedTo(names: seq<string>, tid: int, commit: bool, m: Outgoing)
    ensures multiset(AnnounceTo(names, tid, commit))[m] ==
            if m.SendDecision? && m.tid == tid && m.commit == commit then multiset(names)[m.to] else 0
    decreases |names|
  {
    if names != [] {
      var n := |names| - 1;
      AnnouncedTo(names[..n], tid, commit, m);
      assert names == names[..n] + [names[n]];
      assert AnnounceTo(names, tid, commit) == AnnounceTo(names[..n], tid, commit) + [SendDecision(tid, commit, names[n])];
    }
  }

  /** One decision becomes one message with its tid and its outcome to each server of its two clusters, and no other. */
  lemma AnnouncedExactly(directory: Directory, clusterOf: int -> int, v: Verdict, m: Outgoing)
    requires Named(directory)
    ensures multiset(Announce(directory, clusterOf, v))[m] ==
            if m.SendDecision? && m.tid == v.tid && m.commit == v.commit &&
               Concerned(directory, clusterOf, v.senderCluster, v.receiverCluster, m.to) then 1 else 0
  {
    var names := Recipients(directory, clusterOf, v.senderCluster, v.receiverCluster);
    AnnouncedTo(names, v.tid, v.commit, m);
    if m.SendDecision? {
      ToldOnce(directory, clusterOf, v.senderCluster, v.receiverCluster, m.to);
    }
  }

  /** What is sent about one tid comes from the decisions about it. */
  lemma {:induction false} AnnouncedFor(directory: Directory, clusterOf: int -> int, vs: seq<Verdict>, m: Outgoing)
    requires Named(directory) && m.SendDecision?
    ensures multiset(AnnounceAll(directory, clusterOf, vs))[m] == multiset(AnnounceAll(directory, clusterOf, For(vs, m.tid)))[m]
    decreases |vs|
  {
    if vs != [] {
      var n := |vs| - 1;
      AnnouncedFor(directory, clusterOf, vs[..n], m);
      AnnouncedExactly(directory, clusterOf, vs[n], m);
      assert (For(vs[..n], m.tid) + [vs[n]])[..|For(vs[..n], m.tid)|] == For(vs[..n], m.tid);
      assert For(vs[..n], m.tid) + [] == For(vs[..n], m.tid);
    }
  }

  /**
   From replies to messages: a decision about a tid is sent exactly if both its prepares are answered, it
   says commit exactly if both acked, and it goes once to each server of the two clusters and to no other.
   */
  lemma ToldExactly(home: int -> int, directory: Directory, clusterOf: int -> int, processing: Processing, es: seq<Ended>, m: Outgoing)
    requires m.SendDecision? && Named(directory)
    requires m.tid in processing && processing[m.tid].successes == 0 && processing[m.tid].failures == 0
    requires Replies(es, m.tid) <= 2
    ensures
      var txn := processing[m.tid].txn;
      multiset(Drain(home, directory, clusterOf, processing, es).1)[m] ==
      if Replies(es, m.tid) == 2 && m.commit == (Acks(es, m.tid) == 2) &&
         Concerned(directory, clusterOf, home(txn.sender), home(txn.receiver), m.to) then 1 else 0
  {
    hide Acks, Replies, ConsumeAll, Concerned, Named;
    var vs := ConsumeAll(home, processing, es).1;
    DrainAnnounces(home, directory, clusterOf, processing, es);
    DecidedOnce(home, processing, es, m.tid);
    AnnouncedFor(directory, clusterOf, vs, m);
    if Replies(es, m.tid) == 2 {
      AnnouncedExactly(directory, clusterOf, For(vs, m.tid)[0], m);
      assert For(vs, m.tid)[..0] == [];
    }
  }

  /** A whole set: what the client tells the servers about a cross-shard transfer it has sent. */
  lemma SetDecided(home: int -> int, directory: Directory, clusterOf: int -> int, processing: Processing,
                   txns: seq<Transaction>, tids: seq<int>, es: seq<Ended>, k: nat, m: Outgoing)
    requires |tids| == |txns| && k < |txns| && home(txns[k].sender) != home(txns[k].receiver)
    requires NoRepeats(tids)
    requires Named(directory) && m.SendDecision? && m.tid == tids[k] && Replies(es, tids[k]) <= 2
    ensures
      multiset(Drain(home, directory, clusterOf, Opened(home, processing, txns, tids), es).1)[m] ==
      if Replies(es, tids[k]) == 2 && m.commit == (Acks(es, tids[k]) == 2) &&
         Concerned(directory, clusterOf, home(txns[k].sender), home(txns[k].receiver), m.to) then 1 else 0
  {
    hide Opened, Drain, Acks, Replies;
    OpenedExact(home, processing, txns, tids, tids[k]);
    ToldExactly(home, directory, clusterOf, Opened(home, processing, txns, tids), es, m);
  }

  class Client {
    const home: int -> int
    const clusterOf: int -> int
    const directory: Directory
    var processing: Processing
    var sent: seq<Outgoing>

    constructor (home: int -> int, clusterOf: int -> int, directory: Directory)
      ensures processing == map[] && sent == []
      ensures this.home == home && this.clusterOf == clusterOf && this.directory == directory
    {
      this.home, this.clusterOf, this.directory := home, clusterOf, directory;
      processing, sent := map[], [];
    }

    /** Sends every transfer of a set; `tids` are the clock readings. */
    method ProcessTransactions(txns: seq<Transaction>, leaders: seq<string>, tids: seq<int>)
      requires |tids| == |txns| && Routable(home, leaders, txns)
      modifies this
      ensures sent == old(sent) + RouteAll(home, leaders, txns, tids)
      ensures processing == Opened(home, old(processing), txns, tids)
    {
      hide Route, RouteAll, Opened, OpenedBy;
      NoneSent(home, leaders, processing, txns, tids);
      ghost var out := [];
      for i := 0 to |txns|
        invariant Routable(home, leaders, txns[..i])
        invariant out == RouteAll(home, leaders, txns[..i], tids[..i])
        invariant sent == old(sent) + out
        invariant processing == Opened(home, old(processing), txns[..i], tids[..i])
      {
        OneMoreSent(home, leaders, old(processing), txns, tids, i);
        out := out + Route(home, leaders, TransferReq(tids[i], txns[i]));
        Submit(txns[i], leaders, tids[i]);
      }
      assert txns[..|txns|] == txns && tids[..|txns|] == tids;
    }

    /** Sends one transfer, or opens its two-phase commit. */
    method Submit(txn: Transaction, leaders: seq<string>, tid: int)
      requires 1 <= home(txn.sender) <= |leaders| && 1 <= home(txn.receiver) <= |leaders|
      modifies this
      ensures sent == old(sent) + Route(home, leaders, TransferReq(tid, txn))
      ensures processing == OpenedBy(home, old(processing), txn, tid)
    {
      var senderCluster, receiverCluster := home(txn.sender), home(txn.receiver);
      var senderLeader, receiverLeader := leaders[senderCluster - 1], leaders[receiverCluster - 1];
      var req := TransferReq(tid, txn);
      if senderCluster == receiverCluster {
        sent := sent + [SendTransfer(req, senderLeader)];
      } else {
        processing := processing[tid := Tally(txn, 0, 0)];
        sent := sent + [SendPrepare(req, senderLeader)];
        sent := sent + [SendPrepare(req, receiverLeader)];
      }
    }

    /** Drains the queue of ended prepare calls. */
    method ConsumeReplies(es: seq<Ended>)
      modifies this
      ensures (processing, sent) ==
        var (after, out) := Drain(home, directory, clusterOf, old(processing), es);
        (after, old(sent) + out)
    {
      hide Consume, AnnounceIf;
      ghost var (p0, s0) := (processing, sent);
      ghost var out := [];
      for i := 0 to |es|
        invariant (processing, out) == Drain(home, directory, clusterOf, p0, es[..i])
        invariant sent == s0 + out
      {
        assert es[..i + 1][..i] == es[..i];
        out := out + AnnounceIf(directory, clusterOf, Consume(home, processing, es[i]).1);
        ConsumeReply(es[i]);
      }
      assert es[..|es|] == es;
    }

    /** Counts one ended prepare call; the second one for a tid decides it. */
    method ConsumeReply(e: Ended)
      modifies this
      ensures processing == Consume(home, old(processing), e).0
      ensures sent == old(sent) + AnnounceIf(directory, clusterOf, Consume(home, old(processing), e).1)
    {
      var tid := e.res.tid;
      if tid !in processing {
        processing := processing[tid := Tally(Transaction(0, 0, 0), 0, 0)];
      }
      var tally := processing[tid];
      if !e.ok || !e.res.ack {
        tally := tally.(failures := tally.failures + 1);
      } else {
        tally := tally.(successes := tally.successes + 1);
      }
      processing := processing[tid := tally];
      var commit := tally.successes == 2;
      var abort := tally.failures > 0 && tally.successes + tally.failures == 2;
      if commit || abort {
        Tell(tid, commit, home(tally.txn.sender), home(tally.txn.receiver));
        processing := processing - {tid};
      }
    }

    /** Sends one decision to all servers of two clusters. */
    method Tell(tid: int, commit: bool, senderCluster: int, receiverCluster: int)
      modifies this`sent
      ensures sent == old(sent) + Announce(directory, clusterOf, Verdict(tid, commit, senderCluster, receiverCluster))
    {
      ghost var v := Verdict(tid, commit, senderCluster, receiverCluster);
      assert directory[..0] == [];
      for i := 0 to |directory|
        invariant sent == old(sent) + AnnounceTo(Recipients(directory[..i], clusterOf, senderCluster, receiverCluster), tid, commit)
      {
        assert directory[..i + 1][..i] == directory[..i];
        var cluster := clusterOf(directory[i].1);
        if cluster == senderCluster || cluster == receiverCluster {
          sent := sent + [SendDecision(tid, commit, directory[i].0)];
        }
      }
      assert directory[..|directory|] == directory;
    }
  }
}
