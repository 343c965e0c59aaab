/**
 Money across clusters. Summing every leader's balances over its own clients gives the
 opening balances, plus for each cross-shard transfer its amount for every time the
 receiver's leader applied it and minus its amount for every time the sender's did.
 */
module Conservation {
  import opened Types
  import opened ServerModel
  import opened Ledger
  import opened Participant

  /** Clusters are numbered 1..m and clients 1..n. `books[k]` belongs to the leader of cluster k. */
  ghost predicate Placed(home: int -> int, m: nat, n: nat) {
    forall c :: 1 <= c <= n ==> 1 <= home(c) <= m
  }

  ghost predicate Covers(books: map<int, Books>, m: nat) {
    forall k :: 1 <= k <= m ==> k in books
  }

  /** Every leader's balances over its own clients. */
  ghost function Total(home: int -> int, books: map<int, Books>, m: nat, n: nat): int
    requires Placed(home, m, n) && Covers(books, m)
    decreases n
  {
    if n == 0 then 0 else Total(home, books, m, n - 1) + books[home(n)].Balance(n)
  }

  function Count(log: seq<Entry>, tid: int, status: Status): nat
    decreases |log|
  {
    if log == [] then 0
    else Count(log[..|log| - 1], tid, status) + (if log[|log| - 1].tid == tid && log[|log| - 1].status == status then 1 else 0)
  }

  /** How often a log applies a transaction. */
  function Applied(log: seq<Entry>, tid: int): nat {
    Count(log, tid, Committed)
  }

  lemma CountAppend(log: seq<Entry>, e: Entry, t: int, status: Status)
    ensures Count(log + [e], t, status) == Count(log, t, status) + (if e.tid == t && e.status == status then 1 else 0)
  {
  }

  lemma {:induction false} CountConcat(a: seq<Entry>, b: seq<Entry>, t: int, status: Status)
    ensures Count(a + b, t, status) == Count(a, t, status) + Count(b, t, status)
    decreases |b|
  {
    if b == [] {
      assert a + b == a;
    } else {
      assert (a + b)[..|a + b| - 1] == a + b[..|b| - 1];
      CountConcat(a, b[..|b| - 1], t, status);
    }
  }

  lemma {:induction false} CountFinds(log: seq<Entry>, t: int, status: Status)
    ensures Count(log, t, status) > 0 <==> exists k :: 0 <= k < |log| && log[k].tid == t && log[k].status == status
    decreases |log|
  {
    if log != [] {
      var n := |log| - 1;
      CountFinds(log[..n], t, status);
      assert forall k :: 0 <= k < n ==> log[..n][k] == log[k];
      if k :| 0 <= k < n && log[k].tid == t && log[k].status == status {
        assert log[..n][k].tid == t && log[..n][k].status == status;
      }
    }
  }

  // ---------- one cluster: its clients' nets add up to the flow into the cluster ----------

  function Flow(home: int -> int, k: int, log: seq<Entry>): int
    decreases |log|
  {
    if log == [] then 0 else Flow(home, k, log[..|log| - 1]) + EntryFlow(home, k, log[|log| - 1])
  }

  function EntryFlow(home: int -> int, k: int, e: Entry): int {
    if e.status != Committed then 0
    else (if home(e.txn.receiver) == k then e.txn.amount else 0) - (if home(e.txn.sender) == k then e.txn.amount else 0)
  }

  function NetOver(home: int -> int, k: int, log: seq<Entry>, n: nat): int {
    if n == 0 then 0 else NetOver(home, k, log, n - 1) + (if home(n) == k then Net(log, n) else 0)
  }

  function EffectOver(home: int -> int, k: int, e: Entry, n: nat): int {
    if n == 0 then 0 else EffectOver(home, k, e, n - 1) + (if home(n) == k then Effect(e, n) else 0)
  }

  lemma {:induction false} EffectsAddUp(home: int -> int, k: int, e: Entry, n: nat)
    requires e.txn.sender >= 1 && e.txn.receiver >= 1
    ensures EffectOver(home, k, e, n) ==
            if e.status != Committed then 0 else
              (if home(e.txn.receiver) == k && e.txn.receiver <= n then e.txn.amount else 0)
              - (if home(e.txn.sender) == k && e.txn.sender <= n then e.txn.amount else 0)
  {
    if n > 0 {
      EffectsAddUp(home, k, e, n - 1);
    }
  }

  lemma {:induction false} NetOverAppend(home: int -> int, k: int, log: seq<Entry>, e: Entry, n: nat)
    ensures NetOver(home, k, log + [e], n) == NetOver(home, k, log, n) + EffectOver(home, k, e, n)
  {
    if n > 0 {
      NetOverAppend(home, k, log, e, n - 1);
      NetAppend(log, e, n);
    }
  }

  lemma {:induction false} NetOverEmpty(home: int -> int, k: int, n: nat)
    ensures NetOver(home, k, [], n) == 0
  {
    if n > 0 {
      NetOverEmpty(home, k, n - 1);
    }
  }

  ghost predicate ClientsIn(log: seq<Entry>, n: nat) {
    forall i :: 0 <= i < |log| ==> 1 <= log[i].txn.sender <= n && 1 <= log[i].txn.receiver <= n
  }

  lemma {:induction false} NetsAddUp(home: int -> int, k: int, log: seq<Entry>, n: nat)
    requires ClientsIn(log, n)
    ensures NetOver(home, k, log, n) == Flow(home, k, log)
    decreases |log|
  {
    if log == [] {
      NetOverEmpty(home, k, n);
    } else {
      var e := log[|log| - 1];
      assert log == log[..|log| - 1] + [e];
      NetsAddUp(home, k, log[..|log| - 1], n);
      NetOverAppend(home, k, log[..|log| - 1], e, n);
      EffectsAddUp(home, k, e, n);
    }
  }

  // ---------- all clusters ----------

  ghost function NetsOfAll(home: int -> int, books: map<int, Books>, m: nat, n: nat): int
    requires Covers(books, m)
  {
    if m == 0 then 0 else NetsOfAll(home, books, m - 1, n) + NetOver(home, m, books[m].log, n)
  }

  /** One more client adds its net to its own cluster only. */
  lemma {:induction false} OneMoreClient(home: int -> int, books: map<int, Books>, m: nat, n: nat)
    requires Covers(books, m) && n > 0
    ensures NetsOfAll(home, books, m, n) ==
            NetsOfAll(home, books, m, n - 1) + (if 1 <= home(n) <= m then Net(books[home(n)].log, n) else 0)
  {
    if m > 0 {
      OneMoreClient(home, books, m - 1, n);
    }
  }

  lemma {:induction false} NoClients(home: int -> int, books: map<int, Books>, m: nat)
    requires Covers(books, m)
    ensures NetsOfAll(home, books, m, 0) == 0
  {
    if m > 0 {
      NoClients(home, books, m - 1);
    }
  }

  ghost predicate Reconciled(home: int -> int, books: map<int, Books>, m: nat)
    requires Covers(books, m)
  {
    forall k :: 1 <= k <= m ==> RefinesLog(Shard(home, k), books[k])
  }

  lemma {:induction false} TotalIsNets(home: int -> int, books: map<int, Books>, m: nat, n: nat)
    requires Placed(home, m, n) && Covers(books, m) && Reconciled(home, books, m)
    ensures Total(home, books, m, n) == OPENING * n + NetsOfAll(home, books, m, n)
    decreases n
  {
    if n == 0 {
      NoClients(home, books, m);
    } else {
      TotalIsNets(home, books, m, n - 1);
      OneMoreClient(home, books, m, n);
      assert RefinesLog(Shard(home, home(n)), books[home(n)]);
      assert Shard(home, home(n)).Owns(n);
    }
  }

  // ---------- by transaction ----------

  /** What the log of cluster k adds to cluster k for one transaction. */
  function Share(reqs: Requests, home: int -> int, k: int, log: seq<Entry>, t: int): int
    requires t in reqs
  {
    var txn := reqs[t].txn;
    (if home(txn.receiver) == k then txn.amount * Applied(log, t) else 0)
    - (if home(txn.sender) == k then txn.amount * Applied(log, t) else 0)
  }

  function Shares(reqs: Requests, home: int -> int, k: int, log: seq<Entry>, ts: seq<int>): int
    requires forall j :: 0 <= j < |ts| ==> ts[j] in reqs
    decreases |ts|
  {
    if ts == [] then 0
    else Shares(reqs, home, k, log, ts[..|ts| - 1]) + Share(reqs, home, k, log, ts[|ts| - 1])
  }

  ghost predicate Distinct(ts: seq<int>) {
    forall i, j :: 0 <= i < j < |ts| ==> ts[i] != ts[j]
  }

  ghost predicate Known(reqs: Requests, log: seq<Entry>) {
    forall i :: 0 <= i < |log| ==> log[i].tid in reqs && reqs[log[i].tid].txn == log[i].txn
  }

  /** Appending an entry changes the share of its own transaction only. */
  lemma {:induction false} SharesAppend(reqs: Requests, home: int -> int, k: int, log: seq<Entry>, e: Entry, ts: seq<int>)
    requires (forall j :: 0 <= j < |ts| ==> ts[j] in reqs) && Distinct(ts)
    requires e.tid in reqs && reqs[e.tid].txn == e.txn
    ensures Shares(reqs, home, k, log + [e], ts) ==
            Shares(reqs, home, k, log, ts) + (if e.tid in ts then EntryFlow(home, k, e) else 0)
    decreases |ts|
  {
    if ts != [] {
      var t := ts[|ts| - 1];
      SharesAppend(reqs, home, k, log, e, ts[..|ts| - 1]);
      assert (log + [e])[..|log|] == log;
      assert e.tid in ts <==> e.tid == t || e.tid in ts[..|ts| - 1];
      if e.tid == t && e.status == Committed {
        assert e.txn.amount * (Applied(log, t) + 1) == e.txn.amount * Applied(log, t) + e.txn.amount;
      }
    }
  }

  lemma {:induction false} SharesEmpty(reqs: Requests, home: int -> int, k: int, ts: seq<int>)
    requires forall j :: 0 <= j < |ts| ==> ts[j] in reqs
    ensures Shares(reqs, home, k, [], ts) == 0
    decreases |ts|
  {
    if ts != [] {
      SharesEmpty(reqs, home, k, ts[..|ts| - 1]);
    }
  }

  lemma {:induction false} FlowByTransaction(reqs: Requests, home: int -> int, k: int, log: seq<Entry>, ts: seq<int>)
    requires (forall j :: 0 <= j < |ts| ==> ts[j] in reqs) && Distinct(ts) && Known(reqs, log)
    requires forall i :: 0 <= i < |log| ==> log[i].tid in ts
    ensures Flow(home, k, log) == Shares(reqs, home, k, log, ts)
    decreases |log|
  {
    if log == [] {
      SharesEmpty(reqs, home, k, ts);
    } else {
      var e := log[|log| - 1];
      assert log == log[..|log| - 1] + [e];
      FlowByTransaction(reqs, home, k, log[..|log| - 1], ts);
      SharesAppend(reqs, home, k, log[..|log| - 1], e, ts);
    }
  }

  /** Amount times (applied at the receiver's leader minus applied at the sender's leader). */
  ghost function Imbalance(reqs: Requests, home: int -> int, books: map<int, Books>, m: nat, t: int): int
    requires t in reqs && Covers(books, m)
    requires 1 <= home(reqs[t].txn.sender) <= m && 1 <= home(reqs[t].txn.receiver) <= m
  {
    var txn := reqs[t].txn;
    txn.amount * (Applied(books[home(txn.receiver)].log, t) - Applied(books[home(txn.sender)].log, t))
  }

  ghost predicate Homed(reqs: Requests, home: int -> int, m: nat, ts: seq<int>) {
    forall j :: 0 <= j < |ts| ==>
      ts[j] in reqs && 1 <= home(reqs[ts[j]].txn.sender) <= m && 1 <= home(reqs[ts[j]].txn.receiver) <= m
  }

  ghost function Imbalances(reqs: Requests, home: int -> int, books: map<int, Books>, m: nat, ts: seq<int>): int
    requires Covers(books, m) && Homed(reqs, home, m, ts)
    decreases |ts|
  {
    if ts == [] then 0
    else Imbalances(reqs, home, books, m, ts[..|ts| - 1]) + Imbalance(reqs, home, books, m, ts[|ts| - 1])
  }

  ghost function SharesOfAll(reqs: Requests, home: int -> int, books: map<int, Books>, m: nat, ts: seq<int>): int
    requires Covers(books, m) && forall j :: 0 <= j < |ts| ==> ts[j] in reqs
  {
    if m == 0 then 0 else SharesOfAll(reqs, home, books, m - 1, ts) + Shares(reqs, home, m, books[m].log, ts)
  }

  /** One more transaction adds the two ends of its own transfer. */
  lemma {:induction false} OneMoreTransaction(reqs: Requests, home: int -> int, books: map<int, Books>, m: nat, ts: seq<int>)
    requires Covers(books, m) && ts != [] && forall j :: 0 <= j < |ts| ==> ts[j] in reqs
    ensures
      var t := ts[|ts| - 1];
      var txn := reqs[t].txn;
      SharesOfAll(reqs, home, books, m, ts) == SharesOfAll(reqs, home, books, m, ts[..|ts| - 1])
        + (if 1 <= home(txn.receiver) <= m then txn.amount * Applied(books[home(txn.receiver)].log, t) else 0)
        - (if 1 <= home(txn.sender) <= m then txn.amount * Applied(books[home(txn.sender)].log, t) else 0)
    decreases m
  {
    if m > 0 {
      OneMoreTransaction(reqs, home, books, m - 1, ts);
    }
  }

  lemma {:induction false} NoTransactions(reqs: Requests, home: int -> int, books: map<int, Books>, m: nat)
    requires Covers(books, m)
    ensures SharesOfAll(reqs, home, books, m, []) == 0
  {
    if m > 0 {
      NoTransactions(reqs, home, books, m - 1);
    }
  }

  lemma {:induction false} SharesAreImbalances(reqs: Requests, home: int -> int, books: map<int, Books>, m: nat, ts: seq<int>)
    requires Covers(books, m) && Homed(reqs, home, m, ts)
    ensures SharesOfAll(reqs, home, books, m, ts) == Imbalances(reqs, home, books, m, ts)
    decreases |ts|
  {
    hide Applied;
    if ts == [] {
      NoTransactions(reqs, home, books, m);
    } else {
      SharesAreImbalances(reqs, home, books, m, ts[..|ts| - 1]);
      OneMoreTransaction(reqs, home, books, m, ts);
      var t := ts[|ts| - 1];
      var txn := reqs[t].txn;
      var r: int, s: int := Applied(books[home(txn.receiver)].log, t), Applied(books[home(txn.sender)].log, t);
      assert txn.amount * (r - s) == txn.amount * r - txn.amount * s;
    }
  }

  lemma {:induction false} NetsAreShares(reqs: Requests, home: int -> int, books: map<int, Books>, m: nat, n: nat, ts: seq<int>)
    requires Covers(books, m) && Distinct(ts) && forall j :: 0 <= j < |ts| ==> ts[j] in reqs
    requires forall k :: 1 <= k <= m ==> ClientsIn(books[k].log, n) && Known(reqs, books[k].log) &&
                                         forall i :: 0 <= i < |books[k].log| ==> books[k].log[i].tid in ts
    ensures NetsOfAll(home, books, m, n) == SharesOfAll(reqs, home, books, m, ts)
    decreases m
  {
    if m > 0 {
      NetsAreShares(reqs, home, books, m - 1, n, ts);
      NetsAddUp(home, m, books[m].log, n);
      FlowByTransaction(reqs, home, m, books[m].log, ts);
    }
  }

  /** The books of all leaders, the transactions `ts` they know, and nothing else. */
  ghost predicate Closed(reqs: Requests, home: int -> int, books: map<int, Books>, m: nat, n: nat, ts: seq<int>) {
    && Placed(home, m, n) && Covers(books, m) && Reconciled(home, books, m)
    && Distinct(ts) && Homed(reqs, home, m, ts)
    && (forall k :: 1 <= k <= m ==> ClientsIn(books[k].log, n) && Known(reqs, books[k].log) &&
                                    forall i :: 0 <= i < |books[k].log| ==> books[k].log[i].tid in ts)
  }

  lemma TotalByTransaction(reqs: Requests, home: int -> int, books: map<int, Books>, m: nat, n: nat, ts: seq<int>)
    requires Closed(reqs, home, books, m, n, ts)
    ensures Total(home, books, m, n) == OPENING * n + Imbalances(reqs, home, books, m, ts)
  {
    TotalIsNets(home, books, m, n);
    NetsAreShares(reqs, home, books, m, n, ts);
    SharesAreImbalances(reqs, home, books, m, ts);
  }

  /** Both leaders of every transfer applied it equally often, so nothing is created or lost. */
  lemma {:induction false} BalancedTotal(reqs: Requests, home: int -> int, books: map<int, Books>, m: nat, ts: seq<int>)
    requires Covers(books, m) && Homed(reqs, home, m, ts)
    requires forall j :: 0 <= j < |ts| ==>
      var txn := reqs[ts[j]].txn;
      Applied(books[home(txn.receiver)].log, ts[j]) == Applied(books[home(txn.sender)].log, ts[j])
    ensures Imbalances(reqs, home, books, m, ts) == 0
    decreases |ts|
  {
    if ts != [] {
      BalancedTotal(reqs, home, books, m, ts[..|ts| - 1]);
    }
  }
}
