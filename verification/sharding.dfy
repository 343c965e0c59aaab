/**
 How clients and servers are spread over clusters (utils.cc). The source divides in double
 precision and rounds up; for the ids and sizes in use that is the exact integer ceiling.
 */
module Sharding {
  import opened ServerModel

  /** The number of clusters and of servers in each; the number of clients is a parameter too. */
  datatype Layout = Layout(clusters: int, clusterSize: int, clients: int) {
    ghost predicate Valid() {
      1 <= clusters <= clients && 1 <= clusterSize
    }
  }

  function CeilDiv(a: int, b: int): int
    requires b > 0
  {
    (a + b - 1) / b
  }

  function ClusterOfClient(l: Layout, id: int): int
    requires l.clients > 0
  {
    CeilDiv(id * l.clusters, l.clients)
  }

  function ClusterOfServer(l: Layout, id: int): int
    requires l.clusterSize > 0
  {
    CeilDiv(id, l.clusterSize)
  }

  /** The last client of cluster `k`; the first is one past the last of cluster `k - 1`. */
  function LastClient(l: Layout, k: int): int
    requires l.clusters > 0
  {
    k * l.clients / l.clusters
  }

  function ShardSize(l: Layout, k: int): int
    requires l.clusters > 0
  {
    LastClient(l, k) - LastClient(l, k - 1)
  }

  // ---------- division ----------

  lemma Floor(a: int, b: int)
    requires b > 0
    ensures a / b * b <= a < a / b * b + b
  {
  }

  lemma {:induction false} MulLess(a: int, b: int, c: int)
    requires c > 0
    ensures a < b <==> a * c < b * c
  {
  }

  lemma FloorIs(a: int, b: int, q: int)
    requires b > 0
    ensures a / b == q <==> q * b <= a < q * b + b
  {
    Floor(a, b);
    var d := a / b;
    MulLess(q, d + 1, b);
    MulLess(d, q + 1, b);
    assert (d + 1) * b == d * b + b && (q + 1) * b == q * b + b;
  }

  lemma CeilIs(a: int, b: int, q: int)
    requires b > 0
    ensures CeilDiv(a, b) == q <==> (q - 1) * b < a <= q * b
  {
    FloorIs(a + b - 1, b, q);
    assert (q - 1) * b == q * b - b;
  }

  // ---------- clients ----------

  lemma ClusterIs(l: Layout, id: int, k: int)
    requires l.Valid()
    ensures ClusterOfClient(l, id) == k <==> (k - 1) * l.clients < id * l.clusters <= k * l.clients
  {
    CeilIs(id * l.clusters, l.clients, k);
  }

  /** An id is within the first `k` shards exactly if it is at most the last client of cluster `k`. */
  lemma UpTo(l: Layout, id: int, k: int)
    requires l.Valid()
    ensures id * l.clusters <= k * l.clients <==> id <= LastClient(l, k)
  {
    var last := LastClient(l, k);
    Floor(k * l.clients, l.clusters);
    MulLess(last, id, l.clusters);
    if last < id {
      MulLess(last, id - 1, l.clusters);
      assert (last + 1) * l.clusters == last * l.clusters + l.clusters;
      assert id * l.clusters >= (last + 1) * l.clusters by { MulLess(id, last + 1, l.clusters); }
    } else {
      MulLess(id, last, l.clusters);
    }
  }

  /** Each shard is the contiguous range between two neighbouring bounds. */
  lemma ShardIsRange(l: Layout, id: int, k: int)
    requires l.Valid()
    ensures ClusterOfClient(l, id) == k <==> LastClient(l, k - 1) < id <= LastClient(l, k)
  {
    ClusterIs(l, id, k);
    UpTo(l, id, k);
    UpTo(l, id, k - 1);
  }

  lemma Monotone(l: Layout, a: int, b: int)
    requires l.Valid() && a <= b
    ensures ClusterOfClient(l, a) <= ClusterOfClient(l, b)
  {
    var j, k := ClusterOfClient(l, a), ClusterOfClient(l, b);
    ClusterIs(l, a, j);
    ClusterIs(l, b, k);
    MulLess(b, a, l.clusters);
    MulLess(j - 1, k, l.clients);
  }

  /** Shards differ in size by at most one client, and none is empty. */
  lemma Balanced(l: Layout, k: int)
    requires l.Valid()
    ensures l.clients / l.clusters <= ShardSize(l, k) <= l.clients / l.clusters + 1
    ensures ShardSize(l, k) >= 1
  {
    var a, b := (k - 1) * l.clients, k * l.clients;
    var p, q, d := a / l.clusters, b / l.clusters, l.clients / l.clusters;
    Floor(a, l.clusters);
    Floor(b, l.clusters);
    Floor(l.clients, l.clusters);
    assert b == a + l.clients;
    assert (q - p) * l.clusters == q * l.clusters - p * l.clusters;
    assert (q - p + 1) * l.clusters == (q - p) * l.clusters + l.clusters;
    assert (d + 1) * l.clusters == d * l.clusters + l.clusters;
    assert (d + 2) * l.clusters == d * l.clusters + 2 * l.clusters;
    MulLess(d, q - p + 1, l.clusters);
    MulLess(q - p, d + 2, l.clusters);
    assert d >= 1 by { FloorIs(l.clients, l.clusters, 0); }
  }

  /** The clients are exactly those with a cluster number in range; -1 and 0 have none. */
  lemma ClientsArePlaced(l: Layout, id: int)
    requires l.Valid()
    ensures 1 <= id <= l.clients <==> 1 <= ClusterOfClient(l, id) <= l.clusters
  {
    var k := ClusterOfClient(l, id);
    ShardIsRange(l, id, k);
    assert LastClient(l, 0) == 0;
    assert LastClient(l, l.clusters) == l.clients by { FloorIs(l.clusters * l.clients, l.clusters, l.clients); }
    UpTo(l, id, 0);
    UpTo(l, id, l.clusters);
    ClusterIs(l, id, k);
    MulLess(0, k, l.clients);
    MulLess(k - 1, 0, l.clients);
    MulLess(k - 1, l.clusters, l.clients);
    MulLess(l.clusters, k, l.clients);
  }

  // ---------- servers ----------

  /** Cluster `k` has exactly the `clusterSize` servers after those of the clusters before it. */
  lemma ServersOfCluster(l: Layout, id: int, k: int)
    requires l.Valid()
    ensures ClusterOfServer(l, id) == k <==> (k - 1) * l.clusterSize < id <= (k - 1) * l.clusterSize + l.clusterSize
  {
    CeilIs(id, l.clusterSize, k);
    assert k * l.clusterSize == (k - 1) * l.clusterSize + l.clusterSize;
  }

  lemma ServersArePlaced(l: Layout, id: int)
    requires l.Valid()
    ensures 1 <= id <= l.clusters * l.clusterSize <==> 1 <= ClusterOfServer(l, id) <= l.clusters
  {
    var k := ClusterOfServer(l, id);
    ServersOfCluster(l, id, k);
    assert (k - 1) * l.clusterSize + l.clusterSize == k * l.clusterSize;
    MulLess(0, k, l.clusterSize);
    MulLess(k - 1, 0, l.clusterSize);
    MulLess(k - 1, l.clusters, l.clusterSize);
    MulLess(l.clusters, k, l.clusterSize);
  }

  function Names(servers: seq<(string, int)>, l: Layout, k: int): seq<string>
    requires l.clusterSize > 0
    decreases |servers|
  {
    if servers == [] then []
    else
      var last := servers[|servers| - 1];
      Names(servers[..|servers| - 1], l, k) + (if ClusterOfServer(l, last.1) == k then [last.0] else [])
  }

  /** Names are listed as the directory is: part by part, and once for each server of the cluster. */
  lemma NameOfOne(s: (string, int), l: Layout, k: int)
    requires l.clusterSize > 0
    ensures Names([s], l, k) == if ClusterOfServer(l, s.1) == k then [s.0] else []
  {
    assert [s][..0] == [];
  }

  lemma {:induction false} NamesInOrder(a: seq<(string, int)>, b: seq<(string, int)>, l: Layout, k: int)
    requires l.clusterSize > 0
    ensures Names(a + b, l, k) == Names(a, l, k) + Names(b, l, k)
    decreases |b|
  {
    hide ClusterOfServer;
    if b == [] {
      assert a + b == a;
    } else {
      assert (a + b)[..|a + b| - 1] == a + b[..|b| - 1];
      NamesInOrder(a, b[..|b| - 1], l, k);
    }
  }

  /** Names of one cluster's servers, in the order of the directory. */
  method GetServersInCluster(servers: seq<(string, int)>, l: Layout, k: int) returns (names: seq<string>)
    requires l.Valid()
    ensures names == Names(servers, l, k)
    ensures forall name :: name in names <==>
              exists i :: 0 <= i < |servers| && servers[i].0 == name &&
                          (k - 1) * l.clusterSize < servers[i].1 <= (k - 1) * l.clusterSize + l.clusterSize
  {
    names := [];
    assert servers[..0] == [];
    for i := 0 to |servers|
      invariant names == Names(servers[..i], l, k)
      invariant forall name :: name in names <==> exists j :: 0 <= j < i && servers[j].0 == name && ClusterOfServer(l, servers[j].1) == k
    {
      assert servers[..i + 1][..i] == servers[..i];
      if ClusterOfServer(l, servers[i].1) == k {
        names := names + [servers[i].0];
      }
    }
    assert servers[..|servers|] == servers;
    forall i | 0 <= i < |servers|
      ensures ClusterOfServer(l, servers[i].1) == k <==> (k - 1) * l.clusterSize < servers[i].1 <= (k - 1) * l.clusterSize + l.clusterSize
    {
      ServersOfCluster(l, servers[i].1, k);
    }
  }

  // ---------- the placement used by the servers ----------

  function Home(l: Layout): int -> int
    requires l.clients > 0
  {
    c => ClusterOfClient(l, c)
  }

  function ShardOf(l: Layout, k: int): Shard
    requires l.clients > 0
  {
    Shard(Home(l), k)
  }

  /** The assumption of the protocol proofs: no cluster owns -1 or 0. */
  lemma ShardsAreSound(l: Layout, k: int)
    requires l.Valid() && 1 <= k <= l.clusters
    ensures ShardOf(l, k).Sound()
    ensures forall c :: ShardOf(l, k).Owns(c) ==> 1 <= c <= l.clients
  {
    ClientsArePlaced(l, -1);
    ClientsArePlaced(l, 0);
    forall c | ShardOf(l, k).Owns(c) ensures 1 <= c <= l.clients {
      ClientsArePlaced(l, c);
    }
  }
}
