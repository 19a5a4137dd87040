/** Which downloads done seeding may be removed, and with which files (internal/torrents/remove.go). */
module Removals {
  import opened DiskUsage
  import opened Sorting
  import opened PathStrings
  import opened Downloads
  import opened ShareClusters

  /** Downloads removed from qBittorrent together. */
  datatype Removal = Removal(name: string, hashes: seq<string>, contentPath: string, size: int, deleteFiles: bool, keptFor: string, seeded: int)

  datatype HeldReason = ImportsNotConfirmed | SharedWithLibrary

  datatype HeldRemoval = HeldRemoval(name: string, reason: HeldReason)

  datatype RemovalPlan = RemovalPlan(removals: seq<Removal>, deferred: seq<Removal>, held: seq<HeldRemoval>)

  // ----- the guards

  /** Whether a library path is the content path, contains it or sits inside it. */
  predicate InLibrary(path: string, libraryPaths: seq<string>) {
    path != "" && exists l :: l in libraryPaths && l != "" && Overlap(path, l)
  }

  /** Done seeding, in a state qBittorrent has finished with. */
  predicate DoneSeeding(d: Download)
    reads d
  {
    d.tierPath != "" && d.seeding.met && d.state in {Waiting, Ready, Held, Parked}
  }

  predicate Removable(d: Download, libraryPaths: seq<string>)
    reads d
  {
    DoneSeeding(d) && d.importsConfirmed && !InLibrary(d.contentPath, libraryPaths)
  }

  ghost predicate UniqueHashes(downloads: seq<Download>) {
    forall i, j :: 0 <= i < j < |downloads| ==> downloads[i].hash != downloads[j].hash
  }

  lemma {:induction false} OneDownloadPerHash(downloads: seq<Download>, d: Download, e: Download)
    requires UniqueHashes(downloads) && d in downloads && e in downloads && d.hash == e.hash
    ensures d == e
  {
    var i :| 0 <= i < |downloads| && downloads[i] == d;
    var j :| 0 <= j < |downloads| && downloads[j] == e;
    assert i < j || j < i || i == j;
  }

  /** The hashes cleared for removal. */
  ghost function Cleared(downloads: seq<Download>, libraryPaths: seq<string>): set<string>
    reads downloads
  {
    set d | d in downloads && Removable(d, libraryPaths) :: d.hash
  }

  lemma {:induction false} ClearedExactly(downloads: seq<Download>, libraryPaths: seq<string>, d: Download)
    requires UniqueHashes(downloads) && d in downloads
    ensures d.hash in Cleared(downloads, libraryPaths) <==> Removable(d, libraryPaths)
  {
    if d.hash in Cleared(downloads, libraryPaths) {
      var e :| e in downloads && e.hash == d.hash && Removable(e, libraryPaths);
      OneDownloadPerHash(downloads, d, e);
    }
  }

  /** Exactly the downloads done seeding that a guard holds back, each with its reason. */
  ghost predicate HeldBack(downloads: seq<Download>, libraryPaths: seq<string>, held: seq<HeldRemoval>)
    reads downloads
  {
    forall h :: h in held <==> exists d :: d in downloads && DoneSeeding(d) && !Removable(d, libraryPaths) && h == HeldRemoval(d.name, if d.importsConfirmed then SharedWithLibrary else ImportsNotConfirmed)
  }

  method FindRemovable(downloads: seq<Download>, libraryPaths: seq<string>) returns (removable: set<string>, held: seq<HeldRemoval>)
    ensures removable == Cleared(downloads, libraryPaths)
    ensures HeldBack(downloads, libraryPaths, held)
  {
    removable, held := {}, [];
    for i := 0 to |downloads|
      invariant forall h :: h in removable <==> exists d :: d in downloads[..i] && d.hash == h && Removable(d, libraryPaths)
      invariant forall h :: h in held <==> exists d :: d in downloads[..i] && DoneSeeding(d) && !Removable(d, libraryPaths) && h == HeldRemoval(d.name, if d.importsConfirmed then SharedWithLibrary else ImportsNotConfirmed)
    {
      var d := downloads[i];
      assert downloads[..i + 1] == downloads[..i] + [d];
      if !DoneSeeding(d) {
        continue;
      }
      if !d.importsConfirmed {
        held := held + [HeldRemoval(d.name, ImportsNotConfirmed)];
        continue;
      }
      if InLibrary(d.contentPath, libraryPaths) {
        held := held + [HeldRemoval(d.name, SharedWithLibrary)];
        continue;
      }
      removable := removable + {d.hash};
    }
    assert downloads[..|downloads|] == downloads;
  }

  // ----- one removal per cluster

  ghost predicate HashesOf(hashes: seq<string>, done: seq<Download>) {
    |hashes| == |done| && forall i :: 0 <= i < |done| ==> hashes[i] == done[i].hash
  }

  ghost predicate IsSplit(cluster: seq<Download>, removable: set<string>, done: seq<Download>, others: seq<Download>) {
    && (forall d :: d in done ==> d in cluster && d.hash in removable)
    && (forall d :: d in others ==> d in cluster && d.hash !in removable)
    && (forall d :: d in cluster ==> if d.hash in removable then d in done else d in others)
    && NoRepeats(done)
  }

  method SplitCluster(cluster: seq<Download>, removable: set<string>) returns (done: seq<Download>, others: seq<Download>)
    requires NoRepeats(cluster)
    ensures IsSplit(cluster, removable, done, others)
  {
    done, others := [], [];
    for i := 0 to |cluster|
      invariant IsSplit(cluster[..i], removable, done, others)
    {
      assert cluster[..i + 1] == cluster[..i] + [cluster[i]];
      assert forall j :: 0 <= j < i ==> cluster[j] != cluster[i];
      if cluster[i].hash in removable {
        done := done + [cluster[i]];
      } else {
        others := others + [cluster[i]];
      }
    }
    assert cluster[..|cluster|] == cluster;
  }

  /** The removal's figures: the size of the largest, the seeding time of the shortest. */
  ghost predicate Figures(r: Removal, done: seq<Download>) {
    && (forall d :: d in done ==> d.size <= r.size && r.seeded <= d.seeding.seeded)
    && (r.size == 0 || exists d :: d in done && d.size == r.size)
    && (exists d :: d in done && d.seeding.seeded == r.seeded)
  }

  method MakeRemoval(done: seq<Download>, others: seq<Download>) returns (r: Removal)
    requires done != []
    ensures HashesOf(r.hashes, done) && Figures(r, done)
    ensures r.name == done[0].name && r.contentPath == done[0].contentPath
    ensures r.deleteFiles == (others == []) && (others != [] ==> r.keptFor == others[0].name)
  {
    var first := done[0];
    r := Removal(first.name, [], first.contentPath, 0, others == [], "", first.seeding.seeded);
    for i := 0 to |done|
      invariant HashesOf(r.hashes, done[..i])
      invariant i > 0 ==> Figures(r, done[..i])
      invariant i == 0 ==> r.size == 0 && r.seeded == first.seeding.seeded
      invariant r.name == first.name && r.contentPath == first.contentPath && r.deleteFiles == (others == [])
    {
      var d := done[i];
      assert done[..i + 1] == done[..i] + [d];
      r := r.(hashes := r.hashes + [d.hash], size := if d.size > r.size then d.size else r.size,
      seeded := if d.seeding.seeded < r.seeded then d.seeding.seeded else r.seeded);
    }
    assert done[..|done|] == done;
    if others != [] {
      r := r.(keptFor := others[0].name);
    }
  }

  /** What the removal for a group takes: its cleared downloads, and the files too when that is all of them. */
  ghost predicate Takes(r: Removal, group: set<Download>, cleared: set<string>) {
    && r.hashes != [] && NoRepeats(r.hashes)
    && (forall h :: h in r.hashes <==> h in cleared && exists d :: d in group && d.hash == h)
    && (r.deleteFiles <==> forall d :: d in group ==> d.hash in cleared)
    && (!r.deleteFiles ==> exists d :: d in group && d.hash !in cleared && d.name == r.keptFor)
    && (forall d :: d in group && d.hash in r.hashes ==> d.size <= r.size && r.seeded <= d.seeding.seeded)
    && (r.size == 0 || exists d :: d in group && d.hash in r.hashes && d.size == r.size)
    && (exists d :: d in group && d.hash in r.hashes && d.seeding.seeded == r.seeded)
    && exists d :: d in group && d.hash in r.hashes && d.name == r.name && d.contentPath == r.contentPath
  }

  ghost function Members(cluster: seq<Download>): set<Download> {
    set d | d in cluster
  }

  lemma {:induction false} MadeFromCluster(downloads: seq<Download>, cluster: seq<Download>, removable: set<string>, done: seq<Download>, others: seq<Download>, r: Removal)
    requires UniqueHashes(downloads) && (forall d :: d in cluster ==> d in downloads)
    requires IsSplit(cluster, removable, done, others) && done != []
    requires HashesOf(r.hashes, done) && Figures(r, done) && r.name == done[0].name && r.contentPath == done[0].contentPath
    requires r.deleteFiles == (others == []) && (others != [] ==> r.keptFor == others[0].name)
    ensures Takes(r, Members(cluster), removable)
  {
    DistinctHashes(downloads, cluster, removable, done, others, r);
    assert forall d :: d in done ==> d.hash in r.hashes;
    assert done[0] in done;
    if others != [] {
      assert others[0] in others;
    }
  }

  lemma {:induction false} DistinctHashes(downloads: seq<Download>, cluster: seq<Download>, removable: set<string>, done: seq<Download>, others: seq<Download>, r: Removal)
    requires UniqueHashes(downloads) && (forall d :: d in cluster ==> d in downloads)
    requires IsSplit(cluster, removable, done, others) && HashesOf(r.hashes, done)
    ensures NoRepeats(r.hashes)
  {
    forall i, j | 0 <= i < j < |r.hashes|
      ensures r.hashes[i] != r.hashes[j]
    {
      if done[i].hash == done[j].hash {
        assert done[i] in done && done[j] in done;
        OneDownloadPerHash(downloads, done[i], done[j]);
      }
    }
  }

  // ----- what a removal means for the downloads

  /** The downloads sharing files with content at a path, through any chain of overlaps. */
  ghost function SharedWith(downloads: seq<Download>, path: string): set<Download> {
    set e | e in downloads && e.contentPath != "" && Linked(ContentPaths(downloads), path, e.contentPath)
  }

  lemma {:induction false} LinkedInCluster(downloads: seq<Download>, clusters: seq<seq<Download>>, c: nat, d: Download, e: Download)
    requires Clusters(downloads, clusters) && c < |clusters| && d in clusters[c] && e in downloads && e.contentPath != ""
    ensures e in clusters[c] <==> Linked(ContentPaths(downloads), d.contentPath, e.contentPath)
  {
    var b :| 0 <= b < |clusters| && e in clusters[b];
  }

  lemma {:induction false} ClusterDownloads(downloads: seq<Download>, clusters: seq<seq<Download>>, c: nat)
    requires Clusters(downloads, clusters) && c < |clusters|
    ensures forall d :: d in clusters[c] ==> d in downloads && d.contentPath != ""
  {
  }

  /** A cluster is exactly the downloads sharing files with any of its members. */
  lemma {:induction false} SharesIsCluster(downloads: seq<Download>, clusters: seq<seq<Download>>, c: nat, s: Download)
    requires Clusters(downloads, clusters) && c < |clusters| && s in clusters[c]
    ensures SharedWith(downloads, s.contentPath) == Members(clusters[c])
  {
    ClusterDownloads(downloads, clusters, c);
    forall e | e in downloads && e.contentPath != ""
      ensures e in clusters[c] <==> Linked(ContentPaths(downloads), s.contentPath, e.contentPath)
    {
      LinkedInCluster(downloads, clusters, c, s, e);
    }
  }

  /** A removal takes every cleared download among those sharing files, and deletes the files only when no
      other shares them. */
  ghost predicate Right(downloads: seq<Download>, cleared: set<string>, r: Removal) {
    Takes(r, SharedWith(downloads, r.contentPath), cleared)
  }

  lemma {:induction false} RightFromCluster(downloads: seq<Download>, clusters: seq<seq<Download>>, c: nat, removable: set<string>, r: Removal)
    requires UniqueHashes(downloads) && Clusters(downloads, clusters) && c < |clusters| && Takes(r, Members(clusters[c]), removable)
    ensures Right(downloads, removable, r)
  {
    var s :| s in Members(clusters[c]) && s.contentPath == r.contentPath;
    SharesIsCluster(downloads, clusters, c, s);
  }

  // ----- every removal there is

  /** No download is in two removals. */
  ghost predicate Apart(all: seq<Removal>) {
    && NoRepeats(all)
    && forall r, s, h :: r in all && s in all && h in r.hashes && h in s.hashes ==> r == s
  }

  ghost predicate Covers(downloads: seq<Download>, cleared: set<string>, all: seq<Removal>) {
    forall d :: d in downloads && d.contentPath != "" && d.hash in cleared ==> exists r :: r in all && d.hash in r.hashes
  }

  /** The removals cover exactly the cleared downloads with content, each in one. */
  ghost predicate AllRight(downloads: seq<Download>, cleared: set<string>, all: seq<Removal>) {
    && (forall r :: r in all ==> Right(downloads, cleared, r))
    && Covers(downloads, cleared, all)
    && Apart(all)
  }

  /** Each removal is its own cluster's, one of the first n, in cluster order. */
  ghost predicate EachFrom(clusters: seq<seq<Download>>, n: nat, cleared: set<string>, all: seq<Removal>, origin: seq<nat>)
    requires n <= |clusters|
  {
    && |origin| == |all|
    && (forall j :: 0 <= j < |all| ==> origin[j] < n && Takes(all[j], Members(clusters[origin[j]]), cleared))
    && forall i, j :: 0 <= i < j < |origin| ==> origin[i] < origin[j]
  }

  /** Every cleared download of the first n clusters is in a removal. */
  ghost predicate AllTaken(clusters: seq<seq<Download>>, n: nat, cleared: set<string>, all: seq<Removal>)
    requires n <= |clusters|
  {
    forall c, d :: 0 <= c < n && d in clusters[c] && d.hash in cleared ==> exists r :: r in all && d.hash in r.hashes
  }

  /** The hashes are downloads' of that cluster. */
  ghost predicate HashesIn(hashes: seq<string>, cluster: seq<Download>) {
    forall h :: h in hashes ==> exists d :: d in cluster && d.hash == h
  }

  lemma {:induction false} HashOfOneCluster(downloads: seq<Download>, clusters: seq<seq<Download>>, b: nat, c: nat, d: Download, e: Download)
    requires UniqueHashes(downloads) && Clusters(downloads, clusters) && b < |clusters| && c < |clusters|
    requires d in clusters[b] && e in clusters[c] && d.hash == e.hash
    ensures b == c
  {
    ClusterDownloads(downloads, clusters, b);
    ClusterDownloads(downloads, clusters, c);
    OneDownloadPerHash(downloads, d, e);
    LinkedInCluster(downloads, clusters, c, d, d);
  }

  lemma {:induction false} SharedHash(downloads: seq<Download>, clusters: seq<seq<Download>>, b: nat, c: nat, h: string, r: Removal, s: Removal)
    requires UniqueHashes(downloads) && Clusters(downloads, clusters) && b < c < |clusters|
    requires HashesIn(s.hashes, clusters[b]) && HashesIn(r.hashes, clusters[c]) && h in s.hashes
    ensures h !in r.hashes
  {
    if h in r.hashes {
      var d :| d in clusters[b] && d.hash == h;
      var e :| e in clusters[c] && e.hash == h;
      HashOfOneCluster(downloads, clusters, b, c, d, e);
    }
  }

  /** Removals of different clusters have no download in common. */
  lemma {:induction false} ClustersApart(downloads: seq<Download>, clusters: seq<seq<Download>>, cleared: set<string>, all: seq<Removal>, origin: seq<nat>, i: nat, j: nat, h: string)
    requires UniqueHashes(downloads) && Clusters(downloads, clusters) && EachFrom(clusters, |clusters|, cleared, all, origin)
    requires i < j < |all| && h in all[i].hashes
    ensures h !in all[j].hashes
  {
    TakenHashes(all[i], clusters[origin[i]], cleared);
    TakenHashes(all[j], clusters[origin[j]], cleared);
    SharedHash(downloads, clusters, origin[i], origin[j], h, all[j], all[i]);
  }

  lemma {:induction false} ApartByIndex(all: seq<Removal>)
    requires forall i, j, h :: 0 <= i < j < |all| && h in all[i].hashes ==> h !in all[j].hashes
    requires forall i :: 0 <= i < |all| ==> all[i].hashes != []
    ensures Apart(all)
  {
    forall i, j | 0 <= i < j < |all|
      ensures all[i] != all[j]
    {
      assert all[i].hashes[0] in all[i].hashes;
    }
  }

  lemma {:induction false} EveryRight(downloads: seq<Download>, clusters: seq<seq<Download>>, cleared: set<string>, all: seq<Removal>, origin: seq<nat>)
    requires UniqueHashes(downloads) && Clusters(downloads, clusters) && EachFrom(clusters, |clusters|, cleared, all, origin)
    ensures forall r :: r in all ==> Right(downloads, cleared, r)
  {
    forall r | r in all
      ensures Right(downloads, cleared, r)
    {
      var j :| 0 <= j < |all| && all[j] == r;
      RightFromCluster(downloads, clusters, origin[j], cleared, r);
    }
  }

  lemma {:induction false} EveryCovered(downloads: seq<Download>, clusters: seq<seq<Download>>, cleared: set<string>, all: seq<Removal>)
    requires Clusters(downloads, clusters) && AllTaken(clusters, |clusters|, cleared, all)
    ensures Covers(downloads, cleared, all)
  {
    forall d | d in downloads && d.contentPath != "" && d.hash in cleared
      ensures exists r :: r in all && d.hash in r.hashes
    {
      var c :| 0 <= c < |clusters| && d in clusters[c];
    }
  }

  lemma {:induction false} MadeAllRight(downloads: seq<Download>, clusters: seq<seq<Download>>, cleared: set<string>, all: seq<Removal>, origin: seq<nat>)
    requires UniqueHashes(downloads) && Clusters(downloads, clusters)
    requires EachFrom(clusters, |clusters|, cleared, all, origin) && AllTaken(clusters, |clusters|, cleared, all)
    ensures AllRight(downloads, cleared, all)
  {
    EveryRight(downloads, clusters, cleared, all, origin);
    EveryCovered(downloads, clusters, cleared, all);
    EveryApart(downloads, clusters, cleared, all, origin);
  }

  lemma {:induction false} EveryApart(downloads: seq<Download>, clusters: seq<seq<Download>>, cleared: set<string>, all: seq<Removal>, origin: seq<nat>)
    requires UniqueHashes(downloads) && Clusters(downloads, clusters) && EachFrom(clusters, |clusters|, cleared, all, origin)
    ensures Apart(all)
  {
    forall i, j, h | 0 <= i < j < |all| && h in all[i].hashes
      ensures h !in all[j].hashes
    {
      ClustersApart(downloads, clusters, cleared, all, origin, i, j, h);
    }
    forall i | 0 <= i < |all|
      ensures all[i].hashes != []
    {
      TakesSome(all[i], Members(clusters[origin[i]]), cleared);
    }
    ApartByIndex(all);
  }

  lemma {:induction false} TakesSome(r: Removal, group: set<Download>, cleared: set<string>)
    requires Takes(r, group, cleared)
    ensures r.hashes != []
  {
  }

  method MakeRemovals(downloads: seq<Download>, clusters: seq<seq<Download>>, removable: set<string>) returns (all: seq<Removal>, ghost origin: seq<nat>)
    requires UniqueHashes(downloads) && NoneTwice(clusters)
    requires forall c, d :: 0 <= c < |clusters| && d in clusters[c] ==> d in downloads
    ensures EachFrom(clusters, |clusters|, removable, all, origin) && AllTaken(clusters, |clusters|, removable, all)
  {
    all, origin := [], [];
    for i := 0 to |clusters|
      invariant EachFrom(clusters, i, removable, all, origin) && AllTaken(clusters, i, removable, all)
    {
      all, origin := AddRemoval(downloads, clusters, i, removable, all, origin);
    }
  }

  method AddRemoval(downloads: seq<Download>, clusters: seq<seq<Download>>, i: nat, removable: set<string>, before: seq<Removal>, ghost origins: seq<nat>)
    returns (all: seq<Removal>, ghost origin: seq<nat>)
    requires UniqueHashes(downloads) && NoneTwice(clusters) && i < |clusters| && forall d :: d in clusters[i] ==> d in downloads
    requires EachFrom(clusters, i, removable, before, origins) && AllTaken(clusters, i, removable, before)
    ensures EachFrom(clusters, i + 1, removable, all, origin) && AllTaken(clusters, i + 1, removable, all)
  {
    var some, r := RemovalFor(downloads, clusters[i], removable);
    if some {
      all, origin := before + [r], origins + [i];
      OneMoreFrom(clusters, i, removable, before, origins, r);
      OneMoreTaken(clusters, i, removable, before, all);
    } else {
      all, origin := before, origins;
      OneMoreTaken(clusters, i, removable, before, all);
    }
  }

  lemma {:induction false} OneMoreFrom(clusters: seq<seq<Download>>, n: nat, cleared: set<string>, before: seq<Removal>, origins: seq<nat>, r: Removal)
    requires n < |clusters| && EachFrom(clusters, n, cleared, before, origins) && Takes(r, Members(clusters[n]), cleared)
    ensures EachFrom(clusters, n + 1, cleared, before + [r], origins + [n])
  {
    var all, origin := before + [r], origins + [n];
    forall j | 0 <= j < |all|
      ensures origin[j] < n + 1 && Takes(all[j], Members(clusters[origin[j]]), cleared)
    {
    }
  }

  lemma {:induction false} OneMoreTaken(clusters: seq<seq<Download>>, n: nat, cleared: set<string>, before: seq<Removal>, all: seq<Removal>)
    requires n < |clusters| && AllTaken(clusters, n, cleared, before) && before <= all
    requires forall d :: d in clusters[n] && d.hash in cleared ==> exists r :: r in all && d.hash in r.hashes
    ensures AllTaken(clusters, n + 1, cleared, all)
  {
    assert forall r :: r in before ==> r in all;
  }

  /** The removal for one cluster, if any of it is done. */
  method RemovalFor(downloads: seq<Download>, cluster: seq<Download>, removable: set<string>) returns (some: bool, r: Removal)
    requires UniqueHashes(downloads) && NoRepeats(cluster) && forall d :: d in cluster ==> d in downloads
    ensures !some <==> forall d :: d in cluster ==> d.hash !in removable
    ensures some ==> Takes(r, Members(cluster), removable) && HashesIn(r.hashes, cluster)
    ensures some ==> forall d :: d in cluster && d.hash in removable ==> d.hash in r.hashes
  {
    var done, others := SplitCluster(cluster, removable);
    some := done != [];
    if !some {
      return false, Removal("", [], "", 0, false, "", 0);
    }
    assert done[0] in done;
    r := MakeRemoval(done, others);
    MadeFromCluster(downloads, cluster, removable, done, others, r);
    TakenHashes(r, cluster, removable);
  }

  lemma {:induction false} TakenHashes(r: Removal, cluster: seq<Download>, cleared: set<string>)
    requires Takes(r, Members(cluster), cleared)
    ensures HashesIn(r.hashes, cluster) && forall d :: d in cluster && d.hash in cleared ==> d.hash in r.hashes
  {
  }

  // ----- longest-seeded first, within the limit

  predicate LongerSeeded(a: Removal, b: Removal) {
    a.seeded > b.seeded || (a.seeded == b.seeded && Before(a.name, b.name))
  }

  lemma {:induction false} SeededOrder(all: seq<Removal>)
    ensures WeakOrder(all, LongerSeeded)
  {
    forall a, b | a in all && b in all && LongerSeeded(a, b)
      ensures !LongerSeeded(b, a)
    {
      LeqTotal(a.name, b.name);
    }
    forall a, b, c | a in all && b in all && c in all && !LongerSeeded(b, a) && !LongerSeeded(c, b)
      ensures !LongerSeeded(c, a)
    {
      NotLongerTransitive(a, b, c);
    }
  }

  lemma {:induction false} NotLongerTransitive(a: Removal, b: Removal, c: Removal)
    requires !LongerSeeded(b, a) && !LongerSeeded(c, b)
    ensures !LongerSeeded(c, a)
  {
    if a.seeded == b.seeded == c.seeded {
      LeqTransitive(a.name, b.name, c.name);
    }
  }

  function TotalHashes(removals: seq<Removal>): nat {
    if removals == [] then 0 else TotalHashes(removals[..|removals| - 1]) + |removals[|removals| - 1].hashes|
  }

  lemma {:induction false} TotalOneMore(removals: seq<Removal>, r: Removal)
    ensures TotalHashes(removals + [r]) == TotalHashes(removals) + |r.hashes|
  {
    assert (removals + [r])[..|removals|] == removals;
  }

  /** Of the removals in order, each is chosen exactly when it fits with those chosen before it. */
  ghost predicate FirstFit(all: seq<Removal>, chosen: seq<seq<Removal>>, limit: int) {
    && |chosen| == |all| + 1 && chosen[0] == []
    && forall i :: 0 <= i < |all| ==>
                     chosen[i + 1] == if TotalHashes(chosen[i]) + |all[i].hashes| <= limit then chosen[i] + [all[i]] else chosen[i]
  }

  /** The removals and those deferred, as the limit splits them. */
  ghost predicate SplitByLimit(all: seq<Removal>, plan: RemovalPlan, limit: int) {
    && multiset(plan.removals + plan.deferred) == multiset(all)
    && SortedBy(all, LongerSeeded)
    && exists chosen :: FirstFit(all, chosen, limit) && chosen[|all|] == plan.removals
  }

  ghost predicate NoDeferredFits(plan: RemovalPlan, limit: int) {
    forall r :: r in plan.deferred ==> TotalHashes(plan.removals) + |r.hashes| > limit
  }

  ghost predicate SplitInto(all: seq<Removal>, removals: seq<Removal>, deferred: seq<Removal>) {
    multiset(removals + deferred) == multiset(all)
  }

  lemma {:induction false} SplitOneMore(all: seq<Removal>, removals: seq<Removal>, deferred: seq<Removal>, r: Removal)
    requires SplitInto(all, removals, deferred)
    ensures SplitInto(all + [r], removals + [r], deferred) && SplitInto(all + [r], removals, deferred + [r])
  {
    assert removals + (deferred + [r]) == (removals + deferred) + [r];
    assert multiset((removals + [r]) + deferred) == multiset(removals + deferred) + multiset{r};
  }

  lemma {:induction false} FitOneMore(all: seq<Removal>, chosen: seq<seq<Removal>>, limit: int, r: Removal)
    requires FirstFit(all, chosen, limit)
    ensures var last := chosen[|all|];
            FirstFit(all + [r], chosen + [if TotalHashes(last) + |r.hashes| <= limit then last + [r] else last], limit)
  {
    var last := chosen[|all|];
    var next, longer := chosen + [if TotalHashes(last) + |r.hashes| <= limit then last + [r] else last], all + [r];
    forall i | 0 <= i < |longer|
      ensures next[i + 1] == if TotalHashes(next[i]) + |longer[i].hashes| <= limit then next[i] + [longer[i]] else next[i]
    {
      assert next[i] == chosen[i];
    }
  }

  method WithinLimit(all: seq<Removal>, limit: int) returns (removals: seq<Removal>, deferred: seq<Removal>, ghost chosen: seq<seq<Removal>>)
    ensures multiset(removals + deferred) == multiset(all)
    ensures FirstFit(all, chosen, limit) && chosen[|all|] == removals
    ensures removals != [] ==> TotalHashes(removals) <= limit
    ensures forall r :: r in deferred ==> TotalHashes(removals) + |r.hashes| > limit
  {
    removals, deferred, chosen := [], [], [[]];
    var count := 0;
    for i := 0 to |all|
      invariant SplitInto(all[..i], removals, deferred)
      invariant FirstFit(all[..i], chosen, limit) && chosen[i] == removals
      invariant count == TotalHashes(removals) && (removals != [] ==> count <= limit)
      invariant forall r :: r in deferred ==> count + |r.hashes| > limit
    {
      var r := all[i];
      assert all[..i + 1] == all[..i] + [r];
      SplitOneMore(all[..i], removals, deferred, r);
      FitOneMore(all[..i], chosen, limit, r);
      if count + |r.hashes| > limit {
        deferred := deferred + [r];
      } else {
        TotalOneMore(removals, r);
        count := count + |r.hashes|;
        removals := removals + [r];
      }
      chosen := chosen + [removals];
    }
    assert all[..|all|] == all;
  }

  lemma {:induction false} PermutedAllRight(downloads: seq<Download>, cleared: set<string>, all: seq<Removal>, list: seq<Removal>)
    requires AllRight(downloads, cleared, all) && multiset(list) == multiset(all)
    ensures AllRight(downloads, cleared, list)
  {
    SamePermutationMembers(list, all);
    PermutedNoRepeats(all, list);
  }

  lemma {:induction false} UniqueNoRepeats(downloads: seq<Download>)
    requires UniqueHashes(downloads)
    ensures NoRepeats(downloads)
  {
    forall i, j | 0 <= i < j < |downloads|
      ensures downloads[i] != downloads[j]
    {
      assert downloads[i].hash != downloads[j].hash;
    }
  }

  /** Every removal there is, longest-seeded first: one for each cluster with a cleared download. */
  method AllRemovals(downloads: seq<Download>, removable: set<string>) returns (all: seq<Removal>)
    requires UniqueHashes(downloads) && forall d :: d in downloads ==> Printable(d.contentPath)
    ensures AllRight(downloads, removable, all) && SortedBy(all, LongerSeeded)
  {
    UniqueNoRepeats(downloads);
    var clusters := ShareClusters.ShareClusters(downloads);
    forall c | 0 <= c < |clusters|
      ensures forall d :: d in clusters[c] ==> d in downloads
    {
      ClusterDownloads(downloads, clusters, c);
    }
    var made, origin := MakeRemovals(downloads, clusters, removable);
    MadeAllRight(downloads, clusters, removable, made, origin);
    SeededOrder(made);
    all := SortSlice(made, LongerSeeded);
    PermutedAllRight(downloads, removable, made, all);
  }

  /** Which downloads are done seeding and safe to remove, at most limit of them. */
  method PlanRemovals(downloads: seq<Download>, libraryPaths: seq<string>, limit: int) returns (plan: RemovalPlan)
    requires UniqueHashes(downloads) && forall d :: d in downloads ==> Printable(d.contentPath)
    ensures AllRight(downloads, Cleared(downloads, libraryPaths), plan.removals + plan.deferred)
    ensures plan.removals != [] ==> TotalHashes(plan.removals) <= limit
    ensures NoDeferredFits(plan, limit)
    ensures exists all :: SplitByLimit(all, plan, limit)
    ensures HeldBack(downloads, libraryPaths, plan.held)
  {
    var removable, held := FindRemovable(downloads, libraryPaths);
    var all := AllRemovals(downloads, removable);
    plan := LimitPlan(all, held, limit);
    PermutedAllRight(downloads, removable, all, plan.removals + plan.deferred);
    SomeSplit(all, plan, limit);
    assert removable == Cleared(downloads, libraryPaths);
    assert AllRight(downloads, removable, plan.removals + plan.deferred);
  }

  lemma {:induction false} SomeSplit(all: seq<Removal>, plan: RemovalPlan, limit: int)
    requires SplitByLimit(all, plan, limit)
    ensures exists list :: SplitByLimit(list, plan, limit)
  {
  }

  method LimitPlan(all: seq<Removal>, held: seq<HeldRemoval>, limit: int) returns (plan: RemovalPlan)
    requires SortedBy(all, LongerSeeded)
    ensures SplitByLimit(all, plan, limit) && NoDeferredFits(plan, limit) && plan.held == held
    ensures plan.removals != [] ==> TotalHashes(plan.removals) <= limit
  {
    var removals, deferred, chosen := WithinLimit(all, limit);
    plan := RemovalPlan(removals, deferred, held);
  }

  // ----- what the plan promises about files

  /** A removal that deletes files takes every download whose content overlaps what it deletes, and all of
      them were cleared: no file is taken from a download that stays. */
  lemma {:induction false} NoFileTakenFromOthers(downloads: seq<Download>, libraryPaths: seq<string>, r: Removal, d: Download, e: Download)
    requires UniqueHashes(downloads) && Right(downloads, Cleared(downloads, libraryPaths), r) && r.deleteFiles
    requires d in downloads && d.hash in r.hashes && e in downloads && e.contentPath != "" && Overlap(d.contentPath, e.contentPath)
    ensures e.hash in r.hashes && Removable(e, libraryPaths)
  {
    TakenIsShared(downloads, Cleared(downloads, libraryPaths), r, d);
    SharedByOverlap(downloads, r.contentPath, d, e);
    DeletedAreCleared(r, SharedWith(downloads, r.contentPath), Cleared(downloads, libraryPaths), e);
    ClearedExactly(downloads, libraryPaths, e);
  }

  lemma {:induction false} TakenIsShared(downloads: seq<Download>, cleared: set<string>, r: Removal, d: Download)
    requires UniqueHashes(downloads) && Right(downloads, cleared, r) && d in downloads && d.hash in r.hashes
    ensures d in SharedWith(downloads, r.contentPath)
  {
    HashHasDownload(r, SharedWith(downloads, r.contentPath), cleared, d.hash);
    var e :| e in SharedWith(downloads, r.contentPath) && e.hash == d.hash;
    OneDownloadPerHash(downloads, d, e);
  }

  lemma {:induction false} HashHasDownload(r: Removal, group: set<Download>, cleared: set<string>, h: string)
    requires Takes(r, group, cleared) && h in r.hashes
    ensures exists d :: d in group && d.hash == h
  {
  }

  lemma {:induction false} SharedByOverlap(downloads: seq<Download>, path: string, d: Download, e: Download)
    requires d in SharedWith(downloads, path) && e in downloads && e.contentPath != "" && Overlap(d.contentPath, e.contentPath)
    ensures e in SharedWith(downloads, path)
  {
    LinkExtends(ContentPaths(downloads), path, d.contentPath, e.contentPath);
  }

  lemma {:induction false} LinkExtends(paths: set<string>, p: string, q: string, r: string)
    requires Linked(paths, p, q) && r in paths && Overlap(q, r)
    ensures Linked(paths, p, r)
  {
    var chain :| Chain(paths, chain) && chain[0] == p && chain[|chain| - 1] == q;
    var longer := chain + [r];
    assert Chain(paths, longer) && longer[0] == p && longer[|longer| - 1] == r;
  }

  lemma {:induction false} DeletedAreCleared(r: Removal, group: set<Download>, cleared: set<string>, e: Download)
    requires Takes(r, group, cleared) && r.deleteFiles && e in group
    ensures e.hash in cleared && e.hash in r.hashes
  {
  }

  /** Nor does it touch a library item: nothing it removes overlaps a library path. */
  lemma {:induction false} NoLibraryFileTouched(downloads: seq<Download>, libraryPaths: seq<string>, r: Removal, d: Download, l: string)
    requires UniqueHashes(downloads) && Right(downloads, Cleared(downloads, libraryPaths), r)
    requires d in downloads && d.hash in r.hashes && l in libraryPaths && l != ""
    ensures !Overlap(d.contentPath, l) && d.importsConfirmed && d.seeding.met
  {
    TakenIsShared(downloads, Cleared(downloads, libraryPaths), r, d);
    TakenAreCleared(r, SharedWith(downloads, r.contentPath), Cleared(downloads, libraryPaths), d.hash);
    ClearedExactly(downloads, libraryPaths, d);
  }

  lemma {:induction false} TakenAreCleared(r: Removal, group: set<Download>, cleared: set<string>, h: string)
    requires Takes(r, group, cleared) && h in r.hashes
    ensures h in cleared
  {
  }
}
