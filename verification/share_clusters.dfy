/** Downloads grouped by the files they share (internal/torrents). */
module ShareClusters {
  import opened DiskUsage
  import opened Sorting
  import opened PathStrings
  import opened Downloads

  // ----- what sharing means

  /** A chain of paths, each overlapping the next. */
  ghost predicate Chain(paths: set<string>, chain: seq<string>) {
    && chain != [] && (forall i :: 0 <= i < |chain| ==> chain[i] in paths)
    && forall i, j :: 0 <= i && j == i + 1 < |chain| ==> Overlap(chain[i], chain[j])
  }

  /** Two paths are linked when such a chain leads from one to the other. */
  ghost predicate Linked(paths: set<string>, p: string, q: string) {
    exists chain :: Chain(paths, chain) && chain[0] == p && chain[|chain| - 1] == q
  }

  // ----- paths in folder order, with the folders still open

  /** Every path seen so far has an anchor: the outermost path seen that contains it. */
  ghost predicate Anchored(anchor: map<string, string>) {
    forall k :: k in anchor ==> anchor[k] in anchor && anchor[anchor[k]] == anchor[k] && IsUnder(k, anchor[k])
  }

  /** Overlapping paths share their anchor. */
  ghost predicate Together(anchor: map<string, string>) {
    forall a, b :: a in anchor && b in anchor && Overlap(a, b) ==> anchor[a] == anchor[b]
  }

  /** Clusters are numbered by anchor. */
  ghost predicate Numbered(anchor: map<string, string>, clusterOf: map<string, nat>, n: nat) {
    && (forall k :: k in anchor <==> k in clusterOf)
    && (forall k :: k in clusterOf ==> clusterOf[k] < n)
    && forall a, b :: a in anchor && b in anchor && a in clusterOf && b in clusterOf ==> (clusterOf[a] == clusterOf[b] <==> anchor[a] == anchor[b])
  }

  /** The stack holds the open folders, each inside the one below, all of one cluster. */
  ghost predicate OpenFolders(stack: seq<string>, anchor: map<string, string>) {
    && (forall i :: 0 <= i < |stack| ==> stack[i] in anchor && anchor[stack[i]] == stack[0])
    && forall i, j :: 0 <= i <= j < |stack| ==> IsUnder(stack[j], stack[i])
  }

  /** Every path seen that contains a path still to come is on the stack. */
  ghost predicate OpenForRest(keys: seq<string>, i: nat, stack: seq<string>)
    requires i <= |keys|
  {
    forall a, m :: 0 <= a < i <= m < |keys| && IsUnder(keys[m], keys[a]) ==> keys[a] in stack
  }

  ghost predicate InFolderOrder(keys: seq<string>) {
    && NoRepeats(keys) && (forall i :: 0 <= i < |keys| ==> Printable(keys[i]))
    && forall i, j :: 0 <= i < j < |keys| ==> FolderLeq(keys[i], keys[j])
  }

  /** Closing the folders that do not contain the next path keeps every one that does. */
  method CloseFolders(stack: seq<string>, k: string, ghost anchor: map<string, string>) returns (open: seq<string>)
    requires OpenFolders(stack, anchor)
    ensures open <= stack && OpenFolders(open, anchor)
    ensures forall s :: s in stack && IsUnder(k, s) ==> s in open
    ensures open != [] ==> IsUnder(k, open[|open| - 1])
  {
    open := stack;
    while open != [] && !IsUnder(k, open[|open| - 1])
      invariant open <= stack
      invariant forall s :: s in stack && IsUnder(k, s) ==> s in open
    {
      forall s | s in open && IsUnder(k, s)
        ensures s in open[..|open| - 1]
      {
        var a :| 0 <= a < |open| && open[a] == s;
        assert a < |open| - 1;
        assert open[..|open| - 1][a] == s;
      }
      open := open[..|open| - 1];
    }
  }

  /** What an earlier path overlaps of a later one is that it contains it, and then it is open. */
  lemma {:induction false} OverlapIsOpen(keys: seq<string>, i: nat, stack: seq<string>, a: nat)
    requires InFolderOrder(keys) && a < i < |keys| && OpenForRest(keys, i, stack) && Overlap(keys[i], keys[a])
    ensures IsUnder(keys[i], keys[a]) && keys[a] in stack
  {
    if !IsUnder(keys[i], keys[a]) {
      FolderFirst(keys[a], keys[i]);
    }
  }

  /** Folders needed by later paths contain the paths in between, so they stay open. */
  lemma {:induction false} StaysOpen(keys: seq<string>, i: nat, stack: seq<string>, open: seq<string>)
    requires InFolderOrder(keys) && i < |keys| && OpenForRest(keys, i, stack)
    requires forall s :: s in stack && IsUnder(keys[i], s) ==> s in open
    ensures OpenForRest(keys, i + 1, open + [keys[i]])
  {
    forall a, m | 0 <= a < i + 1 <= m < |keys| && IsUnder(keys[m], keys[a])
      ensures keys[a] in open + [keys[i]]
    {
      if a == i {
        assert (open + [keys[i]])[|open|] == keys[i];
      } else {
        FolderContiguous(keys[a], keys[i], keys[m]);
        assert keys[a] in open;
      }
    }
  }

  /** The anchor the next path gets: the outermost open folder, or itself. */
  ghost function AnchorOf(open: seq<string>, k: string): string {
    if open == [] then k else open[0]
  }

  /** Whatever an earlier path shares with the next one, it shares its anchor. */
  lemma {:induction false} OverlapsShareAnchor(keys: seq<string>, i: nat, stack: seq<string>, open: seq<string>, anchor: map<string, string>, b: string)
    requires InFolderOrder(keys) && i < |keys| && OpenForRest(keys, i, stack) && b in keys[..i]
    requires OpenFolders(open, anchor) && (forall s :: s in stack && IsUnder(keys[i], s) ==> s in open)
    requires b in anchor && Overlap(keys[i], b)
    ensures anchor[b] == AnchorOf(open, keys[i])
  {
    var a :| 0 <= a < i && keys[..i][a] == b;
    OverlapIsOpen(keys, i, stack, a);
    assert b in open;
  }

  lemma {:induction false} StaysTogether(keys: seq<string>, i: nat, stack: seq<string>, open: seq<string>, anchor: map<string, string>)
    requires InFolderOrder(keys) && i < |keys| && OpenForRest(keys, i, stack)
    requires Together(anchor) && (forall k :: k in anchor <==> k in keys[..i])
    requires OpenFolders(open, anchor) && (forall s :: s in stack && IsUnder(keys[i], s) ==> s in open)
    ensures Together(anchor[keys[i] := AnchorOf(open, keys[i])])
  {
    var k, r := keys[i], AnchorOf(open, keys[i]);
    forall b | b in anchor && Overlap(k, b)
      ensures anchor[b] == r
    {
      OverlapsShareAnchor(keys, i, stack, open, anchor, b);
    }
    AddTogether(anchor, k, r);
  }

  lemma {:induction false} AddTogether(anchor: map<string, string>, k: string, r: string)
    requires Together(anchor) && forall b :: b in anchor && Overlap(k, b) ==> anchor[b] == r
    requires k !in anchor
    ensures Together(anchor[k := r])
  {
    var next := anchor[k := r];
    forall a, b | a in next && b in next && Overlap(a, b)
      ensures next[a] == next[b]
    {
      assert Overlap(b, a);
    }
  }

  lemma {:induction false} StaysAnchored(open: seq<string>, k: string, anchor: map<string, string>)
    requires Anchored(anchor) && OpenFolders(open, anchor) && k !in anchor && (open != [] ==> IsUnder(k, open[|open| - 1]))
    ensures Anchored(anchor[k := AnchorOf(open, k)])
  {
    if open != [] {
      UnderTransitive(k, open[|open| - 1], open[0]);
    }
  }

  lemma {:induction false} NewCluster(k: string, anchor: map<string, string>, clusterOf: map<string, nat>, n: nat)
    requires (forall b :: b in anchor ==> anchor[b] != k) && Numbered(anchor, clusterOf, n) && k !in anchor
    ensures Numbered(anchor[k := k], clusterOf[k := n], n + 1)
  {
  }

  lemma {:induction false} JoinCluster(k: string, r: string, anchor: map<string, string>, clusterOf: map<string, nat>, n: nat)
    requires Numbered(anchor, clusterOf, n) && k !in anchor && r in anchor && anchor[r] == r
    ensures r in clusterOf && Numbered(anchor[k := r], clusterOf[k := clusterOf[r]], n)
  {
  }

  lemma {:induction false} Opens(open: seq<string>, k: string, anchor: map<string, string>)
    requires OpenFolders(open, anchor) && k !in anchor && (open != [] ==> IsUnder(k, open[|open| - 1]))
    ensures OpenFolders(open + [k], anchor[k := AnchorOf(open, k)])
  {
    var stack := open + [k];
    forall a, b | 0 <= a <= b < |stack|
      ensures IsUnder(stack[b], stack[a])
    {
      if b == |open| && a < |open| {
        UnderTransitive(k, open[|open| - 1], open[a]);
      }
    }
  }

  /** In the end two paths are in one cluster exactly when a chain of overlaps links them. */
  lemma {:induction false} ClustersAreLinks(anchor: map<string, string>, clusterOf: map<string, nat>, n: nat, p: string, q: string)
    requires Anchored(anchor) && Together(anchor) && Numbered(anchor, clusterOf, n) && p in anchor && q in anchor
    ensures p in clusterOf && q in clusterOf && (clusterOf[p] == clusterOf[q] <==> Linked(anchor.Keys, p, q))
  {
    if anchor[p] == anchor[q] {
      SharedAnchorLinks(anchor, p, q);
    }
    if Linked(anchor.Keys, p, q) {
      LinkedSharesAnchor(anchor, p, q);
    }
  }

  lemma {:induction false} SharedAnchorLinks(anchor: map<string, string>, p: string, q: string)
    requires Anchored(anchor) && p in anchor && q in anchor && anchor[p] == anchor[q]
    ensures Linked(anchor.Keys, p, q)
  {
    LinkedThrough(anchor.Keys, p, anchor[p], q);
  }

  lemma {:induction false} LinkedSharesAnchor(anchor: map<string, string>, p: string, q: string)
    requires Together(anchor) && p in anchor && q in anchor && Linked(anchor.Keys, p, q)
    ensures anchor[p] == anchor[q]
  {
    var chain :| Chain(anchor.Keys, chain) && chain[0] == p && chain[|chain| - 1] == q;
    SameAnchorAlong(anchor, chain);
  }

  lemma {:induction false} LinkedThrough(paths: set<string>, p: string, r: string, q: string)
    requires p in paths && r in paths && q in paths && IsUnder(p, r) && IsUnder(q, r)
    ensures Linked(paths, p, q)
  {
    var chain := [p, r, q];
    assert Overlap(chain[0], chain[1]) && Overlap(chain[1], chain[2]);
    assert Chain(paths, chain) && chain[0] == p && chain[|chain| - 1] == q;
  }

  lemma {:induction false} ChainTail(paths: set<string>, chain: seq<string>)
    requires Chain(paths, chain) && |chain| > 1
    ensures Chain(paths, chain[1..]) && Overlap(chain[0], chain[1])
  {
    forall i, j | 0 <= i && j == i + 1 < |chain[1..]|
      ensures Overlap(chain[1..][i], chain[1..][j])
    {
      assert Overlap(chain[i + 1], chain[j + 1]);
    }
  }

  lemma {:induction false} SameAnchorAlong(anchor: map<string, string>, chain: seq<string>)
    requires Together(anchor) && Chain(anchor.Keys, chain)
    ensures chain[0] in anchor && chain[|chain| - 1] in anchor && anchor[chain[0]] == anchor[chain[|chain| - 1]]
    decreases |chain|
  {
    if |chain| > 1 {
      ChainTail(anchor.Keys, chain);
      SameAnchorAlong(anchor, chain[1..]);
    }
  }

  // ----- the clusters themselves

  /** Every path content lies at. Downloads with no content path share nothing. */
  ghost function ContentPaths(downloads: seq<Download>): set<string> {
    set d | d in downloads && d.contentPath != "" :: d.contentPath
  }

  /** Downloads by content path, each path once. */
  ghost predicate ByPath(byPath: map<string, seq<Download>>, keys: seq<string>, downloads: seq<Download>) {
    && NoRepeats(keys) && (forall k :: k in keys <==> k in byPath)
    && (forall k :: k in byPath <==> k in ContentPaths(downloads))
    && (forall k, m :: k in byPath && m in byPath[k] ==> m in downloads && m.contentPath == k)
    && forall d :: d in downloads && d.contentPath in byPath ==> d in byPath[d.contentPath]
  }

  /** No path lists a download twice. */
  ghost predicate EachOnce(byPath: map<string, seq<Download>>) {
    forall k :: k in byPath ==> NoRepeats(byPath[k])
  }

  lemma {:induction false} NoRepeatsJoined<T>(a: seq<T>, b: seq<T>)
    requires NoRepeats(a) && NoRepeats(b) && forall x :: x in a ==> x !in b
    ensures NoRepeats(a + b)
  {
    forall i, j | 0 <= i < j < |a + b|
      ensures (a + b)[i] != (a + b)[j]
    {
      if i < |a| <= j {
        assert a[i] in a && b[j - |a|] in b;
      }
    }
  }

  lemma {:induction false} OneMoreOnce(byPath: map<string, seq<Download>>, keys: seq<string>, downloads: seq<Download>, d: Download)
    requires ByPath(byPath, keys, downloads) && EachOnce(byPath) && d !in downloads
    ensures d.contentPath !in byPath ==> EachOnce(byPath[d.contentPath := [d]])
    ensures d.contentPath in byPath ==> EachOnce(byPath[d.contentPath := byPath[d.contentPath] + [d]])
  {
    if d.contentPath in byPath {
      NoRepeatsJoined(byPath[d.contentPath], [d]);
    }
  }

  lemma {:induction false} OneMorePath(byPath: map<string, seq<Download>>, keys: seq<string>, downloads: seq<Download>, d: Download)
    requires ByPath(byPath, keys, downloads) && d.contentPath != ""
    ensures d.contentPath !in byPath ==> ByPath(byPath[d.contentPath := [d]], keys + [d.contentPath], downloads + [d])
    ensures d.contentPath in byPath ==> ByPath(byPath[d.contentPath := byPath[d.contentPath] + [d]], keys, downloads + [d])
  {
    assert ContentPaths(downloads + [d]) == ContentPaths(downloads) + {d.contentPath};
  }

  /** Adds a download to its path's list. */
  method AddPath(byPath: map<string, seq<Download>>, keys: seq<string>, ghost downloads: seq<Download>, d: Download)
    returns (byPath': map<string, seq<Download>>, keys': seq<string>)
    requires ByPath(byPath, keys, downloads) && EachOnce(byPath) && d !in downloads
    ensures ByPath(byPath', keys', downloads + [d]) && EachOnce(byPath')
  {
    if d.contentPath == "" {
      assert ContentPaths(downloads + [d]) == ContentPaths(downloads);
      return byPath, keys;
    }
    OneMorePath(byPath, keys, downloads, d);
    OneMoreOnce(byPath, keys, downloads, d);
    if d.contentPath !in byPath {
      return byPath[d.contentPath := [d]], keys + [d.contentPath];
    }
    return byPath[d.contentPath := byPath[d.contentPath] + [d]], keys;
  }

  method GroupContent(downloads: seq<Download>) returns (byPath: map<string, seq<Download>>, keys: seq<string>)
    requires NoRepeats(downloads)
    ensures ByPath(byPath, keys, downloads) && EachOnce(byPath)
  {
    byPath, keys := map[], [];
    for i := 0 to |downloads|
      invariant ByPath(byPath, keys, downloads[..i]) && EachOnce(byPath)
    {
      assert downloads[..i + 1] == downloads[..i] + [downloads[i]];
      assert forall j :: 0 <= j < i ==> downloads[j] != downloads[i];
      byPath, keys := AddPath(byPath, keys, downloads[..i], downloads[i]);
    }
    assert downloads[..|downloads|] == downloads;
  }

  /** Every cluster holds exactly the downloads of the paths numbered for it. */
  ghost predicate Filed(downloads: seq<Download>, clusters: seq<seq<Download>>, clusterOf: map<string, nat>) {
    && (forall c, d :: 0 <= c < |clusters| && d in clusters[c] ==> d in downloads && d.contentPath in clusterOf && clusterOf[d.contentPath] == c)
    && forall d :: d in downloads && d.contentPath in clusterOf ==> clusterOf[d.contentPath] < |clusters| && d in clusters[clusterOf[d.contentPath]]
  }

  /** No cluster lists a download twice. */
  ghost predicate NoneTwice(clusters: seq<seq<Download>>) {
    forall c :: 0 <= c < |clusters| ==> NoRepeats(clusters[c])
  }

  /** Files a path's downloads with the outermost open folder's, or as a new cluster. */
  method FileUnder(downloads: seq<Download>, clusters: seq<seq<Download>>, clusterOf: map<string, nat>, k: string, open: seq<string>, members: seq<Download>)
    returns (filed: seq<seq<Download>>, numbers: map<string, nat>)
    requires Filed(downloads, clusters, clusterOf) && NoneTwice(clusters) && k !in clusterOf && (open != [] ==> open[0] in clusterOf && clusterOf[open[0]] < |clusters|)
    requires forall m :: m in members ==> m in downloads && m.contentPath == k
    requires NoRepeats(members) && forall d :: d in downloads && d.contentPath == k ==> d in members
    ensures Filed(downloads, filed, numbers) && NoneTwice(filed)
    ensures open == [] ==> numbers == clusterOf[k := |clusters|] && |filed| == |clusters| + 1
    ensures open != [] ==> numbers == clusterOf[k := clusterOf[open[0]]] && |filed| == |clusters|
  {
    filed := if open == [] then clusters + [[]] else clusters;
    var c := if open == [] then |clusters| else clusterOf[open[0]];
    numbers := clusterOf[k := c];
    NoRepeatsJoined(filed[c], members);
    filed := filed[c := filed[c] + members];
  }

  /** The order shareClusters sorts by is an order. */
  lemma {:induction false} FolderOrder(keys: seq<string>)
    ensures WeakOrder(keys, FolderBefore)
  {
    forall a, b | a in keys && b in keys && FolderBefore(a, b)
      ensures !FolderBefore(b, a)
    {
      LeqTotal(SeparatorFirst(a), SeparatorFirst(b));
    }
    forall a, b, c | a in keys && b in keys && c in keys && !FolderBefore(b, a) && !FolderBefore(c, b)
      ensures !FolderBefore(c, a)
    {
      LeqTransitive(SeparatorFirst(a), SeparatorFirst(b), SeparatorFirst(c));
    }
  }

  method SortFolders(found: seq<string>) returns (keys: seq<string>)
    requires NoRepeats(found) && forall k :: k in found ==> Printable(k)
    ensures InFolderOrder(keys) && forall k :: k in keys <==> k in found
  {
    FolderOrder(found);
    keys := SortSlice(found, FolderBefore);
    SamePermutationMembers(keys, found);
    PermutedNoRepeats(found, keys);
  }

  /** The clusters are exactly the classes of downloads linked by overlapping content. */
  ghost predicate Clusters(downloads: seq<Download>, clusters: seq<seq<Download>>) {
    && (forall c, d :: 0 <= c < |clusters| && d in clusters[c] ==> d in downloads && d.contentPath != "")
    && (forall d :: d in downloads && d.contentPath != "" ==> exists c :: 0 <= c < |clusters| && d in clusters[c])
    && forall b, c, d, e :: 0 <= b < |clusters| && 0 <= c < |clusters| && d in clusters[b] && e in clusters[c] ==>
                              (b == c <==> Linked(ContentPaths(downloads), d.contentPath, e.contentPath))
  }

  /** The loop's facts about the paths placed so far. */
  ghost predicate Placing(keys: seq<string>, i: nat, stack: seq<string>, anchor: map<string, string>, clusterOf: map<string, nat>, n: nat)
    requires i <= |keys|
  {
    && OpenForRest(keys, i, stack) && OpenFolders(stack, anchor)
    && Anchored(anchor) && Together(anchor) && Numbered(anchor, clusterOf, n)
    && forall k :: k in anchor <==> k in keys[..i]
  }

  lemma {:induction false} PlacedOne(keys: seq<string>, i: nat, stack: seq<string>, open: seq<string>, anchor: map<string, string>, clusterOf: map<string, nat>, n: nat)
    requires InFolderOrder(keys) && i < |keys| && Placing(keys, i, stack, anchor, clusterOf, n)
    requires OpenFolders(open, anchor) && (forall s :: s in stack && IsUnder(keys[i], s) ==> s in open)
    requires open != [] ==> IsUnder(keys[i], open[|open| - 1])
    ensures keys[i] !in clusterOf
    ensures open == [] ==> Placing(keys, i + 1, open + [keys[i]], anchor[keys[i] := keys[i]], clusterOf[keys[i] := n], n + 1)
    ensures open != [] ==> open[0] in clusterOf &&
                           Placing(keys, i + 1, open + [keys[i]], anchor[keys[i] := open[0]], clusterOf[keys[i] := clusterOf[open[0]]], n)
  {
    var k := keys[i];
    assert keys[..i + 1] == keys[..i] + [k];
    assert k !in keys[..i];
    StaysOpen(keys, i, stack, open);
    Opens(open, k, anchor);
    StaysAnchored(open, k, anchor);
    StaysTogether(keys, i, stack, open, anchor);
    if open == [] {
      NewCluster(k, anchor, clusterOf, n);
    } else {
      JoinCluster(k, open[0], anchor, clusterOf, n);
    }
  }

  /** Places the next path and files its downloads. */
  method PlaceNext(downloads: seq<Download>, byPath: map<string, seq<Download>>, ghost found: seq<string>, keys: seq<string>, i: nat, stack: seq<string>,
                   clusters: seq<seq<Download>>, clusterOf: map<string, nat>, ghost anchor: map<string, string>)
    returns (stack': seq<string>, clusters': seq<seq<Download>>, clusterOf': map<string, nat>, ghost anchor': map<string, string>)
    requires InFolderOrder(keys) && i < |keys| && keys[i] in byPath
    requires Placing(keys, i, stack, anchor, clusterOf, |clusters|) && Filed(downloads, clusters, clusterOf) && NoneTwice(clusters)
    requires ByPath(byPath, found, downloads) && EachOnce(byPath)
    ensures Placing(keys, i + 1, stack', anchor', clusterOf', |clusters'|) && Filed(downloads, clusters', clusterOf') && NoneTwice(clusters')
  {
    var k := keys[i];
    var open := CloseFolders(stack, k, anchor);
    PlacedOne(keys, i, stack, open, anchor, clusterOf, |clusters|);
    OpenIsNumbered(open, anchor, clusterOf, |clusters|);
    clusters', clusterOf' := FileUnder(downloads, clusters, clusterOf, k, open, byPath[k]);
    anchor' := anchor[k := AnchorOf(open, k)];
    stack' := open + [k];
  }

  lemma {:induction false} OpenIsNumbered(open: seq<string>, anchor: map<string, string>, clusterOf: map<string, nat>, n: nat)
    requires OpenFolders(open, anchor) && Numbered(anchor, clusterOf, n)
    ensures open != [] ==> open[0] in clusterOf && clusterOf[open[0]] < n
  {
  }

  lemma {:induction false} PathsPrintable(downloads: seq<Download>, byPath: map<string, seq<Download>>, found: seq<string>)
    requires ByPath(byPath, found, downloads) && forall d :: d in downloads ==> Printable(d.contentPath)
    ensures forall k :: k in found ==> Printable(k) && k in byPath
  {
  }

  lemma {:induction false} AllPlaced(downloads: seq<Download>, byPath: map<string, seq<Download>>, found: seq<string>, keys: seq<string>, stack: seq<string>, anchor: map<string, string>, clusterOf: map<string, nat>, n: nat)
    requires ByPath(byPath, found, downloads) && (forall k :: k in keys <==> k in found) && Placing(keys, |keys|, stack, anchor, clusterOf, n)
    ensures Anchored(anchor) && Together(anchor) && Numbered(anchor, clusterOf, n) && forall k :: k in anchor <==> k in ContentPaths(downloads)
  {
    assert keys[..|keys|] == keys;
    assert forall k :: k in anchor <==> k in keys;
  }

  /** Groups downloads whose content overlaps: the same path, or one inside another's folder. */
  method ShareClusters(downloads: seq<Download>) returns (clusters: seq<seq<Download>>)
    requires NoRepeats(downloads) && forall d :: d in downloads ==> Printable(d.contentPath)
    ensures Clusters(downloads, clusters) && NoneTwice(clusters)
  {
    var byPath, found := GroupContent(downloads);
    PathsPrintable(downloads, byPath, found);
    var keys := SortFolders(found);
    clusters := [];
    var clusterOf: map<string, nat> := map[];
    var stack: seq<string> := [];
    ghost var anchor: map<string, string> := map[];
    for i := 0 to |keys|
      invariant Placing(keys, i, stack, anchor, clusterOf, |clusters|)
      invariant Filed(downloads, clusters, clusterOf) && NoneTwice(clusters)
    {
      assert keys[i] in keys;
      stack, clusters, clusterOf, anchor := PlaceNext(downloads, byPath, found, keys, i, stack, clusters, clusterOf, anchor);
    }
    AllPlaced(downloads, byPath, found, keys, stack, anchor, clusterOf, |clusters|);
    ClustersExact(downloads, clusters, anchor, clusterOf);
  }

  lemma {:induction false} ClustersExact(downloads: seq<Download>, clusters: seq<seq<Download>>, anchor: map<string, string>, clusterOf: map<string, nat>)
    requires Anchored(anchor) && Together(anchor) && Numbered(anchor, clusterOf, |clusters|)
    requires (forall k :: k in anchor <==> k in ContentPaths(downloads)) && Filed(downloads, clusters, clusterOf)
    ensures Clusters(downloads, clusters)
  {
    forall b, c, d, e | 0 <= b < |clusters| && 0 <= c < |clusters| && d in clusters[b] && e in clusters[c]
      ensures b == c <==> Linked(ContentPaths(downloads), d.contentPath, e.contentPath)
    {
      SameCluster(downloads, clusters, anchor, clusterOf, b, c, d, e);
    }
    InSomeCluster(downloads, clusters, anchor, clusterOf);
  }

  lemma {:induction false} SameCluster(downloads: seq<Download>, clusters: seq<seq<Download>>, anchor: map<string, string>, clusterOf: map<string, nat>, b: nat, c: nat, d: Download, e: Download)
    requires Anchored(anchor) && Together(anchor) && Numbered(anchor, clusterOf, |clusters|)
    requires (forall k :: k in anchor <==> k in ContentPaths(downloads)) && Filed(downloads, clusters, clusterOf)
    requires b < |clusters| && c < |clusters| && d in clusters[b] && e in clusters[c]
    ensures b == c <==> Linked(ContentPaths(downloads), d.contentPath, e.contentPath)
  {
    assert anchor.Keys == ContentPaths(downloads);
    ClustersAreLinks(anchor, clusterOf, |clusters|, d.contentPath, e.contentPath);
  }

  lemma {:induction false} InSomeCluster(downloads: seq<Download>, clusters: seq<seq<Download>>, anchor: map<string, string>, clusterOf: map<string, nat>)
    requires Numbered(anchor, clusterOf, |clusters|) && Filed(downloads, clusters, clusterOf)
    requires forall k :: k in anchor <==> k in ContentPaths(downloads)
    ensures forall c, d :: 0 <= c < |clusters| && d in clusters[c] ==> d in downloads && d.contentPath != ""
    ensures forall d :: d in downloads && d.contentPath != "" ==> exists c :: 0 <= c < |clusters| && d in clusters[c]
  {
    forall c, d | 0 <= c < |clusters| && d in clusters[c]
      ensures d in downloads && d.contentPath != ""
    {
      assert d.contentPath in anchor;
    }
    forall d | d in downloads && d.contentPath != ""
      ensures exists c :: 0 <= c < |clusters| && d in clusters[c]
    {
      assert d.contentPath in ContentPaths(downloads);
      assert d in clusters[clusterOf[d.contentPath]];
    }
  }
}
