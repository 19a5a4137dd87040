/** Which ready downloads are held back because something overlapping them is not ready to go along
    (internal/torrents). */
module HoldGroups {
  import opened DiskUsage
  import opened Sorting
  import opened PathStrings
  import opened Downloads

  /** Downloads by content path: each located one under its own. */
  ghost predicate Grouped(groups: map<string, seq<Download>>, downloads: seq<Download>) {
    && (forall k, m :: k in groups && m in groups[k] ==> m in downloads && m.Located() && m.contentPath == k)
    && (forall k :: k in groups ==> groups[k] != [])
    && forall d :: d in downloads && d.Located() ==> d.contentPath in groups && d in groups[d.contentPath]
  }

  method GroupByPath(downloads: seq<Download>) returns (groups: map<string, seq<Download>>)
    ensures Grouped(groups, downloads)
  {
    groups := map[];
    for i := 0 to |downloads|
      invariant Grouped(groups, downloads[..i])
    {
      var d := downloads[i];
      assert downloads[..i + 1] == downloads[..i] + [d];
      if d.tierPath == "" || d.contentPath == "" {
        continue;
      }
      var before := if d.contentPath in groups then groups[d.contentPath] else [];
      groups := groups[d.contentPath := before + [d]];
    }
    assert downloads[..|downloads|] == downloads;
  }

  lemma {:induction false} BeforeIsOrder(keys: seq<string>)
    ensures WeakOrder(keys, Before)
  {
    forall a, b | a in keys && b in keys && Before(a, b)
      ensures !Before(b, a)
    {
      LeqTotal(a, b);
    }
    forall a, b, c | a in keys && b in keys && c in keys && !Before(b, a) && !Before(c, b)
      ensures !Before(c, a)
    {
      LeqTransitive(a, b, c);
    }
  }

  /** The group paths, in string order. */
  method SortedKeys(groups: map<string, seq<Download>>) returns (keys: seq<string>)
    ensures NoRepeats(keys) && (forall k :: k in keys <==> k in groups)
    ensures forall i, j :: 0 <= i < j < |keys| ==> Leq(keys[i], keys[j])
  {
    var found: seq<string> := [];
    var left := groups.Keys;
    while left != {}
      invariant left <= groups.Keys && NoRepeats(found)
      invariant forall k :: k in found <==> k in groups && k !in left
    {
      var k :| k in left;
      left := left - {k};
      found := found + [k];
    }
    BeforeIsOrder(found);
    keys := SortSlice(found, Before);
    SamePermutationMembers(keys, found);
    PermutedNoRepeats(found, keys);
  }

  /** Marks ready members held. */
  method HoldAll(members: seq<Download>)
    modifies set m | m in members
    ensures forall m :: m in members ==> m.state == if old(m.state) == Ready then Held else old(m.state)
  {
    for i := 0 to |members|
      invariant forall m :: m in members ==> m.state == if m in members[..i] && old(m.state) == Ready then Held else old(m.state)
    {
      assert members[..i + 1] == members[..i] + [members[i]];
      if members[i].state == Ready {
        members[i].state := Held;
      }
    }
    assert members[..|members|] == members;
  }

  /** Every download of a nested pair sits next to another path it overlaps. */
  ghost predicate Nested(keys: seq<string>, k: string) {
    exists q :: q in keys && q != k && Overlap(k, q)
  }

  /** The nested paths among the pairs the double loop has compared: every pair up to outer index i, and
      with keys[i] those up to inner index j. */
  ghost predicate NestedSofar(keys: seq<string>, nested: set<string>, i: nat, j: nat) {
    && (forall k :: k in nested ==> k in keys && Nested(keys, k))
    && forall a, b :: 0 <= a < b < |keys| && (a < i || (a == i && b < j)) && IsUnder(keys[b], keys[a]) ==> keys[a] in nested && keys[b] in nested
  }

  /** Once a key no longer starts with the outer path, no later one does: the early break misses nothing. */
  lemma {:induction false} BreakMissesNothing(keys: seq<string>, i: nat, j: nat, b: nat)
    requires i < j <= b < |keys| && (forall x, y :: 0 <= x < y < |keys| ==> Leq(keys[x], keys[y]))
    requires !(keys[i] <= keys[j])
    ensures !IsUnder(keys[b], keys[i])
  {
    if IsUnder(keys[b], keys[i]) {
      UnderIsPrefix(keys[b], keys[i]);
      if j < b {
        Between(keys[i], keys[j], keys[b]);
      }
    }
  }

  /** Overlapping paths are found with the folder first, so comparing forwards finds every pair. */
  lemma {:induction false} NestedIsForward(keys: seq<string>, nested: set<string>, k: string)
    requires NoRepeats(keys) && (forall x, y :: 0 <= x < y < |keys| ==> Leq(keys[x], keys[y]))
    requires NestedSofar(keys, nested, |keys|, 0) && k in keys
    ensures k in nested <==> Nested(keys, k)
  {
    if Nested(keys, k) {
      var q :| q in keys && q != k && Overlap(k, q);
      var a :| 0 <= a < |keys| && keys[a] == k;
      var b :| 0 <= b < |keys| && keys[b] == q;
      if IsUnder(k, q) {
        FolderIsEarlier(keys, b, a);
      } else {
        FolderIsEarlier(keys, a, b);
      }
    }
  }

  lemma {:induction false} FolderIsEarlier(keys: seq<string>, a: nat, b: nat)
    requires a < |keys| && b < |keys| && keys[a] != keys[b] && IsUnder(keys[b], keys[a])
    requires forall x, y :: 0 <= x < y < |keys| ==> Leq(keys[x], keys[y])
    ensures a < b
  {
    UnderIsPrefix(keys[b], keys[a]);
    PrefixLeq(keys[a], keys[b]);
    if b < a {
      LeqAntisymmetric(keys[a], keys[b]);
    }
  }

  /** The states before holdGroups began. */
  ghost function States(downloads: seq<Download>): map<Download, DownloadState>
    reads set d | d in downloads
  {
    map d | d in downloads :: d.state
  }

  /** The same states, but for every ready download on a path in held, which is held. */
  ghost predicate Marked(downloads: seq<Download>, was: map<Download, DownloadState>, held: set<string>)
    reads set d | d in downloads
  {
    forall d :: d in downloads ==>
                  && d in was
                  && d.state == if was[d] == Ready && d.Located() && d.contentPath in held then Held else was[d]
  }

  /** Holds one group, on top of those already held. */
  method HoldGroup(downloads: seq<Download>, groups: map<string, seq<Download>>, k: string, ghost was: map<Download, DownloadState>, ghost held: set<string>)
    requires Grouped(groups, downloads) && k in groups && Marked(downloads, was, held)
    modifies set d | d in downloads
    ensures Marked(downloads, was, held + {k})
  {
    HoldAll(groups[k]);
  }

  /** Compares one outer path with those after it, until the prefix stops matching. */
  method HoldUnder(downloads: seq<Download>, groups: map<string, seq<Download>>, keys: seq<string>, i: nat,
                   ghost was: map<Download, DownloadState>, ghost held: set<string>) returns (ghost nested: set<string>)
    requires Grouped(groups, downloads) && NoRepeats(keys) && (forall k :: k in keys <==> k in groups) && i < |keys|
    requires forall a, b :: 0 <= a < b < |keys| ==> Leq(keys[a], keys[b])
    requires Marked(downloads, was, held) && NestedSofar(keys, held, i, 0)
    modifies set d | d in downloads
    ensures Marked(downloads, was, nested) && NestedSofar(keys, nested, i + 1, 0)
  {
    var outer := keys[i];
    nested := held;
    var j := i + 1;
    while j < |keys|
      invariant i < j <= |keys|
      invariant NestedSofar(keys, nested, i, j)
      invariant Marked(downloads, was, nested)
    {
      var inner := keys[j];
      if !(outer <= inner) {
        break;
      }
      if IsUnder(inner, outer) {
        HoldPair(downloads, groups, outer, inner, was, nested);
        MoreNested(keys, nested, i, j);
        nested := nested + {outer} + {inner};
      } else {
        NotNested(keys, nested, i, j);
      }
      j := j + 1;
    }
    RowDone(keys, nested, i, j);
  }

  /** Holds both groups of a nested pair. */
  method HoldPair(downloads: seq<Download>, groups: map<string, seq<Download>>, outer: string, inner: string, ghost was: map<Download, DownloadState>, ghost held: set<string>)
    requires Grouped(groups, downloads) && outer in groups && inner in groups && Marked(downloads, was, held)
    modifies set d | d in downloads
    ensures Marked(downloads, was, held + {outer} + {inner})
  {
    HoldGroup(downloads, groups, outer, was, held);
    HoldGroup(downloads, groups, inner, was, held + {outer});
  }

  lemma {:induction false} NotNested(keys: seq<string>, nested: set<string>, i: nat, j: nat)
    requires i < j < |keys| && NestedSofar(keys, nested, i, j) && !IsUnder(keys[j], keys[i])
    ensures NestedSofar(keys, nested, i, j + 1)
  {
  }

  /** Once the prefix stops matching, or at the end, the outer path has been compared with all it contains. */
  lemma {:induction false} RowDone(keys: seq<string>, nested: set<string>, i: nat, j: nat)
    requires i < j <= |keys| && NestedSofar(keys, nested, i, j) && (j < |keys| ==> !(keys[i] <= keys[j]))
    requires forall x, y :: 0 <= x < y < |keys| ==> Leq(keys[x], keys[y])
    ensures NestedSofar(keys, nested, i + 1, 0)
  {
    forall b: nat | j <= b < |keys|
      ensures !IsUnder(keys[b], keys[i])
    {
      BreakMissesNothing(keys, i, j, b);
    }
  }

  lemma {:induction false} MoreNested(keys: seq<string>, nested: set<string>, i: nat, j: nat)
    requires i < j < |keys| && NoRepeats(keys) && NestedSofar(keys, nested, i, j) && IsUnder(keys[j], keys[i])
    ensures NestedSofar(keys, nested + {keys[i]} + {keys[j]}, i, j + 1)
  {
    assert Overlap(keys[i], keys[j]) && Overlap(keys[j], keys[i]);
    assert keys[i] in keys && keys[j] in keys && keys[i] != keys[j];
    forall k | k in nested + {keys[i]} + {keys[j]}
      ensures k in keys && Nested(keys, k)
    {
      if k == keys[i] {
        assert Overlap(k, keys[j]);
      } else if k == keys[j] {
        assert Overlap(k, keys[i]);
      }
    }
  }

  /** A group is held when any of its members is not ready. */
  ghost predicate Blocked(groups: map<string, seq<Download>>, was: map<Download, DownloadState>, k: string)
  {
    k in groups && exists m :: m in groups[k] && m in was && was[m] != Ready
  }

  /** Holds a whole group back when one of its members is. */
  method HoldWithBlocker(downloads: seq<Download>, groups: map<string, seq<Download>>, k: string, ghost was: map<Download, DownloadState>, ghost held: set<string>)
    requires Grouped(groups, downloads) && k in groups && Marked(downloads, was, held)
    modifies set d | d in downloads
    ensures Marked(downloads, was, if Blocked(groups, was, k) then held + {k} else held)
  {
    var members := groups[k];
    assert members[0] in members;
    if |members| < 2 {
      return;
    }
    var i := 0;
    while i < |members| && members[i].state == Ready
      invariant i <= |members| && forall j :: 0 <= j < i ==> members[j].state == Ready
    {
      i := i + 1;
    }
    if i == |members| {
      return;
    }
    HoldAll(members);
  }

  /** Nothing it shares files with stands in the way of moving it: every located download whose content
      overlaps has the same content path and is ready. */
  ghost predicate Clear(downloads: seq<Download>, was: map<Download, DownloadState>, d: Download) {
    forall e :: e in downloads && e in was && e.Located() && Overlap(d.contentPath, e.contentPath) ==>
      e.contentPath == d.contentPath && was[e] == Ready
  }

  /** The cross-seed rule. Exactly the ready downloads that are clear stay ready; the others are held and
      nothing else changes. */
  method HoldGroups(downloads: seq<Download>)
    modifies set d | d in downloads
    ensures forall d :: d in downloads ==>
              d.state == if old(d.state) == Ready && d.Located() && !old(Clear(downloads, States(downloads), d)) then Held else old(d.state)
    ensures forall d, e :: d in downloads && e in downloads && d.state == Ready && d.Located() && e.Located() && Overlap(d.contentPath, e.contentPath) ==>
                             e.contentPath == d.contentPath && e.state == Ready
  {
    ghost var was := States(downloads);
    var groups := GroupByPath(downloads);
    var keys := SortedKeys(groups);
    ghost var held: set<string> := {};
    for i := 0 to |keys|
      invariant Marked(downloads, was, held) && NestedSofar(keys, held, i, 0)
    {
      held := HoldUnder(downloads, groups, keys, i, was, held);
    }
    ghost var nested := held;
    var left := groups.Keys;
    while left != {}
      invariant left <= groups.Keys && Marked(downloads, was, held)
      invariant forall k :: k in held <==> k in nested || (k in groups && k !in left && Blocked(groups, was, k))
    {
      var k :| k in left;
      left := left - {k};
      HoldWithBlocker(downloads, groups, k, was, held);
      held := if Blocked(groups, was, k) then held + {k} else held;
    }
    forall d | d in downloads && d.Located()
      ensures d.contentPath in held <==> !Clear(downloads, was, d)
    {
      NestedIsForward(keys, nested, d.contentPath);
      HeldIsUnclear(downloads, groups, keys, was, d);
    }
    forall d, e | d in downloads && e in downloads && d.state == Ready && d.Located() && e.Located() && Overlap(d.contentPath, e.contentPath)
      ensures e.contentPath == d.contentPath && e.state == Ready
    {
      GroupsStayTogether(downloads, was, d, e);
    }
  }

  /** A path is held for being nested or for a blocked group exactly when its downloads are not clear. */
  lemma {:induction false} HeldIsUnclear(downloads: seq<Download>, groups: map<string, seq<Download>>, keys: seq<string>, was: map<Download, DownloadState>, d: Download)
    requires Grouped(groups, downloads) && (forall k :: k in keys <==> k in groups) && d in downloads && d.Located()
    requires forall e :: e in downloads ==> e in was
    ensures Nested(keys, d.contentPath) || Blocked(groups, was, d.contentPath) <==> !Clear(downloads, was, d)
  {
    if Nested(keys, d.contentPath) {
      var q :| q in keys && q != d.contentPath && Overlap(d.contentPath, q);
      var e := groups[q][0];
      assert e in groups[q];
      assert e in downloads && e in was && e.Located() && Overlap(d.contentPath, e.contentPath);
    }
    if Blocked(groups, was, d.contentPath) {
      var m :| m in groups[d.contentPath] && was[m] != Ready;
      assert m in downloads && m in was && m.Located() && Overlap(d.contentPath, m.contentPath);
    }
    if !Clear(downloads, was, d) {
      var e :| e in downloads && e.Located() && Overlap(d.contentPath, e.contentPath) && !(e.contentPath == d.contentPath && was[e] == Ready);
      assert e.contentPath in groups && e in groups[e.contentPath];
      if e.contentPath == d.contentPath {
        assert Blocked(groups, was, d.contentPath);
      } else {
        assert e.contentPath in keys;
        assert Nested(keys, d.contentPath);
      }
    }
  }

  /** What planning relies on: a located download that stays ready leaves every download it shares files
      with at the same content path and ready too. */
  lemma {:induction false} GroupsStayTogether(downloads: seq<Download>, was: map<Download, DownloadState>, d: Download, e: Download)
    requires d in downloads && e in downloads && d.Located() && e.Located() && (forall x :: x in downloads ==> x in was)
    requires Clear(downloads, was, d) && Overlap(d.contentPath, e.contentPath)
    ensures e.contentPath == d.contentPath && was[e] == Ready && Clear(downloads, was, e)
  {
  }
}
