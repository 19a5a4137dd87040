/** Which downloads a removal plan takes, told by the downloads themselves (internal/torrents/remove.go). */
module RemovalRules {
  import opened DiskUsage
  import opened Sorting
  import opened PathStrings
  import opened PathNames
  import opened Downloads
  import opened ShareClusters
  import opened Removals

  /** On a downloads tier, seeded for as long as it has to, and finished in qBittorrent. */
  ghost predicate Done(d: Download)
    reads d
  {
    d.tierPath != "" && d.seeding.met && (d.state == Waiting || d.state == Ready || d.state == Held || d.state == Parked)
  }

  /** A library path is the download's, holds it or lies inside it. */
  ghost predicate MeetsLibrary(d: Download, libraryPaths: seq<string>) {
    d.contentPath != "" && exists l :: l in libraryPaths && l != "" && (IsUnder(d.contentPath, l) || IsUnder(l, d.contentPath))
  }

  ghost predicate Qualifies(d: Download, libraryPaths: seq<string>)
    reads d
  {
    Done(d) && d.importsConfirmed && !MeetsLibrary(d, libraryPaths)
  }

  lemma {:induction false} LibraryIs(d: Download, libraryPaths: seq<string>)
    ensures InLibrary(d.contentPath, libraryPaths) <==> MeetsLibrary(d, libraryPaths)
  {
    if InLibrary(d.contentPath, libraryPaths) {
      var l :| l in libraryPaths && l != "" && Overlap(d.contentPath, l);
    }
    if MeetsLibrary(d, libraryPaths) {
      var l :| l in libraryPaths && l != "" && (IsUnder(d.contentPath, l) || IsUnder(l, d.contentPath));
      assert Overlap(d.contentPath, l);
    }
  }

  lemma {:induction false} QualifiesIsRemovable(d: Download, libraryPaths: seq<string>)
    ensures Removable(d, libraryPaths) <==> Qualifies(d, libraryPaths)
    ensures DoneSeeding(d) <==> Done(d)
  {
    LibraryIs(d, libraryPaths);
  }

  /** Every removal of a plan, this run's or put off. */
  ghost predicate PlannedIn(plan: RemovalPlan, r: Removal) {
    r in plan.removals + plan.deferred
  }

  /** What a plan removes is done seeding, confirmed as imported and clear of the library ... */
  lemma {:induction false} PlannedQualify(downloads: seq<Download>, libraryPaths: seq<string>, plan: RemovalPlan, r: Removal, d: Download)
    requires UniqueHashes(downloads) && AllRight(downloads, Cleared(downloads, libraryPaths), plan.removals + plan.deferred)
    requires PlannedIn(plan, r) && d in downloads && d.hash in r.hashes
    ensures Qualifies(d, libraryPaths)
  {
    var cleared := Cleared(downloads, libraryPaths);
    TakenIsShared(downloads, cleared, r, d);
    TakenAreCleared(r, SharedWith(downloads, r.contentPath), cleared, d.hash);
    ClearedExactly(downloads, libraryPaths, d);
    QualifiesIsRemovable(d, libraryPaths);
  }

  /** ... and whatever is that, with files anywhere, is in one of its removals. */
  lemma {:induction false} QualifiedArePlanned(downloads: seq<Download>, libraryPaths: seq<string>, plan: RemovalPlan, d: Download) returns (r: Removal)
    requires UniqueHashes(downloads) && AllRight(downloads, Cleared(downloads, libraryPaths), plan.removals + plan.deferred)
    requires d in downloads && d.contentPath != "" && Qualifies(d, libraryPaths)
    ensures PlannedIn(plan, r) && d.hash in r.hashes
  {
    QualifiesIsRemovable(d, libraryPaths);
    ClearedExactly(downloads, libraryPaths, d);
    r :| r in plan.removals + plan.deferred && d.hash in r.hashes;
  }

  /** What is held back is done seeding and lacks its confirmation, or has it and shares files with the library. */
  lemma {:induction false} HeldExactly(downloads: seq<Download>, libraryPaths: seq<string>, held: seq<HeldRemoval>, name: string, reason: HeldReason)
    requires HeldBack(downloads, libraryPaths, held)
    ensures HeldRemoval(name, reason) in held <==>
            exists d :: d in downloads && d.name == name && Done(d) && (match reason
                                                                        case ImportsNotConfirmed => !d.importsConfirmed
                                                                        case SharedWithLibrary => d.importsConfirmed && MeetsLibrary(d, libraryPaths))
  {
    forall d | d in downloads
      ensures (Removable(d, libraryPaths) <==> Qualifies(d, libraryPaths)) && (DoneSeeding(d) <==> Done(d))
    {
      QualifiesIsRemovable(d, libraryPaths);
    }
  }

  // ----- in what order

  lemma {:induction false} ChosenInOrder(all: seq<Removal>, chosen: seq<seq<Removal>>, limit: int, n: nat)
    requires FirstFit(all, chosen, limit) && SortedBy(all, LongerSeeded) && n <= |all|
    ensures SortedBy(chosen[n], LongerSeeded) && forall r :: r in chosen[n] ==> r in all[..n]
  {
    if n > 0 {
      ChosenInOrder(all, chosen, limit, n - 1);
      assert all[..n] == all[..n - 1] + [all[n - 1]];
      SortedAppend(chosen[n - 1], all, n - 1);
    }
  }

  lemma {:induction false} SortedAppend(s: seq<Removal>, all: seq<Removal>, n: nat)
    requires n < |all| && SortedBy(all, LongerSeeded) && SortedBy(s, LongerSeeded) && forall r :: r in s ==> r in all[..n]
    ensures SortedBy(s + [all[n]], LongerSeeded)
  {
    var next := s + [all[n]];
    forall i, j | 0 <= i < j < |next|
      ensures !LongerSeeded(next[j], next[i])
    {
      if j == |s| {
        assert s[i] in all[..n];
      }
    }
  }

  /** This run's removals go longest-seeded first, and by name where they have seeded alike. */
  lemma {:induction false} LongestSeededFirst(all: seq<Removal>, plan: RemovalPlan, limit: int, i: nat, j: nat)
    requires SplitByLimit(all, plan, limit) && i < j < |plan.removals|
    ensures var r, s := plan.removals[i], plan.removals[j];
            r.seeded > s.seeded || (r.seeded == s.seeded && (r.name == s.name || exists n: nat :: DecidedAt(r.name, s.name, n)))
  {
    var chosen :| FirstFit(all, chosen, limit) && chosen[|all|] == plan.removals;
    ChosenInOrder(all, chosen, limit, |all|);
    var r, s := plan.removals[i], plan.removals[j];
    assert !LongerSeeded(s, r);
    BeforeDecides(r.name, s.name);
    if Leq(s.name, r.name) {
      LeqTotal(r.name, s.name);
      EqualOrBefore(r.name, s.name);
    }
  }

  lemma {:induction false} EqualOrBefore(a: string, b: string)
    ensures a == b || Before(a, b) || Before(b, a)
  {
    if Leq(a, b) && Leq(b, a) {
      LeqAntisymmetric(a, b);
    }
  }
}
