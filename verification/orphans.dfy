/** Finding what nothing claims on disk (internal/orphans). Paths are lists of names from the root. */
module Orphans {
  import opened PlannerModel

  type Place = seq<string>

  // ----- the folders above known paths

  /** The strict ancestors of known paths, below the root. */
  ghost function StrictAncestors(known: set<Place>): set<Place> {
    set p, k | p in known && 0 < k < |p| :: p[..k]
  }

  /** Whatever is registered, everything above it is too. */
  ghost predicate UpwardClosed(dirs: set<Place>) {
    forall d, k :: d in dirs && 0 < k < |d| ==> d[..k] in dirs
  }

  /** Registers the folders above one path, going up until one that is registered already. */
  method AddAncestors(path: Place, before: set<Place>) returns (ancestors: set<Place>)
    requires UpwardClosed(before)
    ensures UpwardClosed(ancestors)
    ensures forall d :: d in ancestors <==> d in before || exists k :: 0 < k < |path| && d == path[..k]
  {
    ancestors := before;
    var dir := if path == [] then path else path[..|path| - 1];
    while dir != []
      invariant |dir| < |path| || dir == []
      invariant dir == path[..|dir|]
      invariant forall d :: d in ancestors <==> d in before || exists k :: |dir| < k < |path| && d == path[..k]
    {
      if dir in ancestors {
        AllAbove(path, dir, before, ancestors);
        break;
      }
      ancestors := ancestors + {dir};
      assert path[..|dir|][..|dir| - 1] == path[..|dir| - 1];
      dir := dir[..|dir| - 1];
    }
    forall d, k | d in ancestors && 0 < k < |d|
      ensures d[..k] in ancestors
    {
      if d !in before {
        var j :| 0 < j < |path| && d == path[..j];
        assert d[..k] == path[..k];
      }
    }
  }

  /** Stopping at a registered folder leaves nothing out: everything above it is registered. */
  lemma {:induction false} AllAbove(path: Place, dir: Place, before: set<Place>, ancestors: set<Place>)
    requires UpwardClosed(before) && 0 < |dir| < |path| && dir == path[..|dir|] && dir in ancestors
    requires forall d :: d in ancestors <==> d in before || exists k :: |dir| < k < |path| && d == path[..k]
    ensures forall d :: d in ancestors <==> d in before || exists k :: 0 < k < |path| && d == path[..k]
  {
    forall k | 0 < k <= |dir|
      ensures path[..k] in before
    {
      assert forall j :: |dir| < j < |path| ==> |path[..j]| == j;
      assert dir in before;
      assert path[..k] == dir[..k];
      assert k < |dir| ==> dir[..k] in before;
    }
  }

  method AncestorDirs(known: set<Place>) returns (ancestors: set<Place>)
    ensures ancestors == StrictAncestors(known)
  {
    ancestors := {};
    var left := known;
    while left != {}
      invariant left <= known && UpwardClosed(ancestors)
      invariant forall d :: d in ancestors <==> exists p, k :: p in known && p !in left && 0 < k < |p| && d == p[..k]
    {
      var path :| path in left;
      var before := ancestors;
      ancestors := AddAncestors(path, before);
      left := left - {path};
    }
  }

  // ----- a directory tree

  /** A folder, a file, or a folder that cannot be read. Links count as files. */
  datatype Node = File(size: nat) | Folder(entries: seq<Entry>) | Unreadable

  datatype Entry = Entry(name: string, node: Node)

  /** A candidate orphan: one entry nothing claims, with all that is inside it. */
  datatype Candidate = Candidate(path: Place, size: nat, isFile: bool)

  predicate IsDir(node: Node) {
    !node.File?
  }

  function SizeOfAll(entries: seq<Entry>): Option<nat> {
    if entries == [] then Some(0)
    else
      match (SizeOf(entries[0].node), SizeOfAll(entries[1..]))
      case (Some(a), Some(b)) => Some(a + b)
      case _ => None
  }

  /** The size of every file at or under a node. */
  function SizeOf(node: Node): Option<nat> {
    match node
    case File(size) => Some(size)
    case Folder(entries) => SizeOfAll(entries)
    case Unreadable => None
  }

  function Joined(a: Option<seq<Candidate>>, b: Option<seq<Candidate>>): Option<seq<Candidate>> {
    if a.Some? && b.Some? then Some(a.value + b.value) else None
  }

  /** Which entries a scan leaves alone, which folders it looks into, and whether it judges files. */
  datatype Rules = Rules(skip: Place -> bool, descend: Place -> bool, files: bool)

  function ScanEntry(child: Place, node: Node, rules: Rules): Option<seq<Candidate>>
    decreases node, 0
  {
    if (!IsDir(node) && !rules.files) || rules.skip(child) then Some([])
    else if IsDir(node) && rules.descend(child) then if node.Unreadable? then None else Scan(child, node.entries, rules)
    else if SizeOf(node).Some? then Some([Candidate(child, SizeOf(node).value, !IsDir(node))])
    else None
  }

  /** Walks a folder, entry by entry. */
  function Scan(path: Place, entries: seq<Entry>, rules: Rules): Option<seq<Candidate>>
    decreases entries, 1
  {
    if entries == [] then Some([])
    else Joined(ScanEntry(path + [entries[0].name], entries[0].node, rules), Scan(path, entries[1..], rules))
  }

  // ----- exactly what a scan lists

  predicate DistinctNames(entries: seq<Entry>) {
    forall i, j :: 0 <= i < j < |entries| ==> entries[i].name != entries[j].name
  }

  /** No folder holds two entries of one name. */
  predicate WellNamed(entries: seq<Entry>)
    decreases entries, 1
  {
    DistinctNames(entries) && WellNamedBelow(entries)
  }

  predicate WellNamedBelow(entries: seq<Entry>)
    decreases entries, 0
  {
    entries == [] || ((entries[0].node.Folder? ==> WellNamed(entries[0].node.entries)) && WellNamedBelow(entries[1..]))
  }

  /** The entry of that name. */
  function Find(entries: seq<Entry>, name: string): (found: Option<Node>)
    ensures found.Some? ==> exists i :: 0 <= i < |entries| && entries[i] == Entry(name, found.value)
  {
    if entries == [] then None
    else if entries[0].name == name then Some(entries[0].node)
    else
      var rest := Find(entries[1..], name);
      assert rest.Some? ==> forall i :: 0 <= i < |entries[1..]| ==> entries[1..][i] == entries[i + 1];
      rest
  }

  /** What lies at a path below a folder. */
  function NodeAt(entries: seq<Entry>, rel: Place): Option<Node>
    requires rel != []
    decreases |rel|
  {
    var here := Find(entries, rel[0]);
    if |rel| == 1 then here
    else if here.Some? && here.value.Folder? then NodeAt(here.value.entries, rel[1..])
    else None
  }

  /** A scan looks into every folder on the way to rel, and no further than there. */
  ghost predicate LooksInto(path: Place, rel: Place, rules: Rules) {
    forall k :: 0 < k < |rel| ==> !rules.skip(path + rel[..k]) && rules.descend(path + rel[..k])
  }

  /** The entry at rel is one the scan judges and finds nothing to say for. */
  ghost predicate Listed(path: Place, entries: seq<Entry>, rules: Rules, rel: Place) {
    && rel != [] && NodeAt(entries, rel).Some?
    && var node := NodeAt(entries, rel).value;
       && (IsDir(node) || rules.files) && !rules.skip(path + rel) && !(IsDir(node) && rules.descend(path + rel))
       && LooksInto(path, rel, rules)
  }

  ghost predicate IsCandidate(path: Place, entries: seq<Entry>, rel: Place, c: Candidate) {
    rel != [] && NodeAt(entries, rel).Some? && SizeOf(NodeAt(entries, rel).value).Some? &&
    c == Candidate(path + rel, SizeOf(NodeAt(entries, rel).value).value, !IsDir(NodeAt(entries, rel).value))
  }

  /** A scan's result is sound: every candidate is a listed entry, with its size. */
  ghost predicate OnlyListed(path: Place, entries: seq<Entry>, rules: Rules, found: seq<Candidate>) {
    forall c :: c in found ==> exists rel :: Listed(path, entries, rules, rel) && IsCandidate(path, entries, rel, c)
  }

  /** And complete: every listed entry is a candidate. */
  ghost predicate AllListed(path: Place, entries: seq<Entry>, rules: Rules, found: seq<Candidate>) {
    forall rel :: Listed(path, entries, rules, rel) ==> exists c :: c in found && IsCandidate(path, entries, rel, c)
  }

  /** What is listed at or below the first entry. */
  lemma {:induction false} FirstListed(path: Place, entries: seq<Entry>, rules: Rules, rel: Place)
    requires entries != [] && rel != [] && rel[0] == entries[0].name
    ensures var child, node := path + [entries[0].name], entries[0].node;
            Listed(path, entries, rules, rel) <==>
            if |rel| == 1 then (IsDir(node) || rules.files) && !rules.skip(child) && !(IsDir(node) && rules.descend(child))
            else node.Folder? && !rules.skip(child) && rules.descend(child) && Listed(child, node.entries, rules, rel[1..])
  {
    var child, node := path + [entries[0].name], entries[0].node;
    assert Find(entries, rel[0]) == Some(node);
    if |rel| == 1 {
      assert path + rel == child;
    } else {
      assert path + rel == child + rel[1..];
      BelowFirst(path, rel, rules);
    }
  }

  lemma {:induction false} BelowFirst(path: Place, rel: Place, rules: Rules)
    requires |rel| > 1
    ensures LooksInto(path, rel, rules) <==>
            !rules.skip(path + [rel[0]]) && rules.descend(path + [rel[0]]) && LooksInto(path + [rel[0]], rel[1..], rules)
  {
    var child := path + [rel[0]];
    assert rel[..1] == [rel[0]];
    forall k | 0 < k < |rel[1..]|
      ensures child + rel[1..][..k] == path + rel[..k + 1]
    {
      assert rel[..k + 1] == [rel[0]] + rel[1..][..k];
    }
    if LooksInto(child, rel[1..], rules) && !rules.skip(child) && rules.descend(child) {
      forall k | 0 < k < |rel|
        ensures !rules.skip(path + rel[..k]) && rules.descend(path + rel[..k])
      {
        if k > 1 {
          assert child + rel[1..][..k - 1] == path + rel[..k];
        }
      }
    }
    if LooksInto(path, rel, rules) {
      assert path + rel[..1] == child;
      forall k | 0 < k < |rel[1..]|
        ensures !rules.skip(child + rel[1..][..k]) && rules.descend(child + rel[1..][..k])
      {
        assert child + rel[1..][..k] == path + rel[..k + 1];
      }
    }
  }

  lemma {:induction false} RestListed(path: Place, entries: seq<Entry>, rules: Rules, rel: Place, c: Candidate)
    requires entries != [] && rel != [] && rel[0] != entries[0].name
    ensures Listed(path, entries, rules, rel) <==> Listed(path, entries[1..], rules, rel)
    ensures IsCandidate(path, entries, rel, c) <==> IsCandidate(path, entries[1..], rel, c)
  {
    assert Find(entries, rel[0]) == Find(entries[1..], rel[0]);
    assert NodeAt(entries, rel) == NodeAt(entries[1..], rel);
  }

  lemma {:induction false} NameInRest(entries: seq<Entry>, rel: Place)
    requires entries != [] && DistinctNames(entries) && rel != [] && NodeAt(entries[1..], rel).Some?
    ensures rel[0] != entries[0].name
  {
    var i :| 0 <= i < |entries[1..]| && entries[1..][i].name == rel[0];
    assert entries[i + 1].name == rel[0];
  }

  /** A candidate inside the first entry is one inside the folder. */
  lemma {:induction false} InsideFirst(path: Place, entries: seq<Entry>, rel: Place, c: Candidate)
    requires entries != [] && rel != [] && entries[0].node.Folder? && IsCandidate(path + [entries[0].name], entries[0].node.entries, rel, c)
    ensures IsCandidate(path, entries, [entries[0].name] + rel, c)
  {
    var whole := [entries[0].name] + rel;
    assert whole[1..] == rel && whole[0] == entries[0].name;
    assert path + whole == path + [entries[0].name] + rel;
    assert Find(entries, whole[0]) == Some(entries[0].node);
  }

  lemma {:induction false} OutsideFirst(path: Place, entries: seq<Entry>, rel: Place, c: Candidate)
    requires entries != [] && |rel| > 1 && rel[0] == entries[0].name && entries[0].node.Folder?
    requires IsCandidate(path + [entries[0].name], entries[0].node.entries, rel[1..], c)
    ensures IsCandidate(path, entries, rel, c)
  {
    InsideFirst(path, entries, rel[1..], c);
    assert [entries[0].name] + rel[1..] == rel;
  }

  lemma {:induction false} HereSound(path: Place, entries: seq<Entry>, rules: Rules, c: Candidate)
    requires entries != [] && ScanEntry(path + [entries[0].name], entries[0].node, rules).Some?
    requires c in ScanEntry(path + [entries[0].name], entries[0].node, rules).value
    requires var e := entries[0];
             e.node.Folder? && rules.descend(path + [e.name]) && !rules.skip(path + [e.name]) ==>
               OnlyListed(path + [e.name], e.node.entries, rules, ScanEntry(path + [e.name], e.node, rules).value)
    ensures exists rel :: Listed(path, entries, rules, rel) && IsCandidate(path, entries, rel, c)
  {
    var child, node := path + [entries[0].name], entries[0].node;
    if IsDir(node) && rules.descend(child) {
      var rel :| Listed(child, node.entries, rules, rel) && IsCandidate(child, node.entries, rel, c);
      InsideFirst(path, entries, rel, c);
      var whole := [entries[0].name] + rel;
      assert whole[1..] == rel;
      FirstListed(path, entries, rules, whole);
    } else {
      var rel := [entries[0].name];
      FirstListed(path, entries, rules, rel);
      assert Find(entries, rel[0]) == Some(node) && path + rel == child;
      assert IsCandidate(path, entries, rel, c);
    }
  }

  lemma {:induction false} HereComplete(path: Place, entries: seq<Entry>, rules: Rules, rel: Place)
    requires entries != [] && ScanEntry(path + [entries[0].name], entries[0].node, rules).Some?
    requires Listed(path, entries, rules, rel) && rel[0] == entries[0].name
    requires var e := entries[0];
             e.node.Folder? && rules.descend(path + [e.name]) && !rules.skip(path + [e.name]) ==>
               AllListed(path + [e.name], e.node.entries, rules, ScanEntry(path + [e.name], e.node, rules).value)
    ensures exists c :: c in ScanEntry(path + [entries[0].name], entries[0].node, rules).value && IsCandidate(path, entries, rel, c)
  {
    var child, node := path + [entries[0].name], entries[0].node;
    FirstListed(path, entries, rules, rel);
    if |rel| == 1 {
      assert Find(entries, rel[0]) == Some(node) && path + rel == child;
      assert IsCandidate(path, entries, rel, Candidate(child, SizeOf(node).value, !IsDir(node)));
    } else {
      var c :| c in ScanEntry(child, node, rules).value && IsCandidate(child, node.entries, rel[1..], c);
      OutsideFirst(path, entries, rel, c);
    }
  }

  /** The scan lists exactly the entries it should, with their sizes. */
  lemma {:induction false} ScanExact(path: Place, entries: seq<Entry>, rules: Rules)
    requires WellNamed(entries) && Scan(path, entries, rules).Some?
    ensures OnlyListed(path, entries, rules, Scan(path, entries, rules).value)
    ensures AllListed(path, entries, rules, Scan(path, entries, rules).value)
    decreases entries
  {
    if entries != [] {
      var e := entries[0];
      var child := path + [e.name];
      RestWellNamed(entries);
      ScanExact(path, entries[1..], rules);
      if e.node.Folder? && rules.descend(child) && !rules.skip(child) {
        ScanExact(child, e.node.entries, rules);
      }
      SoundTogether(path, entries, rules);
      CompleteTogether(path, entries, rules);
    }
  }

  lemma {:induction false} RestWellNamed(entries: seq<Entry>)
    requires entries != [] && WellNamed(entries)
    ensures WellNamed(entries[1..]) && (entries[0].node.Folder? ==> WellNamed(entries[0].node.entries))
  {
  }

  /** The folders a scan goes into below the first entry. */
  ghost predicate Within(path: Place, entries: seq<Entry>, rules: Rules)
    requires entries != []
  {
    var e := entries[0];
    e.node.Folder? && rules.descend(path + [e.name]) && !rules.skip(path + [e.name])
  }

  lemma {:induction false} SoundTogether(path: Place, entries: seq<Entry>, rules: Rules)
    requires entries != [] && DistinctNames(entries) && Scan(path, entries, rules).Some?
    requires OnlyListed(path, entries[1..], rules, Scan(path, entries[1..], rules).value)
    requires Within(path, entries, rules) ==> OnlyListed(path + [entries[0].name], entries[0].node.entries, rules, ScanEntry(path + [entries[0].name], entries[0].node, rules).value)
    ensures OnlyListed(path, entries, rules, Scan(path, entries, rules).value)
  {
    forall c | c in Scan(path, entries, rules).value
      ensures exists rel :: Listed(path, entries, rules, rel) && IsCandidate(path, entries, rel, c)
    {
      if c in Scan(path, entries[1..], rules).value {
        var rel :| Listed(path, entries[1..], rules, rel) && IsCandidate(path, entries[1..], rel, c);
        NameInRest(entries, rel);
        RestListed(path, entries, rules, rel, c);
      } else {
        HereSound(path, entries, rules, c);
      }
    }
  }

  lemma {:induction false} CompleteTogether(path: Place, entries: seq<Entry>, rules: Rules)
    requires entries != [] && DistinctNames(entries) && Scan(path, entries, rules).Some?
    requires AllListed(path, entries[1..], rules, Scan(path, entries[1..], rules).value)
    requires Within(path, entries, rules) ==> AllListed(path + [entries[0].name], entries[0].node.entries, rules, ScanEntry(path + [entries[0].name], entries[0].node, rules).value)
    ensures AllListed(path, entries, rules, Scan(path, entries, rules).value)
  {
    forall rel | Listed(path, entries, rules, rel)
      ensures exists c :: c in Scan(path, entries, rules).value && IsCandidate(path, entries, rel, c)
    {
      if rel[0] == entries[0].name {
        HereComplete(path, entries, rules, rel);
      } else {
        RestComplete(path, entries, rules, rel);
      }
    }
  }

  lemma {:induction false} RestComplete(path: Place, entries: seq<Entry>, rules: Rules, rel: Place)
    requires entries != [] && Scan(path, entries[1..], rules).Some? && AllListed(path, entries[1..], rules, Scan(path, entries[1..], rules).value)
    requires Listed(path, entries, rules, rel) && rel[0] != entries[0].name
    ensures exists c :: c in Scan(path, entries[1..], rules).value && IsCandidate(path, entries, rel, c)
  {
    RestListed(path, entries, rules, rel, Candidate([], 0, false));
    var c :| c in Scan(path, entries[1..], rules).value && IsCandidate(path, entries[1..], rel, c);
    RestListed(path, entries, rules, rel, c);
  }

  ghost predicate PathsApart(found: seq<Candidate>) {
    forall i, j :: 0 <= i < j < |found| ==> found[i].path != found[j].path
  }

  /** And lists none of them twice. */
  lemma {:induction false} ScanDistinct(path: Place, entries: seq<Entry>, rules: Rules)
    requires WellNamed(entries) && Scan(path, entries, rules).Some?
    ensures PathsApart(Scan(path, entries, rules).value)
    decreases entries
  {
    if entries != [] {
      RestWellNamed(entries);
      ScanDistinct(path, entries[1..], rules);
      FirstDistinct(path, entries, rules);
      ScanExact(path, entries[1..], rules);
      forall a, b | a in ScanEntry(path + [entries[0].name], entries[0].node, rules).value && b in Scan(path, entries[1..], rules).value
        ensures a.path != b.path
      {
        FirstApart(path, entries, rules, a, b);
      }
    }
  }

  lemma {:induction false} FirstDistinct(path: Place, entries: seq<Entry>, rules: Rules)
    requires entries != [] && WellNamed(entries) && ScanEntry(path + [entries[0].name], entries[0].node, rules).Some?
    ensures PathsApart(ScanEntry(path + [entries[0].name], entries[0].node, rules).value)
    ensures Within(path, entries, rules) ==> OnlyListed(path + [entries[0].name], entries[0].node.entries, rules, ScanEntry(path + [entries[0].name], entries[0].node, rules).value)
    decreases entries, 0
  {
    if Within(path, entries, rules) {
      RestWellNamed(entries);
      ScanDistinct(path + [entries[0].name], entries[0].node.entries, rules);
      ScanExact(path + [entries[0].name], entries[0].node.entries, rules);
    }
  }

  /** What comes of the first entry lies at or below it, and nothing of the rest does. */
  lemma {:induction false} FirstApart(path: Place, entries: seq<Entry>, rules: Rules, a: Candidate, b: Candidate)
    requires entries != [] && DistinctNames(entries) && Scan(path, entries, rules).Some?
    requires Within(path, entries, rules) ==> OnlyListed(path + [entries[0].name], entries[0].node.entries, rules, ScanEntry(path + [entries[0].name], entries[0].node, rules).value)
    requires OnlyListed(path, entries[1..], rules, Scan(path, entries[1..], rules).value)
    requires a in ScanEntry(path + [entries[0].name], entries[0].node, rules).value && b in Scan(path, entries[1..], rules).value
    ensures a.path != b.path
  {
    FirstBelow(path, entries, rules, a);
    var rel :| Listed(path, entries[1..], rules, rel) && IsCandidate(path, entries[1..], rel, b);
    NameInRest(entries, rel);
    assert b.path[|path|] == rel[0];
  }

  lemma {:induction false} FirstBelow(path: Place, entries: seq<Entry>, rules: Rules, a: Candidate)
    requires entries != [] && ScanEntry(path + [entries[0].name], entries[0].node, rules).Some?
    requires Within(path, entries, rules) ==> OnlyListed(path + [entries[0].name], entries[0].node.entries, rules, ScanEntry(path + [entries[0].name], entries[0].node, rules).value)
    requires a in ScanEntry(path + [entries[0].name], entries[0].node, rules).value
    ensures |a.path| > |path| && a.path[|path|] == entries[0].name
  {
    var child, node := path + [entries[0].name], entries[0].node;
    if Within(path, entries, rules) {
      var rel :| Listed(child, node.entries, rules, rel) && IsCandidate(child, node.entries, rel, a);
      assert a.path == child + rel;
    }
  }

  // ----- library folders

  /** How scanPath goes about a library folder: items are left alone, what is above them is looked into. */
  function LibraryRules(known: set<Place>, ancestors: set<Place>): Rules {
    Rules(p => p in known, p => p in ancestors, false)
  }

  /** Neither known, nor inside a known path, nor above one. */
  ghost predicate Stray(known: set<Place>, p: Place) {
    forall k :: k in known ==> !(k <= p) && !(p <= k)
  }

  /** The known paths a scan of a folder can come to: not the folder itself, nor anything above it. */
  ghost function Beneath(known: set<Place>, path: Place): set<Place> {
    set k | k in known && !(k <= path)
  }

  /** A scan of a library folder finds exactly the topmost stray folders below it, each with the size of
      everything in it. What is known at or above the scanned folder changes nothing. */
  lemma {:induction false} OrphansExact(path: Place, entries: seq<Entry>, known: set<Place>, rel: Place)
    requires rel != []
    ensures Listed(path, entries, LibraryRules(known, StrictAncestors(known)), rel)
       <==> && NodeAt(entries, rel).Some? && IsDir(NodeAt(entries, rel).value) && Stray(Beneath(known, path), path + rel)
            && (|rel| > 1 ==> !Stray(Beneath(known, path), path + rel[..|rel| - 1]))
  {
    var near := Beneath(known, path);
    var rules := LibraryRules(near, StrictAncestors(near));
    NearDecides(path, known, rel);
    if LooksInto(path, rel, rules) && path + rel !in near && path + rel !in StrictAncestors(near) {
      ListedIsTopmost(path, near, rel);
    }
    if Stray(near, path + rel) && (|rel| > 1 ==> !Stray(near, path + rel[..|rel| - 1])) {
      TopmostIsReached(path, near, rel);
    }
  }

  /** Below the scanned folder, what is known at or above it makes no difference. */
  lemma {:induction false} NearDecidesAt(path: Place, known: set<Place>, q: Place)
    requires |path| < |q|
    ensures q in known <==> q in Beneath(known, path)
    ensures q in StrictAncestors(known) <==> q in StrictAncestors(Beneath(known, path))
    ensures Unfinished(known, q) <==> Unfinished(Beneath(known, path), q)
  {
    AboveIsAncestor(known, q);
    AboveIsAncestor(Beneath(known, path), q);
    assert forall k :: k in known && |k| > |path| ==> k in Beneath(known, path);
    if q in StrictAncestors(known) {
      var k :| k in known && q < k;
      assert k in Beneath(known, path);
    }
  }

  lemma {:induction false} NearDecides(path: Place, known: set<Place>, rel: Place)
    requires rel != []
    ensures var near := Beneath(known, path);
            && (LooksInto(path, rel, LibraryRules(known, StrictAncestors(known))) <==> LooksInto(path, rel, LibraryRules(near, StrictAncestors(near))))
            && (LooksInto(path, rel, DownloadRules(known, StrictAncestors(known))) <==> LooksInto(path, rel, DownloadRules(near, StrictAncestors(near))))
            && (path + rel in known <==> path + rel in near) && (path + rel in StrictAncestors(known) <==> path + rel in StrictAncestors(near))
            && (Unfinished(known, path + rel) <==> Unfinished(near, path + rel))
  {
    forall j | 0 < j <= |rel|
      ensures var near, q := Beneath(known, path), path + rel[..j];
              (q in known <==> q in near) && (q in StrictAncestors(known) <==> q in StrictAncestors(near)) && (Unfinished(known, q) <==> Unfinished(near, q))
    {
      NearDecidesAt(path, known, path + rel[..j]);
    }
    assert rel[..|rel|] == rel;
  }

  /** Being above a known path is what the ancestor set records. */
  lemma {:induction false} AboveIsAncestor(known: set<Place>, p: Place)
    requires p != []
    ensures p in StrictAncestors(known) <==> exists k :: k in known && p < k
  {
    if k :| k in known && p < k {
      assert k[..|p|] == p;
    }
  }

  lemma {:induction false} ListedIsTopmost(path: Place, known: set<Place>, rel: Place)
    requires rel != [] && (forall k :: k in known ==> !(k <= path))
    requires LooksInto(path, rel, LibraryRules(known, StrictAncestors(known))) && path + rel !in known && path + rel !in StrictAncestors(known)
    ensures Stray(known, path + rel) && (|rel| > 1 ==> !Stray(known, path + rel[..|rel| - 1]))
  {
    var q := path + rel;
    AboveIsAncestor(known, q);
    forall k | k in known
      ensures !(k <= q)
    {
      if k <= q {
        KnownOnTheWay(path, rel, k, LibraryRules(known, StrictAncestors(known)));
      }
    }
    if |rel| > 1 {
      AboveIsAncestor(known, path + rel[..|rel| - 1]);
    }
  }

  /** A known path a scan would be inside of was left alone on the way. */
  lemma {:induction false} KnownOnTheWay(path: Place, rel: Place, k: Place, rules: Rules)
    requires rel != [] && rules.skip(k) && k <= path + rel && !(k <= path)
    ensures path + rel == k || !LooksInto(path, rel, rules)
  {
    PrefixOfPart(k, path, rel);
    var n := |k| - |path|;
    if n == |rel| {
      assert k == path + rel;
    } else if 0 < n < |rel| {
      assert k == (path + rel)[..|k|] == path + rel[..n];
    }
  }

  lemma {:induction false} PrefixOfPart(k: Place, path: Place, rel: Place)
    requires k <= path + rel
    ensures |k| <= |path| ==> k <= path
    ensures |k| <= |path + rel|
  {
    if |k| <= |path| {
      assert k == (path + rel)[..|k|] == path[..|k|];
    }
  }

  lemma {:induction false} TopmostIsReached(path: Place, known: set<Place>, rel: Place)
    requires rel != [] && Stray(known, path + rel) && (|rel| > 1 ==> !Stray(known, path + rel[..|rel| - 1]))
    ensures LooksInto(path, rel, LibraryRules(known, StrictAncestors(known))) && path + rel !in known && path + rel !in StrictAncestors(known)
  {
    AboveIsAncestor(known, path + rel);
    if |rel| > 1 {
      var parent := path + rel[..|rel| - 1];
      assert path + rel == parent + [rel[|rel| - 1]];
      var k :| k in known && (k <= parent || parent <= k);
      assert parent <= path + rel;
      assert parent < k;
      forall j | 0 < j < |rel|
        ensures path + rel[..j] !in known && path + rel[..j] in StrictAncestors(known)
      {
        assert path + rel[..j] <= parent;
        AboveIsAncestor(known, path + rel[..j]);
      }
    }
  }

  /** No orphan is inside another. */
  lemma {:induction false} OrphansUnnested(path: Place, entries: seq<Entry>, known: set<Place>, a: Place, b: Place)
    requires Listed(path, entries, LibraryRules(known, StrictAncestors(known)), a) && Listed(path, entries, LibraryRules(known, StrictAncestors(known)), b)
    ensures a <= b ==> a == b
  {
    if a <= b && a != b {
      LookedInto(path, a, b, LibraryRules(known, StrictAncestors(known)));
    }
  }

  lemma {:induction false} LookedInto(path: Place, a: Place, b: Place, rules: Rules)
    requires 0 < |a| < |b| && a <= b && LooksInto(path, b, rules)
    ensures rules.descend(path + a)
  {
    assert b[..|a|] == a;
  }

  // ----- download folders

  const INCOMPLETE_SUFFIX := ".!qB"

  /** A file qBittorrent has not finished: on disk under the download's name with the suffix added. */
  predicate Unfinished(known: set<Place>, p: Place) {
    p != [] &&
    var name := p[|p| - 1];
    && |name| >= |INCOMPLETE_SUFFIX| && name[|name| - |INCOMPLETE_SUFFIX|..] == INCOMPLETE_SUFFIX
    && p[..|p| - 1] + [name[..|name| - |INCOMPLETE_SUFFIX|]] in known
  }

  /** Such a file is named by a known download, with that suffix after its name. */
  lemma {:induction false} UnfinishedExactly(known: set<Place>, p: Place)
    ensures Unfinished(known, p) <==> exists folder: Place, name: string :: p == folder + [name + ".!qB"] && folder + [name] in known
  {
    if Unfinished(known, p) {
      var folder, last := p[..|p| - 1], p[|p| - 1];
      var name := last[..|last| - 4];
      assert last == name + ".!qB" && p == folder + [name + ".!qB"];
    }
    if folder: Place, name: string :| p == folder + [name + ".!qB"] && folder + [name] in known {
      assert p[|p| - 1] == name + ".!qB" && p[..|p| - 1] == folder;
      assert (name + ".!qB")[..|name|] == name;
    }
  }

  /** How scanDownloads goes about a download folder: every entry is judged, unfinished downloads excepted. */
  function DownloadRules(known: set<Place>, ancestors: set<Place>): Rules {
    Rules(p => p in known || Unfinished(known, p), p => p in ancestors, true)
  }

  /** Nothing a scan of a download folder lists is known, inside something known or above it (a file is
      above nothing), the folder itself and what is above it aside. */
  lemma {:induction false} ListedIsUnclaimed(path: Place, entries: seq<Entry>, known: set<Place>, rel: Place, k: Place)
    requires k in known && Listed(path, entries, DownloadRules(known, StrictAncestors(known)), rel)
    ensures (k <= path + rel ==> k <= path) && (IsDir(NodeAt(entries, rel).value) ==> !(path + rel < k)) && !Unfinished(known, path + rel)
  {
    if k <= path + rel && !(k <= path) {
      KnownOnTheWay(path, rel, k, DownloadRules(known, StrictAncestors(known)));
    }
    AboveIsAncestor(known, path + rel);
  }

  /** The folders from the scanned one to rel, rel included, hold no unfinished download's name. */
  ghost predicate NoneUnfinished(known: set<Place>, path: Place, rel: Place) {
    forall j :: 0 < j <= |rel| ==> !Unfinished(known, path + rel[..j])
  }

  /** A scan of a download folder lists exactly the topmost entries nothing known is at, above or - for a
      folder - below, and that are not an unfinished download nor inside one. */
  lemma {:induction false} LeftoversExact(path: Place, entries: seq<Entry>, known: set<Place>, rel: Place)
    requires rel != []
    ensures Listed(path, entries, DownloadRules(known, StrictAncestors(known)), rel)
       <==> && NodeAt(entries, rel).Some? && NoneUnfinished(known, path, rel)
            && (forall k :: k in Beneath(known, path) ==> !(k <= path + rel) && (IsDir(NodeAt(entries, rel).value) ==> !(path + rel <= k)))
            && (|rel| > 1 ==> exists k :: k in known && path + rel[..|rel| - 1] < k)
  {
    assert rel[..|rel|] == rel;
    AboveIsAncestor(known, path + rel);
    if Listed(path, entries, DownloadRules(known, StrictAncestors(known)), rel) {
      LeftoverIsTopmost(path, entries, known, rel);
    }
    if && NodeAt(entries, rel).Some? && NoneUnfinished(known, path, rel)
       && (forall k :: k in Beneath(known, path) ==> !(k <= path + rel)) && (|rel| > 1 ==> exists k :: k in known && path + rel[..|rel| - 1] < k) {
      LeftoverIsReached(path, known, rel);
      if IsDir(NodeAt(entries, rel).value) && forall k :: k in Beneath(known, path) ==> !(path + rel <= k) {
        NoneBelowIsNoAncestor(known, path, rel);
      }
    }
  }

  lemma {:induction false} NoneBelowIsNoAncestor(known: set<Place>, path: Place, rel: Place)
    requires rel != [] && forall k :: k in Beneath(known, path) ==> !(path + rel <= k)
    ensures path + rel !in StrictAncestors(known)
  {
    AboveIsAncestor(known, path + rel);
    if k :| k in known && path + rel < k {
      LongerIsBeneath(known, path, k);
    }
  }

  lemma {:induction false} LongerIsBeneath(known: set<Place>, path: Place, k: Place)
    requires k in known && |path| < |k|
    ensures k in Beneath(known, path)
  {
  }

  lemma {:induction false} LeftoverIsTopmost(path: Place, entries: seq<Entry>, known: set<Place>, rel: Place)
    requires rel != [] && Listed(path, entries, DownloadRules(known, StrictAncestors(known)), rel)
    ensures NoneUnfinished(known, path, rel) && (|rel| > 1 ==> exists k :: k in known && path + rel[..|rel| - 1] < k)
    ensures forall k :: k in Beneath(known, path) ==> !(k <= path + rel) && (IsDir(NodeAt(entries, rel).value) ==> !(path + rel <= k))
  {
    assert rel[..|rel|] == rel;
    forall k | k in Beneath(known, path)
      ensures !(k <= path + rel) && (IsDir(NodeAt(entries, rel).value) ==> !(path + rel <= k))
    {
      ListedIsUnclaimed(path, entries, known, rel, k);
    }
    if |rel| > 1 {
      AboveIsAncestor(known, path + rel[..|rel| - 1]);
    }
  }

  lemma {:induction false} LeftoverIsReached(path: Place, known: set<Place>, rel: Place)
    requires rel != [] && NoneUnfinished(known, path, rel) && (forall k :: k in Beneath(known, path) ==> !(k <= path + rel))
    requires |rel| > 1 ==> exists k :: k in known && path + rel[..|rel| - 1] < k
    ensures LooksInto(path, rel, DownloadRules(known, StrictAncestors(known))) && path + rel !in known
  {
    forall j | 0 < j <= |rel|
      ensures path + rel[..j] !in known
    {
      assert path + rel[..j] == (path + rel)[..|path| + j];
      if path + rel[..j] in known {
        LongerIsBeneath(known, path, path + rel[..j]);
      }
    }
    assert rel[..|rel|] == rel;
    if |rel| > 1 {
      var k :| k in known && path + rel[..|rel| - 1] < k;
      forall j | 0 < j < |rel|
        ensures path + rel[..j] in StrictAncestors(known)
      {
        assert path + rel[..j] == k[..|path| + j];
      }
    }
  }

  /** What a scan made now would list passes the check a deletion makes exactly when nothing known is the
      scanned folder or above it, and nothing known is recorded below what is a file. */
  lemma {:induction false} ListedPassesExactly(path: Place, entries: seq<Entry>, known: set<Place>, rel: Place)
    requires rel != [] && Listed(path, entries, DownloadRules(known, StrictAncestors(known)), rel)
    ensures Stray(known, path + rel)
       <==> && (forall k :: k in known ==> !(k <= path))
            && (IsDir(NodeAt(entries, rel).value) || forall k :: k in known ==> !(path + rel < k))
  {
    LeftoverIsTopmost(path, entries, known, rel);
    forall k | k in known
      ensures k <= path ==> k <= path + rel
      ensures !(k <= path) ==> k in Beneath(known, path) && !(k <= path + rel)
      ensures path + rel <= k ==> path + rel == k || path + rel < k
    {
    }
  }

  // ----- deleting a leftover

  /** What the last scan listed, and the tier it was found in. */
  datatype Listing = Listing(candidate: Candidate, tierName: string, downloads: bool)

  datatype ScannedTier = ScannedTier(name: string, downloads: bool, allowDeletes: bool, paths: seq<Place>)

  datatype Deletion = Refused | Failed | Deleted(listing: Listing)

  class Disk {
    var files: set<Place>

    constructor (files: set<Place>)
      ensures this.files == files
    {
      this.files := files;
    }

    /** Removes everything at or under path that will go; ok says it all did. */
    method RemoveAll(path: Place, stuck: set<Place>) returns (ok: bool)
      modifies this
      ensures files == set f | f in old(files) && (!(path <= f) || f in stuck)
      ensures ok <==> forall f :: f in old(files) && path <= f ==> f !in stuck
    {
      ok := forall f :: f in files && path <= f ==> f !in stuck;
      files := set f | f in files && (!(path <= f) || f in stuck);
    }
  }

  /** The scan's own entry for a path in a download folder: the first it listed. */
  ghost predicate FirstListing(listings: seq<Listing>, path: Place, i: nat) {
    && i < |listings| && listings[i].downloads && listings[i].candidate.path == path
    && forall j :: 0 <= j < i ==> !(listings[j].downloads && listings[j].candidate.path == path)
  }

  /** The first tier of that name. */
  ghost predicate FirstTier(tiers: seq<ScannedTier>, name: string, i: nat) {
    i < |tiers| && tiers[i].name == name && forall j :: 0 <= j < i ==> tiers[j].name != name
  }

  /** The first of the paths the place is strictly inside of. */
  ghost predicate FirstRoot(paths: seq<Place>, path: Place, p: nat) {
    p < |paths| && paths[p] < path && forall q :: 0 <= q < p ==> !(paths[q] < path)
  }

  /** Tier i and its path p decide, and neither stands in the way. */
  ghost predicate AllowedBy(tiers: seq<ScannedTier>, name: string, path: Place, storageOk: set<Place>, i: nat, p: nat) {
    && FirstTier(tiers, name, i) && tiers[i].downloads && tiers[i].allowDeletes
    && FirstRoot(tiers[i].paths, path, p) && tiers[i].paths[p] in storageOk
  }

  ghost predicate Allowed(tiers: seq<ScannedTier>, name: string, path: Place, storageOk: set<Place>) {
    exists i: nat, p: nat :: AllowedBy(tiers, name, path, storageOk, i, p)
  }

  lemma {:induction false} FirstListingOnly(listings: seq<Listing>, path: Place, i: nat, j: nat)
    requires FirstListing(listings, path, i) && FirstListing(listings, path, j)
    ensures i == j
  {
  }

  lemma {:induction false} OneDecides(tiers: seq<ScannedTier>, name: string, path: Place, i: nat, j: nat, p: nat, q: nat)
    requires FirstTier(tiers, name, i) && FirstTier(tiers, name, j)
    requires i == j ==> FirstRoot(tiers[i].paths, path, p) && FirstRoot(tiers[j].paths, path, q)
    ensures i == j && p == q
  {
  }

  /** Every guard of a deletion. */
  ghost predicate MayDelete(listings: seq<Listing>, requested: Place, connected: bool, tiers: seq<ScannedTier>, storageOk: set<Place>, known: Option<set<Place>>) {
    && connected && known.Some? && Stray(known.value, requested)
    && exists i: nat :: FirstListing(listings, requested, i) && Allowed(tiers, listings[i].tierName, requested, storageOk)
  }

  class Store {
    var listings: seq<Listing>

    constructor (listings: seq<Listing>)
      ensures this.listings == listings
    {
      this.listings := listings;
    }

    /** Deletes one entry the last scan found in a download folder, with every guard checked afresh: refused
        exactly when one of them does not hold, and done exactly when everything at and under it would go. */
    method DeleteDownload(requested: Place, connected: bool, tiers: seq<ScannedTier>, storageOk: set<Place>, known: Option<set<Place>>, disk: Disk, stuck: set<Place>)
      returns (deletion: Deletion)
      modifies this, disk
      ensures deletion.Refused? <==> !MayDelete(old(listings), requested, connected, tiers, storageOk, known)
      ensures deletion.Refused? ==> disk.files == old(disk.files)
      ensures !deletion.Refused? ==> disk.files == (set f | f in old(disk.files) && (!(requested <= f) || f in stuck))
      ensures deletion.Deleted? <==> MayDelete(old(listings), requested, connected, tiers, storageOk, known)
                                     && forall f :: f in old(disk.files) && requested <= f ==> f !in stuck
      ensures !deletion.Deleted? ==> listings == old(listings)
      ensures deletion.Deleted? ==> (exists i: nat :: FirstListing(old(listings), requested, i) && deletion.listing == old(listings)[i])
                                    && forall l :: l in listings <==> l in old(listings) && l.candidate.path != requested
    {
      if !connected {
        return Refused;
      }
      var i := 0;
      while i < |listings| && !(listings[i].downloads && listings[i].candidate.path == requested)
        invariant i <= |listings|
        invariant forall j :: 0 <= j < i ==> !(listings[j].downloads && listings[j].candidate.path == requested)
      {
        i := i + 1;
      }
      if i == |listings| {
        return Refused;
      }
      var found := listings[i];
      assert FirstListing(listings, requested, i);
      var allowed := CheckTier(tiers, found.tierName, requested, storageOk);
      if !allowed {
        NotAllowed(listings, requested, connected, tiers, storageOk, known, i);
        return Refused;
      }
      if known.None? || exists k :: k in known.value && (k <= requested || requested <= k) {
        return Refused;
      }
      assert MayDelete(listings, requested, connected, tiers, storageOk, known);
      var ok := disk.RemoveAll(requested, stuck);
      if !ok {
        return Failed;
      }
      listings := Unlisted(listings, requested);
      return Deleted(found);
    }
  }

  lemma {:induction false} NotAllowed(listings: seq<Listing>, requested: Place, connected: bool, tiers: seq<ScannedTier>, storageOk: set<Place>, known: Option<set<Place>>, i: nat)
    requires FirstListing(listings, requested, i) && !Allowed(tiers, listings[i].tierName, requested, storageOk)
    ensures !MayDelete(listings, requested, connected, tiers, storageOk, known)
  {
    if j: nat :| FirstListing(listings, requested, j) && Allowed(tiers, listings[j].tierName, requested, storageOk) {
      FirstListingOnly(listings, requested, i, j);
    }
  }

  /** Whether the tier of that name may be deleted from, with the path strictly inside a healthy one of its
      paths: the first that holds it decides. */
  method CheckTier(tiers: seq<ScannedTier>, name: string, path: Place, storageOk: set<Place>) returns (allowed: bool)
    ensures allowed <==> Allowed(tiers, name, path, storageOk)
  {
    var i := 0;
    while i < |tiers| && tiers[i].name != name
      invariant i <= |tiers| && forall j :: 0 <= j < i ==> tiers[j].name != name
    {
      i := i + 1;
    }
    if i == |tiers| {
      return false;
    }
    assert FirstTier(tiers, name, i);
    if !tiers[i].downloads || !tiers[i].allowDeletes {
      return false;
    }
    var p := 0;
    while p < |tiers[i].paths| && !(tiers[i].paths[p] < path)
      invariant p <= |tiers[i].paths| && forall q :: 0 <= q < p ==> !(tiers[i].paths[q] < path)
    {
      p := p + 1;
    }
    if p == |tiers[i].paths| {
      return false;
    }
    allowed := tiers[i].paths[p] in storageOk;
    if allowed {
      assert AllowedBy(tiers, name, path, storageOk, i, p);
    } else {
      RootNotHealthy(tiers, name, path, storageOk, i, p);
    }
  }

  lemma {:induction false} RootNotHealthy(tiers: seq<ScannedTier>, name: string, path: Place, storageOk: set<Place>, i: nat, p: nat)
    requires FirstTier(tiers, name, i) && FirstRoot(tiers[i].paths, path, p) && tiers[i].paths[p] !in storageOk
    ensures !Allowed(tiers, name, path, storageOk)
  {
    if j: nat, q: nat :| AllowedBy(tiers, name, path, storageOk, j, q) {
      OneDecides(tiers, name, path, i, j, p, q);
    }
  }

  method Unlisted(listings: seq<Listing>, path: Place) returns (kept: seq<Listing>)
    ensures forall l :: l in kept <==> l in listings && l.candidate.path != path
  {
    kept := [];
    for i := 0 to |listings|
      invariant forall l :: l in kept <==> l in listings[..i] && l.candidate.path != path
    {
      assert listings[..i + 1] == listings[..i] + [listings[i]];
      if listings[i].candidate.path != path {
        kept := kept + [listings[i]];
      }
    }
    assert listings[..|listings|] == listings;
  }

  /** What is deleted under a path that is clear of everything known is no file of anything known. */
  lemma {:induction false} NothingKnownDeleted(known: set<Place>, path: Place, f: Place, k: Place)
    requires Stray(known, path) && k in known && path <= f
    ensures !(k <= f)
  {
    if k <= f {
      PrefixesCompare(path, k, f);
    }
  }

  lemma {:induction false} PrefixesCompare(a: Place, b: Place, f: Place)
    requires a <= f && b <= f
    ensures a <= b || b <= a
  {
    assert a == f[..|a|] && b == f[..|b|];
    assert if |a| <= |b| then b[..|a|] == a else a[..|b|] == b;
  }

  /** The check for what is in use now knows nothing of the suffix: a leftover unfinished file passes it even
      when its download is known again, though a scan made now would leave it alone. */
  lemma {:induction false} UnfinishedPassesCheck(folder: Place, name: string)
    ensures var known, file := {folder + [name]}, folder + [name + INCOMPLETE_SUFFIX];
            Stray(known, file) && DownloadRules(known, StrictAncestors(known)).skip(file)
  {
    var known, file := {folder + [name]}, folder + [name + INCOMPLETE_SUFFIX];
    assert file[..|file| - 1] == folder && file[|file| - 1] == name + INCOMPLETE_SUFFIX;
    assert (name + INCOMPLETE_SUFFIX)[..|name|] == name;
    assert (folder + [name])[|folder|] == name;
  }

  /** Otherwise a path that passes the check is one a scan made now would judge and not look into: it is left
      alone only as an unfinished file. */
  lemma {:induction false} CheckAgainstScan(known: set<Place>, p: Place)
    requires p != [] && Stray(known, p)
    ensures var rules := DownloadRules(known, StrictAncestors(known)); !rules.descend(p) && (rules.skip(p) <==> Unfinished(known, p))
  {
    AboveIsAncestor(known, p);
  }
}
