/** Build: the round loop that turns candidates into a plan (internal/planner). */
module Build {
  import opened DiskUsage
  import opened PlannerModel
  import opened Destinations
  import opened Reclaims
  import opened ReclaimPhase
  import opened FillPhase
  import opened Planner
  import opened PlanRounds
  import opened Sorting

  /** Phases are numbered from 0 without gaps and never go back; phase is the next free number. */
  ghost predicate Contiguous(entries: seq<MoveEntry>, phase: nat) {
    && (entries == [] ==> phase == 0)
    && (entries != [] ==> entries[0].phase == 0 && entries[|entries| - 1].phase == phase - 1)
    && (forall k :: 0 <= k < |entries| ==> entries[k].phase < phase)
    && forall k :: 0 < k < |entries| ==> entries[k - 1].phase <= entries[k].phase <= entries[k - 1].phase + 1
  }

  ghost predicate FromUsable(entries: seq<MoveEntry>, usage: map<Path, Usage>) {
    forall k :: 0 <= k < |entries| ==> entries[k].fromPath in usage
  }

  lemma {:induction false} PlacedStays(volumeOf: map<Path, nat>, usage: map<Path, Usage>, entries: seq<MoveEntry>, block: seq<MoveEntry>, k: nat)
    requires k < |entries| && Sound(volumeOf, usage, entries)
    ensures Placed(volumeOf, usage, entries + block, k)
  {
    assert Placed(volumeOf, usage, entries, k);
    var start: nat :| PlacedFrom(volumeOf, usage, entries, start, k);
    var all := entries + block;
    SamePlace(volumeOf, usage, entries, all, start, k);
  }

  lemma {:induction false} SamePlace(volumeOf: map<Path, nat>, usage: map<Path, Usage>, entries: seq<MoveEntry>, all: seq<MoveEntry>, start: nat, k: nat)
    requires PlacedFrom(volumeOf, usage, entries, start, k)
    requires |entries| <= |all| && all[..|entries|] == entries
    ensures PlacedFrom(volumeOf, usage, all, start, k)
  {
    assert forall i :: 0 <= i < |entries| ==> all[i] == entries[i];
    assert all[..start] == entries[..start];
    assert all[start..k] == entries[start..k];
  }

  lemma {:induction false} PlacedNew(volumeOf: map<Path, nat>, usage: map<Path, Usage>, entries: seq<MoveEntry>, block: seq<MoveEntry>, phase: nat, k: nat)
    requires forall i :: 0 <= i < |entries| ==> entries[i].phase < phase
    requires OnePhase(volumeOf, After(volumeOf, usage, entries), block, phase) && FromUsable(block, usage)
    requires |entries| <= k < |entries + block|
    ensures Placed(volumeOf, usage, entries + block, k)
  {
    OnePhaseAt(volumeOf, usage, entries, block, phase, k - |entries|);
    SplitConcat(entries, block, k);
    assert PlacedFrom(volumeOf, usage, entries + block, |entries|, k);
  }

  lemma {:induction false} SplitConcat(a: seq<MoveEntry>, b: seq<MoveEntry>, k: nat)
    requires |a| <= k < |a + b|
    ensures (a + b)[..|a|] == a && (a + b)[|a|..k] == b[..k - |a|] && (a + b)[k] == b[k - |a|]
    ensures forall i :: 0 <= i < |a| ==> (a + b)[i] == a[i]
    ensures forall i :: |a| <= i < k ==> (a + b)[i] == b[i - |a|]
  {
  }

  /** Adding one more phase to a sound plan keeps it sound. */
  lemma {:induction false} ExtendSound(volumeOf: map<Path, nat>, usage: map<Path, Usage>, entries: seq<MoveEntry>, block: seq<MoveEntry>, phase: nat)
    requires Sound(volumeOf, usage, entries) && forall i :: 0 <= i < |entries| ==> entries[i].phase < phase
    requires OnePhase(volumeOf, After(volumeOf, usage, entries), block, phase) && FromUsable(block, usage)
    ensures Sound(volumeOf, usage, entries + block)
  {
    forall k: nat | k < |entries + block|
      ensures Placed(volumeOf, usage, entries + block, k)
    {
      if k < |entries| {
        PlacedStays(volumeOf, usage, entries, block, k);
      } else {
        PlacedNew(volumeOf, usage, entries, block, phase, k);
      }
    }
  }

  lemma {:induction false} OnePhaseAt(volumeOf: map<Path, nat>, usage: map<Path, Usage>, entries: seq<MoveEntry>, block: seq<MoveEntry>, phase: nat, j: nat)
    requires OnePhase(volumeOf, After(volumeOf, usage, entries), block, phase) && FromUsable(block, usage) && j < |block|
    ensures AdmittedAfter(volumeOf, usage, entries, block[..j], block[j])
    ensures forall i :: 0 <= i <= j ==> block[i].phase == phase
  {
  }

  lemma {:induction false} ExtendContiguous(entries: seq<MoveEntry>, block: seq<MoveEntry>, phase: nat)
    requires Contiguous(entries, phase) && forall k :: 0 <= k < |block| ==> block[k].phase == phase
    ensures Contiguous(entries + block, if block == [] then phase else phase + 1)
  {
    if block == [] {
      assert entries + block == entries;
    }
  }

  /** The items in the plan so far and still pending. */
  ghost function Everything(entries: seq<MoveEntry>, reclaims: seq<Reclaim>, fills: seq<ItemEval>): multiset<Item> {
    multiset(Mapped(EntryItem, entries)) + multiset(Mapped(ReclaimItem, reclaims)) + multiset(Mapped(FillItem, fills))
  }

  ghost predicate Usable(input: Input, reclaims: seq<Reclaim>, fills: seq<ItemEval>) {
    && (forall k :: 0 <= k < |reclaims| ==> reclaims[k].eval.item.root in input.usage)
    && (forall k :: 0 <= k < |fills| ==> fills[k].item.root in input.usage)
  }

  ghost predicate FromRoots(entries: seq<MoveEntry>) {
    forall k :: 0 <= k < |entries| ==> entries[k].fromPath == entries[k].item.root
  }

  /** What holds between any two steps of the round loop. */
  ghost predicate Going(input: Input, site: Site, all: multiset<Item>, entries: seq<MoveEntry>, phase: nat,
                        reclaims: seq<Reclaim>, fills: seq<ItemEval>, working: map<Path, Usage>) {
    && working == After(input.layout.volumeOf, input.usage, entries)
    && Sound(input.layout.volumeOf, input.usage, entries) && Contiguous(entries, phase)
    && Usable(input, reclaims, fills) && OnHot(site, fills)
    && Everything(entries, reclaims, fills) == all && FromRoots(entries)
  }

  lemma {:induction false} DroppingMembers<T>(s: seq<T>, gone: set<nat>)
    ensures forall k :: 0 <= k < |Dropping(s, gone)| ==> Dropping(s, gone)[k] in s
    decreases |s|
  {
    if s != [] {
      DroppingMembers(s[..|s| - 1], gone);
    }
  }

  lemma {:induction false} StillUsable(input: Input, site: Site, reclaims: seq<Reclaim>, fills: seq<ItemEval>, goneReclaims: set<nat>, goneFills: set<nat>)
    requires Usable(input, reclaims, fills) && OnHot(site, fills)
    ensures Usable(input, Dropping(reclaims, goneReclaims), fills)
    ensures Usable(input, reclaims, Dropping(fills, goneFills)) && OnHot(site, Dropping(fills, goneFills))
  {
    DroppingMembers(reclaims, goneReclaims);
    DroppingMembers(fills, goneFills);
  }

  /** What every phase adds to the plan, whichever way it moves things. */
  lemma {:induction false} AddPhase(input: Input, entries: seq<MoveEntry>, phase: nat, working: map<Path, Usage>, block: seq<MoveEntry>)
    requires working == After(input.layout.volumeOf, input.usage, entries)
    requires Sound(input.layout.volumeOf, input.usage, entries) && Contiguous(entries, phase)
    requires OnePhase(input.layout.volumeOf, working, block, phase) && FromUsable(block, input.usage)
    ensures After(input.layout.volumeOf, working, block) == After(input.layout.volumeOf, input.usage, entries + block)
    ensures Sound(input.layout.volumeOf, input.usage, entries + block)
    ensures Contiguous(entries + block, if block == [] then phase else phase + 1)
  {
    AfterConcat(input.layout.volumeOf, input.usage, entries, block);
    ExtendSound(input.layout.volumeOf, input.usage, entries, block, phase);
    ExtendContiguous(entries, block, phase);
  }

  lemma {:induction false} KeptReclaims(all: multiset<Item>, entries: seq<MoveEntry>, reclaims: seq<Reclaim>, fills: seq<ItemEval>,
                                        block: seq<MoveEntry>, placed: seq<nat>)
    requires Everything(entries, reclaims, fills) == all && Selects(reclaims, placed) && |block| == |placed|
    requires forall k :: 0 <= k < |block| ==> block[k].item == ReclaimItem(reclaims[placed[k]])
    ensures Everything(entries + block, Dropping(reclaims, AsSet(placed)), fills) == all
    ensures |block| + |Dropping(reclaims, AsSet(placed))| == |reclaims|
  {
    ItemsKept(ReclaimItem, reclaims, placed, block);
    MappedConcat(EntryItem, entries, block);
  }

  lemma {:induction false} KeptFills(all: multiset<Item>, entries: seq<MoveEntry>, reclaims: seq<Reclaim>, fills: seq<ItemEval>,
                                     block: seq<MoveEntry>, placed: seq<nat>)
    requires Everything(entries, reclaims, fills) == all && Selects(fills, placed) && |block| == |placed|
    requires forall k :: 0 <= k < |block| ==> block[k].item == FillItem(fills[placed[k]])
    ensures Everything(entries + block, reclaims, Dropping(fills, AsSet(placed))) == all
    ensures |block| + |Dropping(fills, AsSet(placed))| == |fills|
  {
    ItemsKept(FillItem, fills, placed, block);
    MappedConcat(EntryItem, entries, block);
  }

  lemma {:induction false} HotItems(layout: Layout, reclaims: seq<Reclaim>, block: seq<MoveEntry>, placed: seq<nat>)
    requires Selects(reclaims, placed) && |block| == |placed|
    requires forall k :: 0 <= k < |block| ==> MovesToHot(block[k], reclaims[placed[k]], layout)
    ensures forall k :: 0 <= k < |block| ==> block[k].fromPath == block[k].item.root && block[k].item == ReclaimItem(reclaims[placed[k]])
  {
    forall k | 0 <= k < |block|
      ensures block[k].fromPath == block[k].item.root && block[k].item == ReclaimItem(reclaims[placed[k]])
    {
      assert MovesToHot(block[k], reclaims[placed[k]], layout);
    }
  }

  /** A reclaim phase keeps the plan going. */
  lemma {:induction false} AfterReclaims(input: Input, site: Site, all: multiset<Item>, entries: seq<MoveEntry>, phase: nat,
                                         reclaims: seq<Reclaim>, fills: seq<ItemEval>, working: map<Path, Usage>, block: seq<MoveEntry>, placed: seq<nat>)
    requires Going(input, site, all, entries, phase, reclaims, fills, working)
    requires OnePhase(input.layout.volumeOf, working, block, phase)
    requires Selects(reclaims, placed) && |block| == |placed|
    requires forall k :: 0 <= k < |block| ==> MovesToHot(block[k], reclaims[placed[k]], input.layout)
    ensures Going(input, site, all, entries + block, if block == [] then phase else phase + 1, Dropping(reclaims, AsSet(placed)), fills,
                  After(input.layout.volumeOf, working, block))
    ensures |block| + |Dropping(reclaims, AsSet(placed))| == |reclaims|
  {
    StillUsable(input, site, reclaims, fills, AsSet(placed), {});
    HotItems(input.layout, reclaims, block, placed);
    AddPhase(input, entries, phase, working, block);
    KeptReclaims(all, entries, reclaims, fills, block, placed);
  }

  lemma {:induction false} ColdItems(site: Site, fills: seq<ItemEval>, block: seq<MoveEntry>, placed: seq<nat>)
    requires Selects(fills, placed) && |block| == |placed| && OnHot(site, fills)
    requires forall k :: 0 <= k < |block| ==> MovesToCold(block[k], fills[placed[k]], site)
    ensures forall k :: 0 <= k < |block| ==> block[k].fromPath == block[k].item.root && block[k].item == FillItem(fills[placed[k]])
  {
    forall k | 0 <= k < |block|
      ensures block[k].fromPath == block[k].item.root && block[k].item == FillItem(fills[placed[k]])
    {
      assert MovesToCold(block[k], fills[placed[k]], site);
    }
  }

  /** So does a fill phase. */
  lemma {:induction false} AfterFills(input: Input, site: Site, all: multiset<Item>, entries: seq<MoveEntry>, phase: nat,
                                      reclaims: seq<Reclaim>, fills: seq<ItemEval>, working: map<Path, Usage>, block: seq<MoveEntry>, placed: seq<nat>)
    requires Going(input, site, all, entries, phase, reclaims, fills, working)
    requires OnePhase(input.layout.volumeOf, working, block, phase)
    requires Selects(fills, placed) && |block| == |placed|
    requires forall k :: 0 <= k < |block| ==> MovesToCold(block[k], fills[placed[k]], site)
    ensures Going(input, site, all, entries + block, if block == [] then phase else phase + 1, reclaims, Dropping(fills, AsSet(placed)),
                  After(input.layout.volumeOf, working, block))
    ensures |block| + |Dropping(fills, AsSet(placed))| == |fills|
  {
    StillUsable(input, site, reclaims, fills, {}, AsSet(placed));
    ColdItems(site, fills, block, placed);
    AddPhase(input, entries, phase, working, block);
    KeptFills(all, entries, reclaims, fills, block, placed);
  }

  /** No pending reclaim has a hot path with room ... */
  ghost predicate NoReclaimGoes(layout: Layout, reclaims: seq<Reclaim>, usage: map<Path, Usage>) {
    forall k :: 0 <= k < |reclaims| ==> OptionsOf(layout.tiers, usage, reclaims[k]) == []
  }

  /** ... and no pending fill a cold one. */
  ghost predicate NoFillGoes(site: Site, fills: seq<ItemEval>, usage: map<Path, Usage>) {
    forall k :: 0 <= k < |fills| ==> PickFor(site, usage, fills[k]).None?
  }

  lemma {:induction false} NoPicks(site: Site, fills: seq<ItemEval>, usage: map<Path, Usage>, phase: nat, k: nat)
    requires OnHot(site, fills) && AllPicks(site, fills, usage, phase) == [] && k < |fills|
    ensures PickFor(site, usage, fills[k]).None?
    decreases |fills|
  {
    if k > 0 {
      NoPicks(site, fills[1..], usage, phase, k - 1);
    }
  }

  // ----- which way entries go

  ghost predicate Among<T>(s: seq<T>, all: seq<T>) {
    forall k :: 0 <= k < |s| ==> s[k] in all
  }

  ghost predicate HotEntry(layout: Layout, reclaims: seq<Reclaim>, e: MoveEntry) {
    exists r :: r in reclaims && MovesToHot(e, r, layout)
  }

  ghost predicate ColdEntry(site: Site, fills: seq<ItemEval>, e: MoveEntry) {
    exists c :: c in fills && c.item.root in site.hotPaths && MovesToCold(e, c, site)
  }

  /** From entry n on, every entry moves one of the reclaims to a hot path. */
  ghost predicate ToHotFrom(layout: Layout, reclaims: seq<Reclaim>, entries: seq<MoveEntry>, n: nat) {
    forall k :: n <= k < |entries| ==> HotEntry(layout, reclaims, entries[k])
  }

  /** From entry n on, every entry moves one of the fills to a cold path. */
  ghost predicate ToColdFrom(site: Site, fills: seq<ItemEval>, entries: seq<MoveEntry>, n: nat) {
    forall k :: n <= k < |entries| ==> ColdEntry(site, fills, entries[k])
  }

  /** Every entry from n on moves a reclaim to hot storage or a fill to cold storage. */
  ghost predicate DirectedFrom(site: Site, reclaims: seq<Reclaim>, fills: seq<ItemEval>, entries: seq<MoveEntry>, n: nat) {
    forall k :: n <= k < |entries| ==> DirectedEntry(site, reclaims, fills, entries[k])
  }

  ghost predicate DirectedEntry(site: Site, reclaims: seq<Reclaim>, fills: seq<ItemEval>, e: MoveEntry) {
    HotEntry(site.layout, reclaims, e) || ColdEntry(site, fills, e)
  }

  lemma {:induction false} BlockToHot(layout: Layout, reclaims: seq<Reclaim>, before: seq<MoveEntry>, block: seq<MoveEntry>, placed: seq<nat>)
    requires Selects(reclaims, placed) && |block| == |placed|
    requires forall k :: 0 <= k < |block| ==> MovesToHot(block[k], reclaims[placed[k]], layout)
    ensures ToHotFrom(layout, reclaims, before + block, |before|)
  {
    var entries := before + block;
    forall k | |before| <= k < |entries|
      ensures HotEntry(layout, reclaims, entries[k])
    {
      assert entries[k] == block[k - |before|];
      assert reclaims[placed[k - |before|]] in reclaims;
    }
  }

  lemma {:induction false} BlockToCold(site: Site, fills: seq<ItemEval>, before: seq<MoveEntry>, block: seq<MoveEntry>, placed: seq<nat>)
    requires Selects(fills, placed) && |block| == |placed| && OnHot(site, fills)
    requires forall k :: 0 <= k < |block| ==> MovesToCold(block[k], fills[placed[k]], site)
    ensures ToColdFrom(site, fills, before + block, |before|)
  {
    var entries := before + block;
    forall k | |before| <= k < |entries|
      ensures ColdEntry(site, fills, entries[k])
    {
      assert entries[k] == block[k - |before|];
      assert fills[placed[k - |before|]] in fills;
    }
  }

  lemma {:induction false} DroppingAmong<T>(s: seq<T>, gone: set<nat>)
    ensures Among(Dropping(s, gone), s)
  {
    DroppingMembers(s, gone);
  }

  lemma {:induction false} RoundDirected(site: Site, reclaims: seq<Reclaim>, fills: seq<ItemEval>, before: seq<MoveEntry>, middle: seq<MoveEntry>, entries: seq<MoveEntry>)
    requires |before| <= |middle| <= |entries| && entries[..|middle|] == middle
    requires ToHotFrom(site.layout, reclaims, middle, |before|) && ToColdFrom(site, fills, entries, |middle|)
    ensures DirectedFrom(site, reclaims, fills, entries, |before|)
  {
    forall k | |before| <= k < |entries|
      ensures DirectedEntry(site, reclaims, fills, entries[k])
    {
      if k < |middle| {
        assert entries[k] == entries[..|middle|][k];
      }
    }
  }

  /** Entries directed by candidates still pending are directed by the candidates there were. */
  lemma {:induction false} StillDirected(site: Site, reclaims: seq<Reclaim>, fills: seq<ItemEval>, pendingReclaims: seq<Reclaim>, pendingFills: seq<ItemEval>,
                                         before: seq<MoveEntry>, entries: seq<MoveEntry>)
    requires Among(pendingReclaims, reclaims) && Among(pendingFills, fills) && |before| <= |entries| && entries[..|before|] == before
    requires DirectedFrom(site, reclaims, fills, before, 0) && DirectedFrom(site, pendingReclaims, pendingFills, entries, |before|)
    ensures DirectedFrom(site, reclaims, fills, entries, 0)
  {
    forall k | 0 <= k < |entries|
      ensures DirectedEntry(site, reclaims, fills, entries[k])
    {
      if k < |before| {
        assert entries[k] == before[k];
      } else {
        WiderDirected(site, reclaims, fills, pendingReclaims, pendingFills, entries[k]);
      }
    }
  }

  lemma {:induction false} WiderDirected(site: Site, reclaims: seq<Reclaim>, fills: seq<ItemEval>, pendingReclaims: seq<Reclaim>, pendingFills: seq<ItemEval>, e: MoveEntry)
    requires Among(pendingReclaims, reclaims) && Among(pendingFills, fills) && DirectedEntry(site, pendingReclaims, pendingFills, e)
    ensures DirectedEntry(site, reclaims, fills, e)
  {
  }

  lemma {:induction false} AmongTransitive<T>(a: seq<T>, b: seq<T>, c: seq<T>)
    requires Among(a, b) && Among(b, c)
    ensures Among(a, c)
  {
  }

  /** The reclaim half of a round. */
  method RunReclaims(input: Input, site: Site, volumes: Volumes, working: UsageTable, ghost all: multiset<Item>, before: seq<MoveEntry>, ghost s: Standing,
                     reclaims: seq<Reclaim>, phase: nat)
    returns (entries: seq<MoveEntry>, phase': nat, reclaims': seq<Reclaim>, progressed: bool, ghost hot: seq<MoveEntry>, ghost placed: seq<nat>)
    requires IsGrouping(volumes, input.layout.volumeOf) && Coherent(input.layout.volumeOf, input.usage)
    requires GoingFrom(input, site, all, before, s) && working.usage == s.usage && reclaims == s.reclaims && phase == s.phase
    modifies working
    ensures GoodReclaims(input.layout, s, hot, placed) && entries == before + hot && (progressed <==> hot != [])
    ensures var s' := AfterReclaimPhase(input.layout, s, hot, placed);
            GoingFrom(input, site, all, entries, s') && working.usage == s'.usage && reclaims' == s'.reclaims && phase' == s'.phase
    ensures ToHotFrom(input.layout, reclaims, entries, |before|) && Among(reclaims', reclaims)
    ensures !progressed ==> NoReclaimGoes(input.layout, reclaims', working.usage)
  {
    AfterCoherent(input.layout.volumeOf, input.usage, before);
    var block;
    block, reclaims', progressed, placed := AttemptReclaims(input.layout, volumes, reclaims, working, phase);
    hot := block;
    ReclaimsAreGood(input.layout, s, hot, placed);
    ReclaimsDone(input, site, all, before, s, hot, placed);
    entries := before + block;
    phase' := if progressed then phase + 1 else phase;
    if !progressed {
      NothingPlaced(input.layout, reclaims, s.usage, placed);
    }
  }

  lemma {:induction false} ReclaimsAreGood(layout: Layout, s: Standing, hot: seq<MoveEntry>, placed: seq<nat>)
    requires Selects(s.reclaims, placed) && |hot| == |placed|
    requires forall k :: 0 <= k < |hot| ==> MovesToHot(hot[k], s.reclaims[placed[k]], layout)
    requires OnePhase(layout.volumeOf, s.usage, hot, s.phase)
    requires |hot| >= PlaceableCount(layout, s.reclaims, s.usage) && MostPlaced(layout, s.reclaims, s.usage, |hot|)
    ensures GoodReclaims(layout, s, hot, placed)
  {
  }

  lemma {:induction false} ReclaimsDone(input: Input, site: Site, all: multiset<Item>, before: seq<MoveEntry>, s: Standing, hot: seq<MoveEntry>, placed: seq<nat>)
    requires GoingFrom(input, site, all, before, s) && GoodReclaims(input.layout, s, hot, placed)
    ensures GoingFrom(input, site, all, before + hot, AfterReclaimPhase(input.layout, s, hot, placed))
    ensures ToHotFrom(input.layout, s.reclaims, before + hot, |before|) && Among(Dropping(s.reclaims, AsSet(placed)), s.reclaims)
  {
    AfterReclaims(input, site, all, before, s.phase, s.reclaims, s.fills, s.usage, hot, placed);
    BlockToHot(input.layout, s.reclaims, before, hot, placed);
    DroppingAmong(s.reclaims, AsSet(placed));
  }

  lemma {:induction false} NothingPlaced(layout: Layout, reclaims: seq<Reclaim>, usage: map<Path, Usage>, placed: seq<nat>)
    requires placed == [] && PlaceableCount(layout, reclaims, usage) == 0
    ensures After(layout.volumeOf, usage, []) == usage && NoReclaimGoes(layout, Dropping(reclaims, AsSet(placed)), usage)
  {
    DroppingNone(reclaims);
    assert AsSet(placed) == {};
    NextIsMostConstrained(reclaims, 0, layout.tiers, usage);
  }

  /** The fill half of a round. */
  method RunFills(input: Input, site: Site, volumes: Volumes, working: UsageTable, ghost all: multiset<Item>, before: seq<MoveEntry>, ghost s: Standing,
                  reclaims: seq<Reclaim>, fills: seq<ItemEval>, goal: nat, phase: nat)
    returns (entries: seq<MoveEntry>, phase': nat, fills': seq<ItemEval>, progressed: bool, ghost cold: seq<MoveEntry>, ghost taken: seq<nat>)
    requires IsGrouping(volumes, input.layout.volumeOf) && ValidTiers(input.layout.tiers) && site.layout == input.layout
    requires GoingFrom(input, site, all, before, s) && s == Standing(working.usage, reclaims, fills, goal, phase)
    modifies working
    ensures GoodFills(site, s, cold, taken) && entries == before + cold && (progressed <==> cold != [])
    ensures var s' := AfterFillPhase(input.layout, s, cold, taken);
            GoingFrom(input, site, all, entries, s') && s' == Standing(working.usage, reclaims, fills', goal, phase')
    ensures ToColdFrom(site, fills, entries, |before|) && Among(fills', fills)
    ensures !progressed ==> working.usage == s.usage && NoFillGoes(site, fills', working.usage)
  {
    var block;
    block, fills', progressed, taken := AttemptFills(site, volumes, fills, reclaims, goal, working, phase);
    cold := block;
    FillsAreGood(site, s, cold, taken);
    FillsDone(input, site, all, before, s, cold, taken);
    entries := before + block;
    phase' := if progressed then phase + 1 else phase;
    if !progressed {
      NothingTaken(site, fills, s.usage, phase, taken);
    }
  }

  lemma {:induction false} FillsDone(input: Input, site: Site, all: multiset<Item>, before: seq<MoveEntry>, s: Standing, cold: seq<MoveEntry>, taken: seq<nat>)
    requires site.layout == input.layout && GoingFrom(input, site, all, before, s) && GoodFills(site, s, cold, taken)
    ensures GoingFrom(input, site, all, before + cold, AfterFillPhase(input.layout, s, cold, taken))
    ensures ToColdFrom(site, s.fills, before + cold, |before|) && Among(Dropping(s.fills, AsSet(taken)), s.fills)
  {
    AfterFills(input, site, all, before, s.phase, s.reclaims, s.fills, s.usage, cold, taken);
    BlockToCold(site, s.fills, before, cold, taken);
    DroppingAmong(s.fills, AsSet(taken));
  }

  lemma {:induction false} FillsAreGood(site: Site, s: Standing, cold: seq<MoveEntry>, taken: seq<nat>)
    requires OnHot(site, s.fills) && Selects(s.fills, taken) && |cold| == |taken|
    requires forall k :: 0 <= k < |cold| ==> MovesToCold(cold[k], s.fills[taken[k]], site)
    requires OnePhase(site.layout.volumeOf, s.usage, cold, s.phase)
    requires StopsInTime(site.layout, s.reclaims, s.usage, AllPicks(site, s.fills, s.usage, s.phase), cold, BatchTarget(site, s.fills, s.reclaims, s.goal, s.usage, s.phase))
    ensures GoodFills(site, s, cold, taken)
  {
  }

  lemma {:induction false} NothingTaken(site: Site, fills: seq<ItemEval>, usage: map<Path, Usage>, phase: nat, taken: seq<nat>)
    requires OnHot(site, fills) && taken == [] && AllPicks(site, fills, usage, phase) == []
    ensures After(site.layout.volumeOf, usage, []) == usage && NoFillGoes(site, Dropping(fills, AsSet(taken)), usage)
  {
    DroppingNone(fills);
    assert AsSet(taken) == {};
    forall k | 0 <= k < |fills|
      ensures PickFor(site, usage, fills[k]).None?
    {
      NoPicks(site, fills, usage, phase, k);
    }
  }

  /** What holds between any two steps, of where building stands. */
  ghost predicate GoingFrom(input: Input, site: Site, all: multiset<Item>, entries: seq<MoveEntry>, s: Standing) {
    Going(input, site, all, entries, s.phase, s.reclaims, s.fills, s.usage)
  }

  lemma {:induction false} Regroup<T>(a: seq<T>, b: seq<T>, c: seq<T>)
    ensures a + b + c == a + (b + c)
  {
  }

  lemma {:induction false} PrefixKept<T>(a: seq<T>, b: seq<T>)
    ensures |a| <= |a + b| && (a + b)[..|a|] == a
  {
  }

  /** One round: reclaims, then fills. */
  method RunRound(input: Input, site: Site, volumes: Volumes, working: UsageTable, ghost all: multiset<Item>, before: seq<MoveEntry>, phase: nat,
                  reclaims: seq<Reclaim>, fills: seq<ItemEval>, goal: nat)
    returns (entries: seq<MoveEntry>, phase': nat, reclaims': seq<Reclaim>, fills': seq<ItemEval>, goal': nat, progressed: bool, ghost round: Round)
    requires IsGrouping(volumes, input.layout.volumeOf) && ValidTiers(input.layout.tiers) && site.layout == input.layout
    requires Coherent(input.layout.volumeOf, input.usage)
    requires Going(input, site, all, before, phase, reclaims, fills, working.usage)
    modifies working
    ensures round.start == Standing(old(working.usage), reclaims, fills, goal, phase)
    ensures End(site.layout, round) == Standing(working.usage, reclaims', fills', goal', phase') && Adds(input, site, all, before, round, entries)
    ensures progressed <==> Progressed(round)
    ensures !progressed ==> NothingGoes(site, End(site.layout, round))
  {
    ghost var start := Standing(working.usage, reclaims, fills, goal, phase);
    var reclaimsProgressed, fillsProgressed;
    ghost var hot, placed, cold, taken;
    var middle, mid;
    middle, mid, reclaims', reclaimsProgressed, hot, placed := RunReclaims(input, site, volumes, working, all, before, start, reclaims, phase);
    goal' := if reclaimsProgressed then GrownGoal(goal, |reclaims'|) else goal;
    ghost var m := AfterReclaimPhase(input.layout, start, hot, placed);
    entries, phase', fills', fillsProgressed, cold, taken := RunFills(input, site, volumes, working, all, middle, m, reclaims', fills, goal', mid);
    progressed := reclaimsProgressed || fillsProgressed;
    round := Round(start, hot, placed, cold, taken);
    BothHalves(site, before, start, middle, m, entries, round);
  }

  lemma {:induction false} BothHalves(site: Site, before: seq<MoveEntry>, s: Standing, middle: seq<MoveEntry>, m: Standing, entries: seq<MoveEntry>, r: Round)
    requires r.start == s && GoodReclaims(site.layout, s, r.hot, r.placed) && m == AfterReclaimPhase(site.layout, s, r.hot, r.placed)
    requires GoodFills(site, m, r.cold, r.taken) && middle == before + r.hot && entries == middle + r.cold
    requires ToHotFrom(site.layout, s.reclaims, middle, |before|) && ToColdFrom(site, s.fills, entries, |middle|)
    ensures RoundOk(site, r) && entries == before + (r.hot + r.cold) && DirectedFrom(site, s.reclaims, s.fills, entries, |before|)
  {
    Regroup(before, r.hot, r.cold);
    PrefixKept(before, r.hot);
    PrefixKept(middle, r.cold);
    RoundDirected(site, s.reclaims, s.fills, before, middle, entries);
  }

  /** What holds between two rounds. */
  ghost predicate Building(input: Input, site: Site, reclaims: seq<Reclaim>, fills: seq<ItemEval>, log: seq<Round>, entries: seq<MoveEntry>, s: Standing) {
    && entries == EntriesOf(log) && RunsTo(site, FirstStanding(input, reclaims, fills), log, s)
    && DirectedFrom(site, reclaims, fills, entries, 0) && Among(s.reclaims, reclaims) && Among(s.fills, fills)
    && GoingFrom(input, site, Everything([], reclaims, fills), entries, s)
  }

  /** What a round does to the plan. */
  ghost predicate Adds(input: Input, site: Site, all: multiset<Item>, before: seq<MoveEntry>, r: Round, entries: seq<MoveEntry>) {
    var s, s' := r.start, End(site.layout, r);
    && RoundOk(site, r) && entries == before + (r.hot + r.cold) && GoingFrom(input, site, all, entries, s')
    && DirectedFrom(site, s.reclaims, s.fills, entries, |before|) && Among(s'.reclaims, s.reclaims) && Among(s'.fills, s.fills)
  }

  ghost predicate NothingGoes(site: Site, s: Standing) {
    NoReclaimGoes(site.layout, s.reclaims, s.usage) && NoFillGoes(site, s.fills, s.usage)
  }

  /** The whole loop. The plan is sound, its phases are contiguous, every candidate ends in exactly one
      entry or is left over, and nothing left over has a destination in the final usage. The loop ends
      in a round that placed nothing, never by running out of rounds. */
  method Rounds(input: Input, site: Site, volumes: Volumes, reclaims: seq<Reclaim>, fills: seq<ItemEval>) returns (plan: Plan)
    requires IsGrouping(volumes, input.layout.volumeOf) && ValidTiers(input.layout.tiers) && site.layout == input.layout
    requires Coherent(input.layout.volumeOf, input.usage)
    requires Usable(input, reclaims, fills) && OnHot(site, fills)
    ensures InRounds(input, site, reclaims, fills, plan)
    ensures GoodPlan(input, site, reclaims, fills, plan)
  {
    ghost var log: seq<Round>, stopped := [], false;
    var working := new UsageTable.Copy(input.usage);
    var pendingReclaims, pendingFills := reclaims, fills;
    var entries: seq<MoveEntry>, phase, goal := [], 0, 1;
    NothingBuilt(input, site, reclaims, fills);
    var maxRounds := |reclaims| + |fills| + 1;
    for round := 0 to maxRounds
      invariant round == |log| && !stopped
      invariant Building(input, site, reclaims, fills, log, entries, Standing(working.usage, pendingReclaims, pendingFills, goal, phase))
    {
      var progressed;
      ghost var before, r := entries, Round(FirstStanding(input, [], []), [], [], [], []);
      entries, phase, pendingReclaims, pendingFills, goal, progressed, r :=
        RunRound(input, site, volumes, working, Everything([], reclaims, fills), entries, phase, pendingReclaims, pendingFills, goal);
      if !progressed {
        RoundsOver(input, site, reclaims, fills, log, before, r, entries);
        stopped := true;
        break;
      }
      NextRound(input, site, reclaims, fills, log, before, r, entries);
      log := log + [r];
    }
    if !stopped {
      ProgressAddsUp(site, FirstStanding(input, reclaims, fills), log, Standing(working.usage, pendingReclaims, pendingFills, goal, phase));
      assert false;
    }
    plan := Plan(entries, working.usage, pendingReclaims, pendingFills);
  }

  lemma {:induction false} NothingBuilt(input: Input, site: Site, reclaims: seq<Reclaim>, fills: seq<ItemEval>)
    requires Usable(input, reclaims, fills) && OnHot(site, fills)
    ensures Building(input, site, reclaims, fills, [], [], FirstStanding(input, reclaims, fills))
  {
  }

  /** A round that placed something goes on with the plan ... */
  lemma {:induction false} NextRound(input: Input, site: Site, reclaims: seq<Reclaim>, fills: seq<ItemEval>, log: seq<Round>, before: seq<MoveEntry>, r: Round,
                                     entries: seq<MoveEntry>)
    requires Building(input, site, reclaims, fills, log, before, r.start) && Progressed(r)
    requires Adds(input, site, Everything([], reclaims, fills), before, r, entries)
    ensures Building(input, site, reclaims, fills, log + [r], entries, End(site.layout, r))
  {
    AddRound(site, FirstStanding(input, reclaims, fills), log, r);
    RoundAdded(input, site, reclaims, fills, log, before, r, entries);
  }

  lemma {:induction false} RoundAdded(input: Input, site: Site, reclaims: seq<Reclaim>, fills: seq<ItemEval>, log: seq<Round>, before: seq<MoveEntry>, r: Round,
                                      entries: seq<MoveEntry>)
    requires Building(input, site, reclaims, fills, log, before, r.start) && Adds(input, site, Everything([], reclaims, fills), before, r, entries)
    ensures entries == EntriesOf(log + [r]) && DirectedFrom(site, reclaims, fills, entries, 0)
    ensures Among(End(site.layout, r).reclaims, reclaims) && Among(End(site.layout, r).fills, fills)
  {
    EntriesAppend(log, r);
    PrefixKept(before, r.hot + r.cold);
    StillDirected(site, reclaims, fills, r.start.reclaims, r.start.fills, before, entries);
    AmongTransitive(End(site.layout, r).reclaims, r.start.reclaims, reclaims);
    AmongTransitive(End(site.layout, r).fills, r.start.fills, fills);
  }

  /** ... and one that placed nothing finishes it. */
  lemma {:induction false} RoundsOver(input: Input, site: Site, reclaims: seq<Reclaim>, fills: seq<ItemEval>, log: seq<Round>, before: seq<MoveEntry>, r: Round,
                                      entries: seq<MoveEntry>)
    requires Building(input, site, reclaims, fills, log, before, r.start) && !Progressed(r) && site.layout == input.layout
    requires Adds(input, site, Everything([], reclaims, fills), before, r, entries) && NothingGoes(site, End(site.layout, r))
    ensures var end := End(site.layout, r);
            var plan := Plan(entries, end.usage, end.reclaims, end.fills);
            InRounds(input, site, reclaims, fills, plan) && GoodPlan(input, site, reclaims, fills, plan)
  {
    LastRound(site, FirstStanding(input, reclaims, fills), log, r);
    RoundAdded(input, site, reclaims, fills, log, before, r, entries);
    var end := End(site.layout, r);
    InRoundsBy(input, site, reclaims, fills, entries, log + [r], end);
    GoodPlanBy(input, site, reclaims, fills, entries, end);
  }

  lemma {:induction false} InRoundsBy(input: Input, site: Site, reclaims: seq<Reclaim>, fills: seq<ItemEval>, entries: seq<MoveEntry>, log: seq<Round>, end: Standing)
    requires WholeRun(site, FirstStanding(input, reclaims, fills), log, end) && EntriesOf(log) == entries
    ensures InRounds(input, site, reclaims, fills, Plan(entries, end.usage, end.reclaims, end.fills))
  {
    assert LogOf(input, site, reclaims, fills, Plan(entries, end.usage, end.reclaims, end.fills), log, end);
  }

  lemma {:induction false} GoodPlanBy(input: Input, site: Site, reclaims: seq<Reclaim>, fills: seq<ItemEval>, entries: seq<MoveEntry>, end: Standing)
    requires site.layout == input.layout && GoingFrom(input, site, Everything([], reclaims, fills), entries, end) && NothingGoes(site, end)
    requires DirectedFrom(site, reclaims, fills, entries, 0) && Among(end.reclaims, reclaims) && Among(end.fills, fills)
    ensures GoodPlan(input, site, reclaims, fills, Plan(entries, end.usage, end.reclaims, end.fills))
  {
  }

  /** What a plan built from these candidates guarantees. */
  ghost predicate GoodPlan(input: Input, site: Site, reclaims: seq<Reclaim>, fills: seq<ItemEval>, plan: Plan) {
    && Sound(input.layout.volumeOf, input.usage, plan.entries)
    && (exists phases :: Contiguous(plan.entries, phases)) && FromRoots(plan.entries)
    && DirectedFrom(site, reclaims, fills, plan.entries, 0)
    && Among(plan.leftReclaims, reclaims) && Among(plan.leftFills, fills)
    && plan.finalUsage == After(input.layout.volumeOf, input.usage, plan.entries)
    && Everything(plan.entries, plan.leftReclaims, plan.leftFills) == Everything([], reclaims, fills)
    && NoReclaimGoes(input.layout, plan.leftReclaims, plan.finalUsage)
    && NoFillGoes(site, plan.leftFills, plan.finalUsage)
  }

  // ----- built in rounds

  function FirstStanding(input: Input, reclaims: seq<Reclaim>, fills: seq<ItemEval>): Standing {
    Standing(input.usage, reclaims, fills, 1, 0)
  }

  /** The log is that of the plan: a whole run of rounds from the candidates to the leftovers, whose entries
      are the plan's. */
  ghost predicate LogOf(input: Input, site: Site, reclaims: seq<Reclaim>, fills: seq<ItemEval>, plan: Plan, log: seq<Round>, end: Standing) {
    && WholeRun(site, FirstStanding(input, reclaims, fills), log, end) && EntriesOf(log) == plan.entries
    && end.usage == plan.finalUsage && end.reclaims == plan.leftReclaims && end.fills == plan.leftFills
  }

  ghost predicate InRounds(input: Input, site: Site, reclaims: seq<Reclaim>, fills: seq<ItemEval>, plan: Plan) {
    exists log: seq<Round>, end: Standing :: LogOf(input, site, reclaims, fills, plan, log, end)
  }

  /** No plan of anything is built from no candidates. */
  lemma {:induction false} NothingFromNothing(input: Input, site: Site, plan: Plan)
    requires InRounds(input, site, [], [], plan)
    ensures plan.entries == []
  {
    var log: seq<Round>, end: Standing :| LogOf(input, site, [], [], plan, log, end);
    RunBegins(site, FirstStanding(input, [], []), log, end);
    RoundSizes(site, log[0]);
    assert !Progressed(log[0]) && log == [log[0]];
    assert log[1..] == [];
    assert EntriesOf(log) == log[0].hot + log[0].cold + EntriesOf([]);
  }

  /** A plan for an input that lists no item twice has one log of rounds, and in it every fill batch is paid by
      the next round. */
  lemma {:induction false} OneLog(input: Input, site: Site, reclaims: seq<Reclaim>, fills: seq<ItemEval>, plan: Plan, a: seq<Round>, endA: Standing, b: seq<Round>, endB: Standing)
    requires ValidTiers(input.layout.tiers) && ListedOnce(input.items) && CandidatesOf(input, site, reclaims, fills)
    requires LogOf(input, site, reclaims, fills, plan, a, endA) && LogOf(input, site, reclaims, fills, plan, b, endB)
    ensures a == b && endA == endB && LookedAhead(site, a)
  {
    CandidatesApart(input, site, reclaims, fills);
    LogIsUnique(site, FirstStanding(input, reclaims, fills), a, endA, b, endB);
    RoundsLookAhead(site, FirstStanding(input, reclaims, fills), a, endA);
  }

  /** The candidates a plan is built from: what is misplaced on cold paths, and what may leave hot
      ones, coldest and largest first. */
  ghost predicate CandidatesOf(input: Input, site: Site, reclaims: seq<Reclaim>, fills: seq<ItemEval>) {
    && site.layout == input.layout && IsPathsOf(site.hotPaths, input.layout.tiers, Hot, input.usage)
    && (exists coldPaths :: IsPathsOf(coldPaths, input.layout.tiers, Cold, input.usage) && reclaims == Misplaced(input.items, coldPaths))
    && multiset(fills) == multiset(ColdEligibleOf(input.items, site.hotPaths, input.cooling, input.minMoveBytes))
    && SortedBy(fills, Colder)
  }

  /** A plan Build may return: good for the input's candidates, and built by rounds that looked ahead. */
  ghost predicate Built(input: Input, plan: Plan) {
    exists site: Site, reclaims: seq<Reclaim>, fills: seq<ItemEval> ::
      CandidatesOf(input, site, reclaims, fills) && GoodPlan(input, site, reclaims, fills, plan) && InRounds(input, site, reclaims, fills, plan)
  }

  /** Build: usable paths, candidates, volumes, rounds. */
  method BuildPlan(input: Input) returns (plan: Plan)
    requires ValidTiers(input.layout.tiers) && Coherent(input.layout.volumeOf, input.usage)
    ensures Built(input, plan)
  {
    var volumes := GroupVolumes(input.layout.volumeOf);
    var hotPaths := PathsOf(input.layout.tiers, Hot, input.usage);
    var coldPaths := PathsOf(input.layout.tiers, Cold, input.usage);
    var reclaims := MisplacedOnCold(input.items, coldPaths);
    var fills := ColdCandidates(input.items, hotPaths, input.cooling, input.minMoveBytes);
    var site := Site(input.layout, hotPaths);
    CandidatesUsable(input, site, coldPaths, reclaims, fills);
    plan := Rounds(input, site, volumes, reclaims, fills);
    assert CandidatesOf(input, site, reclaims, fills);
  }

  lemma {:induction false} CandidatesUsable(input: Input, site: Site, coldPaths: map<Path, Tier>, reclaims: seq<Reclaim>, fills: seq<ItemEval>)
    requires IsPathsOf(site.hotPaths, input.layout.tiers, Hot, input.usage) && IsPathsOf(coldPaths, input.layout.tiers, Cold, input.usage)
    requires reclaims == Misplaced(input.items, coldPaths)
    requires multiset(fills) == multiset(ColdEligibleOf(input.items, site.hotPaths, input.cooling, input.minMoveBytes))
    ensures Usable(input, reclaims, fills) && OnHot(site, fills)
  {
    MisplacedRoots(input.items, coldPaths);
    EligibleRoots(input.items, site.hotPaths, input.cooling, input.minMoveBytes);
    SamePermutationMembers(fills, ColdEligibleOf(input.items, site.hotPaths, input.cooling, input.minMoveBytes));
    assert forall k :: 0 <= k < |fills| ==> fills[k] in fills;
  }

  // ----- one item, one candidate

  /** No item is listed twice. */
  ghost predicate ListedOnce(items: seq<ItemEval>) {
    forall i, j :: 0 <= i < j < |items| ==> items[i].item != items[j].item
  }

  lemma {:induction false} MisplacedApart(items: seq<ItemEval>, coldPaths: map<Path, Tier>)
    requires ListedOnce(items)
    ensures forall r :: r in Misplaced(items, coldPaths) ==> r.eval in items
    ensures forall i, j :: 0 <= i < j < |Misplaced(items, coldPaths)| ==> Misplaced(items, coldPaths)[i].eval.item != Misplaced(items, coldPaths)[j].eval.item
    decreases |items|
  {
    if items != [] {
      var n := |items| - 1;
      MisplacedApart(items[..n], coldPaths);
      NotListedBefore(items);
    }
  }

  lemma {:induction false} NotListedBefore(items: seq<ItemEval>)
    requires items != [] && ListedOnce(items)
    ensures ListedOnce(items[..|items| - 1]) && forall c :: c in items[..|items| - 1] ==> c in items && c.item != items[|items| - 1].item
  {
  }

  lemma {:induction false} EligibleApart(items: seq<ItemEval>, hotPaths: map<Path, Tier>, cooling: set<Key>, minMoveBytes: int)
    requires ListedOnce(items)
    ensures forall c :: c in ColdEligibleOf(items, hotPaths, cooling, minMoveBytes) ==> c in items
    ensures ListedOnce(ColdEligibleOf(items, hotPaths, cooling, minMoveBytes))
    decreases |items|
  {
    if items != [] {
      EligibleApart(items[..|items| - 1], hotPaths, cooling, minMoveBytes);
      NotListedBefore(items);
    }
  }

  lemma {:induction false} PermutedApart(a: seq<ItemEval>, b: seq<ItemEval>)
    requires ListedOnce(a) && multiset(a) == multiset(b)
    ensures ListedOnce(b)
  {
    SamePermutationMembers(b, a);
    PermutedNoRepeats(a, b);
    forall i, j | 0 <= i < j < |b|
      ensures b[i].item != b[j].item
    {
      assert b[i] in a && b[j] in a;
      assert b[i] != b[j];
    }
  }

  /** The candidates of an input that lists no item twice are all different items. */
  lemma {:induction false} CandidatesApart(input: Input, site: Site, reclaims: seq<Reclaim>, fills: seq<ItemEval>)
    requires ListedOnce(input.items) && CandidatesOf(input, site, reclaims, fills)
    ensures ItemsApart(FirstStanding(input, reclaims, fills))
  {
    var coldPaths :| IsPathsOf(coldPaths, input.layout.tiers, Cold, input.usage) && reclaims == Misplaced(input.items, coldPaths);
    MisplacedApart(input.items, coldPaths);
    var eligible := ColdEligibleOf(input.items, site.hotPaths, input.cooling, input.minMoveBytes);
    EligibleApart(input.items, site.hotPaths, input.cooling, input.minMoveBytes);
    PermutedApart(eligible, fills);
  }

  lemma {:induction false} MisplacedRoots(items: seq<ItemEval>, coldPaths: map<Path, Tier>)
    ensures forall k :: 0 <= k < |Misplaced(items, coldPaths)| ==> Misplaced(items, coldPaths)[k].eval.item.root in coldPaths
    decreases |items|
  {
    if items != [] {
      MisplacedRoots(items[..|items| - 1], coldPaths);
    }
  }

  lemma {:induction false} EligibleRoots(items: seq<ItemEval>, hotPaths: map<Path, Tier>, cooling: set<Key>, minMoveBytes: int)
    ensures forall c :: c in ColdEligibleOf(items, hotPaths, cooling, minMoveBytes) ==> c.item.root in hotPaths
    decreases |items|
  {
    if items != [] {
      EligibleRoots(items[..|items| - 1], hotPaths, cooling, minMoveBytes);
    }
  }
}
