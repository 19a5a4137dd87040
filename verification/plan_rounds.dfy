/** The rounds a plan is built in: what each places, what it leaves, and what it makes room for
    (internal/planner). */
module PlanRounds {
  import opened DiskUsage
  import opened PlannerModel
  import opened Reclaims
  import opened ReclaimPhase
  import opened FillPhase
  import opened Planner

  /** The goal of the next reclaim wave: four times the last, at most everything still pending. */
  function GrownGoal(goal: nat, pending: nat): nat {
    if goal < pending then (if goal > pending / 4 then pending else goal * 4) else goal
  }

  /** Where building stands between two phases: the projected usage, what is pending, the goal of the next
      reclaim wave and the next phase number. */
  datatype Standing = Standing(usage: map<Path, Usage>, reclaims: seq<Reclaim>, fills: seq<ItemEval>, goal: nat, phase: nat)

  /** One round: where it started, the entries of its reclaim phase and which pending reclaims they move, and
      the same for its fill phase. */
  datatype Round = Round(start: Standing, hot: seq<MoveEntry>, placed: seq<nat>, cold: seq<MoveEntry>, taken: seq<nat>)

  function AfterReclaimPhase(layout: Layout, s: Standing, hot: seq<MoveEntry>, placed: seq<nat>): Standing {
    var left := Dropping(s.reclaims, AsSet(placed));
    if hot == [] then s.(usage := After(layout.volumeOf, s.usage, hot), reclaims := left)
    else Standing(After(layout.volumeOf, s.usage, hot), left, s.fills, GrownGoal(s.goal, |left|), s.phase + 1)
  }

  function AfterFillPhase(layout: Layout, s: Standing, cold: seq<MoveEntry>, taken: seq<nat>): Standing {
    s.(usage := After(layout.volumeOf, s.usage, cold), fills := Dropping(s.fills, AsSet(taken)), phase := if cold == [] then s.phase else s.phase + 1)
  }

  /** After the round's reclaims, and after its fills. */
  function Middle(layout: Layout, r: Round): Standing {
    AfterReclaimPhase(layout, r.start, r.hot, r.placed)
  }

  function End(layout: Layout, r: Round): Standing {
    AfterFillPhase(layout, Middle(layout, r), r.cold, r.taken)
  }

  predicate Progressed(r: Round) {
    r.hot != [] || r.cold != []
  }

  /** A reclaim phase from there: some of the pending reclaims, each to a hot path that holds it with the
      phase's earlier ones, at least as many as placing them greedily would, and as many as can be while the
      search is small enough. */
  ghost predicate GoodReclaims(layout: Layout, s: Standing, hot: seq<MoveEntry>, placed: seq<nat>) {
    && Selects(s.reclaims, placed) && |hot| == |placed|
    && (forall k :: 0 <= k < |hot| ==> MovesToHot(hot[k], s.reclaims[placed[k]], layout))
    && OnePhase(layout.volumeOf, s.usage, hot, s.phase)
    && |hot| >= PlaceableCount(layout, s.reclaims, s.usage) && MostPlaced(layout, s.reclaims, s.usage, |hot|)
  }

  /** How many reclaims a fill phase from there makes room for. */
  ghost function TargetAt(site: Site, s: Standing): nat
    requires OnHot(site, s.fills)
  {
    BatchTarget(site, s.fills, s.reclaims, s.goal, s.usage, s.phase)
  }

  /** A fill phase from there: pick after pick, until they run out or make room for the target. */
  ghost predicate GoodFills(site: Site, s: Standing, cold: seq<MoveEntry>, taken: seq<nat>) {
    && OnHot(site, s.fills) && Selects(s.fills, taken) && |cold| == |taken|
    && (forall k :: 0 <= k < |cold| ==> MovesToCold(cold[k], s.fills[taken[k]], site))
    && OnePhase(site.layout.volumeOf, s.usage, cold, s.phase)
    && StopsInTime(site.layout, s.reclaims, s.usage, AllPicks(site, s.fills, s.usage, s.phase), cold, TargetAt(site, s))
  }

  ghost predicate RoundOk(site: Site, r: Round) {
    GoodReclaims(site.layout, r.start, r.hot, r.placed) && GoodFills(site, Middle(site.layout, r), r.cold, r.taken)
  }

  /** The entries of the rounds, in plan order. */
  function EntriesOf(log: seq<Round>): seq<MoveEntry>
    decreases |log|
  {
    if log == [] then [] else log[0].hot + log[0].cold + EntriesOf(log[1..])
  }

  /** Rounds that each place something, from one standing to another. */
  ghost predicate RunsTo(site: Site, first: Standing, log: seq<Round>, end: Standing)
    decreases |log|
  {
    if log == [] then first == end
    else RoundOk(site, log[0]) && log[0].start == first && Progressed(log[0]) && RunsTo(site, End(site.layout, log[0]), log[1..], end)
  }

  /** A whole run of rounds: it goes on exactly as long as rounds place something. */
  ghost predicate WholeRun(site: Site, first: Standing, log: seq<Round>, end: Standing)
    decreases |log|
  {
    && log != [] && RoundOk(site, log[0]) && log[0].start == first
    && if Progressed(log[0]) then WholeRun(site, End(site.layout, log[0]), log[1..], end) else |log| == 1 && end == End(site.layout, log[0])
  }

  // ----- adding rounds

  lemma {:induction false} TailAppend<T>(s: seq<T>, x: T)
    requires s != []
    ensures (s + [x])[1..] == s[1..] + [x]
  {
  }

  lemma {:induction false} EntriesAppend(log: seq<Round>, r: Round)
    ensures EntriesOf(log + [r]) == EntriesOf(log) + (r.hot + r.cold)
    decreases |log|
  {
    if log == [] {
      assert log + [r] == [r] && [r][1..] == [];
    } else {
      TailAppend(log, r);
      EntriesAppend(log[1..], r);
    }
  }

  /** One more round that places something continues a run. */
  lemma {:induction false} AddRound(site: Site, first: Standing, log: seq<Round>, r: Round)
    requires RunsTo(site, first, log, r.start) && RoundOk(site, r) && Progressed(r)
    ensures RunsTo(site, first, log + [r], End(site.layout, r))
    decreases |log|
  {
    if log == [] {
      assert log + [r] == [r] && [r][1..] == [];
      assert RunsTo(site, End(site.layout, r), [], End(site.layout, r));
    } else {
      TailAppend(log, r);
      AddRound(site, End(site.layout, log[0]), log[1..], r);
    }
  }

  /** One that places nothing ends it. */
  lemma {:induction false} LastRound(site: Site, first: Standing, log: seq<Round>, r: Round)
    requires RunsTo(site, first, log, r.start) && RoundOk(site, r) && !Progressed(r)
    ensures WholeRun(site, first, log + [r], End(site.layout, r))
    decreases |log|
  {
    if log == [] {
      assert log + [r] == [r];
    } else {
      TailAppend(log, r);
      LastRound(site, End(site.layout, log[0]), log[1..], r);
    }
  }

  /** A round takes what it places out of the pending lists and nothing else. */
  lemma {:induction false} RoundSizes(site: Site, r: Round)
    requires RoundOk(site, r)
    ensures |r.hot| + |End(site.layout, r).reclaims| == |r.start.reclaims| && |r.cold| + |End(site.layout, r).fills| == |r.start.fills|
  {
    PickedOrLeft(r.start.reclaims, r.placed);
    PickedOrLeft(r.start.fills, r.taken);
  }

  /** Rounds that each place something are no more than what they take out of the pending lists. */
  lemma {:induction false} ProgressAddsUp(site: Site, first: Standing, log: seq<Round>, end: Standing)
    requires RunsTo(site, first, log, end)
    ensures |log| + |end.reclaims| + |end.fills| <= |first.reclaims| + |first.fills|
    decreases |log|
  {
    if log != [] {
      RoundSizes(site, log[0]);
      ProgressAddsUp(site, End(site.layout, log[0]), log[1..], end);
    }
  }

  // ----- looking ahead

  /** A round whose fills were placed to make room for a batch of reclaims is followed by one that places at
      least that many. */
  lemma {:induction false} PayRound(site: Site, r: Round, next: Round)
    requires RoundOk(site, r) && RoundOk(site, next) && next.start == End(site.layout, r) && r.cold != []
    ensures |next.hot| >= TargetAt(site, Middle(site.layout, r))
  {
  }

  /** In a whole run every batch is paid by the next round. */
  ghost predicate LookedAhead(site: Site, log: seq<Round>) {
    forall i :: 0 <= i < |log| && log[i].cold != [] ==> i + 1 < |log| && Paid(site, log[i], log[i + 1])
  }

  ghost predicate Paid(site: Site, r: Round, next: Round) {
    OnHot(site, Middle(site.layout, r).fills) && |next.hot| >= TargetAt(site, Middle(site.layout, r))
  }

  lemma {:induction false} RoundsLookAhead(site: Site, first: Standing, log: seq<Round>, end: Standing)
    requires WholeRun(site, first, log, end)
    ensures LookedAhead(site, log)
    decreases |log|
  {
    RunBegins(site, first, log, end);
    if Progressed(log[0]) {
      var rest := log[1..];
      RoundsLookAhead(site, End(site.layout, log[0]), rest, end);
      RunBegins(site, End(site.layout, log[0]), rest, end);
      if log[0].cold != [] {
        PayRound(site, log[0], rest[0]);
      }
      PaidTogether(site, log);
    }
  }

  lemma {:induction false} PaidTogether(site: Site, log: seq<Round>)
    requires |log| > 1 && LookedAhead(site, log[1..]) && (log[0].cold != [] ==> Paid(site, log[0], log[1]))
    ensures LookedAhead(site, log)
  {
    var rest := log[1..];
    forall i | 0 <= i < |log| && log[i].cold != []
      ensures i + 1 < |log| && Paid(site, log[i], log[i + 1])
    {
      if i > 0 {
        assert log[i] == rest[i - 1];
        assert i + 1 < |log| && log[i + 1] == rest[i];
      }
    }
  }

  // ----- the rounds are the plan's own

  ghost predicate PhasesAtLeast(entries: seq<MoveEntry>, phase: nat) {
    forall k :: 0 <= k < |entries| ==> entries[k].phase >= phase
  }

  lemma {:induction false} RoundPhases(site: Site, r: Round)
    requires RoundOk(site, r)
    ensures PhasesAtLeast(r.hot, r.start.phase) && PhasesAtLeast(r.cold, r.start.phase) && r.start.phase <= End(site.layout, r).phase
    ensures r.hot != [] ==> r.start.phase < End(site.layout, r).phase
  {
  }

  lemma {:induction false} PhasesTogether(a: seq<MoveEntry>, b: seq<MoveEntry>, c: seq<MoveEntry>, phase: nat, later: nat)
    requires PhasesAtLeast(a, phase) && PhasesAtLeast(b, phase) && PhasesAtLeast(c, later) && phase <= later
    ensures PhasesAtLeast(a + b + c, phase)
  {
  }

  /** Every entry is of the phase the run starts with or of a later one. */
  lemma {:induction false} PhasesFrom(site: Site, first: Standing, log: seq<Round>, end: Standing)
    requires WholeRun(site, first, log, end)
    ensures PhasesAtLeast(EntriesOf(log), first.phase)
    decreases |log|
  {
    var r := log[0];
    RoundPhases(site, r);
    if Progressed(r) {
      PhasesFrom(site, End(site.layout, r), log[1..], end);
      PhasesTogether(r.hot, r.cold, EntriesOf(log[1..]), first.phase, End(site.layout, r).phase);
    } else {
      assert log[1..] == [];
      PhasesTogether(r.hot, r.cold, [], first.phase, first.phase);
    }
  }

  lemma {:induction false} HotGoesHot(e: MoveEntry, r: Reclaim, layout: Layout) returns (s: Slot)
    requires MovesToHot(e, r, layout)
    ensures s.tier in layout.tiers && s.tier.role == Hot && s.path in s.tier.paths && e.toPath == s.path
  {
    s :| s in Slots(layout.tiers) && s.tier.role == Hot && s.tier.Accepts(r.Media()) && e == ReclaimEntry(r, s, e.phase);
    SlotsFromTiers(layout.tiers, s);
    assert ReclaimEntry(r, s, e.phase).toPath == s.path;
  }

  lemma {:induction false} ColdGoesCold(e: MoveEntry, c: ItemEval, site: Site) returns (s: Slot)
    requires c.item.root in site.hotPaths && MovesToCold(e, c, site)
    ensures s.tier in site.layout.tiers && s.tier.role == Cold && s.path in s.tier.paths && e.toPath == s.path
  {
    s :| s in Slots(site.layout.tiers) && s.tier.role == Cold && s.tier.Accepts(c.item.mediaType) && e == FillEntry(site, c, s, e.phase);
    SlotsFromTiers(site.layout.tiers, s);
    assert FillEntry(site, c, s, e.phase).toPath == s.path;
  }

  /** Where an entry goes tells a reclaim from a fill. */
  lemma {:induction false} DirectionIsPlain(site: Site, e: MoveEntry, r: Reclaim, c: ItemEval)
    requires ValidTiers(site.layout.tiers) && MovesToHot(e, r, site.layout) && c.item.root in site.hotPaths
    ensures !MovesToCold(e, c, site)
  {
    var s := HotGoesHot(e, r, site.layout);
    if MovesToCold(e, c, site) {
      var t := ColdGoesCold(e, c, site);
      OneTier(site.layout.tiers, s, t);
    }
  }

  lemma {:induction false} OneTier(tiers: seq<Tier>, s: Slot, t: Slot)
    requires ValidTiers(tiers) && s.tier in tiers && t.tier in tiers && s.path in s.tier.paths && t.path in t.tier.paths && s.path == t.path
    ensures s.tier == t.tier
  {
    var i :| 0 <= i < |tiers| && tiers[i] == s.tier;
    var j :| 0 <= j < |tiers| && tiers[j] == t.tier;
    assert i == j;
  }

  /** The entry is a reclaim's, in that phase. */
  ghost predicate HotIn(layout: Layout, phase: nat, e: MoveEntry) {
    e.phase == phase && exists r :: MovesToHot(e, r, layout)
  }

  /** Reclaims of the phase, and then something else. */
  ghost predicate HotThenOther(layout: Layout, phase: nat, hot: seq<MoveEntry>, rest: seq<MoveEntry>) {
    (forall k :: 0 <= k < |hot| ==> HotIn(layout, phase, hot[k])) && (rest != [] ==> !HotIn(layout, phase, rest[0]))
  }

  lemma {:induction false} AllHot(layout: Layout, s: Standing, hot: seq<MoveEntry>, placed: seq<nat>)
    requires GoodReclaims(layout, s, hot, placed)
    ensures forall k :: 0 <= k < |hot| ==> HotIn(layout, s.phase, hot[k])
  {
  }

  /** What follows a round's reclaims does not begin with one more of their phase. */
  lemma {:induction false} HotEnds(site: Site, first: Standing, log: seq<Round>, end: Standing)
    requires ValidTiers(site.layout.tiers) && WholeRun(site, first, log, end)
    ensures HotThenOther(site.layout, first.phase, log[0].hot, log[0].cold + EntriesOf(log[1..]))
  {
    var r := log[0];
    AllHot(site.layout, r.start, r.hot, r.placed);
    if r.cold != [] {
      ColdIsNotHot(site, Middle(site.layout, r), r.cold, r.taken, first.phase);
    } else {
      LaterIsNotHot(site, first, log, end);
    }
    OtherBegins(site.layout, first.phase, r.hot, r.cold, EntriesOf(log[1..]));
  }

  lemma {:induction false} OtherBegins(layout: Layout, phase: nat, hot: seq<MoveEntry>, cold: seq<MoveEntry>, later: seq<MoveEntry>)
    requires forall k :: 0 <= k < |hot| ==> HotIn(layout, phase, hot[k])
    requires if cold != [] then !HotIn(layout, phase, cold[0]) else later != [] ==> !HotIn(layout, phase, later[0])
    ensures HotThenOther(layout, phase, hot, cold + later)
  {
    assert cold == [] ==> cold + later == later;
  }

  lemma {:induction false} LaterIsNotHot(site: Site, first: Standing, log: seq<Round>, end: Standing)
    requires WholeRun(site, first, log, end) && log[0].cold == []
    ensures EntriesOf(log[1..]) != [] ==> !HotIn(site.layout, first.phase, EntriesOf(log[1..])[0])
  {
    var r := log[0];
    RoundPhases(site, r);
    if r.hot != [] {
      PhasesFrom(site, End(site.layout, r), log[1..], end);
    } else {
      assert log[1..] == [];
    }
  }

  lemma {:induction false} ColdIsNotHot(site: Site, s: Standing, cold: seq<MoveEntry>, taken: seq<nat>, phase: nat)
    requires ValidTiers(site.layout.tiers) && GoodFills(site, s, cold, taken) && cold != []
    ensures !HotIn(site.layout, phase, cold[0])
  {
    assert MovesToCold(cold[0], s.fills[taken[0]], site);
    if r :| MovesToHot(cold[0], r, site.layout) {
      DirectionIsPlain(site, cold[0], r, s.fills[taken[0]]);
    }
  }

  /** A list splits in one way into entries of a kind and a rest that does not begin with one. */
  lemma {:induction false} SplitsOnce(layout: Layout, phase: nat, a: seq<MoveEntry>, restA: seq<MoveEntry>, b: seq<MoveEntry>, restB: seq<MoveEntry>)
    requires a + restA == b + restB && HotThenOther(layout, phase, a, restA) && HotThenOther(layout, phase, b, restB)
    ensures a == b && restA == restB
  {
    if |a| < |b| {
      RestBegins(a, restA, b, restB);
    } else if |b| < |a| {
      RestBegins(b, restB, a, restA);
    }
    SameLengths(a, restA, b, restB);
  }

  lemma {:induction false} RestBegins<T>(a: seq<T>, restA: seq<T>, b: seq<T>, restB: seq<T>)
    requires a + restA == b + restB && |a| < |b|
    ensures restA != [] && restA[0] == b[|a|]
  {
    assert (a + restA)[|a|] == (b + restB)[|a|];
  }

  lemma {:induction false} SameLengths<T>(a: seq<T>, restA: seq<T>, b: seq<T>, restB: seq<T>)
    requires a + restA == b + restB && |a| == |b|
    ensures a == b && restA == restB
  {
    assert (a + restA)[..|a|] == a && (b + restB)[..|b|] == b;
    assert (a + restA)[|a|..] == restA && (b + restB)[|b|..] == restB;
  }

  /** A fill phase is decided by where it starts. */
  lemma {:induction false} StopsOnce(layout: Layout, reclaims: seq<Reclaim>, start: map<Path, Usage>, all: seq<MoveEntry>, target: nat, a: seq<MoveEntry>, b: seq<MoveEntry>)
    requires StopsInTime(layout, reclaims, start, all, a, target) && StopsInTime(layout, reclaims, start, all, b, target)
    ensures a == b
  {
    if target > 0 && a != [] && b != [] {
      NotSooner(layout, reclaims, start, all, target, a, b);
      NotSooner(layout, reclaims, start, all, target, b, a);
    }
  }

  lemma {:induction false} NotSooner(layout: Layout, reclaims: seq<Reclaim>, start: map<Path, Usage>, all: seq<MoveEntry>, target: nat, a: seq<MoveEntry>, b: seq<MoveEntry>)
    requires target > 0 && a != [] && a <= all && b <= all
    requires PlaceableCount(layout, reclaims, After(layout.volumeOf, start, a)) >= target
    requires TooFew(layout, reclaims, start, b, |b|, target)
    ensures |b| <= |a|
  {
    if |a| < |b| {
      ShorterHasTooFew(layout, reclaims, start, b, a, target);
    }
  }

  lemma {:induction false} ShorterHasTooFew(layout: Layout, reclaims: seq<Reclaim>, start: map<Path, Usage>, b: seq<MoveEntry>, a: seq<MoveEntry>, target: nat)
    requires TooFew(layout, reclaims, start, b, |b|, target) && a != [] && a < b
    ensures PlaceableCount(layout, reclaims, After(layout.volumeOf, start, a)) < target
  {
    assert b[..|a|] == a;
    assert TooFewAt(layout, reclaims, start, b, |a|, target);
  }

  // ----- one log for one plan

  /** No two candidates are one item. */
  ghost predicate ItemsApart(s: Standing) {
    && (forall i, j :: 0 <= i < j < |s.reclaims| ==> s.reclaims[i].eval.item != s.reclaims[j].eval.item)
    && forall i, j :: 0 <= i < j < |s.fills| ==> s.fills[i].item != s.fills[j].item
  }

  lemma {:induction false} ReclaimsKnown(layout: Layout, s: Standing, hot: seq<MoveEntry>, a: seq<nat>, b: seq<nat>)
    requires ItemsApart(s) && GoodReclaims(layout, s, hot, a) && GoodReclaims(layout, s, hot, b)
    ensures a == b
  {
    forall k | 0 <= k < |hot|
      ensures a[k] == b[k]
    {
      assert MovesToHot(hot[k], s.reclaims[a[k]], layout) && MovesToHot(hot[k], s.reclaims[b[k]], layout);
      assert s.reclaims[a[k]].eval.item == hot[k].item == s.reclaims[b[k]].eval.item;
    }
  }

  lemma {:induction false} FillsKnown(site: Site, s: Standing, cold: seq<MoveEntry>, a: seq<nat>, b: seq<nat>)
    requires ItemsApart(s) && GoodFills(site, s, cold, a) && GoodFills(site, s, cold, b)
    ensures a == b
  {
    forall k | 0 <= k < |cold|
      ensures a[k] == b[k]
    {
      assert MovesToCold(cold[k], s.fills[a[k]], site) && MovesToCold(cold[k], s.fills[b[k]], site);
      assert s.fills[a[k]].item == cold[k].item == s.fills[b[k]].item;
    }
  }

  /** What is left of a list is in its order. */
  lemma {:induction false} DroppingOrder<T>(s: seq<T>, gone: set<nat>, i: nat, j: nat) returns (a: nat, b: nat)
    requires i < j < |Dropping(s, gone)|
    ensures a < b < |s| && s[a] == Dropping(s, gone)[i] && s[b] == Dropping(s, gone)[j]
    decreases |s|
  {
    var n := |s| - 1;
    if j < |Dropping(s[..n], gone)| {
      a, b := DroppingOrder(s[..n], gone, i, j);
    } else {
      b := n;
      a := DroppingAt(s[..n], gone, i);
    }
  }

  lemma {:induction false} DroppingAt<T>(s: seq<T>, gone: set<nat>, i: nat) returns (a: nat)
    requires i < |Dropping(s, gone)|
    ensures a < |s| && s[a] == Dropping(s, gone)[i]
    decreases |s|
  {
    var n := |s| - 1;
    if i < |Dropping(s[..n], gone)| {
      a := DroppingAt(s[..n], gone, i);
    } else {
      a := n;
    }
  }

  lemma {:induction false} StillApart(layout: Layout, r: Round)
    requires ItemsApart(r.start)
    ensures ItemsApart(Middle(layout, r)) && ItemsApart(End(layout, r))
  {
    forall i, j | 0 <= i < j < |Middle(layout, r).reclaims|
      ensures Middle(layout, r).reclaims[i].eval.item != Middle(layout, r).reclaims[j].eval.item
    {
      var a, b := DroppingOrder(r.start.reclaims, AsSet(r.placed), i, j);
    }
    forall i, j | 0 <= i < j < |End(layout, r).fills|
      ensures End(layout, r).fills[i].item != End(layout, r).fills[j].item
    {
      var a, b := DroppingOrder(r.start.fills, AsSet(r.taken), i, j);
    }
  }

  /** The reclaims of two first rounds are the same ... */
  lemma {:induction false} HotIsUnique(site: Site, first: Standing, a: seq<Round>, endA: Standing, b: seq<Round>, endB: Standing)
    requires ValidTiers(site.layout.tiers) && ItemsApart(first)
    requires WholeRun(site, first, a, endA) && WholeRun(site, first, b, endB) && EntriesOf(a) == EntriesOf(b)
    ensures a[0].hot == b[0].hot && a[0].placed == b[0].placed && a[0].cold + EntriesOf(a[1..]) == b[0].cold + EntriesOf(b[1..])
  {
    HotEnds(site, first, a, endA);
    HotEnds(site, first, b, endB);
    var restA, restB := a[0].cold + EntriesOf(a[1..]), b[0].cold + EntriesOf(b[1..]);
    HotThenRest(a);
    HotThenRest(b);
    SplitsOnce(site.layout, first.phase, a[0].hot, restA, b[0].hot, restB);
    RunBegins(site, first, a, endA);
    RunBegins(site, first, b, endB);
    ReclaimsKnown(site.layout, first, a[0].hot, a[0].placed, b[0].placed);
  }

  lemma {:induction false} HotThenRest(log: seq<Round>)
    requires log != []
    ensures EntriesOf(log) == log[0].hot + (log[0].cold + EntriesOf(log[1..]))
  {
  }

  /** ... and then so are their fills. */
  lemma {:induction false} ColdIsUnique(site: Site, p: Round, q: Round)
    requires RoundOk(site, p) && RoundOk(site, q) && ItemsApart(p.start)
    requires p.start == q.start && p.hot == q.hot && p.placed == q.placed
    ensures p == q
  {
    var m := Middle(site.layout, p);
    StopsOnce(site.layout, m.reclaims, m.usage, AllPicks(site, m.fills, m.usage, m.phase), TargetAt(site, m), p.cold, q.cold);
    StillApart(site.layout, p);
    FillsKnown(site, m, p.cold, p.taken, q.taken);
  }

  lemma {:induction false} RunBegins(site: Site, first: Standing, log: seq<Round>, end: Standing)
    requires WholeRun(site, first, log, end)
    ensures RoundOk(site, log[0]) && log[0].start == first
    ensures if Progressed(log[0]) then WholeRun(site, End(site.layout, log[0]), log[1..], end) else log == [log[0]] && end == End(site.layout, log[0])
  {
  }

  /** A plan has one log: its entries alone tell which rounds built it. */
  lemma {:induction false} LogIsUnique(site: Site, first: Standing, a: seq<Round>, endA: Standing, b: seq<Round>, endB: Standing)
    requires ValidTiers(site.layout.tiers) && ItemsApart(first)
    requires WholeRun(site, first, a, endA) && WholeRun(site, first, b, endB) && EntriesOf(a) == EntriesOf(b)
    ensures a == b && endA == endB
    decreases |a|
  {
    HotIsUnique(site, first, a, endA, b, endB);
    RunBegins(site, first, a, endA);
    RunBegins(site, first, b, endB);
    ColdIsUnique(site, a[0], b[0]);
    if Progressed(a[0]) {
      StillApart(site.layout, a[0]);
      SameLengths(a[0].cold, EntriesOf(a[1..]), b[0].cold, EntriesOf(b[1..]));
      LogIsUnique(site, End(site.layout, a[0]), a[1..], endA, b[1..], endB);
      FrontAndRest(a, b);
    }
  }

  lemma {:induction false} FrontAndRest<T>(a: seq<T>, b: seq<T>)
    requires a != [] && b != [] && a[0] == b[0] && a[1..] == b[1..]
    ensures a == b
  {
    assert a == [a[0]] + a[1..] && b == [b[0]] + b[1..];
  }
}
