/** Where the planner would put something: the destination pickers of internal/planner. */
module Destinations {
  import opened DiskUsage
  import opened PlannerModel

  // ----- cold destinations: the fullest path with room

  predicate Viable(s: Slot, usage: map<Path, Usage>, role: Role, mt: MediaType, size: int, ceiling: Tier -> real) {
    s.tier.role == role && s.tier.Accepts(mt) && s.path in usage && Fits(usage[s.path], size, ceiling(s.tier))
  }

  function Level(usage: map<Path, Usage>, s: Slot): real {
    if s.path in usage then usage[s.path].UsedPercent() else -1.0
  }

  /** The fuller of two finds, the earlier one when they are level. */
  function Fuller(usage: map<Path, Usage>, a: Option<Slot>, b: Option<Slot>): Option<Slot> {
    if a.None? then b
    else if b.None? || Level(usage, b.value) <= Level(usage, a.value) then a
    else b
  }

  lemma {:induction false} FullerAssociates(usage: map<Path, Usage>, a: Option<Slot>, b: Option<Slot>, c: Option<Slot>)
    ensures Fuller(usage, Fuller(usage, a, b), c) == Fuller(usage, a, Fuller(usage, b, c))
  {
  }

  function OptionIf(s: Slot, viable: bool): Option<Slot> {
    if viable then Some(s) else None
  }

  function BestSlot(slots: seq<Slot>, usage: map<Path, Usage>, mt: MediaType, size: int, ceiling: Tier -> real): Option<Slot> {
    if slots == [] then None
    else
      Fuller(usage,
             OptionIf(slots[0], Viable(slots[0], usage, Cold, mt, size, ceiling)),
             BestSlot(slots[1..], usage, mt, size, ceiling))
  }

  /** The pick is the fullest viable path, the first configured one among equals; there is none
      exactly when no path is viable. */
  lemma {:induction false} BestSlotIsFullest(slots: seq<Slot>, usage: map<Path, Usage>, mt: MediaType, size: int, ceiling: Tier -> real) returns (k: nat)
    ensures var r := BestSlot(slots, usage, mt, size, ceiling);
            if r.None? then forall s :: s in slots ==> !Viable(s, usage, Cold, mt, size, ceiling)
            else
              && k < |slots| && r.value == slots[k] && Viable(slots[k], usage, Cold, mt, size, ceiling)
              && forall j :: 0 <= j < |slots| && Viable(slots[j], usage, Cold, mt, size, ceiling) ==>
                               && usage[slots[j].path].UsedPercent() <= usage[slots[k].path].UsedPercent()
                               && (j < k ==> usage[slots[j].path].UsedPercent() < usage[slots[k].path].UsedPercent())
  {
    k := 0;
    if slots != [] {
      var j := BestSlotIsFullest(slots[1..], usage, mt, size, ceiling);
      var rest := BestSlot(slots[1..], usage, mt, size, ceiling);
      var here := Viable(slots[0], usage, Cold, mt, size, ceiling);
      if rest.Some? && !(here && Level(usage, rest.value) <= Level(usage, slots[0])) {
        k := j + 1;
      }
    }
  }

  lemma {:induction false} BestSlotSkips(tier: Tier, paths: seq<Path>, rest: seq<Slot>, usage: map<Path, Usage>, mt: MediaType, size: int, ceiling: Tier -> real)
    requires tier.role != Cold || !tier.Accepts(mt)
    ensures BestSlot(PathSlots(tier, paths) + rest, usage, mt, size, ceiling) == BestSlot(rest, usage, mt, size, ceiling)
  {
    if paths == [] {
      assert PathSlots(tier, paths) + rest == rest;
    } else {
      var all := PathSlots(tier, paths) + rest;
      assert all[1..] == PathSlots(tier, paths[1..]) + rest;
      BestSlotSkips(tier, paths[1..], rest, usage, mt, size, ceiling);
    }
  }

  /** One tier's paths, keeping the fullest so far: the inner loop of BestDestination. */
  method BestInTier(tier: Tier, usage: map<Path, Usage>, mt: MediaType, size: int, ceiling: Tier -> real,
                    sofar: Option<Slot>, ghost rest: seq<Slot>) returns (best: Option<Slot>)
    requires tier.role == Cold && tier.Accepts(mt)
    ensures Fuller(usage, best, BestSlot(rest, usage, mt, size, ceiling))
         == Fuller(usage, sofar, BestSlot(PathSlots(tier, tier.paths) + rest, usage, mt, size, ceiling))
  {
    best := sofar;
    for j := 0 to |tier.paths|
      invariant Fuller(usage, best, BestSlot(PathSlots(tier, tier.paths[j..]) + rest, usage, mt, size, ceiling))
             == Fuller(usage, sofar, BestSlot(PathSlots(tier, tier.paths) + rest, usage, mt, size, ceiling))
    {
      var s := Slot(tier, tier.paths[j]);
      ghost var tail := PathSlots(tier, tier.paths[j + 1..]) + rest;
      assert tier.paths[j..][1..] == tier.paths[j + 1..];
      assert (PathSlots(tier, tier.paths[j..]) + rest)[1..] == tail;
      FullerAssociates(usage, best, OptionIf(s, Viable(s, usage, Cold, mt, size, ceiling)), BestSlot(tail, usage, mt, size, ceiling));
      if s.path !in usage || !Fits(usage[s.path], size, ceiling(tier)) {
        continue;
      }
      if best.None? || Level(usage, s) > Level(usage, best.value) {
        best := Some(s);
      }
    }
    assert PathSlots(tier, tier.paths[|tier.paths|..]) + rest == rest;
  }

  method BestDestination(tiers: seq<Tier>, usage: map<Path, Usage>, mt: MediaType, size: int, ceiling: Tier -> real) returns (best: Option<Slot>)
    ensures best == BestSlot(Slots(tiers), usage, mt, size, ceiling)
  {
    best := None;
    for i := 0 to |tiers|
      invariant Fuller(usage, best, BestSlot(Slots(tiers[i..]), usage, mt, size, ceiling)) == BestSlot(Slots(tiers), usage, mt, size, ceiling)
    {
      var tier := tiers[i];
      ghost var rest := Slots(tiers[i + 1..]);
      assert tiers[i..][1..] == tiers[i + 1..];
      if tier.role != Cold || !tier.Accepts(mt) {
        BestSlotSkips(tier, tier.paths, rest, usage, mt, size, ceiling);
        continue;
      }
      best := BestInTier(tier, usage, mt, size, ceiling, best, rest);
    }
  }

  /** Room under the target first, else room under the max. */
  function Pick(tiers: seq<Tier>, usage: map<Path, Usage>, mt: MediaType, size: int): Option<Slot> {
    var first := BestSlot(Slots(tiers), usage, mt, size, TargetCeiling);
    if first.Some? then first else BestSlot(Slots(tiers), usage, mt, size, MaxCeiling)
  }

  /** The fullest viable slot under one kind of ceiling, the first configured among equals. */
  ghost predicate FullestUnder(slots: seq<Slot>, usage: map<Path, Usage>, mt: MediaType, size: int, ceiling: Tier -> real, k: nat)
    requires k < |slots|
  {
    && Viable(slots[k], usage, Cold, mt, size, ceiling)
    && forall j :: 0 <= j < |slots| && Viable(slots[j], usage, Cold, mt, size, ceiling) ==>
                     && usage[slots[j].path].UsedPercent() <= usage[slots[k].path].UsedPercent()
                     && (j < k ==> usage[slots[j].path].UsedPercent() < usage[slots[k].path].UsedPercent())
  }

  ghost predicate NoneUnder(slots: seq<Slot>, usage: map<Path, Usage>, mt: MediaType, size: int, ceiling: Tier -> real) {
    forall s :: s in slots ==> !Viable(s, usage, Cold, mt, size, ceiling)
  }

  /** The destination is the fullest path with room under its target; with none, the fullest under its max. */
  lemma {:induction false} PickIsFullest(tiers: seq<Tier>, usage: map<Path, Usage>, mt: MediaType, size: int) returns (k: nat)
    ensures var slots, r := Slots(tiers), Pick(tiers, usage, mt, size);
            if r.None? then NoneUnder(slots, usage, mt, size, TargetCeiling) && NoneUnder(slots, usage, mt, size, MaxCeiling)
            else
              && k < |slots| && r.value == slots[k]
              && (FullestUnder(slots, usage, mt, size, TargetCeiling, k)
                  || (NoneUnder(slots, usage, mt, size, TargetCeiling) && FullestUnder(slots, usage, mt, size, MaxCeiling, k)))
  {
    var slots := Slots(tiers);
    k := BestSlotIsFullest(slots, usage, mt, size, TargetCeiling);
    if BestSlot(slots, usage, mt, size, TargetCeiling).None? {
      k := BestSlotIsFullest(slots, usage, mt, size, MaxCeiling);
    }
  }

  /** A destination is found exactly when some cold path has room under its max, whichever pass
      finds it, and the max is never crossed. */
  lemma {:induction false} PickFindsRoom(tiers: seq<Tier>, usage: map<Path, Usage>, mt: MediaType, size: int)
    requires ValidTiers(tiers)
    ensures Pick(tiers, usage, mt, size).Some? <==> exists s :: s in Slots(tiers) && Viable(s, usage, Cold, mt, size, MaxCeiling)
    ensures Pick(tiers, usage, mt, size).Some? ==>
              var s := Pick(tiers, usage, mt, size).value;
              s in Slots(tiers) && Viable(s, usage, Cold, mt, size, MaxCeiling)
  {
    var r := Pick(tiers, usage, mt, size);
    var i := BestSlotIsFullest(Slots(tiers), usage, mt, size, TargetCeiling);
    var j := BestSlotIsFullest(Slots(tiers), usage, mt, size, MaxCeiling);
    if r.Some? {
      SlotsFromTiers(tiers, r.value);
      var u := usage[r.value.path];
      if Viable(r.value, usage, Cold, mt, size, TargetCeiling) {
        FitsMonotone(u, u, size, r.value.tier.target, r.value.tier.max);
      }
    }
  }

  method PickDestination(tiers: seq<Tier>, usage: map<Path, Usage>, mt: MediaType, size: int) returns (best: Option<Slot>)
    ensures best == Pick(tiers, usage, mt, size)
  {
    best := BestDestination(tiers, usage, mt, size, TargetCeiling);
    if best.None? {
      best := BestDestination(tiers, usage, mt, size, MaxCeiling);
    }
  }

  // ----- hot destinations: every path with room, and the tightest of them

  datatype HotOption = HotOption(slot: Slot, remainingRoom: real)

  predicate HotViable(s: Slot, usage: map<Path, Usage>, mt: MediaType, size: int) {
    Viable(s, usage, Hot, mt, size, HotCeiling)
  }

  /** What would be left on the path, under both its free bytes and its ceiling. */
  function RoomAfter(u: Usage, ceiling: real, size: int): real {
    var ceilingRoom := (u.used + u.free) as real * ceiling / 100.0 - u.used as real;
    (if ceilingRoom < u.free as real then ceilingRoom else u.free as real) - size as real
  }

  /** In numbers: the lesser of the free bytes and of what the ceiling leaves, less the item. */
  lemma {:induction false} RoomAfterIs(u: Usage, ceiling: real, size: int)
    ensures var left := RoomAfter(u, ceiling, size) + size as real;
            var underCeiling := (u.used + u.free) as real * ceiling / 100.0 - u.used as real;
            left <= u.free as real && left <= underCeiling && (left == u.free as real || left == underCeiling)
  {
  }

  function OptionAt(s: Slot, usage: map<Path, Usage>, mt: MediaType, size: int): seq<HotOption> {
    if HotViable(s, usage, mt, size) then [HotOption(s, RoomAfter(usage[s.path], s.tier.EffectiveMax(), size))] else []
  }

  /** Every hot slot that can take the item, in configured order. */
  function HotOptions(slots: seq<Slot>, usage: map<Path, Usage>, mt: MediaType, size: int): seq<HotOption> {
    if slots == [] then [] else OptionAt(slots[0], usage, mt, size) + HotOptions(slots[1..], usage, mt, size)
  }

  /** A slot is offered exactly when it can take the item. */
  lemma {:induction false} HotOptionsExact(slots: seq<Slot>, usage: map<Path, Usage>, mt: MediaType, size: int, s: Slot)
    ensures (exists o :: o in HotOptions(slots, usage, mt, size) && o.slot == s) <==> s in slots && HotViable(s, usage, mt, size)
  {
    if slots != [] {
      var here := OptionAt(slots[0], usage, mt, size);
      var rest := HotOptions(slots[1..], usage, mt, size);
      HotOptionsExact(slots[1..], usage, mt, size, s);
      assert forall o :: o in here + rest <==> o in here || o in rest;
      if s == slots[0] && HotViable(s, usage, mt, size) {
        assert here[0] in here + rest;
      }
    }
  }

  /** No more options than slots. */
  lemma {:induction false} HotOptionsBounded(slots: seq<Slot>, usage: map<Path, Usage>, mt: MediaType, size: int)
    ensures |HotOptions(slots, usage, mt, size)| <= |slots|
  {
    if slots != [] {
      HotOptionsBounded(slots[1..], usage, mt, size);
    }
  }

  lemma {:induction false} HotOptionsSkips(tier: Tier, paths: seq<Path>, rest: seq<Slot>, usage: map<Path, Usage>, mt: MediaType, size: int)
    requires tier.role != Hot || !tier.Accepts(mt)
    ensures HotOptions(PathSlots(tier, paths) + rest, usage, mt, size) == HotOptions(rest, usage, mt, size)
  {
    if paths == [] {
      assert PathSlots(tier, paths) + rest == rest;
    } else {
      var all := PathSlots(tier, paths) + rest;
      assert all[1..] == PathSlots(tier, paths[1..]) + rest;
      HotOptionsSkips(tier, paths[1..], rest, usage, mt, size);
    }
  }

  /** One tier's paths with room: the inner loop of HotDestinationOptions. */
  lemma {:induction false} NextOption(options: seq<HotOption>, tier: Tier, j: nat, usage: map<Path, Usage>, mt: MediaType, size: int, rest: seq<Slot>)
    requires j < |tier.paths|
    ensures options + HotOptions(PathSlots(tier, tier.paths[j..]) + rest, usage, mt, size)
         == options + OptionAt(Slot(tier, tier.paths[j]), usage, mt, size) + HotOptions(PathSlots(tier, tier.paths[j + 1..]) + rest, usage, mt, size)
  {
    var here, later := OptionAt(Slot(tier, tier.paths[j]), usage, mt, size), HotOptions(PathSlots(tier, tier.paths[j + 1..]) + rest, usage, mt, size);
    assert tier.paths[j..][1..] == tier.paths[j + 1..];
    assert (PathSlots(tier, tier.paths[j..]) + rest)[1..] == PathSlots(tier, tier.paths[j + 1..]) + rest;
    assert options + (here + later) == options + here + later;
  }

  method HotOptionsInTier(tier: Tier, usage: map<Path, Usage>, mt: MediaType, size: int,
                          sofar: seq<HotOption>, ghost rest: seq<Slot>) returns (options: seq<HotOption>)
    requires tier.role == Hot && tier.Accepts(mt)
    ensures options + HotOptions(rest, usage, mt, size) == sofar + HotOptions(PathSlots(tier, tier.paths) + rest, usage, mt, size)
  {
    options := sofar;
    for j := 0 to |tier.paths|
      invariant options + HotOptions(PathSlots(tier, tier.paths[j..]) + rest, usage, mt, size) == sofar + HotOptions(PathSlots(tier, tier.paths) + rest, usage, mt, size)
    {
      var s := Slot(tier, tier.paths[j]);
      NextOption(options, tier, j, usage, mt, size, rest);
      if s.path !in usage || !Fits(usage[s.path], size, tier.EffectiveMax()) {
        continue;
      }
      options := options + [HotOption(s, RoomAfter(usage[s.path], tier.EffectiveMax(), size))];
    }
    assert PathSlots(tier, tier.paths[|tier.paths|..]) + rest == rest;
  }

  method HotDestinationOptions(tiers: seq<Tier>, usage: map<Path, Usage>, mt: MediaType, size: int) returns (options: seq<HotOption>)
    ensures options == HotOptions(Slots(tiers), usage, mt, size)
  {
    options := [];
    for i := 0 to |tiers|
      invariant options + HotOptions(Slots(tiers[i..]), usage, mt, size) == HotOptions(Slots(tiers), usage, mt, size)
    {
      var tier := tiers[i];
      ghost var rest := Slots(tiers[i + 1..]);
      assert tiers[i..][1..] == tiers[i + 1..];
      if tier.role != Hot || !tier.Accepts(mt) {
        HotOptionsSkips(tier, tier.paths, rest, usage, mt, size);
        continue;
      }
      options := HotOptionsInTier(tier, usage, mt, size, options, rest);
    }
  }

  /** The option leaving the least room, the first of equals. */
  function Tightest(options: seq<HotOption>): (r: HotOption)
    requires options != []
    ensures r in options && forall o :: o in options ==> r.remainingRoom <= o.remainingRoom
  {
    if |options| == 1 then options[0]
    else
      var t := Tightest(options[..|options| - 1]);
      var last := options[|options| - 1];
      if last.remainingRoom < t.remainingRoom then last else t
  }

  /** Of the hot paths that can take an item, the one chosen would be left with least: no other's free bytes and
      ceiling leave less. */
  lemma {:induction false} TightestLeavesLeast(tiers: seq<Tier>, usage: map<Path, Usage>, mt: MediaType, size: int, s: Slot)
    requires HotOptions(Slots(tiers), usage, mt, size) != [] && s in Slots(tiers) && HotViable(s, usage, mt, size)
    ensures var best := Tightest(HotOptions(Slots(tiers), usage, mt, size)).slot;
            && best in Slots(tiers) && HotViable(best, usage, mt, size)
            && RoomAfter(usage[best.path], best.tier.EffectiveMax(), size) <= RoomAfter(usage[s.path], s.tier.EffectiveMax(), size)
  {
    var options := HotOptions(Slots(tiers), usage, mt, size);
    HotOptionsExact(Slots(tiers), usage, mt, size, s);
    var o :| o in options && o.slot == s;
    OptionRooms(Slots(tiers), usage, mt, size);
    HotOptionsExact(Slots(tiers), usage, mt, size, Tightest(options).slot);
  }

  lemma {:induction false} OptionRooms(slots: seq<Slot>, usage: map<Path, Usage>, mt: MediaType, size: int)
    ensures forall o :: o in HotOptions(slots, usage, mt, size) ==>
                          o.slot.path in usage && o.remainingRoom == RoomAfter(usage[o.slot.path], o.slot.tier.EffectiveMax(), size)
  {
    if slots != [] {
      OptionRooms(slots[1..], usage, mt, size);
    }
  }

  method BestHotDestination(options: seq<HotOption>) returns (slot: Slot)
    requires options != []
    ensures slot == Tightest(options).slot
  {
    var best := options[0];
    assert options[..1] == [options[0]];
    for k := 1 to |options|
      invariant best == Tightest(options[..k])
    {
      assert options[..k + 1][..k] == options[..k];
      if options[k].remainingRoom < best.remainingRoom {
        best := options[k];
      }
    }
    assert options[..|options|] == options;
    slot := best.slot;
  }

  // ----- which reclaim to place next

  datatype Choice = Choice(index: nat, options: nat, size: int, dest: Slot)

  /** The choice kept when b is met after a: fewer options wins, then the larger item, then the earlier. */
  function Preferred(a: Option<Choice>, b: Option<Choice>): Option<Choice> {
    if a.None? then b
    else if b.None? || b.value.options > a.value.options
            || (b.value.options == a.value.options && b.value.size <= a.value.size) then a
    else b
  }

  lemma {:induction false} PreferredAssociates(a: Option<Choice>, b: Option<Choice>, c: Option<Choice>)
    ensures Preferred(Preferred(a, b), c) == Preferred(a, Preferred(b, c))
  {
  }

  function OptionsOf(tiers: seq<Tier>, usage: map<Path, Usage>, r: Reclaim): seq<HotOption> {
    HotOptions(Slots(tiers), usage, r.Media(), r.Size())
  }

  function ChoiceAt(pending: seq<Reclaim>, k: nat, tiers: seq<Tier>, usage: map<Path, Usage>): Option<Choice>
    requires k < |pending|
  {
    var options := OptionsOf(tiers, usage, pending[k]);
    if options == [] then None else Some(Choice(k, |options|, pending[k].Size(), Tightest(options).slot))
  }

  function NextFrom(pending: seq<Reclaim>, k: nat, tiers: seq<Tier>, usage: map<Path, Usage>): Option<Choice>
    requires k <= |pending|
    decreases |pending| - k
  {
    if k == |pending| then None
    else Preferred(ChoiceAt(pending, k, tiers, usage), NextFrom(pending, k + 1, tiers, usage))
  }

  function Next(pending: seq<Reclaim>, tiers: seq<Tier>, usage: map<Path, Usage>): Option<Choice> {
    NextFrom(pending, 0, tiers, usage)
  }

  ghost predicate NoBetter(pending: seq<Reclaim>, j: nat, c: Choice, tiers: seq<Tier>, usage: map<Path, Usage>)
    requires j < |pending|
  {
    var options := |OptionsOf(tiers, usage, pending[j])|;
    options == 0 || c.options < options
    || (c.options == options && (if j < c.index then pending[j].Size() < c.size else pending[j].Size() <= c.size))
  }

  /** The reclaim placed next is the most constrained one - fewest hot paths, then largest, then
      first - at its tightest fit; there is none exactly when no pending reclaim has a hot path. */
  lemma {:induction false} NextIsMostConstrained(pending: seq<Reclaim>, k: nat, tiers: seq<Tier>, usage: map<Path, Usage>)
    requires k <= |pending|
    ensures var c := NextFrom(pending, k, tiers, usage);
            if c.None? then forall j :: k <= j < |pending| ==> OptionsOf(tiers, usage, pending[j]) == []
            else
              && k <= c.value.index < |pending| && c == ChoiceAt(pending, c.value.index, tiers, usage)
              && forall j :: k <= j < |pending| ==> NoBetter(pending, j, c.value, tiers, usage)
    decreases |pending| - k
  {
    if k < |pending| {
      NextIsMostConstrained(pending, k + 1, tiers, usage);
      var c, rest := NextFrom(pending, k, tiers, usage), NextFrom(pending, k + 1, tiers, usage);
      if c.Some? && rest.Some? {
        forall j | k <= j < |pending|
          ensures NoBetter(pending, j, c.value, tiers, usage)
        {
          if j > k {
            StillNoBetter(pending, k, j, rest.value, tiers, usage);
          }
        }
      }
    }
  }

  /** What is no better than the pick among the rest is no better than the pick with one more before it. */
  lemma {:induction false} StillNoBetter(pending: seq<Reclaim>, k: nat, j: nat, rest: Choice, tiers: seq<Tier>, usage: map<Path, Usage>)
    requires k < j < |pending| && k < rest.index && NoBetter(pending, j, rest, tiers, usage)
    ensures NoBetter(pending, j, Preferred(ChoiceAt(pending, k, tiers, usage), Some(rest)).value, tiers, usage)
  {
  }

  /** Whatever is placed next goes to a hot path that can take it. */
  lemma {:induction false} NextFits(pending: seq<Reclaim>, tiers: seq<Tier>, usage: map<Path, Usage>)
    requires Next(pending, tiers, usage).Some?
    ensures var c := Next(pending, tiers, usage).value;
            && c.index < |pending| && c.dest in Slots(tiers)
            && HotViable(c.dest, usage, pending[c.index].Media(), pending[c.index].Size())
  {
    NextIsMostConstrained(pending, 0, tiers, usage);
    var c := Next(pending, tiers, usage).value;
    var options := OptionsOf(tiers, usage, pending[c.index]);
    assert Tightest(options) in options;
    HotOptionsExact(Slots(tiers), usage, pending[c.index].Media(), pending[c.index].Size(), c.dest);
  }

  method NextReclaim(pending: seq<Reclaim>, tiers: seq<Tier>, usage: map<Path, Usage>) returns (best: Option<Choice>)
    ensures best == Next(pending, tiers, usage)
  {
    best := None;
    for i := 0 to |pending|
      invariant Preferred(best, NextFrom(pending, i, tiers, usage)) == Next(pending, tiers, usage)
    {
      var candidate := pending[i];
      PreferredAssociates(best, ChoiceAt(pending, i, tiers, usage), NextFrom(pending, i + 1, tiers, usage));
      var options := HotDestinationOptions(tiers, usage, candidate.Media(), candidate.Size());
      if options == [] {
        continue;
      }
      if best.Some? && (|options| > best.value.options || (|options| == best.value.options && candidate.Size() <= best.value.size)) {
        continue;
      }
      var dest := BestHotDestination(options);
      best := Some(Choice(i, |options|, candidate.Size(), dest));
    }
  }
}
