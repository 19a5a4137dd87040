/** The strictest seeding requirement among a download's trackers (internal/torrents/seeding.go). */
module SeedingRules {
  import opened PlannerModel
  import opened Downloads

  /** A tracker's own rule; 0 days means forever. */
  datatype Override = Override(host: string, minSeedDays: int)

  datatype Config = Config(minSeedDays: int, graceDays: int, overrides: seq<Override>)

  const DAY := 24 * 60 * 60

  ghost predicate ValidConfig(cfg: Config) {
    && cfg.minSeedDays >= 0 && cfg.graceDays >= 0
    && (forall o :: o in cfg.overrides ==> o.minSeedDays >= 0)
    && forall o, p :: o in cfg.overrides && p in cfg.overrides && o.host == p.host ==> o == p
  }

  predicate EndsWith(s: string, suffix: string) {
    |suffix| <= |s| && s[|s| - |suffix|..] == suffix
  }

  /** The override is for that host, or for a host it is a subdomain of. */
  predicate Matches(host: string, o: Override) {
    host == o.host || EndsWith(host, "." + o.host)
  }

  /** So it is for the host itself, or for the host with a part more before a dot. */
  lemma {:induction false} MatchesExactly(host: string, o: Override)
    ensures Matches(host, o) <==> host == o.host || exists part: string :: host == part + "." + o.host
  {
    if EndsWith(host, "." + o.host) {
      var part := host[..|host| - |"." + o.host|];
      assert host == part + ("." + o.host) == part + "." + o.host;
    }
    if part: string :| host == part + "." + o.host {
      assert part + "." + o.host == part + ("." + o.host);
      assert host[|part|..] == "." + o.host;
    }
  }

  ghost predicate MostSpecific(host: string, overrides: seq<Override>, o: Override) {
    o in overrides && Matches(host, o) && forall p :: p in overrides && Matches(host, p) ==> |p.host| <= |o.host|
  }

  /** Two overrides for one host, equally specific, are for the same host. */
  lemma {:induction false} SameLengthSameHost(host: string, o: Override, p: Override)
    requires Matches(host, o) && Matches(host, p) && |o.host| == |p.host|
    ensures o.host == p.host
  {
    MatchIsSuffix(host, o);
    MatchIsSuffix(host, p);
  }

  lemma {:induction false} MatchIsSuffix(host: string, o: Override)
    requires Matches(host, o)
    ensures |o.host| <= |host| && host[|host| - |o.host|..] == o.host
  {
    if host != o.host {
      assert host[|host| - |"." + o.host|..][1..] == o.host;
    }
  }

  method BestOverride(host: string, overrides: seq<Override>) returns (best: Option<Override>)
    ensures best.None? ==> forall o :: o in overrides ==> !Matches(host, o)
    ensures best.Some? ==> MostSpecific(host, overrides, best.value)
  {
    best := None;
    for i := 0 to |overrides|
      invariant best.None? ==> forall j :: 0 <= j < i ==> !Matches(host, overrides[j])
      invariant best.Some? ==> best.value in overrides && Matches(host, best.value)
      invariant best.Some? ==> forall j :: 0 <= j < i && Matches(host, overrides[j]) ==> |overrides[j].host| <= |best.value.host|
    {
      var o := overrides[i];
      if Matches(host, o) && (best.None? || |o.host| > |best.value.host|) {
        best := Some(o);
      }
    }
  }

  // ----- the rule a host goes by, whatever order the overrides are listed in

  ghost predicate IsRule(host: string, cfg: Config, days: int) {
    || (days == cfg.minSeedDays && forall o :: o in cfg.overrides ==> !Matches(host, o))
    || exists o :: MostSpecific(host, cfg.overrides, o) && days == o.minSeedDays
  }

  lemma {:induction false} OneRule(host: string, cfg: Config, a: int, b: int)
    requires ValidConfig(cfg) && IsRule(host, cfg, a) && IsRule(host, cfg, b)
    ensures a == b
  {
    if o, p :| MostSpecific(host, cfg.overrides, o) && a == o.minSeedDays && MostSpecific(host, cfg.overrides, p) && b == p.minSeedDays {
      SameLengthSameHost(host, o, p);
    }
  }

  lemma {:induction false} OverrideOrderIrrelevant(host: string, cfg: Config, reordered: Config, days: int)
    requires multiset(cfg.overrides) == multiset(reordered.overrides) && cfg.minSeedDays == reordered.minSeedDays && IsRule(host, cfg, days)
    ensures IsRule(host, reordered, days)
  {
    assert forall o :: o in cfg.overrides <==> o in multiset(cfg.overrides);
    assert forall o :: o in reordered.overrides <==> o in multiset(reordered.overrides);
    if o :| MostSpecific(host, cfg.overrides, o) && days == o.minSeedDays {
      assert MostSpecific(host, reordered.overrides, o);
    }
  }

  method RuleDays(host: string, cfg: Config) returns (days: int)
    ensures IsRule(host, cfg, days)
  {
    var o := BestOverride(host, cfg.overrides);
    return if o.Some? then o.value.minSeedDays else cfg.minSeedDays;
  }

  // ----- the strictest of them

  /** A rule the download has to satisfy: one of its trackers', or the default when it has none. */
  ghost predicate Binding(hosts: seq<string>, cfg: Config, days: int) {
    if hosts == [] then days == cfg.minSeedDays else exists h :: h in hosts && IsRule(h, cfg, days)
  }

  /** days is what is left to seed when nothing asks for ever. */
  method Requirement(hosts: seq<string>, cfg: Config) returns (days: int, forever: bool)
    requires ValidConfig(cfg)
    ensures forever <==> Binding(hosts, cfg, 0)
    ensures !forever ==> Binding(hosts, cfg, days) && forall d :: Binding(hosts, cfg, d) ==> d <= days
  {
    if |hosts| == 0 {
      return cfg.minSeedDays, cfg.minSeedDays == 0;
    }
    days, forever := 0, false;
    var first := true;
    for i := 0 to |hosts|
      invariant first <==> i == 0
      invariant forever <==> exists j :: 0 <= j < i && IsRule(hosts[j], cfg, 0)
      invariant !forever && i > 0 ==> exists j :: 0 <= j < i && IsRule(hosts[j], cfg, days)
      invariant !forever ==> forall j, d :: 0 <= j < i && IsRule(hosts[j], cfg, d) ==> d <= days
    {
      var d := RuleDays(hosts[i], cfg);
      forall r | IsRule(hosts[i], cfg, r)
        ensures r == d
      {
        OneRule(hosts[i], cfg, r, d);
      }
      if d == 0 && !forever {
        forever := true;
      } else if !forever && (first || d > days) {
        days := d;
      }
      first := false;
    }
  }

  /** The time seeded satisfies every rule that binds, with the grace on top; nothing satisfies for ever. */
  ghost predicate SatisfiesAll(hosts: seq<string>, cfg: Config, seeded: int) {
    forall d :: Binding(hosts, cfg, d) ==> d != 0 && seeded >= (d + cfg.graceDays) * DAY
  }

  /** The smaller of what qBittorrent counts and what the clock shows since it finished. */
  function SeededTime(reported: int, completedOn: Option<int>, now: int): int {
    if completedOn.Some? && now - completedOn.value < reported then (if now - completedOn.value > 0 then now - completedOn.value else 0) else reported
  }

  function NotNegative(x: int): nat {
    if x < 0 then 0 else x
  }

  predicate IsLeast(least: int, a: int, b: int) {
    least <= a && least <= b && (least == a || least == b)
  }

  /** The rule binds, and no binding one asks for more. */
  ghost predicate Strictest(hosts: seq<string>, cfg: Config, days: int) {
    Binding(hosts, cfg, days) && forall d :: Binding(hosts, cfg, d) ==> d <= days
  }

  /** Where a download stands. Met is exactly: its trackers and its seeding time are known, and it has
      seeded long enough for every one of them. */
  method SeedingStatus(hosts: Option<seq<string>>, reported: Option<int>, completedOn: Option<int>, cfg: Config, now: int) returns (s: Downloads.Seeding)
    requires ValidConfig(cfg)
    ensures s.known <==> hosts.Some? && reported.Some?
    ensures s.met <==> s.known && SatisfiesAll(hosts.value, cfg, SeededTime(reported.value, completedOn, now))
    ensures s.forever <==> s.known && Binding(hosts.value, cfg, 0)
    ensures s.known && completedOn.None? ==> s.seeded == reported.value
    ensures s.known && completedOn.Some? && reported.value >= 0 ==> IsLeast(s.seeded, reported.value, NotNegative(now - completedOn.value))
    ensures s.known && !s.forever ==> exists d :: Strictest(hosts.value, cfg, d) && s.required == (d + cfg.graceDays) * 86_400 && (s.met <==> s.seeded >= s.required)
  {
    if hosts.None? || reported.None? {
      return Downloads.Seeding.Seeding(false, false, 0, 0, false);
    }
    var seeded := SeededTime(reported.value, completedOn, now);
    var days, forever := Requirement(hosts.value, cfg);
    if forever {
      return Downloads.Seeding.Seeding(true, true, 0, seeded, false);
    }
    var required := (days + cfg.graceDays) * DAY;
    StrictestDecides(hosts.value, cfg, days, seeded);
    assert Strictest(hosts.value, cfg, days);
    return Downloads.Seeding.Seeding(true, false, required, seeded, seeded >= required);
  }

  lemma {:induction false} StrictestDecides(hosts: seq<string>, cfg: Config, days: int, seeded: int)
    requires Binding(hosts, cfg, days) && !Binding(hosts, cfg, 0) && forall d :: Binding(hosts, cfg, d) ==> d <= days
    ensures SatisfiesAll(hosts, cfg, seeded) <==> seeded >= (days + cfg.graceDays) * DAY
  {
  }

  /** Another tracker never makes an unmet requirement met: what satisfies more trackers satisfies fewer. */
  lemma {:induction false} MoreTrackersNoEasier(hosts: seq<string>, more: seq<string>, cfg: Config, seeded: int)
    requires hosts != [] && (forall h :: h in hosts ==> h in more) && SatisfiesAll(more, cfg, seeded)
    ensures SatisfiesAll(hosts, cfg, seeded)
  {
    forall d | Binding(hosts, cfg, d)
      ensures Binding(more, cfg, d)
    {
      var h :| h in hosts && IsRule(h, cfg, d);
      assert h in more;
    }
  }

  /** The order the trackers are listed in changes nothing. */
  lemma {:induction false} TrackerOrderIrrelevant(hosts: seq<string>, reordered: seq<string>, cfg: Config, seeded: int)
    requires multiset(hosts) == multiset(reordered)
    ensures SatisfiesAll(hosts, cfg, seeded) <==> SatisfiesAll(reordered, cfg, seeded)
  {
    assert forall h :: h in hosts <==> h in multiset(hosts);
    assert forall h :: h in reordered <==> h in multiset(reordered);
    if hosts != [] && reordered != [] {
      if SatisfiesAll(hosts, cfg, seeded) {
        MoreTrackersNoEasier(reordered, hosts, cfg, seeded);
      }
      if SatisfiesAll(reordered, cfg, seeded) {
        MoreTrackersNoEasier(hosts, reordered, cfg, seeded);
      }
    } else {
      assert |multiset(hosts)| == |hosts| && |multiset(reordered)| == |reordered|;
    }
  }

  /** Some time seeded that did not do without trackers does with these. */
  ghost predicate MayEase(hosts: seq<string>, cfg: Config) {
    exists seeded: nat :: SatisfiesAll(hosts, cfg, seeded) && !SatisfiesAll([], cfg, seeded)
  }

  /** The one exception is a download that had no tracker at all: its first ones ease what it has to do exactly
      when none of them asks for ever and the strictest asks for less than the default does. */
  lemma {:induction false} FirstTrackersEaseExactly(hosts: seq<string>, cfg: Config, days: int, forever: bool)
    requires ValidConfig(cfg) && hosts != [] && (forever <==> Binding(hosts, cfg, 0))
    requires !forever ==> Binding(hosts, cfg, days) && forall d :: Binding(hosts, cfg, d) ==> d <= days
    ensures MayEase(hosts, cfg) <==> !forever && (cfg.minSeedDays == 0 || days < cfg.minSeedDays)
  {
    assert Binding([], cfg, cfg.minSeedDays);
    if !forever {
      StrictestIsCounted(hosts, cfg, days);
      StrictestDecides(hosts, cfg, days, (days + cfg.graceDays) * DAY);
      assert SatisfiesAll(hosts, cfg, (days + cfg.graceDays) * DAY);
      if cfg.minSeedDays != 0 && cfg.minSeedDays <= days {
        forall seeded: nat | SatisfiesAll(hosts, cfg, seeded)
          ensures SatisfiesAll([], cfg, seeded)
        {
          StrictestDecides(hosts, cfg, days, seeded);
        }
      }
    }
  }

  lemma {:induction false} StrictestIsCounted(hosts: seq<string>, cfg: Config, days: int)
    requires ValidConfig(cfg) && Binding(hosts, cfg, days)
    ensures days >= 0
  {
  }

  /** A day's rule under a default of ten, say. */
  lemma {:induction false} FirstTrackerMayEase(host: string)
    ensures var cfg := Config(10, 0, [Override(host, 1)]);
            ValidConfig(cfg) && !SatisfiesAll([], cfg, DAY) && SatisfiesAll([host], cfg, DAY)
  {
    var cfg := Config(10, 0, [Override(host, 1)]);
    assert Binding([], cfg, 10);
    forall d | Binding([host], cfg, d)
      ensures d == 1
    {
      assert Override(host, 1) in cfg.overrides && Matches(host, Override(host, 1));
    }
  }
}
