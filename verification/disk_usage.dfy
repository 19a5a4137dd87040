/** Filesystem usage and the volumes that several configured paths can share (internal/diskusage). */
module DiskUsage {

  datatype Path = Path(name: string)

  function Floored(x: int): nat {
    if x < 0 then 0 else x
  }

  /** Usage the way df counts it: used over used plus available. */
  function PercentUsed(used: nat, free: nat): (r: real)
    ensures 0.0 <= r
  {
    if used + free == 0 then 0.0 else used as real / (used + free) as real * 100.0
  }

  /** One filesystem reading. The used percentage is not stored: everything that builds a reading
      derives it from used and free. */
  datatype Usage = Usage(total: nat, free: nat, used: nat) {
    function UsedPercent(): real {
      PercentUsed(used, free)
    }

    /** The reading with delta more bytes used (freed, when negative), both counts floored at zero. */
    function Plus(delta: int): Usage {
      Usage(total, Floored(free - delta), Floored(used + delta))
    }

    /** At most as full as other: the order in which a plan may overestimate a disk. */
    ghost predicate NoFullerThan(other: Usage) {
      used <= other.used && other.free <= free
    }
  }

  lemma {:induction false} PositiveFactor(x: real, p: real)
    requires 0.0 < p && 0.0 <= x * p
    ensures 0.0 <= x
  {
    assert x < 0.0 ==> x * p < 0.0;
  }

  lemma {:induction false} CrossMonotone(a: real, b: real, c: real, d: real)
    requires 0.0 <= a <= c && 0.0 <= d <= b
    ensures a * (c + d) <= c * (a + b)
  {
    assert a * d <= c * d;
    assert c * d <= c * b;
  }

  lemma {:induction false} RatioMonotone(a: real, b: real, c: real, d: real)
    requires 0.0 <= a <= c && 0.0 <= d <= b && 0.0 < a + b && 0.0 < c + d
    ensures a / (a + b) <= c / (c + d)
  {
    CrossMonotone(a, b, c, d);
    var x, y := a / (a + b), c / (c + d);
    assert x * (a + b) == a && y * (c + d) == c;
    assert (y - x) * (a + b) * (c + d) == c * (a + b) - a * (c + d);
    PositiveFactor((y - x) * (a + b), c + d);
    PositiveFactor(y - x, a + b);
  }

  /** More used and less free never lowers the percentage. */
  lemma {:induction false} PercentMonotone(used: nat, free: nat, used': nat, free': nat)
    requires used <= used' && free' <= free
    ensures PercentUsed(used, free) <= PercentUsed(used', free')
  {
    if used + free != 0 && used' + free' != 0 {
      RatioMonotone(used as real, free as real, used' as real, free' as real);
    }
  }

  /** Planning on a fuller disk stays on the safe side, whatever is added or freed next. */
  lemma {:induction false} PlusMonotone(u: Usage, v: Usage, delta: int)
    requires u.NoFullerThan(v)
    ensures u.Plus(delta).NoFullerThan(v.Plus(delta))
    ensures u.UsedPercent() <= v.UsedPercent()
  {
    PercentMonotone(u.used, u.free, v.used, v.free);
  }

  // ----- volumes

  /** Two paths draw on one pool of space when they are the same path or are known to be on the
      same device; a path whose device is unknown is a pool of its own. */
  predicate SameVolume(volumeOf: map<Path, nat>, p: Path, q: Path) {
    p == q || (p in volumeOf && q in volumeOf && volumeOf[p] == volumeOf[q])
  }

  /** Each path with every configured path on the same device, itself included. */
  type Volumes = map<Path, seq<Path>>

  ghost predicate NoRepeats<T>(s: seq<T>) {
    forall i, j :: 0 <= i < j < |s| ==> s[i] != s[j]
  }

  ghost predicate IsGrouping(volumes: Volumes, volumeOf: map<Path, nat>) {
    && volumes.Keys == volumeOf.Keys
    && forall p :: p in volumes ==>
         && NoRepeats(volumes[p])
         && forall q :: q in volumes[p] <==> (q in volumeOf && volumeOf[q] == volumeOf[p])
  }

  method GroupVolumes(volumeOf: map<Path, nat>) returns (groups: Volumes)
    ensures IsGrouping(groups, volumeOf)
  {
    var byDevice: map<nat, seq<Path>> := map[];
    var left := volumeOf.Keys;
    while left != {}
      invariant left <= volumeOf.Keys
      invariant forall d, q :: d in byDevice && q in byDevice[d] ==> q in volumeOf && q !in left && volumeOf[q] == d
      invariant forall q :: q in volumeOf && q !in left ==> volumeOf[q] in byDevice && q in byDevice[volumeOf[q]]
      invariant forall d :: d in byDevice ==> NoRepeats(byDevice[d])
    {
      var path :| path in left;
      left := left - {path};
      var dev := volumeOf[path];
      byDevice := byDevice[dev := (if dev in byDevice then byDevice[dev] else []) + [path]];
    }

    groups := map[];
    var devices := byDevice.Keys;
    while devices != {}
      invariant devices <= byDevice.Keys
      invariant forall q :: q in groups ==> q in volumeOf && groups[q] == byDevice[volumeOf[q]]
      invariant forall d, q :: d in byDevice && d !in devices && q in byDevice[d] ==> q in groups
    {
      var dev :| dev in devices;
      devices := devices - {dev};
      var paths := byDevice[dev];
      for k := 0 to |paths|
        invariant forall q :: q in groups ==> q in volumeOf && groups[q] == byDevice[volumeOf[q]]
        invariant forall d, q :: d in byDevice && d !in devices && d != dev && q in byDevice[d] ==> q in groups
        invariant forall i :: 0 <= i < k ==> paths[i] in groups
      {
        assert paths[k] in byDevice[dev];
        groups := groups[paths[k] := paths];
      }
    }
    forall q | q in volumeOf
      ensures q in groups
    {
      assert q in byDevice[volumeOf[q]];
    }
  }

  /** The usage map once delta bytes are added on path's whole volume. */
  function Applied(volumeOf: map<Path, nat>, usage: map<Path, Usage>, path: Path, delta: int): map<Path, Usage> {
    map p | p in usage :: if SameVolume(volumeOf, path, p) then usage[p].Plus(delta) else usage[p]
  }

  /** A usage map that planning updates in place, as the source does with a Go map. */
  class UsageTable {
    var usage: map<Path, Usage>

    constructor Copy(usage: map<Path, Usage>)
      ensures this.usage == usage
    {
      this.usage := usage;
    }

    method Apply(volumes: Volumes, ghost volumeOf: map<Path, nat>, path: Path, delta: int)
      requires IsGrouping(volumes, volumeOf)
      modifies this
      ensures usage == Applied(volumeOf, old(usage), path, delta)
    {
      var siblings := if path in volumes then volumes[path] else [path];
      for k := 0 to |siblings|
        invariant usage.Keys == old(usage).Keys
        invariant forall p :: p in usage ==>
                    usage[p] == if p in siblings[..k] then old(usage)[p].Plus(delta) else old(usage)[p]
      {
        var p := siblings[k];
        assert p !in siblings[..k];
        if p in usage {
          usage := usage[p := usage[p].Plus(delta)];
        }
      }
      assert siblings[..|siblings|] == siblings;
    }
  }

  // ----- volume coherence

  /** Paths on one volume read the same, as they do when they are measured together. */
  ghost predicate Coherent(volumeOf: map<Path, nat>, usage: map<Path, Usage>) {
    forall p, q :: p in usage && q in usage && SameVolume(volumeOf, p, q) ==> usage[p] == usage[q]
  }

  lemma {:induction false} AppliedCoherent(volumeOf: map<Path, nat>, usage: map<Path, Usage>, path: Path, delta: int)
    requires Coherent(volumeOf, usage)
    ensures Coherent(volumeOf, Applied(volumeOf, usage, path, delta))
  {
  }

  /** Placing bytes that fit and taking them away again leaves every path of the volume as it was:
      nothing is floored, on the path itself or on any sibling. */
  lemma {:induction false} AppliedUndone(volumeOf: map<Path, nat>, usage: map<Path, Usage>, path: Path, size: int)
    requires Coherent(volumeOf, usage) && path in usage && 0 <= size <= usage[path].free
    ensures Applied(volumeOf, Applied(volumeOf, usage, path, size), path, -size) == usage
  {
    var there := Applied(volumeOf, usage, path, size);
    var back := Applied(volumeOf, there, path, -size);
    forall p | p in usage
      ensures back[p] == usage[p]
    {
      if SameVolume(volumeOf, path, p) {
        assert usage[p] == usage[path];
      }
    }
  }
}
