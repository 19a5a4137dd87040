/** Waiting for an accepted transfer to land: when the disk says it is worth asking the app, and what
    counts as landed (internal/mover). */
module Settling {
  import opened PlannerModel
  import opened DownloadMoves

  /** The growth that counts as nearly all of an item: nine tenths of its size. */
  function TargetGrowth(size: int): nat {
    if size > 0 then size * 9 / 10 else 0
  }

  // ----- what the tracker works out, from the readings since the transfer was accepted

  /** Some reading reached the start plus the growth. */
  ghost predicate Grown(start: int, growth: nat, readings: seq<int>) {
    exists i :: 0 <= i < |readings| && readings[i] >= start + growth
  }

  /** Reading i is the same as the one before it. */
  ghost predicate Unchanged(start: int, readings: seq<int>, i: nat)
    requires i < |readings|
  {
    readings[i] == if i == 0 then start else readings[i - 1]
  }

  /** How many of the last readings, none before mark and none before the growth, were unchanged. */
  ghost function StableRun(start: int, growth: nat, readings: seq<int>, mark: nat): nat {
    var n := |readings|;
    if n <= mark || !Grown(start, growth, readings) || !Unchanged(start, readings, n - 1) then 0
    else StableRun(start, growth, readings[..n - 1], mark) + 1
  }

  /** A stable run of k is exactly: the last k readings came after mark, the growth had been reached by the
      first of them, and none of them changed. */
  lemma {:induction false} StableRunMeans(start: int, growth: nat, readings: seq<int>, mark: nat, k: nat)
    requires 0 < k <= |readings|
    ensures StableRun(start, growth, readings, mark) >= k
       <==> && mark <= |readings| - k && Grown(start, growth, readings[..|readings| - k + 1])
            && forall i :: |readings| - k <= i < |readings| ==> Unchanged(start, readings, i)
    decreases k
  {
    var n := |readings|;
    var before := readings[..n - 1];
    assert readings[..n] == readings;
    if k > 1 {
      StableRunMeans(start, growth, before, mark, k - 1);
      assert before[..|before| - (k - 1) + 1] == readings[..n - k + 1];
      if Grown(start, growth, readings[..n - k + 1]) {
        GrownStays(start, growth, readings, n - k + 1);
      }
      assert forall i :: 0 <= i < n - 1 ==> (Unchanged(start, before, i) <==> Unchanged(start, readings, i));
    }
  }

  lemma {:induction false} GrownStays(start: int, growth: nat, readings: seq<int>, n: nat)
    requires n <= |readings| && Grown(start, growth, readings[..n])
    ensures Grown(start, growth, readings)
  {
    var i :| 0 <= i < n && readings[..n][i] >= start + growth;
    assert readings[i] >= start + growth;
  }

  // ----- the tracker

  /** Decides from used-bytes readings alone whether a transfer looks complete. The ghost fields are the
      readings so far and how many there were at the last reset. */
  class SettleTracker {
    const startUsed: int
    const targetGrowth: nat
    var lastUsed: int
    var grown: bool
    var stableCount: nat
    ghost var readings: seq<int>
    ghost var mark: nat

    ghost predicate Valid()
      reads this
    {
      && lastUsed == (if readings == [] then startUsed else readings[|readings| - 1])
      && grown == Grown(startUsed, targetGrowth, readings)
      && stableCount == StableRun(startUsed, targetGrowth, readings, mark)
      && mark <= |readings|
    }

    constructor (startUsed: int, size: int)
      ensures Valid() && this.startUsed == startUsed && targetGrowth == TargetGrowth(size) && readings == [] && mark == 0
    {
      this.startUsed, targetGrowth := startUsed, TargetGrowth(size);
      lastUsed, grown, stableCount := startUsed, false, 0;
      readings, mark := [], 0;
    }

    /** Records a reading, and says whether the last stableTarget ones were unchanged since the growth. */
    method Observe(used: int, stableTarget: nat) returns (settled: bool)
      requires Valid() && stableTarget > 0
      modifies this
      ensures Valid() && readings == old(readings) + [used] && mark == old(mark) && (old(grown) ==> grown)
      ensures settled <==> StableRun(startUsed, targetGrowth, readings, mark) >= stableTarget
    {
      GrownOneMore(startUsed, targetGrowth, readings, used);
      assert (readings + [used])[..|readings|] == readings;
      readings := readings + [used];
      if !grown && used >= startUsed + targetGrowth {
        grown := true;
      }
      if used == lastUsed {
        if grown {
          stableCount := stableCount + 1;
          return stableCount >= stableTarget;
        }
        return false;
      }
      stableCount := 0;
      lastUsed := used;
      return false;
    }

    /** Before the growth there is no stable count to start afresh. */
    ghost method NothingStable()
      requires Valid() && !grown
      modifies `mark
      ensures Valid() && mark == |readings|
    {
      mark := |readings|;
    }

    /** Starts the count of stable readings afresh. */
    method Reset()
      requires Valid()
      modifies this
      ensures Valid() && readings == old(readings) && mark == |readings|
    {
      stableCount := 0;
      mark := |readings|;
    }
  }

  lemma {:induction false} GrownOneMore(start: int, growth: nat, readings: seq<int>, used: int)
    ensures Grown(start, growth, readings + [used]) <==> Grown(start, growth, readings) || used >= start + growth
  {
    var next := readings + [used];
    assert next[|readings|] == used;
    assert forall i :: 0 <= i < |readings| ==> next[i] == readings[i];
  }

  // ----- when the app is asked

  /** Whether a confirmation is due after these readings, the last one having been asked after the first
      mark of them: the stable run is long enough, or nothing has grown for long enough. */
  ghost predicate ConfirmationDue(start: int, growth: nat, target: nat, readings: seq<int>, mark: nat) {
    if Grown(start, growth, readings) then StableRun(start, growth, readings, mark) >= target else |readings| >= mark + target
  }

  /** The readings there had been at the last confirmation among the first n. */
  ghost function Mark(start: int, growth: nat, target: nat, readings: seq<int>, n: nat): (mark: nat)
    requires n <= |readings|
    ensures mark <= n
    decreases n, 1
  {
    if n == 0 then 0
    else if AskedAfter(start, growth, target, readings, n) then n
    else Mark(start, growth, target, readings, n - 1)
  }

  /** The app is asked after the n-th reading. */
  ghost predicate AskedAfter(start: int, growth: nat, target: nat, readings: seq<int>, n: nat)
    requires 0 < n <= |readings|
    decreases n, 0
  {
    ConfirmationDue(start, growth, target, readings[..n], Mark(start, growth, target, readings, n - 1))
  }

  lemma {:induction false} RunIsShort(start: int, growth: nat, readings: seq<int>, mark: nat)
    ensures StableRun(start, growth, readings, mark) > 0 ==> mark + StableRun(start, growth, readings, mark) <= |readings|
    decreases |readings|
  {
    if |readings| > 0 {
      RunIsShort(start, growth, readings[..|readings| - 1], mark);
    }
  }

  lemma {:induction false} MarkIsLast(start: int, growth: nat, target: nat, readings: seq<int>, i: nat, n: nat)
    requires 0 < i <= n <= |readings| && AskedAfter(start, growth, target, readings, i)
    ensures Mark(start, growth, target, readings, n) >= i
    decreases n
  {
    if i < n {
      MarkIsLast(start, growth, target, readings, i, n - 1);
    }
  }

  /** Confirmations are at least target readings apart, whichever of the two paths asks for them, and the
      first comes after target readings. */
  lemma {:induction false} AskedApart(start: int, growth: nat, target: nat, readings: seq<int>, i: nat, j: nat)
    requires target > 0 && i < j <= |readings| && AskedAfter(start, growth, target, readings, j)
    requires i == 0 || AskedAfter(start, growth, target, readings, i)
    ensures j - i >= target
  {
    RunIsShort(start, growth, readings[..j], Mark(start, growth, target, readings, j - 1));
    if i > 0 {
      MarkIsLast(start, growth, target, readings, i, j - 1);
    }
  }

  // ----- and it is asked

  /** Nine tenths of the size, in whole bytes. */
  lemma {:induction false} GrowthIsNineTenths(size: int)
    ensures size <= 0 ==> TargetGrowth(size) == 0
    ensures size > 0 ==> 10 * TargetGrowth(size) <= 9 * size < 10 * TargetGrowth(size) + 10
  {
  }

  /** Some question came after one of the last k of the first n readings. */
  ghost predicate AskedLately(start: int, growth: nat, target: nat, readings: seq<int>, n: nat, k: nat)
    requires n <= |readings|
  {
    exists i: nat :: n < i + k && 0 < i <= n && AskedAfter(start, growth, target, readings, i)
  }

  lemma {:induction false} MarkWithoutAsking(start: int, growth: nat, target: nat, readings: seq<int>, m: nat, n: nat)
    requires m <= n <= |readings| && forall i: nat :: m < i <= n ==> !AskedAfter(start, growth, target, readings, i)
    ensures Mark(start, growth, target, readings, n) <= m
    decreases n
  {
    if m < n {
      MarkWithoutAsking(start, growth, target, readings, m, n - 1);
    }
  }

  /** While nothing has reached the growth, the app is asked within every target readings. */
  lemma {:induction false} AskedWithoutGrowth(start: int, growth: nat, target: nat, readings: seq<int>, n: nat)
    requires 0 < target <= n <= |readings| && forall i :: 0 <= i < n ==> readings[i] < start + growth
    ensures AskedLately(start, growth, target, readings, n, target)
  {
    if !AskedAfter(start, growth, target, readings, n) {
      if forall i: nat :: n - target < i <= n ==> !AskedAfter(start, growth, target, readings, i) {
        MarkWithoutAsking(start, growth, target, readings, n - target, n - 1);
        assert !Grown(start, growth, readings[..n]);
        assert ConfirmationDue(start, growth, target, readings[..n], Mark(start, growth, target, readings, n - 1));
      }
    }
  }

  /** And once target readings in a row have not changed, some reading up to the first of them having reached
      the growth, it has been asked within them. */
  lemma {:induction false} AskedWhenStable(start: int, growth: nat, target: nat, readings: seq<int>, n: nat, g: nat)
    requires 0 < target <= n <= |readings| && g <= n - target && readings[g] >= start + growth
    requires forall i :: n - target <= i < n ==> readings[i] == if i == 0 then start else readings[i - 1]
    ensures AskedLately(start, growth, target, readings, n, target)
  {
    if forall i: nat :: n - target < i < n ==> !AskedAfter(start, growth, target, readings, i) {
      var mark := Mark(start, growth, target, readings, n - 1);
      MarkWithoutAsking(start, growth, target, readings, n - target, n - 1);
      assert readings[..n][..n - target + 1][g] >= start + growth;
      assert Grown(start, growth, readings[..n][..n - target + 1]);
      GrownStays(start, growth, readings[..n], n - target + 1);
      forall i: nat | n - target <= i < n
        ensures Unchanged(start, readings[..n], i)
      {
        assert readings[i] == if i == 0 then start else readings[i - 1];
        assert readings[..n][i] == readings[i] && (i > 0 ==> readings[..n][i - 1] == readings[i - 1]);
      }
      StableRunMeans(start, growth, readings[..n], mark, target);
      assert AskedAfter(start, growth, target, readings, n);
    }
  }

  // ----- the loop

  datatype WaitOutcome = Settled(path: string) | ReadingFailed | MoveFailed | TimedOut

  function Used(readings: seq<Option<int>>): seq<int> {
    seq(|readings|, i requires 0 <= i < |readings| => if readings[i].Some? then readings[i].value else 0)
  }

  /** Takes one reading, by way of the tracker or of the count of readings without growth. */
  method TakeReading(tracker: SettleTracker, used: int, target: nat, noGrowthChecks: nat) returns (ask: bool, checks: nat)
    requires tracker.Valid() && target > 0 && (!tracker.grown ==> noGrowthChecks == |tracker.readings| - tracker.mark)
    modifies tracker
    ensures tracker.Valid() && tracker.readings == old(tracker.readings) + [used] && tracker.mark == old(tracker.mark)
    ensures ask <==> ConfirmationDue(tracker.startUsed, tracker.targetGrowth, target, tracker.readings, tracker.mark)
    ensures !tracker.grown ==> checks == |tracker.readings| - tracker.mark
  {
    var settled := tracker.Observe(used, target);
    if settled {
      return true, noGrowthChecks;
    }
    if tracker.grown {
      return false, 0;
    }
    return noGrowthChecks + 1 >= target, noGrowthChecks + 1;
  }

  /** After the app says not yet, both counts start afresh. */
  method StartAfresh(tracker: SettleTracker) returns (checks: nat)
    requires tracker.Valid()
    modifies tracker
    ensures tracker.Valid() && tracker.readings == old(tracker.readings) && tracker.mark == |tracker.readings| && checks == 0
  {
    if tracker.grown {
      tracker.Reset();
    } else {
      tracker.NothingStable();
    }
    return 0;
  }

  /** The looks the app was asked for among the first n readings. */
  ghost function AskedLooks(start: int, growth: nat, target: nat, readings: seq<Option<int>>, looks: seq<Look>, n: nat): seq<Look>
    requires n <= |readings| == |looks|
  {
    if n == 0 then []
    else if AskedAfter(start, growth, target, Used(readings), n) then AskedLooks(start, growth, target, readings, looks, n - 1) + [looks[n - 1]]
    else AskedLooks(start, growth, target, readings, looks, n - 1)
  }

  /** The app is asked after reading n (counting from 0), and says c. */
  ghost predicate Answered(e: GroupMove, was: Memory, start: int, target: nat, readings: seq<Option<int>>, looks: seq<Look>, n: nat, c: Confirmation)
    requires n < |readings| == |looks|
  {
    && AskedAfter(start, TargetGrowth(e.size), target, Used(readings), n + 1)
    && Verdict(e, looks[n], MemoriesFrom(e, was, AskedLooks(start, TargetGrowth(e.size), target, readings, looks, n))) == c
  }

  /** The first n readings all came, and whenever the app was asked after one of them it said not yet. */
  ghost predicate KeptWaiting(e: GroupMove, was: Memory, start: int, target: nat, readings: seq<Option<int>>, looks: seq<Look>, n: nat)
    requires n <= |readings| == |looks|
  {
    forall i :: 0 <= i < n ==>
                  && readings[i].Some?
                  && (AskedAfter(start, TargetGrowth(e.size), target, Used(readings), i + 1) ==> Answered(e, was, start, target, readings, looks, i, NotYet))
  }

  /** How the wait ends after n readings. */
  ghost predicate WaitEnds(e: GroupMove, was: Memory, start: int, target: nat, readings: seq<Option<int>>, looks: seq<Look>, n: nat, outcome: WaitOutcome)
    requires n <= |readings| == |looks|
  {
    match outcome
    case TimedOut => n == |readings|
    case ReadingFailed => n < |readings| && readings[n].None?
    case MoveFailed => n < |readings| && Answered(e, was, start, target, readings, looks, n, FailedForGood)
    case Settled(path) => n < |readings| && Answered(e, was, start, target, readings, looks, n, LandedAt(path))
  }

  /** What the wait knows between two readings. */
  ghost predicate KeepsTrack(tracker: SettleTracker, noGrowthChecks: nat, start: int, growth: nat, target: nat, readings: seq<int>, n: nat)
    requires n <= |readings|
    reads tracker
  {
    && tracker.Valid() && tracker.startUsed == start && tracker.targetGrowth == growth
    && tracker.readings == readings[..n] && tracker.mark == Mark(start, growth, target, readings, n)
    && (!tracker.grown ==> noGrowthChecks == n - tracker.mark)
  }

  /** What was remembered of any other move still is. */
  ghost predicate OthersKept(x: Executor, key: string, sawMoving: set<string>, unseen: map<string, nat>)
    reads x
  {
    forall k :: k != key ==> x.MemoryOf(k) == RememberedOf(sawMoving, unseen, k)
  }

  /** Waits for a transfer to land. readings are the disk's answers until the deadline, and looks[i] what a
      confirmation after reading i would see. n is how many readings the wait went on past. */
  method Settle(x: Executor, e: GroupMove, baseline: Option<int>, target: nat, readings: seq<Option<int>>, looks: seq<Look>) returns (outcome: WaitOutcome, n: nat)
    requires target > 0 && |looks| == |readings| && e.hashes != []
    modifies x`sawMoving, x`unseen
    ensures n <= |readings| && (baseline.None? ==> outcome == ReadingFailed && n == 0)
    ensures baseline.Some? ==>
              var was := old(x.MemoryOf(e.hashes[0]));
              KeptWaiting(e, was, baseline.value, target, readings, looks, n) && WaitEnds(e, was, baseline.value, target, readings, looks, n, outcome)
    ensures OthersKept(x, e.hashes[0], old(x.sawMoving), old(x.unseen))
  {
    if baseline.None? {
      return ReadingFailed, 0;
    }
    var tracker := new SettleTracker(baseline.value, e.size);
    var noGrowthChecks: nat := 0;
    ghost var was := x.MemoryOf(e.hashes[0]);
    ghost var start, growth, used := baseline.value, TargetGrowth(e.size), Used(readings);
    n := 0;
    while n < |readings|
      invariant fresh(tracker) && n <= |readings|
      invariant KeepsTrack(tracker, noGrowthChecks, start, growth, target, used, n)
      invariant x.MemoryOf(e.hashes[0]) == MemoriesFrom(e, was, AskedLooks(start, growth, target, readings, looks, n))
      invariant KeptWaiting(e, was, start, target, readings, looks, n)
      invariant OthersKept(x, e.hashes[0], old(x.sawMoving), old(x.unseen))
    {
      if readings[n].None? {
        return ReadingFailed, n;
      }
      var c;
      c, noGrowthChecks := TakeTurn(x, tracker, e, was, noGrowthChecks, start, target, readings, looks, n);
      if c == FailedForGood {
        return MoveFailed, n;
      }
      if c.LandedAt? {
        return Settled(c.path), n;
      }
      StillWaiting(e, was, start, target, readings, looks, n);
      n := n + 1;
    }
    return TimedOut, n;
  }

  /** One turn of the wait: a reading, and the question when it is due. */
  method TakeTurn(x: Executor, tracker: SettleTracker, e: GroupMove, ghost was: Memory, noGrowthChecks: nat, ghost start: int, target: nat,
                  readings: seq<Option<int>>, looks: seq<Look>, n: nat)
    returns (c: Confirmation, checks: nat)
    requires target > 0 && n < |readings| == |looks| && readings[n].Some? && e.hashes != []
    requires KeepsTrack(tracker, noGrowthChecks, start, TargetGrowth(e.size), target, Used(readings), n)
    requires x.MemoryOf(e.hashes[0]) == MemoriesFrom(e, was, AskedLooks(start, TargetGrowth(e.size), target, readings, looks, n))
    modifies x`sawMoving, x`unseen, tracker
    ensures c != NotYet ==> Answered(e, was, start, target, readings, looks, n, c)
    ensures c == NotYet ==> (AskedAfter(start, TargetGrowth(e.size), target, Used(readings), n + 1) ==> Answered(e, was, start, target, readings, looks, n, NotYet))
    ensures c == NotYet ==> KeepsTrack(tracker, checks, start, TargetGrowth(e.size), target, Used(readings), n + 1)
    ensures x.MemoryOf(e.hashes[0]) == MemoriesFrom(e, was, AskedLooks(start, TargetGrowth(e.size), target, readings, looks, n + 1))
    ensures OthersKept(x, e.hashes[0], old(x.sawMoving), old(x.unseen))
  {
    var ask;
    ask, checks := NextReading(tracker, noGrowthChecks, start, TargetGrowth(e.size), target, Used(readings), n, readings[n].value);
    ask, c := AskIfDue(x, e, was, ask, start, target, readings, looks, n);
    if ask && c == NotYet {
      checks := StartAfresh(tracker);
    }
  }

  lemma {:induction false} StillWaiting(e: GroupMove, was: Memory, start: int, target: nat, readings: seq<Option<int>>, looks: seq<Look>, n: nat)
    requires n < |readings| == |looks| && KeptWaiting(e, was, start, target, readings, looks, n) && readings[n].Some?
    requires AskedAfter(start, TargetGrowth(e.size), target, Used(readings), n + 1) ==> Answered(e, was, start, target, readings, looks, n, NotYet)
    ensures KeptWaiting(e, was, start, target, readings, looks, n + 1)
  {
    forall i | 0 <= i < n + 1
      ensures readings[i].Some? && (AskedAfter(start, TargetGrowth(e.size), target, Used(readings), i + 1) ==> Answered(e, was, start, target, readings, looks, i, NotYet))
    {
    }
  }

  /** Asks the app whether the move has landed, when that is due after reading n. */
  method AskIfDue(x: Executor, e: GroupMove, ghost was: Memory, due: bool, ghost start: int, ghost target: nat, ghost readings: seq<Option<int>>, looks: seq<Look>, n: nat)
    returns (asked: bool, c: Confirmation)
    requires n < |readings| == |looks| && e.hashes != []
    requires due <==> AskedAfter(start, TargetGrowth(e.size), target, Used(readings), n + 1)
    requires x.MemoryOf(e.hashes[0]) == MemoriesFrom(e, was, AskedLooks(start, TargetGrowth(e.size), target, readings, looks, n))
    modifies x`sawMoving, x`unseen
    ensures asked == due && (due ==> Answered(e, was, start, target, readings, looks, n, c)) && (!due ==> c == NotYet)
    ensures x.MemoryOf(e.hashes[0]) == MemoriesFrom(e, was, AskedLooks(start, TargetGrowth(e.size), target, readings, looks, n + 1))
    ensures OthersKept(x, e.hashes[0], old(x.sawMoving), old(x.unseen))
  {
    asked := due;
    c := NotYet;
    if due {
      ghost var before := AskedLooks(start, TargetGrowth(e.size), target, readings, looks, n);
      assert (before + [looks[n]])[..|before|] == before;
      c := x.ConfirmLanded(e, looks[n]);
    }
  }

  /** Reading n, taken in step with the specification. */
  method NextReading(tracker: SettleTracker, noGrowthChecks: nat, ghost start: int, ghost growth: nat, target: nat, ghost readings: seq<int>, ghost n: nat, used: int)
    returns (ask: bool, checks: nat)
    requires target > 0 && n < |readings| && readings[n] == used && KeepsTrack(tracker, noGrowthChecks, start, growth, target, readings, n)
    modifies tracker
    ensures tracker.Valid() && tracker.startUsed == start && tracker.targetGrowth == growth && tracker.readings == readings[..n + 1]
    ensures ask <==> AskedAfter(start, growth, target, readings, n + 1)
    ensures !ask ==> KeepsTrack(tracker, checks, start, growth, target, readings, n + 1)
  {
    assert readings[..n + 1] == readings[..n] + [used];
    ask, checks := TakeReading(tracker, used, target, noGrowthChecks);
  }

  /** A transfer that adds nothing to the disk - a rename, say - lands as soon as it can: with everything in place
      at every look and no reading reaching the growth, the wait ends with the target-th reading. */
  lemma {:induction false} QuietMoveSettles(e: GroupMove, was: Memory, start: int, target: nat, readings: seq<Option<int>>, looks: seq<Look>, n: nat, outcome: WaitOutcome)
    requires 0 < target <= |readings| == |looks| && (forall i :: 0 <= i < |looks| ==> AllInPlace(e, looks[i]))
    requires forall i :: 0 <= i < target ==> readings[i].Some? && readings[i].value < start + TargetGrowth(e.size)
    requires n <= |readings| && KeptWaiting(e, was, start, target, readings, looks, n) && WaitEnds(e, was, start, target, readings, looks, n, outcome)
    ensures outcome == Settled(e.newContentPath) && n == target - 1
  {
    var growth, used := TargetGrowth(e.size), Used(readings);
    FirstAsked(start, growth, target, used);
    assert AskedAfter(start, growth, target, used, target);
    if n < target - 1 {
      NotAskedBefore(start, growth, target, used, n + 1);
    } else if n >= target {
      AnsweredThere(e, was, start, target, readings, looks, n, target - 1);
    }
  }

  lemma {:induction false} AnsweredThere(e: GroupMove, was: Memory, start: int, target: nat, readings: seq<Option<int>>, looks: seq<Look>, n: nat, i: nat)
    requires i < n <= |readings| == |looks| && KeptWaiting(e, was, start, target, readings, looks, n)
    requires AskedAfter(start, TargetGrowth(e.size), target, Used(readings), i + 1)
    ensures Answered(e, was, start, target, readings, looks, i, NotYet)
  {
  }

  /** With no growth, the first question comes after the target-th reading. */
  lemma {:induction false} FirstAsked(start: int, growth: nat, target: nat, readings: seq<int>)
    requires 0 < target <= |readings| && forall i :: 0 <= i < target ==> readings[i] < start + growth
    ensures AskedAfter(start, growth, target, readings, target)
  {
    AskedWithoutGrowth(start, growth, target, readings, target);
    var i: nat :| target < i + target && 0 < i <= target && AskedAfter(start, growth, target, readings, i);
    AskedApart(start, growth, target, readings, 0, i);
  }

  lemma {:induction false} NotAskedBefore(start: int, growth: nat, target: nat, readings: seq<int>, n: nat)
    requires 0 < n < target && n <= |readings|
    ensures !AskedAfter(start, growth, target, readings, n)
  {
    if AskedAfter(start, growth, target, readings, n) {
      AskedApart(start, growth, target, readings, 0, n);
    }
  }

  /** Settled means the app was asked, and then every member was in place and the content visible at 99% or
      more of its size. */
  lemma {:induction false} SettledIsLanded(e: GroupMove, was: Memory, start: int, target: nat, readings: seq<Option<int>>, looks: seq<Look>, n: nat, path: string)
    requires n < |readings| == |looks| && WaitEnds(e, was, start, target, readings, looks, n, Settled(path))
    ensures AllInPlace(e, looks[n]) && path == e.newContentPath && n + 1 >= target
  {
    if target > 0 {
      AskedApart(start, TargetGrowth(e.size), target, Used(readings), 0, n + 1);
    }
  }
}
