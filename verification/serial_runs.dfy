/** A downloads run: entries carried out one at a time through one executor, each confirmed and labelled
    before the next begins (internal/mover, internal/torrents, internal/webui). */
module SerialRuns {
  import opened PlannerModel
  import opened DownloadMoves
  import opened Settling
  import Mover

  /** An entry with all it meets on its turn: the checks before it, qBittorrent's answers, the disk's readings
      until the deadline, and what a confirmation after each would see. */
  datatype Turn = Turn(e: GroupMove, storageOk: bool, roomOk: bool, found: Option<map<string, Torrent>>, autoDisabled: bool, answer: MoveAnswer,
                       baseline: Option<int>, readings: seq<Option<int>>, looks: seq<Look>, labels: LabelAnswers)
  {
    predicate Valid() {
      |looks| == |readings| && e.hashes != []
    }

    predicate Checked() {
      storageOk && roomOk
    }

    /** What is asked of qBittorrent before the wait. */
    function Asked(): seq<Request> {
      if Checked() && found.Some? && ReadyToMove(e, found.value) then
        (if e.disableAuto != [] then [DisableAuto(e.disableAuto)] else []) +
        (if e.disableAuto == [] || autoDisabled then [SetLocation(e.hashes, e.location)] else [])
      else []
    }

    /** The app was asked to move the data. */
    predicate MoveAsked() {
      Checked() && found.Some? && ReadyToMove(e, found.value) && (e.disableAuto == [] || autoDisabled)
    }
  }

  /** How a turn went: landed says the data is at its new home; safe, that nothing of it can still be writing
      to the destination; wait and n, how the wait for it ended and after which reading, if there was one. */
  datatype Carried = Carried(landed: bool, safe: bool, status: Mover.Status, wait: Option<WaitOutcome>, n: nat)

  /** The wait went as Settle's contract says. */
  ghost predicate Waited(t: Turn, target: nat, was: Memory, outcome: WaitOutcome, n: nat)
    requires t.Valid()
  {
    if t.baseline.None? then outcome == ReadingFailed && n == 0
    else
      && n <= |t.readings| && KeptWaiting(t.e, was, t.baseline.value, target, t.readings, t.looks, n)
      && WaitEnds(t.e, was, t.baseline.value, target, t.readings, t.looks, n, outcome)
  }

  /** How a turn may go, from what was remembered of its move. */
  ghost predicate Carries(t: Turn, target: nat, was: Memory, category: string, r: Carried)
    requires t.Valid()
  {
    if !t.MoveAsked() then r == Carried(false, true, Mover.Failed, None, 0)
    else if t.answer != Accepted then r == Carried(false, t.answer == TurnedDown, Mover.Failed, None, 0)
    else
      && r.wait.Some? && Waited(t, target, was, r.wait.value, r.n)
      && r.landed == r.safe == r.wait.value.Settled?
      && r.status == if r.landed && Labelled(category, t.labels) && t.labels.recorded then Mover.Done else Mover.Failed
  }

  function RequestsOf(t: Turn, category: string, r: Carried): seq<Request> {
    t.Asked() + if r.landed then Labelling(t.e.hashes, category, t.labels) else []
  }

  function LoggedBy(t: Turn, r: Carried): seq<Moved> {
    if r.landed then LogEntries(t.e, t.e.newContentPath, t.labels) else []
  }

  /** Carries one entry out. */
  method RunOne(x: Executor, t: Turn, target: nat) returns (r: Carried)
    requires target > 0 && t.Valid()
    modifies x
    ensures Carries(t, target, old(x.MemoryOf(t.e.hashes[0])), x.seedLabel, r)
    ensures x.requests == old(x.requests) + RequestsOf(t, x.seedLabel, r) && x.log == old(x.log) + LoggedBy(t, r)
    ensures OthersKept(x, t.e.hashes[0], old(x.sawMoving), old(x.unseen))
  {
    if !t.storageOk || !t.roomOk {
      return Carried(false, true, Mover.Failed, None, 0);
    }
    var outcome := AskToMove(x, t);
    if outcome != Accepted {
      return Carried(false, outcome == TurnedDown, Mover.Failed, None, 0);
    }
    r := AwaitLanding(x, t, target);
  }

  method AskToMove(x: Executor, t: Turn) returns (outcome: MoveAnswer)
    requires t.Checked()
    modifies x`requests
    ensures x.requests == old(x.requests) + t.Asked() && outcome == if t.MoveAsked() then t.answer else TurnedDown
  {
    outcome := x.Move(t.e, t.found, t.autoDisabled, t.answer);
  }

  /** Waits for an accepted move, and labels and records it once it has landed. */
  method AwaitLanding(x: Executor, t: Turn, target: nat) returns (r: Carried)
    requires target > 0 && t.Valid() && t.MoveAsked() && t.answer == Accepted
    modifies x
    ensures Carries(t, target, old(x.MemoryOf(t.e.hashes[0])), x.seedLabel, r)
    ensures x.requests == old(x.requests) + (if r.landed then Labelling(t.e.hashes, x.seedLabel, t.labels) else []) && x.log == old(x.log) + LoggedBy(t, r)
    ensures OthersKept(x, t.e.hashes[0], old(x.sawMoving), old(x.unseen))
  {
    var wait, n := Settle(x, t.e, t.baseline, target, t.readings, t.looks);
    if !wait.Settled? {
      return Carried(false, false, Mover.Failed, Some(wait), n);
    }
    var ok := x.Landed(t.e, wait.path, t.labels);
    return Carried(true, true, if ok then Mover.Done else Mover.Failed, Some(wait), n);
  }

  // ----- the run

  ghost predicate ValidTurns(turns: seq<Turn>) {
    forall i :: 0 <= i < |turns| ==> turns[i].Valid()
  }

  /** No two entries are remembered under one hash: a download is in one group. */
  ghost predicate HeadsApart(turns: seq<Turn>)
    requires ValidTurns(turns)
  {
    forall i, j :: 0 <= i < j < |turns| ==> turns[i].e.hashes[0] != turns[j].e.hashes[0]
  }

  /** Turns carried out so far: each as a run that remembers nothing of its move, every one before the last
      of them safe to go on from. */
  ghost predicate CarriedSo(turns: seq<Turn>, target: nat, category: string, results: seq<Carried>)
    requires ValidTurns(turns)
  {
    && |results| <= |turns|
    && (forall i :: 0 <= i < |results| ==> Carries(turns[i], target, Memory(false, 0), category, results[i]))
    && forall i :: 0 <= i < |results| - 1 ==> results[i].safe
  }

  /** A whole run: it ends early exactly after a turn that is not safe to go on from. */
  ghost predicate SerialRun(turns: seq<Turn>, target: nat, category: string, results: seq<Carried>)
    requires ValidTurns(turns)
  {
    CarriedSo(turns, target, category, results) && (|results| < |turns| ==> results != [] && !results[|results| - 1].safe)
  }

  /** All that was asked of qBittorrent, turn by turn. */
  function AllRequests(turns: seq<Turn>, category: string, results: seq<Carried>): seq<Request>
    requires |results| <= |turns|
  {
    if results == [] then []
    else
      var n := |results| - 1;
      AllRequests(turns, category, results[..n]) + RequestsOf(turns[n], category, results[n])
  }

  function AllLogged(turns: seq<Turn>, results: seq<Carried>): seq<Moved>
    requires |results| <= |turns|
  {
    if results == [] then []
    else
      var n := |results| - 1;
      AllLogged(turns, results[..n]) + LoggedBy(turns[n], results[n])
  }

  function StatusesOf(turns: seq<Turn>, results: seq<Carried>): seq<Mover.Status> {
    seq(|turns|, i requires 0 <= i < |turns| => if i < |results| then results[i].status else Mover.Failed)
  }

  /** Nothing is remembered yet of the moves from the n-th on. */
  ghost predicate NothingKnown(x: Executor, turns: seq<Turn>, n: nat)
    requires ValidTurns(turns)
    reads x
  {
    forall i :: n <= i < |turns| ==> x.MemoryOf(turns[i].e.hashes[0]) == Memory(false, 0)
  }

  /** Runs the entries of a downloads plan in order, one queue for all of them, and fails those behind one
      whose transfer may still be going on. */
  method RunSerial(x: Executor, turns: seq<Turn>, target: nat) returns (statuses: seq<Mover.Status>, results: seq<Carried>)
    requires target > 0 && ValidTurns(turns) && HeadsApart(turns) && NothingKnown(x, turns, 0)
    modifies x
    ensures SerialRun(turns, target, x.seedLabel, results) && statuses == StatusesOf(turns, results)
    ensures x.requests == old(x.requests) + AllRequests(turns, x.seedLabel, results)
    ensures x.log == old(x.log) + AllLogged(turns, results)
  {
    statuses, results := [], [];
    ghost var asked, logged := x.requests, x.log;
    while |results| < |turns| && (results == [] || results[|results| - 1].safe)
      invariant KeepsOn(x, turns, target, asked, logged, results)
      invariant StatusesSoFar(statuses, results)
      decreases |turns| - |results|
    {
      var r := NextTurn(x, turns, target, asked, logged, results);
      statuses, results := statuses + [r.status], results + [r];
    }
    statuses := FailBlocked(turns, statuses, results);
  }

  ghost predicate StatusesSoFar(statuses: seq<Mover.Status>, results: seq<Carried>) {
    |statuses| == |results| && forall i :: 0 <= i < |results| ==> statuses[i] == results[i].status
  }

  /** Fails the entries behind one that is not safe to go on from. */
  method FailBlocked(turns: seq<Turn>, before: seq<Mover.Status>, ghost results: seq<Carried>) returns (statuses: seq<Mover.Status>)
    requires |results| <= |turns| && StatusesSoFar(before, results)
    ensures statuses == StatusesOf(turns, results)
  {
    statuses := before;
    for i := |before| to |turns|
      invariant |statuses| == i && forall j :: 0 <= j < i ==> statuses[j] == if j < |results| then results[j].status else Mover.Failed
    {
      statuses := statuses + [Mover.Failed];
    }
  }

  /** What a run knows between two turns. */
  ghost predicate KeepsOn(x: Executor, turns: seq<Turn>, target: nat, asked: seq<Request>, logged: seq<Moved>, results: seq<Carried>)
    requires ValidTurns(turns)
    reads x
  {
    && CarriedSo(turns, target, x.seedLabel, results) && NothingKnown(x, turns, |results|)
    && x.requests == asked + AllRequests(turns, x.seedLabel, results) && x.log == logged + AllLogged(turns, results)
  }

  /** One turn leaves what later ones find untouched. */
  method NextTurn(x: Executor, turns: seq<Turn>, target: nat, ghost asked: seq<Request>, ghost logged: seq<Moved>, results: seq<Carried>) returns (r: Carried)
    requires target > 0 && ValidTurns(turns) && HeadsApart(turns) && |results| < |turns|
    requires KeepsOn(x, turns, target, asked, logged, results) && (results != [] ==> results[|results| - 1].safe)
    modifies x
    ensures KeepsOn(x, turns, target, asked, logged, results + [r])
  {
    r := RunOne(x, turns[|results|], target);
    StillNothingKnown(x, turns, |results|, old(x.sawMoving), old(x.unseen));
    OneMoreTurn(turns, target, x.seedLabel, results, r);
    OneMoreAsked(turns, x.seedLabel, results, r, asked, logged);
  }

  lemma {:induction false} StillNothingKnown(x: Executor, turns: seq<Turn>, n: nat, sawMoving: set<string>, unseen: map<string, nat>)
    requires ValidTurns(turns) && HeadsApart(turns) && n < |turns| && OthersKept(x, turns[n].e.hashes[0], sawMoving, unseen)
    requires forall i :: n <= i < |turns| ==> RememberedOf(sawMoving, unseen, turns[i].e.hashes[0]) == Memory(false, 0)
    ensures NothingKnown(x, turns, n + 1)
  {
  }

  lemma {:induction false} OneMoreTurn(turns: seq<Turn>, target: nat, category: string, results: seq<Carried>, r: Carried)
    requires ValidTurns(turns) && CarriedSo(turns, target, category, results) && (results != [] ==> results[|results| - 1].safe)
    requires |results| < |turns| && Carries(turns[|results|], target, Memory(false, 0), category, r)
    ensures CarriedSo(turns, target, category, results + [r])
  {
    var next := results + [r];
    forall i | 0 <= i < |next|
      ensures Carries(turns[i], target, Memory(false, 0), category, next[i])
    {
      assert next[i] == if i < |results| then results[i] else r;
    }
    assert forall i :: 0 <= i < |next| - 1 ==> next[i] == results[i];
  }

  lemma {:induction false} OneMoreAsked(turns: seq<Turn>, category: string, results: seq<Carried>, r: Carried, asked: seq<Request>, logged: seq<Moved>)
    requires |results| < |turns|
    ensures asked + AllRequests(turns, category, results + [r]) == asked + AllRequests(turns, category, results) + RequestsOf(turns[|results|], category, r)
    ensures logged + AllLogged(turns, results + [r]) == logged + AllLogged(turns, results) + LoggedBy(turns[|results|], r)
  {
    assert (results + [r])[..|results|] == results;
  }

  // ----- what every run keeps

  lemma {:induction false} RequestIsSomeones(turns: seq<Turn>, category: string, results: seq<Carried>, q: Request) returns (i: nat)
    requires |results| <= |turns| && q in AllRequests(turns, category, results)
    ensures i < |results| && q in RequestsOf(turns[i], category, results[i])
    decreases |results|
  {
    var n := |results| - 1;
    if q in AllRequests(turns, category, results[..n]) {
      i := RequestIsSomeones(turns, category, results[..n], q);
    } else {
      i := n;
    }
  }

  /** Every member was in place and the content there when the app was last asked about the entry. */
  ghost predicate ConfirmedInPlace(t: Turn, target: nat, r: Carried)
    requires t.Valid()
  {
    && t.MoveAsked() && t.answer == Accepted && t.baseline.Some? && r.n < |t.looks|
    && AskedAfter(t.baseline.value, TargetGrowth(t.e.size), target, Used(t.readings), r.n + 1) && AllInPlace(t.e, t.looks[r.n])
  }

  lemma {:induction false} LandedIsConfirmed(t: Turn, target: nat, category: string, r: Carried)
    requires t.Valid() && Carries(t, target, Memory(false, 0), category, r) && r.landed
    ensures ConfirmedInPlace(t, target, r) && r.safe
  {
    SettledIsLanded(t.e, Memory(false, 0), t.baseline.value, target, t.readings, t.looks, r.n, r.wait.value.path);
  }

  lemma {:induction false} LabelMeansLanded(t: Turn, category: string, r: Carried, hashes: seq<string>, given: string)
    requires SetCategory(hashes, given) in RequestsOf(t, category, r)
    ensures r.landed && hashes == t.e.hashes && given == category
  {
    assert SetCategory(hashes, given) !in t.Asked();
  }

  /** In every run, a download is labelled only after a confirmation saw its whole group in place. */
  lemma {:induction false} LabelledIsLanded(turns: seq<Turn>, target: nat, category: string, results: seq<Carried>, hashes: seq<string>, given: string) returns (i: nat)
    requires ValidTurns(turns) && SerialRun(turns, target, category, results) && SetCategory(hashes, given) in AllRequests(turns, category, results)
    ensures i < |results| && turns[i].e.hashes == hashes && given == category && ConfirmedInPlace(turns[i], target, results[i])
  {
    i := RequestIsSomeones(turns, category, results, SetCategory(hashes, given));
    LabelMeansLanded(turns[i], category, results[i], hashes, given);
    LandedIsConfirmed(turns[i], target, category, results[i]);
  }

  /** And every landing whose category is there, or can be created, is labelled. */
  lemma {:induction false} LandedIsLabelled(turns: seq<Turn>, target: nat, category: string, results: seq<Carried>, i: nat)
    requires ValidTurns(turns) && SerialRun(turns, target, category, results) && i < |results| && results[i].landed && Labelled(category, turns[i].labels)
    ensures SetCategory(turns[i].e.hashes, category) in AllRequests(turns, category, results)
    decreases |results|
  {
    RequestsHold(turns, category, results, i, SetCategory(turns[i].e.hashes, category));
  }

  lemma {:induction false} RequestsHold(turns: seq<Turn>, category: string, results: seq<Carried>, i: nat, q: Request)
    requires i < |results| <= |turns| && q in RequestsOf(turns[i], category, results[i])
    ensures q in AllRequests(turns, category, results)
    decreases |results|
  {
    if i < |results| - 1 {
      RequestsHold(turns, category, results[..|results| - 1], i, q);
    }
  }

  /** One at a time: once an entry's turn has come, every earlier one either landed or was never started. */
  lemma {:induction false} EarlierIsOver(turns: seq<Turn>, target: nat, category: string, results: seq<Carried>, i: nat, j: nat)
    requires ValidTurns(turns) && SerialRun(turns, target, category, results) && j < i < |results|
    ensures ConfirmedInPlace(turns[j], target, results[j]) || !turns[j].MoveAsked() || turns[j].answer == TurnedDown
  {
    assert results[j].safe;
    if turns[j].MoveAsked() && turns[j].answer != TurnedDown {
      LandedIsConfirmed(turns[j], target, category, results[j]);
    }
  }

  /** Behind an entry whose transfer may still be going on nothing more is asked of qBittorrent, and every
      entry is failed. */
  lemma {:induction false} UnsafeIsLast(turns: seq<Turn>, target: nat, category: string, results: seq<Carried>, i: nat)
    requires ValidTurns(turns) && SerialRun(turns, target, category, results) && i < |results| && !results[i].safe
    ensures i == |results| - 1 && turns[i].MoveAsked() && turns[i].answer != TurnedDown && !results[i].landed
    ensures AllRequests(turns, category, results) == AllRequests(turns, category, results[..i]) + turns[i].Asked()
    ensures forall k :: i <= k < |turns| ==> StatusesOf(turns, results)[k] == Mover.Failed
  {
    assert turns[i].Asked() + [] == turns[i].Asked();
  }

  /** The entries carried out are exactly those up to the first that is not safe to go on from. */
  lemma {:induction false} StopsExactly(turns: seq<Turn>, target: nat, category: string, results: seq<Carried>)
    requires ValidTurns(turns) && SerialRun(turns, target, category, results)
    ensures |results| == |turns| <==> forall i :: 0 <= i < |turns| - 1 ==> i < |results| && results[i].safe
  {
  }

  lemma {:induction false} AskedLooksAre(start: int, growth: nat, target: nat, readings: seq<Option<int>>, looks: seq<Look>, n: nat, i: nat) returns (m: nat)
    requires n <= |readings| == |looks| && i < |AskedLooks(start, growth, target, readings, looks, n)|
    ensures m < n && looks[m] == AskedLooks(start, growth, target, readings, looks, n)[i] && AskedAfter(start, growth, target, Used(readings), m + 1)
  {
    if i < |AskedLooks(start, growth, target, readings, looks, n - 1)| {
      m := AskedLooksAre(start, growth, target, readings, looks, n - 1, i);
    } else {
      m := n - 1;
    }
  }

  /** The first member out of place at the last look was back at its start. */
  predicate FoundBack(t: Turn, n: nat)
    requires n < |t.looks|
  {
    t.looks[n].found.Some? &&
    var i := FirstOut(t.e, t.looks[n].found.value, 0);
    i < |t.e.hashes| && BackAtStart(t.e, t.looks[n], t.e.hashes[i])
  }

  /** The app was asked after that reading of this turn, and the group was seen moving. */
  ghost predicate SawItMoving(t: Turn, target: nat, m: nat)
    requires t.Valid() && t.baseline.Some? && m < |t.looks|
  {
    AskedAfter(t.baseline.value, TargetGrowth(t.e.size), target, Used(t.readings), m + 1) && SeenMoving(t.e, t.looks[m])
  }

  /** In every run, an entry is given up on as back at its start only when an earlier confirmation of the same
      turn saw its group moving: what other entries did is not taken for it. */
  lemma {:induction false} BackAtStartMoved(turns: seq<Turn>, target: nat, category: string, results: seq<Carried>, i: nat) returns (m: nat)
    requires ValidTurns(turns) && SerialRun(turns, target, category, results) && i < |results|
    requires results[i].wait == Some(MoveFailed) && results[i].n < |turns[i].looks| && FoundBack(turns[i], results[i].n)
    requires turns[i].e.fromPath != turns[i].e.location && turns[i].baseline.Some?
    ensures m < results[i].n && SawItMoving(turns[i], target, m)
  {
    var t, n := turns[i], results[i].n;
    var looks := AskedLooks(t.baseline.value, TargetGrowth(t.e.size), target, t.readings, t.looks, n);
    BackAtStartIsFinal(t.e, looks, t.looks[n], t.e.hashes[FirstOut(t.e, t.looks[n].found.value, 0)]);
    var j :| 0 <= j < |looks| && SeenMoving(t.e, looks[j]);
    m := AskedLooksAre(t.baseline.value, TargetGrowth(t.e.size), target, t.readings, t.looks, n, j);
  }
}
