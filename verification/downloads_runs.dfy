/** A downloads plan and the serial run that carries it out: whether the room check before each move can turn it
    down (internal/torrents, internal/mover). */
module DownloadsRuns {
  import opened DiskUsage
  import opened PlannerModel
  import opened Mover
  import opened DownloadsPlan
  import DownloadMoves
  import opened SerialRuns

  /** The moves whose data is at its new home when the i-th turn comes. */
  ghost function LandedBefore(results: seq<Carried>, i: nat): set<nat>
    requires i <= |results|
  {
    set j | 0 <= j < i && results[j].landed
  }

  /** Turn i carries out move m. */
  predicate CarriesOut(t: Turn, m: DownloadMove) {
    t.e.hashes == m.group.hashes && t.e.size == m.group.size
  }

  /** The i-th turn's room check is made on what the destination reads then: what it reads without the run,
      and what has landed. */
  ghost predicate RoomCheckedAt(input: DownloadsInput, entries: seq<DownloadMove>, turns: seq<Turn>, results: seq<Carried>, bases: map<Path, Usage>, readings: seq<Usage>, i: nat)
    requires i < |results| <= |turns| == |entries| && |results| <= |readings|
  {
    var path := entries[i].seed.path;
    && CarriesOut(turns[i], entries[i]) && path in input.usage && path in bases && bases[path].NoFullerThan(input.usage[path])
    && ReadsAfter(input.volumeOf, Moves(entries), bases[path], LandedBefore(results, i), i, path, readings[i])
    && (turns[i].roomOk <==> HasRoom(Some(readings[i]), EngineMove(AsMove(entries[i]))))
  }

  ghost predicate RoomChecked(input: DownloadsInput, entries: seq<DownloadMove>, turns: seq<Turn>, results: seq<Carried>, bases: map<Path, Usage>, readings: seq<Usage>) {
    && |results| <= |turns| == |entries| && |results| <= |readings|
    && forall i: nat :: i < |results| ==> RoomCheckedAt(input, entries, turns, results, bases, readings, i)
  }

  /** Nothing else of the run is on a disk by then, or on its way there: every earlier move was confirmed in
      place, was turned down, or was never asked for. */
  ghost predicate EarlierSettled(turns: seq<Turn>, target: nat, results: seq<Carried>, i: nat)
    requires i < |results| <= |turns| && ValidTurns(turns)
  {
    forall j: nat :: j < i ==>
                       if j in LandedBefore(results, i) then ConfirmedInPlace(turns[j], target, results[j])
                       else !turns[j].MoveAsked() || turns[j].answer == DownloadMoves.TurnedDown
  }

  lemma {:induction false} AllEarlierSettled(turns: seq<Turn>, target: nat, category: string, results: seq<Carried>, i: nat)
    requires ValidTurns(turns) && SerialRun(turns, target, category, results) && i < |results|
    ensures EarlierSettled(turns, target, results, i)
  {
    forall j: nat | j < i
      ensures if j in LandedBefore(results, i) then ConfirmedInPlace(turns[j], target, results[j])
              else !turns[j].MoveAsked() || turns[j].answer == DownloadMoves.TurnedDown
    {
      EarlierIsOver(turns, target, category, results, i, j);
      if results[j].landed {
        LandedIsConfirmed(turns[j], target, category, results[j]);
      } else {
        NotLandedNotConfirmed(turns, target, category, results, i, j);
      }
    }
  }

  /** A turn that was asked for, went on safely and did not land was turned down. */
  lemma {:induction false} NotLandedNotConfirmed(turns: seq<Turn>, target: nat, category: string, results: seq<Carried>, i: nat, j: nat)
    requires ValidTurns(turns) && SerialRun(turns, target, category, results) && j < i < |results| && !results[j].landed
    ensures !turns[j].MoveAsked() || turns[j].answer == DownloadMoves.TurnedDown
  {
    assert results[j].safe;
  }

  /** In a serial run of a plan, with no group on the volume of a destination, the room check turns no move
      down, whichever earlier ones failed. */
  lemma {:induction false} SerialRunHasRoom(input: DownloadsInput, groups: seq<Group>, entries: seq<DownloadMove>, turns: seq<Turn>, target: nat, category: string,
                                            results: seq<Carried>, bases: map<Path, Usage>, readings: seq<Usage>, i: nat)
    requires ValidTiers(input.tiers) && WellPlaced(input, groups) && Planned(input, groups, entries) && Coherent(input.volumeOf, input.usage)
    requires ValidTurns(turns) && SerialRun(turns, target, category, results) && RoomChecked(input, entries, turns, results, bases, readings)
    requires i < |results| && forall g :: g in groups ==> !SameVolume(input.volumeOf, g.tierPath, entries[i].seed.path)
    ensures turns[i].roomOk && EarlierSettled(turns, target, results, i)
  {
    AllEarlierSettled(turns, target, category, results, i);
    assert RoomCheckedAt(input, entries, turns, results, bases, readings, i);
    PlannedApart(input, groups, entries, i, LandedBefore(results, i), bases[entries[i].seed.path], readings[i]);
  }

  /** With groups on it too, it turns none down before the first failure: as long as every earlier move landed. */
  lemma {:induction false} SmoothSerialRunHasRoom(input: DownloadsInput, groups: seq<Group>, entries: seq<DownloadMove>, turns: seq<Turn>, target: nat, category: string,
                                                  results: seq<Carried>, bases: map<Path, Usage>, readings: seq<Usage>, i: nat)
    requires ValidTiers(input.tiers) && WellPlaced(input, groups) && Planned(input, groups, entries) && Coherent(input.volumeOf, input.usage)
    requires ValidTurns(turns) && SerialRun(turns, target, category, results) && RoomChecked(input, entries, turns, results, bases, readings)
    requires i < |results| && forall j :: 0 <= j < i ==> results[j].landed
    ensures turns[i].roomOk
  {
    assert RoomCheckedAt(input, entries, turns, results, bases, readings, i);
    assert HasFirst(LandedBefore(results, i), i);
    PlannedInOrder(input, groups, entries, i, LandedBefore(results, i), bases[entries[i].seed.path], readings[i]);
  }
}
