/** What each answer to a confirmation is, case by case (internal/torrents/executor.go). */
module Verdicts {
  import opened PlannerModel
  import opened DownloadMoves

  /** At rest at the new location, and complete. */
  predicate Arrived(e: GroupMove, t: Torrent) {
    (t.state == Seeding || t.state == Other) && t.savePath == e.location && t.complete
  }

  /** Every member before member i has arrived. */
  ghost predicate ArrivedBefore(e: GroupMove, found: map<string, Torrent>, i: nat)
    requires i <= |e.hashes|
  {
    forall j :: 0 <= j < i ==> e.hashes[j] in found && Arrived(e, found[e.hashes[j]])
  }

  /** Member i is the first that has not. */
  ghost predicate FirstAway(e: GroupMove, found: map<string, Torrent>, i: nat) {
    i < |e.hashes| && ArrivedBefore(e, found, i) && (e.hashes[i] in found ==> !Arrived(e, found[e.hashes[i]]))
  }

  lemma {:induction false} FirstAwayIs(e: GroupMove, found: map<string, Torrent>, i: nat)
    requires FirstAway(e, found, i)
    ensures FirstOut(e, found, 0) == i
  {
    forall j | 0 <= j < i
      ensures InPlace(e, found, e.hashes[j])
    {
      assert e.hashes[j] in found && Arrived(e, found[e.hashes[j]]);
    }
    FirstOutIs(e, found, 0, i);
  }

  /** A member qBittorrent no longer has ends the wait. */
  lemma {:induction false} GoneIsFinal(e: GroupMove, look: Look, memory: Memory, i: nat)
    requires look.found.Some? && FirstAway(e, look.found.value, i) && e.hashes[i] !in look.found.value
    ensures Verdict(e, look, memory) == FailedForGood && Remember(e, look, memory) == memory
  {
    FirstAwayIs(e, look.found.value, i);
    assert e.hashes[i] in e.hashes;
  }

  /** The one that has not arrived decides: errored or incomplete at its new home is final, moving or being checked
      is not, at its start it is final once the group was seen moving, and anywhere else it is not. */
  lemma {:induction false} AwayDecides(e: GroupMove, look: Look, memory: Memory, i: nat)
    requires look.found.Some? && FirstAway(e, look.found.value, i) && e.hashes[i] in look.found.value
    ensures var t := look.found.value[e.hashes[i]];
            && Verdict(e, look, memory) == (match t.state
                                            case Errored => FailedForGood
                                            case Moving => NotYet
                                            case Checking => NotYet
                                            case _ =>
                                              if t.savePath == e.location then FailedForGood
                                              else if t.savePath == e.fromPath && memory.sawMoving then FailedForGood
                                              else NotYet)
            && Remember(e, look, memory) == (if t.state == Moving then memory.(sawMoving := true) else memory)
  {
    FirstAwayIs(e, look.found.value, i);
    assert e.hashes[i] in e.hashes;
  }

  /** With every member arrived Coldarr looks for itself: what it sees of at least 99 percent of the size has landed,
      less or unreadable has not yet, and what it cannot see is given up on at the third such look. */
  lemma {:induction false} ArrivedIsSeen(e: GroupMove, look: Look, memory: Memory)
    requires look.found.Some? && ArrivedBefore(e, look.found.value, |e.hashes|) && e.size >= 0
    ensures Verdict(e, look, memory) == (match look.visible
                                         case None => NotYet
                                         case Some(false) => if memory.unseen >= 2 then FailedForGood else NotYet
                                         case Some(true) =>
                                           if look.size.Some? && (e.size == 0 || 100 * (look.size.value + 1) > 99 * e.size) then LandedAt(e.newContentPath) else NotYet)
    ensures Remember(e, look, memory) == if look.visible == Some(false) then memory.(unseen := memory.unseen + 1) else memory
  {
    forall j | 0 <= j < |e.hashes|
      ensures InPlace(e, look.found.value, e.hashes[j])
    {
      assert e.hashes[j] in look.found.value && Arrived(e, look.found.value[e.hashes[j]]);
    }
    FirstOutIs(e, look.found.value, 0, |e.hashes|);
    if look.size.Some? {
      NinetyNine(e.size, look.size.value);
    }
  }

  lemma {:induction false} NinetyNine(size: nat, seen: int)
    ensures seen >= size * 99 / 100 <==> 100 * (seen + 1) > 99 * size
  {
  }

  /** While qBittorrent does not answer nothing is decided, and nothing remembered. */
  lemma {:induction false} NoAnswerIsNotYet(e: GroupMove, look: Look, memory: Memory)
    requires look.found.None?
    ensures Verdict(e, look, memory) == NotYet && Remember(e, look, memory) == memory
  {
  }

  /** These are all the cases. */
  lemma {:induction false} SomeoneDecides(e: GroupMove, found: map<string, Torrent>, n: nat)
    requires n <= |e.hashes|
    ensures ArrivedBefore(e, found, n) || exists i: nat :: i < n && FirstAway(e, found, i)
  {
    if n > 0 {
      SomeoneDecides(e, found, n - 1);
      if ArrivedBefore(e, found, n - 1) && !ArrivedBefore(e, found, n) {
        assert FirstAway(e, found, n - 1);
      }
    }
  }
}
