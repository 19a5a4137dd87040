/** Carrying a planned download move out through qBittorrent (internal/torrents/executor.go). */
module DownloadMoves {
  import opened PlannerModel

  datatype TorrentState = Errored | Moving | Checking | Seeding | Other

  /** A torrent as qBittorrent reports it. */
  datatype Torrent = Torrent(savePath: string, state: TorrentState, complete: bool, autoManaged: bool)

  /** A planned move of a group of downloads sharing their files. */
  datatype GroupMove = GroupMove(hashes: seq<string>, size: int, fromPath: string, location: string, contentPath: string, newContentPath: string, toPath: string, disableAuto: seq<string>)

  /** What a confirmation sees: qBittorrent's list if it answers, and Coldarr's own look at the content. */
  datatype Look = Look(found: Option<map<string, Torrent>>, visible: Option<bool>, size: Option<int>)

  /** What the engine is told when it asks whether a move has landed. */
  datatype Confirmation = LandedAt(path: string) | NotYet | FailedForGood

  const UNSEEN_LIMIT: nat := 3

  // ----- one look at the group

  /** Saved at the new location and complete, with nothing wrong or under way. */
  predicate InPlace(e: GroupMove, found: map<string, Torrent>, h: string) {
    h in found && found[h].state !in {Errored, Moving, Checking} && found[h].savePath == e.location && found[h].complete
  }

  /** The first member not in place: the one the answer is about. */
  function FirstOut(e: GroupMove, found: map<string, Torrent>, from: nat): (i: nat)
    requires from <= |e.hashes|
    ensures from <= i <= |e.hashes|
    ensures forall j :: from <= j < i ==> InPlace(e, found, e.hashes[j])
    ensures i < |e.hashes| ==> !InPlace(e, found, e.hashes[i])
    decreases |e.hashes| - from
  {
    if from == |e.hashes| || !InPlace(e, found, e.hashes[from]) then from else FirstOut(e, found, from + 1)
  }

  /** What the executor remembers of a move: whether it was seen moving, and how often it was reported
      landed where Coldarr could not see it. */
  datatype Memory = Memory(sawMoving: bool, unseen: nat)

  predicate SeenMoving(e: GroupMove, look: Look) {
    look.found.Some? &&
    var i := FirstOut(e, look.found.value, 0);
    i < |e.hashes| && e.hashes[i] in look.found.value && look.found.value[e.hashes[i]].state == Moving
  }

  predicate Invisible(e: GroupMove, look: Look) {
    look.found.Some? && FirstOut(e, look.found.value, 0) == |e.hashes| && look.visible == Some(false)
  }

  function Remember(e: GroupMove, look: Look, memory: Memory): Memory {
    Memory(memory.sawMoving || SeenMoving(e, look), if Invisible(e, look) then memory.unseen + 1 else memory.unseen)
  }

  /** A member whose move has gone wrong: gone, errored, incomplete at its new home, or back where it
      started after the group was seen moving. */
  predicate Lost(e: GroupMove, found: map<string, Torrent>, h: string, sawMoving: bool) {
    || h !in found
    || found[h].state == Errored
    || (found[h].state !in {Moving, Checking} && if found[h].savePath == e.location then !found[h].complete else sawMoving && found[h].savePath == e.fromPath)
  }

  /** Visible at 99% or more of its size. */
  predicate FullSize(e: GroupMove, look: Look) {
    look.visible == Some(true) && look.size.Some? && (e.size <= 0 || look.size.value >= e.size * 99 / 100)
  }

  /** Every member in place, and the content there. */
  predicate AllInPlace(e: GroupMove, look: Look) {
    look.found.Some? && (forall h :: h in e.hashes ==> InPlace(e, look.found.value, h)) && FullSize(e, look)
  }

  /** The look says the move is over and did not land. */
  predicate Hopeless(e: GroupMove, look: Look, memory: Memory) {
    look.found.Some? &&
    var i := FirstOut(e, look.found.value, 0);
    if i < |e.hashes| then Lost(e, look.found.value, e.hashes[i], memory.sawMoving) else look.visible == Some(false) && memory.unseen + 1 >= UNSEEN_LIMIT
  }

  function Verdict(e: GroupMove, look: Look, memory: Memory): Confirmation {
    if AllInPlace(e, look) then LandedAt(e.newContentPath)
    else if Hopeless(e, look, memory) then FailedForGood
    else NotYet
  }

  // ----- many looks at it

  /** What is remembered after those looks, having remembered was. */
  function MemoriesFrom(e: GroupMove, was: Memory, looks: seq<Look>): Memory {
    if looks == [] then was else Remember(e, looks[|looks| - 1], MemoriesFrom(e, was, looks[..|looks| - 1]))
  }

  /** From nothing, as a run starts. */
  function Memories(e: GroupMove, looks: seq<Look>): Memory {
    MemoriesFrom(e, Memory(false, 0), looks)
  }

  function InvisibleLooks(e: GroupMove, looks: seq<Look>): nat {
    if looks == [] then 0 else InvisibleLooks(e, looks[..|looks| - 1]) + if Invisible(e, looks[|looks| - 1]) then 1 else 0
  }

  lemma {:induction false} MemoriesMean(e: GroupMove, was: Memory, looks: seq<Look>)
    ensures MemoriesFrom(e, was, looks).sawMoving <==> was.sawMoving || exists i :: 0 <= i < |looks| && SeenMoving(e, looks[i])
    ensures MemoriesFrom(e, was, looks).unseen == was.unseen + InvisibleLooks(e, looks)
    decreases |looks|
  {
    if looks != [] {
      var before := looks[..|looks| - 1];
      MemoriesMean(e, was, before);
      if exists i :: 0 <= i < |before| && SeenMoving(e, before[i]) {
        var i :| 0 <= i < |before| && SeenMoving(e, before[i]);
        assert looks[i] == before[i];
      }
      assert forall i :: 0 <= i < |before| ==> looks[i] == before[i];
    }
  }

  /** Finding a member back where it started is final exactly when some earlier look saw the group moving;
      before that it only has not begun. */
  lemma {:induction false} BackAtStartIsFinal(e: GroupMove, looks: seq<Look>, look: Look, h: string)
    requires look.found.Some? && FirstOut(e, look.found.value, 0) < |e.hashes| && h == e.hashes[FirstOut(e, look.found.value, 0)]
    requires h in look.found.value && look.found.value[h].state in {Seeding, Other} && look.found.value[h].savePath == e.fromPath != e.location
    ensures Verdict(e, look, Memories(e, looks)) == if exists i :: 0 <= i < |looks| && SeenMoving(e, looks[i]) then FailedForGood else NotYet
  {
    MemoriesMean(e, Memory(false, 0), looks);
    assert h in e.hashes;
  }

  /** A landing Coldarr cannot see is final exactly at the third such look, in a row or not. */
  lemma {:induction false} InvisibleIsFinal(e: GroupMove, looks: seq<Look>, look: Look)
    requires Invisible(e, look)
    ensures Verdict(e, look, Memories(e, looks)) == if InvisibleLooks(e, looks) + 1 >= UNSEEN_LIMIT then FailedForGood else NotYet
  {
    MemoriesMean(e, Memory(false, 0), looks);
  }

  /** So it is given up on after three invisible looks of which no two are in a row. */
  lemma {:induction false} NotInARow(e: GroupMove, invisible: Look, away: Look)
    requires Invisible(e, invisible) && away.found.None?
    ensures Verdict(e, invisible, Memories(e, [invisible, away, invisible, away])) == FailedForGood
    ensures Verdict(e, away, Memories(e, [invisible])) == NotYet
  {
    var looks := [invisible, away, invisible, away];
    assert looks[..3] == [invisible, away, invisible] && looks[..3][..2] == [invisible, away] && [invisible, away][..1] == [invisible] && [invisible][..0] == [];
    assert InvisibleLooks(e, [invisible]) == 1;
    assert InvisibleLooks(e, [invisible, away]) == 1;
    assert InvisibleLooks(e, looks[..3]) == 2;
    InvisibleIsFinal(e, looks, invisible);
  }

  /** The invisible looks in a row up to the last. */
  function TrailingInvisible(e: GroupMove, looks: seq<Look>): (n: nat)
    ensures n <= InvisibleLooks(e, looks) && n <= |looks|
  {
    if looks == [] || !Invisible(e, looks[|looks| - 1]) then 0 else TrailingInvisible(e, looks[..|looks| - 1]) + 1
  }

  /** The documented rule: so many invisible looks in a row. */
  function InARowVerdict(e: GroupMove, looks: seq<Look>): Confirmation {
    if TrailingInvisible(e, looks) + 1 >= UNSEEN_LIMIT then FailedForGood else NotYet
  }

  /** The answer follows it exactly while there are not enough invisible looks in all, or there are enough in
      a row. */
  lemma {:induction false} InARowExactly(e: GroupMove, looks: seq<Look>, look: Look)
    requires Invisible(e, look)
    ensures Verdict(e, look, Memories(e, looks)) == InARowVerdict(e, looks)
       <==> InvisibleLooks(e, looks) + 1 < UNSEEN_LIMIT || TrailingInvisible(e, looks) + 1 >= UNSEEN_LIMIT
  {
    InvisibleIsFinal(e, looks, look);
  }

  /** No look between two invisible ones shows anything else. */
  ghost predicate Unbroken(e: GroupMove, looks: seq<Look>) {
    forall i, j :: 0 <= i < j < |looks| && Invisible(e, looks[i]) ==> Invisible(e, looks[j])
  }

  /** In particular where the content, once invisible, stays so at every look until this one. */
  lemma {:induction false} UnbrokenIsInARow(e: GroupMove, looks: seq<Look>, look: Look)
    requires Invisible(e, look) && Unbroken(e, looks)
    ensures Verdict(e, look, Memories(e, looks)) == InARowVerdict(e, looks)
  {
    TrailingIsAll(e, looks);
    InARowExactly(e, looks, look);
  }

  lemma {:induction false} TrailingIsAll(e: GroupMove, looks: seq<Look>)
    requires Unbroken(e, looks)
    ensures TrailingInvisible(e, looks) == InvisibleLooks(e, looks)
    decreases |looks|
  {
    if looks != [] {
      var before := looks[..|looks| - 1];
      TrailingIsAll(e, before);
      if !Invisible(e, looks[|looks| - 1]) {
        NoneInvisible(e, before);
      }
    }
  }

  lemma {:induction false} NoneInvisible(e: GroupMove, looks: seq<Look>)
    requires forall i :: 0 <= i < |looks| ==> !Invisible(e, looks[i])
    ensures InvisibleLooks(e, looks) == 0
    decreases |looks|
  {
    if looks != [] {
      NoneInvisible(e, looks[..|looks| - 1]);
    }
  }

  // ----- whose moving is remembered

  /** The look finds the member at rest where it started, its move not under way. */
  predicate BackAtStart(e: GroupMove, look: Look, h: string) {
    look.found.Some? && h in look.found.value && look.found.value[h].state in {Seeding, Other} && look.found.value[h].savePath == e.fromPath
  }

  predicate MemberMoving(look: Look, h: string) {
    look.found.Some? && h in look.found.value && look.found.value[h].state == Moving
  }

  /** The move is given up on over a member back at its start that no look ever saw moving. */
  ghost predicate UnmovedGivenUp(e: GroupMove, looks: seq<Look>, look: Look, h: string) {
    && BackAtStart(e, look, h) && FirstOut(e, look.found.value, 0) < |e.hashes| && e.hashes[FirstOut(e, look.found.value, 0)] == h
    && Verdict(e, look, Memories(e, looks)) == FailedForGood
    && forall i :: 0 <= i < |looks| ==> !MemberMoving(looks[i], h)
  }

  ghost predicate OneMember(e: GroupMove) {
    forall i, j :: 0 <= i < |e.hashes| && 0 <= j < |e.hashes| ==> e.hashes[i] == e.hashes[j]
  }

  ghost predicate MayGiveUpUnmoved(e: GroupMove) {
    exists looks, look, h :: UnmovedGivenUp(e, looks, look, h)
  }

  /** What is remembered is the group's, not the member's: a move can be given up on over a member that never
      moved exactly when the group has two members. */
  lemma {:induction false} UnmovedGivenUpExactly(e: GroupMove)
    requires e.fromPath != e.location
    ensures MayGiveUpUnmoved(e) <==> !OneMember(e)
  {
    if MayGiveUpUnmoved(e) {
      var looks, look, h :| UnmovedGivenUp(e, looks, look, h);
      if OneMember(e) {
        OneMemberMoved(e, looks, look, h);
      }
    } else if !OneMember(e) {
      SecondMemberWaits(e);
    }
  }

  /** With one member, that very member was seen moving. */
  lemma {:induction false} OneMemberMoved(e: GroupMove, looks: seq<Look>, look: Look, h: string)
    requires OneMember(e) && h in e.hashes && e.fromPath != e.location && BackAtStart(e, look, h)
    requires Verdict(e, look, Memories(e, looks)) == FailedForGood
    ensures exists i :: 0 <= i < |looks| && MemberMoving(looks[i], h)
  {
    assert !InPlace(e, look.found.value, h);
    assert FirstOut(e, look.found.value, 0) < |e.hashes|;
    BackAtStartIsFinal(e, looks, look, h);
    var i :| 0 <= i < |looks| && SeenMoving(e, looks[i]);
    assert MemberMoving(looks[i], h);
  }

  /** The members as one look may find them: the first download in one state, the others waiting their turn. */
  function WithFirst(e: GroupMove, first: Torrent): Look
    requires e.hashes != []
  {
    Look(Some(map h | h in e.hashes :: if h == e.hashes[0] then first else Torrent(e.fromPath, Seeding, true, false)), None, None)
  }

  /** The first download moves while another waits its turn, and has landed at the next look. */
  lemma {:induction false} SecondMemberWaits(e: GroupMove)
    requires !OneMember(e) && e.fromPath != e.location
    ensures MayGiveUpUnmoved(e)
  {
    var moving, landed := WithFirst(e, Torrent(e.fromPath, Moving, true, false)), WithFirst(e, Torrent(e.location, Seeding, true, false));
    var b := FirstOut(e, landed.found.value, 0);
    SomeoneWaits(e, landed.found.value, b);
    var h := e.hashes[b];
    assert FirstOut(e, moving.found.value, 0) == 0;
    assert SeenMoving(e, [moving][0]);
    BackAtStartIsFinal(e, [moving], landed, h);
    assert UnmovedGivenUp(e, [moving], landed, h);
  }

  lemma {:induction false} SomeoneWaits(e: GroupMove, found: map<string, Torrent>, b: nat)
    requires !OneMember(e) && e.fromPath != e.location
    requires found == WithFirst(e, Torrent(e.location, Seeding, true, false)).found.value && b == FirstOut(e, found, 0)
    ensures b < |e.hashes| && e.hashes[b] != e.hashes[0]
  {
    if b == |e.hashes| {
      forall i | 0 <= i < |e.hashes|
        ensures e.hashes[i] == e.hashes[0]
      {
        assert InPlace(e, found, e.hashes[i]);
      }
    }
  }

  // ----- the executor

  /** What is asked of qBittorrent that changes anything there. */
  datatype Request = DisableAuto(hashes: seq<string>) | SetLocation(hashes: seq<string>, location: string) | CreateCategory(category: string) | SetCategory(hashes: seq<string>, category: string)

  /** How qBittorrent answers a request to move: started, turned down, or no answer that settles it. */
  datatype MoveAnswer = Accepted | TurnedDown | Unclear

  /** Still finished and where the plan found it, and not managed by anything else. */
  predicate ReadyToMove(e: GroupMove, found: map<string, Torrent>) {
    forall h :: h in e.hashes ==>
                  && h in found && found[h].complete && found[h].state == Seeding && found[h].savePath == e.fromPath
                  && (found[h].autoManaged ==> h in e.disableAuto)
  }

  /** The member is complete and seeding where the plan found it, and nothing manages it that will not be switched off. */
  predicate Stays(e: GroupMove, h: string, t: Torrent) {
    t.complete && t.state == Seeding && t.savePath == e.fromPath && (!t.autoManaged || h in e.disableAuto)
  }

  /** The answers qBittorrent and the log give after a landing. */
  datatype LabelAnswers = LabelAnswers(categories: Option<set<string>>, created: bool, labelled: bool, recorded: bool)

  /** A move as the downloads log records it. */
  datatype Moved = Moved(hashes: seq<string>, fromPath: string, toPath: string, size: int)

  /** The group got its label. */
  predicate Labelled(category: string, answers: LabelAnswers) {
    answers.categories.Some? && (category in answers.categories.value || answers.created) && answers.labelled
  }

  /** What the log gains from a landing: the move, whether or not the label could be given. */
  function LogEntries(e: GroupMove, path: string, answers: LabelAnswers): seq<Moved> {
    if answers.recorded then [Moved(e.hashes, e.contentPath, path, e.size)] else []
  }

  /** What is asked of qBittorrent to label a group. */
  function Labelling(hashes: seq<string>, category: string, answers: LabelAnswers): seq<Request> {
    if answers.categories.None? then []
    else if category in answers.categories.value then [SetCategory(hashes, category)]
    else [CreateCategory(category)] + if answers.created then [SetCategory(hashes, category)] else []
  }

  function RememberedOf(sawMoving: set<string>, unseen: map<string, nat>, key: string): Memory {
    Memory(key in sawMoving, if key in unseen then unseen[key] else 0)
  }

  class Executor {
    const seedLabel: string
    var sawMoving: set<string>
    var unseen: map<string, nat>
    var requests: seq<Request>
    var log: seq<Moved>

    constructor (seedLabel: string)
      ensures this.seedLabel == seedLabel && sawMoving == {} && unseen == map[] && requests == [] && log == []
    {
      this.seedLabel, sawMoving, unseen, requests, log := seedLabel, {}, map[], [], [];
    }

    /** What it remembers of the move the group's first hash stands for. */
    function MemoryOf(key: string): Memory
      reads this
    {
      RememberedOf(sawMoving, unseen, key)
    }

    /** Asks qBittorrent to move the group, after asking again whether it still may. */
    method Move(e: GroupMove, found: Option<map<string, Torrent>>, autoDisabled: bool, answer: MoveAnswer) returns (outcome: MoveAnswer)
      modifies `requests
      ensures var ready := found.Some? && ReadyToMove(e, found.value);
              && (requests == old(requests) + (if ready && e.disableAuto != [] then [DisableAuto(e.disableAuto)] else [])
                  + (if ready && (e.disableAuto == [] || autoDisabled) then [SetLocation(e.hashes, e.location)] else []))
              && outcome == if ready && (e.disableAuto == [] || autoDisabled) then answer else TurnedDown
      ensures outcome != TurnedDown ==> found.Some? && forall h :: h in e.hashes ==> h in found.value && Stays(e, h, found.value[h])
      ensures found.Some? && (forall h :: h in e.hashes ==> h in found.value && Stays(e, h, found.value[h])) && (e.disableAuto == [] || autoDisabled) ==> outcome == answer
    {
      if found.None? {
        return TurnedDown;
      }
      for i := 0 to |e.hashes|
        invariant forall j :: 0 <= j < i ==> ReadyToMove(e.(hashes := [e.hashes[j]]), found.value)
      {
        var h := e.hashes[i];
        assert e.hashes[i] in [e.hashes[i]];
        if h !in found.value || !found.value[h].complete || found.value[h].state != Seeding || found.value[h].savePath != e.fromPath || (found.value[h].autoManaged && h !in e.disableAuto) {
          return TurnedDown;
        }
      }
      forall h | h in e.hashes
        ensures ReadyToMove(e.(hashes := [h]), found.value) && h in [h]
      {
      }
      if e.disableAuto != [] {
        requests := requests + [DisableAuto(e.disableAuto)];
        if !autoDisabled {
          return TurnedDown;
        }
      }
      requests := requests + [SetLocation(e.hashes, e.location)];
      return answer;
    }

    /** Reports whether the move has landed. */
    method ConfirmLanded(e: GroupMove, look: Look) returns (c: Confirmation)
      requires e.hashes != []
      modifies `sawMoving, `unseen
      ensures c == Verdict(e, look, old(MemoryOf(e.hashes[0])))
      ensures MemoryOf(e.hashes[0]) == Remember(e, look, old(MemoryOf(e.hashes[0])))
      ensures forall k :: k != e.hashes[0] ==> MemoryOf(k) == old(MemoryOf(k))
    {
      if look.found.None? {
        return NotYet;
      }
      var key, found := e.hashes[0], look.found.value;
      for i := 0 to |e.hashes|
        invariant forall j :: 0 <= j < i ==> InPlace(e, found, e.hashes[j])
        invariant sawMoving == old(sawMoving) && unseen == old(unseen)
      {
        var h := e.hashes[i];
        if !InPlace(e, found, h) {
          FirstOutIs(e, found, 0, i);
          assert h in e.hashes;
          if h !in found || found[h].state == Errored {
            return FailedForGood;
          } else if found[h].state == Moving {
            sawMoving := sawMoving + {key};
            return NotYet;
          } else if found[h].state == Checking {
            return NotYet;
          } else if found[h].savePath != e.location {
            if key in sawMoving && found[h].savePath == e.fromPath {
              return FailedForGood;
            }
            return NotYet;
          }
          return FailedForGood;
        }
      }
      FirstOutIs(e, found, 0, |e.hashes|);
      if look.visible.None? {
        return NotYet;
      }
      if !look.visible.value {
        var count := (if key in unseen then unseen[key] else 0) + 1;
        unseen := unseen[key := count];
        return if count >= UNSEEN_LIMIT then FailedForGood else NotYet;
      }
      if look.size.None? || (e.size > 0 && look.size.value < e.size * 99 / 100) {
        return NotYet;
      }
      return LandedAt(e.newContentPath);
    }

    /** Gives the group the seed label and records the move, the one whether or not the other worked. */
    method Landed(e: GroupMove, path: string, answers: LabelAnswers) returns (ok: bool)
      modifies `requests, `log
      ensures requests == old(requests) + Labelling(e.hashes, seedLabel, answers)
      ensures log == old(log) + LogEntries(e, path, answers)
      ensures ok <==> Labelled(seedLabel, answers) && answers.recorded
    {
      var labelled := ApplySeedLabel(e.hashes, answers);
      if answers.recorded {
        log := log + [Moved(e.hashes, e.contentPath, path, e.size)];
      }
      return labelled && answers.recorded;
    }

    /** Sets the seed label as the downloads' category, creating it first where it is missing. */
    method ApplySeedLabel(hashes: seq<string>, answers: LabelAnswers) returns (ok: bool)
      modifies `requests
      ensures requests == old(requests) + Labelling(hashes, seedLabel, answers)
      ensures ok <==> Labelled(seedLabel, answers)
    {
      if answers.categories.None? {
        return false;
      }
      if seedLabel !in answers.categories.value {
        requests := requests + [CreateCategory(seedLabel)];
        if !answers.created {
          return false;
        }
      }
      requests := requests + [SetCategory(hashes, seedLabel)];
      return answers.labelled;
    }
  }

  lemma {:induction false} FirstOutIs(e: GroupMove, found: map<string, Torrent>, from: nat, i: nat)
    requires from <= i <= |e.hashes| && (forall j :: from <= j < i ==> InPlace(e, found, e.hashes[j]))
    requires i < |e.hashes| ==> !InPlace(e, found, e.hashes[i])
    ensures FirstOut(e, found, from) == i
    decreases i - from
  {
    if from < i {
      FirstOutIs(e, found, from + 1, i);
    }
  }
}
