/** Carrying a removal out, and when the checks before it let it through (internal/torrents/remove.go). */
module Remover {
  import opened DiskUsage
  import opened PathStrings
  import opened Downloads
  import opened ShareClusters
  import opened Removals

  /** A torrent as qBittorrent reports it when asked again. */
  datatype Reported = Reported(contentPath: string, complete: bool, seeding: bool, requirementMet: bool)

  datatype DeleteRequest = DeleteRequest(hashes: seq<string>, deleteFiles: bool)

  /** What qBittorrent and the log answer along the way. */
  datatype Answers = Answers(firstLookup: bool, deleteAccepted: bool, secondLookup: bool, logged: bool)

  datatype Outcome = LookupFailed | Refused(hash: string) | DeleteFailed | RecheckFailed | StillListed | NotRecorded | Removed

  /** The download is still finished, still where the plan found it, and still done seeding. */
  predicate StillDone(torrents: map<string, Reported>, h: string, contentPath: string) {
    h in torrents && torrents[h].complete && torrents[h].seeding && torrents[h].contentPath == contentPath && torrents[h].requirementMet
  }

  predicate Proceeds(torrents: map<string, Reported>, r: Removal) {
    forall h :: h in r.hashes ==> StillDone(torrents, h, r.contentPath)
  }

  /** qBittorrent, seen through the requests made of it. */
  class Client {
    var torrents: map<string, Reported>
    var requests: seq<DeleteRequest>

    constructor (torrents: map<string, Reported>)
      ensures this.torrents == torrents && requests == []
    {
      this.torrents, requests := torrents, [];
    }

    /** Deletes what qBittorrent gets round to of the hashes asked for. */
    method Delete(hashes: seq<string>, deleteFiles: bool, accepted: bool, gone: set<string>)
      modifies this
      ensures requests == old(requests) + [DeleteRequest(hashes, deleteFiles)]
      ensures torrents == if accepted then map h | h in old(torrents) && !(h in hashes && h in gone) :: old(torrents)[h] else old(torrents)
    {
      requests := requests + [DeleteRequest(hashes, deleteFiles)];
      if accepted {
        torrents := map h | h in torrents && !(h in hashes && h in gone) :: torrents[h];
      }
    }

    /** Removes one removal's downloads after checking every one of them again. gone is what qBittorrent
        has dropped by the time it is asked whether it still lists them. */
    method Remove(r: Removal, answers: Answers, gone: set<string>) returns (outcome: Outcome)
      modifies this
      ensures requests == old(requests) + if answers.firstLookup && Proceeds(old(torrents), r) then [DeleteRequest(r.hashes, r.deleteFiles)] else []
      ensures torrents == if requests != old(requests) && answers.deleteAccepted then map h | h in old(torrents) && !(h in r.hashes && h in gone) :: old(torrents)[h] else old(torrents)
      ensures outcome.LookupFailed? <==> !answers.firstLookup
      ensures outcome.Refused? <==> answers.firstLookup && !Proceeds(old(torrents), r)
      ensures outcome.Refused? ==> outcome.hash in r.hashes && !StillDone(old(torrents), outcome.hash, r.contentPath)
      ensures outcome.DeleteFailed? <==> requests != old(requests) && !answers.deleteAccepted
      ensures outcome.RecheckFailed? <==> requests != old(requests) && answers.deleteAccepted && !answers.secondLookup
      ensures outcome.StillListed? <==> requests != old(requests) && answers.deleteAccepted && answers.secondLookup && exists h :: h in r.hashes && h in torrents
      ensures outcome.Removed? || outcome.NotRecorded?
         <==> requests != old(requests) && answers.deleteAccepted && answers.secondLookup && forall h :: h in r.hashes ==> h !in torrents
      ensures outcome.Removed? ==> answers.logged
      ensures outcome.NotRecorded? ==> !answers.logged
    {
      if !answers.firstLookup {
        return LookupFailed;
      }
      for i := 0 to |r.hashes|
        invariant forall j :: 0 <= j < i ==> StillDone(torrents, r.hashes[j], r.contentPath)
      {
        if !StillDone(torrents, r.hashes[i], r.contentPath) {
          return Refused(r.hashes[i]);
        }
      }
      Delete(r.hashes, r.deleteFiles, answers.deleteAccepted, gone);
      if !answers.deleteAccepted {
        return DeleteFailed;
      }
      if !answers.secondLookup {
        return RecheckFailed;
      }
      for i := 0 to |r.hashes|
        invariant forall j :: 0 <= j < i ==> r.hashes[j] !in torrents
      {
        if r.hashes[i] in torrents {
          return StillListed;
        }
      }
      return if answers.logged then Removed else NotRecorded;
    }
  }

  // ----- what the checks look at

  /** What is deleted was there, complete, seeding at the removal's path and past its requirement ... */
  lemma {:induction false} ProceedsOnDone(torrents: map<string, Reported>, r: Removal, h: string)
    requires Proceeds(torrents, r) && h in r.hashes
    ensures h in torrents && torrents[h].complete && torrents[h].seeding && torrents[h].requirementMet && torrents[h].contentPath == r.contentPath
  {
    assert StillDone(torrents, h, r.contentPath);
  }

  /** ... and what is refused is refused over one that is gone, unfinished, not seeding, elsewhere or short of it. */
  lemma {:induction false} RefusedOverOne(torrents: map<string, Reported>, r: Removal) returns (h: string)
    requires !Proceeds(torrents, r)
    ensures h in r.hashes
    ensures h !in torrents || !torrents[h].complete || !torrents[h].seeding || !torrents[h].requirementMet || torrents[h].contentPath != r.contentPath
  {
    h :| h in r.hashes && !StillDone(torrents, h, r.contentPath);
  }

  // ----- when an unchanged removal goes through

  /** qBittorrent still has every download of the removal as the plan found it, and still done. */
  ghost predicate StillAsPlanned(torrents: map<string, Reported>, downloads: seq<Download>, r: Removal) {
    forall d :: d in downloads && d.hash in r.hashes ==> StillDone(torrents, d.hash, d.contentPath)
  }

  /** The check compares every member's path with the removal's single content path. So with nothing changed
      since the plan, the removal goes through exactly when its downloads all lie at one path. */
  lemma {:induction false} UnchangedProceedsExactly(downloads: seq<Download>, cleared: set<string>, torrents: map<string, Reported>, r: Removal)
    requires Right(downloads, cleared, r) && StillAsPlanned(torrents, downloads, r)
    ensures Proceeds(torrents, r) <==> forall d :: d in downloads && d.hash in r.hashes ==> d.contentPath == r.contentPath
  {
    EveryHashListed(downloads, cleared, r);
    ProceedsExactly(downloads, torrents, r);
  }

  lemma {:induction false} ProceedsExactly(downloads: seq<Download>, torrents: map<string, Reported>, r: Removal)
    requires StillAsPlanned(torrents, downloads, r) && forall h :: h in r.hashes ==> exists d :: d in downloads && d.hash == h
    ensures Proceeds(torrents, r) <==> forall d :: d in downloads && d.hash in r.hashes ==> d.contentPath == r.contentPath
  {
  }

  lemma {:induction false} EveryHashListed(downloads: seq<Download>, cleared: set<string>, r: Removal)
    requires Right(downloads, cleared, r)
    ensures forall h :: h in r.hashes ==> exists d :: d in downloads && d.hash == h
  {
    forall h | h in r.hashes
      ensures exists d :: d in downloads && d.hash == h
    {
      HashHasDownload(r, SharedWith(downloads, r.contentPath), cleared, h);
    }
  }

  /** So downloads removed together because one lies inside another's folder never are: the removal is
      refused as moved although nothing moved. */
  lemma {:induction false} NestedIsRefused(downloads: seq<Download>, cleared: set<string>, torrents: map<string, Reported>, r: Removal, d: Download, e: Download)
    requires Right(downloads, cleared, r) && StillAsPlanned(torrents, downloads, r)
    requires d in downloads && e in downloads && d.hash in r.hashes && e.hash in r.hashes && d.contentPath != e.contentPath
    ensures !Proceeds(torrents, r)
  {
    UnchangedProceedsExactly(downloads, cleared, torrents, r);
  }

  /** Such removals are planned: of any two cleared downloads whose content is linked, every plan holds one
      removal that names both - and when they lie at different paths it is refused, nothing having changed. */
  lemma {:induction false} NestedIsPlanned(downloads: seq<Download>, cleared: set<string>, all: seq<Removal>, d: Download, e: Download) returns (r: Removal)
    requires UniqueHashes(downloads) && AllRight(downloads, cleared, all)
    requires d in downloads && e in downloads && d.contentPath != "" && e.contentPath != "" && d.hash in cleared && e.hash in cleared
    requires Linked(ContentPaths(downloads), d.contentPath, e.contentPath) && d.contentPath != e.contentPath
    ensures r in all && d.hash in r.hashes && e.hash in r.hashes
    ensures forall torrents :: StillAsPlanned(torrents, downloads, r) ==> !Proceeds(torrents, r)
  {
    r :| r in all && d.hash in r.hashes;
    TakenIsShared(downloads, cleared, r, d);
    LinkTransitive(ContentPaths(downloads), r.contentPath, d.contentPath, e.contentPath);
    assert e in SharedWith(downloads, r.contentPath);
    forall torrents | StillAsPlanned(torrents, downloads, r)
      ensures !Proceeds(torrents, r)
    {
      NestedIsRefused(downloads, cleared, torrents, r, d, e);
    }
  }

  lemma {:induction false} LinkTransitive(paths: set<string>, p: string, q: string, r: string)
    requires Linked(paths, p, q) && Linked(paths, q, r)
    ensures Linked(paths, p, r)
  {
    var a :| Chain(paths, a) && a[0] == p && a[|a| - 1] == q;
    var b :| Chain(paths, b) && b[0] == q && b[|b| - 1] == r;
    ChainsJoin(paths, a, b);
    var whole := a + b[1..];
    assert whole[0] == p && whole[|whole| - 1] == r;
  }

  lemma {:induction false} ChainsJoin(paths: set<string>, a: seq<string>, b: seq<string>)
    requires Chain(paths, a) && Chain(paths, b) && a[|a| - 1] == b[0]
    ensures Chain(paths, a + b[1..])
  {
    var whole := a + b[1..];
    assert forall i :: |a| - 1 <= i < |whole| ==> whole[i] == b[i - (|a| - 1)];
  }

  /** A season folder and an episode inside it, say, both done. */
  lemma {:induction false} SeasonWithEpisode(downloads: seq<Download>, cleared: set<string>, all: seq<Removal>, season: Download, episode: Download) returns (r: Removal)
    requires UniqueHashes(downloads) && AllRight(downloads, cleared, all) && season in downloads && episode in downloads
    requires season.contentPath == "/dl/Show" && episode.contentPath == "/dl/Show/1.mkv" && season.hash in cleared && episode.hash in cleared
    ensures r in all && season.hash in r.hashes && episode.hash in r.hashes
    ensures forall torrents :: StillAsPlanned(torrents, downloads, r) ==> !Proceeds(torrents, r)
  {
    EpisodeInside();
    OneLink(ContentPaths(downloads), season.contentPath, episode.contentPath);
    r := NestedIsPlanned(downloads, cleared, all, season, episode);
  }

  lemma {:induction false} EpisodeInside()
    ensures Overlap("/dl/Show", "/dl/Show/1.mkv")
  {
    assert TrimSeparator("/dl/Show") + "/" == "/dl/Show/" <= "/dl/Show/1.mkv";
  }

  lemma {:induction false} OneLink(paths: set<string>, p: string, q: string)
    requires p in paths && q in paths && Overlap(p, q)
    ensures Linked(paths, p, q)
  {
    var chain := [p, q];
    assert Chain(paths, chain) && chain[0] == p && chain[|chain| - 1] == q;
  }
}
