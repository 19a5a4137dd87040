/** What a scan adds up, and when it can (internal/orphans): sizes against a list of every file. */
module DiskSizes {
  import opened PlannerModel
  import opened Orphans

  datatype SizedFile = SizedFile(place: Place, size: nat)

  function Inside(name: string, files: seq<SizedFile>): seq<SizedFile> {
    if files == [] then [] else [SizedFile([name] + files[0].place, files[0].size)] + Inside(name, files[1..])
  }

  /** Every file at or under an entry, by its place below the folder that holds the entry. */
  function FilesHere(e: Entry): seq<SizedFile>
    decreases e, 0
  {
    match e.node
    case File(size) => [SizedFile([e.name], size)]
    case Folder(entries) => Inside(e.name, FilesOf(entries))
    case Unreadable => []
  }

  function FilesOf(entries: seq<Entry>): seq<SizedFile>
    decreases entries, 1
  {
    if entries == [] then [] else FilesHere(entries[0]) + FilesOf(entries[1..])
  }

  function Total(files: seq<SizedFile>): nat {
    if files == [] then 0 else files[0].size + Total(files[1..])
  }

  // ----- the list has each file once

  /** The file of that size is there. */
  predicate FileAt(entries: seq<Entry>, f: SizedFile) {
    f.place != [] && NodeAt(entries, f.place) == Some(File(f.size))
  }

  lemma {:induction false} InsideExactly(name: string, files: seq<SizedFile>, f: SizedFile)
    ensures f in Inside(name, files) <==> f.place != [] && f.place[0] == name && SizedFile(f.place[1..], f.size) in files
    decreases |files|
  {
    if files != [] {
      InsideExactly(name, files[1..], f);
      var first := [name] + files[0].place;
      assert first[1..] == files[0].place;
      if f.place != [] && f.place[0] == name && f.place[1..] == files[0].place {
        assert f.place == [f.place[0]] + f.place[1..];
      }
      assert files == [files[0]] + files[1..];
    }
  }

  lemma {:induction false} HereExactly(entries: seq<Entry>, f: SizedFile)
    requires entries != [] && f.place != [] && f.place[0] == entries[0].name
    requires entries[0].node.Folder? && |f.place| > 1 ==>
               var sub := entries[0].node.entries;
               SizedFile(f.place[1..], f.size) in FilesOf(sub) <==> FileAt(sub, SizedFile(f.place[1..], f.size))
    requires entries[0].node.Folder? ==> forall g :: g in FilesOf(entries[0].node.entries) ==> g.place != []
    ensures f in FilesHere(entries[0]) <==> FileAt(entries, f)
  {
    var e := entries[0];
    assert Find(entries, f.place[0]) == Some(e.node);
    match e.node
    case File(size) =>
      assert f.place == [e.name] <==> |f.place| == 1;
    case Folder(sub) =>
      InsideExactly(e.name, FilesOf(sub), f);
    case Unreadable =>
  }

  lemma {:induction false} PlacesNonEmpty(entries: seq<Entry>)
    ensures forall g :: g in FilesOf(entries) ==> g.place != []
    decreases entries
  {
    if entries != [] {
      PlacesNonEmpty(entries[1..]);
      if entries[0].node.Folder? {
        forall g | g in FilesHere(entries[0])
          ensures g.place != []
        {
          InsideExactly(entries[0].name, FilesOf(entries[0].node.entries), g);
        }
      }
    }
  }

  lemma {:induction false} ElsewhereNotHere(e: Entry, f: SizedFile)
    requires f.place == [] || f.place[0] != e.name
    ensures f !in FilesHere(e)
  {
    if e.node.Folder? {
      InsideExactly(e.name, FilesOf(e.node.entries), f);
    }
  }

  /** The list has exactly the files that are there ... */
  lemma {:induction false} FilesExactly(entries: seq<Entry>, f: SizedFile)
    requires WellNamed(entries)
    ensures f in FilesOf(entries) <==> FileAt(entries, f)
    decreases entries
  {
    if entries != [] && f.place != [] {
      var e := entries[0];
      RestWellNamed(entries);
      FilesExactly(entries[1..], f);
      if f.place[0] == e.name {
        if e.node.Folder? {
          FilesExactly(e.node.entries, SizedFile(f.place[1..], f.size));
          PlacesNonEmpty(e.node.entries);
        }
        HereExactly(entries, f);
        if FileAt(entries[1..], f) {
          NameInRest(entries, f.place);
        }
      } else {
        ElsewhereNotHere(e, f);
        assert NodeAt(entries, f.place) == NodeAt(entries[1..], f.place);
      }
    } else if entries != [] {
      PlacesNonEmpty(entries);
    }
  }

  ghost predicate PlacesApart(files: seq<SizedFile>) {
    forall i, j :: 0 <= i < j < |files| ==> files[i].place != files[j].place
  }

  lemma {:induction false} InsideAt(name: string, files: seq<SizedFile>)
    ensures |Inside(name, files)| == |files|
    ensures forall k :: 0 <= k < |files| ==> Inside(name, files)[k].place == [name] + files[k].place
    decreases |files|
  {
    if files != [] {
      InsideAt(name, files[1..]);
    }
  }

  lemma {:induction false} InsideApart(name: string, files: seq<SizedFile>)
    requires PlacesApart(files)
    ensures PlacesApart(Inside(name, files))
  {
    InsideAt(name, files);
    forall i, j | 0 <= i < j < |files|
      ensures Inside(name, files)[i].place != Inside(name, files)[j].place
    {
      assert ([name] + files[i].place)[1..] == files[i].place && ([name] + files[j].place)[1..] == files[j].place;
    }
  }

  lemma {:induction false} HereIsNotLater(entries: seq<Entry>, f: SizedFile, g: SizedFile)
    requires entries != [] && WellNamed(entries) && f in FilesHere(entries[0]) && g in FilesOf(entries[1..])
    ensures f.place != g.place
  {
    if f.place == [] || f.place[0] != entries[0].name {
      ElsewhereNotHere(entries[0], f);
    }
    RestWellNamed(entries);
    FilesExactly(entries[1..], g);
    NameInRest(entries, g.place);
  }

  /** ... each of them once. */
  lemma {:induction false} FilesOnce(entries: seq<Entry>)
    requires WellNamed(entries)
    ensures PlacesApart(FilesOf(entries))
    decreases entries
  {
    if entries != [] {
      var here, later := FilesHere(entries[0]), FilesOf(entries[1..]);
      RestWellNamed(entries);
      FilesOnce(entries[1..]);
      if entries[0].node.Folder? {
        FilesOnce(entries[0].node.entries);
        InsideApart(entries[0].name, FilesOf(entries[0].node.entries));
      }
      var all: seq<SizedFile> := here + later;
      forall i, j | 0 <= i < j < |all|
        ensures all[i].place != all[j].place
      {
        if i < |here| <= j {
          HereIsNotLater(entries, here[i], later[j - |here|]);
        }
      }
    }
  }

  // ----- sizes are totals

  /** Nothing below the folder is unreadable. */
  ghost predicate Readable(entries: seq<Entry>) {
    forall rel: Place :: rel != [] ==> NodeAt(entries, rel) != Some(Unreadable)
  }

  lemma {:induction false} AtFirst(entries: seq<Entry>, rel: Place)
    requires entries != [] && rel != []
    ensures NodeAt(entries, [entries[0].name]) == Some(entries[0].node)
    ensures entries[0].node.Folder? ==> NodeAt(entries, [entries[0].name] + rel) == NodeAt(entries[0].node.entries, rel)
  {
    var whole := [entries[0].name] + rel;
    assert whole[0] == entries[0].name && whole[1..] == rel;
  }

  lemma {:induction false} AtRest(entries: seq<Entry>, rel: Place)
    requires entries != [] && rel != [] && rel[0] != entries[0].name
    ensures NodeAt(entries, rel) == NodeAt(entries[1..], rel)
  {
  }

  lemma {:induction false} ReadableParts(entries: seq<Entry>)
    requires entries != [] && WellNamed(entries)
    ensures Readable(entries) <==> entries[0].node != Unreadable && (entries[0].node.Folder? ==> Readable(entries[0].node.entries)) && Readable(entries[1..])
  {
    var e := entries[0];
    AtFirst(entries, [e.name]);
    if Readable(entries) {
      forall rel: Place | rel != []
        ensures NodeAt(entries[1..], rel) != Some(Unreadable) && (e.node.Folder? ==> NodeAt(e.node.entries, rel) != Some(Unreadable))
      {
        AtFirst(entries, rel);
        if NodeAt(entries[1..], rel).Some? {
          NameInRest(entries, rel);
          AtRest(entries, rel);
        }
      }
    } else {
      var rel: Place :| rel != [] && NodeAt(entries, rel) == Some(Unreadable);
      if rel[0] != e.name {
        AtRest(entries, rel);
      } else if |rel| > 1 {
        AtFirst(entries, rel[1..]);
        assert rel == [e.name] + rel[1..];
      } else {
        assert rel == [e.name];
      }
    }
  }

  lemma {:induction false} TotalTogether(a: seq<SizedFile>, b: seq<SizedFile>)
    ensures Total(a + b) == Total(a) + Total(b)
    decreases |a|
  {
    if a == [] {
      assert a + b == b;
    } else {
      assert (a + b)[1..] == a[1..] + b;
      TotalTogether(a[1..], b);
    }
  }

  lemma {:induction false} InsideTotal(name: string, files: seq<SizedFile>)
    ensures Total(Inside(name, files)) == Total(files)
    decreases |files|
  {
    if files != [] {
      InsideTotal(name, files[1..]);
      assert Inside(name, files)[1..] == Inside(name, files[1..]);
    }
  }

  /** The size of what is in a folder is that of every file below it, each counted once; there is none exactly
      when something below it cannot be read. */
  lemma {:induction false} SizeIsTotal(entries: seq<Entry>)
    requires WellNamed(entries)
    ensures SizeOfAll(entries) == if Readable(entries) then Some(Total(FilesOf(entries))) else None
    decreases entries
  {
    if entries == [] {
      forall rel: Place | rel != []
        ensures NodeAt(entries, rel) != Some(Unreadable)
      {
      }
    } else {
      var e := entries[0];
      RestWellNamed(entries);
      ReadableParts(entries);
      SizeIsTotal(entries[1..]);
      TotalTogether(FilesHere(e), FilesOf(entries[1..]));
      if e.node.Folder? {
        SizeIsTotal(e.node.entries);
        InsideTotal(e.name, FilesOf(e.node.entries));
      } else if e.node.File? {
        assert [SizedFile([e.name], e.node.size)][1..] == [];
      }
    }
  }

  /** A scan of what can all be read goes through, and its candidates' sizes are those totals. */
  lemma {:induction false} ReadableIsScanned(path: Place, entries: seq<Entry>, rules: Rules)
    requires WellNamed(entries) && Readable(entries)
    ensures Scan(path, entries, rules).Some?
    decreases entries
  {
    if entries != [] {
      var e := entries[0];
      RestWellNamed(entries);
      ReadableParts(entries);
      ReadableIsScanned(path, entries[1..], rules);
      if e.node.Folder? {
        ReadableIsScanned(path + [e.name], e.node.entries, rules);
        SizeIsTotal(e.node.entries);
      }
    }
  }

  lemma {:induction false} NodeWellNamed(entries: seq<Entry>, rel: Place)
    requires WellNamed(entries) && rel != [] && NodeAt(entries, rel).Some? && NodeAt(entries, rel).value.Folder?
    ensures WellNamed(NodeAt(entries, rel).value.entries)
    decreases |rel|, |entries|
  {
    RestWellNamed(entries);
    if rel[0] != entries[0].name {
      AtRest(entries, rel);
      NodeWellNamed(entries[1..], rel);
    } else if |rel| > 1 {
      NodeWellNamed(entries[0].node.entries, rel[1..]);
    }
  }

  /** What a scan says of a folder it lists: the total of every file in it. */
  lemma {:induction false} CandidateSize(path: Place, entries: seq<Entry>, rel: Place, c: Candidate)
    requires WellNamed(entries) && IsCandidate(path, entries, rel, c)
    ensures match NodeAt(entries, rel).value
            case File(size) => c.size == size && c.isFile
            case Folder(inside) => WellNamed(inside) && Readable(inside) && c.size == Total(FilesOf(inside)) && !c.isFile
            case Unreadable => false
  {
    match NodeAt(entries, rel).value
    case File(_) =>
    case Folder(inside) =>
      NodeWellNamed(entries, rel);
      SizeIsTotal(inside);
    case Unreadable =>
  }
}
