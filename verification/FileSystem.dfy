/** The file system service: directories and files over the metadata and the object store. */
module FileSystem {
  import opened Paths
  import opened Metadata
  import opened MetadataService
  import opened TreeProof
  import opened ObjectStore

  datatype Error = NotFound | AlreadyExists | StorageFailure

  datatype Result<T> = Ok(value: T) | Fail(error: Error)

  datatype Outcome = Done | Failed(error: Error)

  datatype Item = FileItem(file: FileMeta) | DirItem(dir: DirMeta)

  datatype Listing = Listing(dir: DirMeta, children: seq<Item>)

  datatype Download = Download(data: string, contentType: string)

  function PathOf(item: Item): string {
    if item.FileItem? then item.file.path else item.dir.path
  }

  /** The items behind the names of a directory, in order; a name with no record gives none. */
  function Items(kv: Store, path: string, names: seq<string>): seq<Item> {
    if names == [] then []
    else
      var item := ItemAt(kv, Join(path, names[|names| - 1]));
      Items(kv, path, names[..|names| - 1]) + if item.Some? then [item.value] else []
  }

  function ItemAt(kv: Store, path: string): Option<Item> {
    if FileAt(kv, path).Some? then Some(FileItem(FileAt(kv, path).value))
    else if DirAt(kv, path).Some? then Some(DirItem(DirAt(kv, path).value))
    else None
  }

  lemma {:induction false} ItemsAre(kv: Store, path: string, names: seq<string>)
    requires forall i :: 0 <= i < |names| ==> ItemAt(kv, Join(path, names[i])).Some?
    ensures |Items(kv, path, names)| == |names|
    ensures forall i :: 0 <= i < |names| ==> ItemAt(kv, Join(path, names[i])) == Some(Items(kv, path, names)[i])
  {
    if names != [] {
      var front := names[..|names| - 1];
      ItemsAre(kv, path, front);
      assert forall i :: 0 <= i < |front| ==> front[i] == names[i];
    }
  }

  lemma ItemOf(kv: Store, path: string, name: string)
    requires WellFormed(kv) && DirAt(kv, path).Some? && name in NamesAt(kv, path)
    ensures var q := Join(path, name);
      q != "/" && ParentOf(q) == path && NameOf(q) == name && Live(kv, q)
      && ItemAt(kv, q).Some? && PathOf(ItemAt(kv, q).value) == q
  {
    assert ListOk(kv, path) && LiveOk(kv, path) && LiveOk(kv, Join(path, name));
    ValidNotEmpty(path);
    SplitJoin(path, name);
    JoinValid(path, name);
  }

  /** The item is the record stored at a path: the file's if there is one, else the directory's. */
  ghost predicate IsRecord(kv: Store, q: string, item: Item) {
    && (FileAt(kv, q).Some? ==> item == FileItem(FileAt(kv, q).value))
    && (FileAt(kv, q).None? ==> DirAt(kv, q).Some? && item == DirItem(DirAt(kv, q).value))
  }

  /** The item is the live entry that the directory lists by the name. */
  ghost predicate IsEntry(kv: Store, path: string, name: string, item: Item) {
    && PathOf(item) == Join(path, name) && IsRecord(kv, PathOf(item), item)
    && PathOf(item) != "/" && ParentOf(PathOf(item)) == path && NameOf(PathOf(item)) == name && Live(kv, PathOf(item))
  }

  lemma ListingItems(kv: Store, path: string)
    requires WellFormed(kv) && DirAt(kv, path).Some?
    ensures var names := NamesAt(kv, path);
      && |Items(kv, path, names)| == |names|
      && forall i :: 0 <= i < |names| ==> IsEntry(kv, path, names[i], Items(kv, path, names)[i])
  {
    var names := NamesAt(kv, path);
    forall i | 0 <= i < |names| ensures ItemAt(kv, Join(path, names[i])).Some? { ItemOf(kv, path, names[i]); }
    ItemsAre(kv, path, names);
    forall i | 0 <= i < |names| ensures IsEntry(kv, path, names[i], Items(kv, path, names)[i]) {
      ItemOf(kv, path, names[i]);
    }
  }

  lemma EntriesExact(kv: Store, path: string, names: seq<string>, items: seq<Item>, q: string)
    requires |items| == |names| && Distinct(names)
    requires forall i :: 0 <= i < |names| ==> IsEntry(kv, path, names[i], items[i])
    requires q != "/" && Live(kv, q) && ParentOf(q) == path ==> NameOf(q) in names && q == Join(path, NameOf(q))
    ensures q != "/" && Live(kv, q) && ParentOf(q) == path <==> exists i :: 0 <= i < |items| && PathOf(items[i]) == q
    ensures forall i :: 0 <= i < |items| && PathOf(items[i]) == q ==> IsRecord(kv, q, items[i])
    ensures forall i, j :: 0 <= i < j < |items| ==> PathOf(items[i]) != PathOf(items[j])
  {
    if q != "/" && Live(kv, q) && ParentOf(q) == path {
      var i :| 0 <= i < |names| && names[i] == NameOf(q);
      assert IsEntry(kv, path, names[i], items[i]);
    }
    forall i, j | 0 <= i < j < |items| ensures PathOf(items[i]) != PathOf(items[j]) {
      assert IsEntry(kv, path, names[i], items[i]) && IsEntry(kv, path, names[j], items[j]);
    }
  }

  /** A listing holds exactly the live children of the directory, each once, with its record. */
  lemma ListingExact(kv: Store, path: string, q: string)
    requires WellFormed(kv) && DirAt(kv, path).Some?
    ensures var items := Items(kv, path, NamesAt(kv, path));
      && (q != "/" && Live(kv, q) && ParentOf(q) == path <==> exists i :: 0 <= i < |items| && PathOf(items[i]) == q)
      && (forall i :: 0 <= i < |items| && PathOf(items[i]) == q ==> IsRecord(kv, q, items[i]))
      && (forall i, j :: 0 <= i < j < |items| ==> PathOf(items[i]) != PathOf(items[j]))
  {
    ListingItems(kv, path);
    assert ListOk(kv, path) && LiveOk(kv, q);
    EntriesExact(kv, path, NamesAt(kv, path), Items(kv, path, NamesAt(kv, path)), q);
  }

  ghost predicate FileUnder(kv: Store, path: string, q: string) {
    Under(path, q) && FileAt(kv, q).Some?
  }

  /** Is there a file anywhere under the path? */
  ghost predicate HoldsFile(kv: Store, path: string) {
    exists q :: FileUnder(kv, path, q)
  }

  lemma HoldsFileAbove(kv: Store, path: string, name: string)
    requires ValidPath(path) && ValidName(name) && HoldsFile(kv, Join(path, name))
    ensures HoldsFile(kv, path)
  {
    var q :| FileUnder(kv, Join(path, name), q);
    ChildUnder(path, name);
    UnderTrans(path, Join(path, name), q);
    assert FileUnder(kv, path, q);
  }

  /** How a deletion ends: with everything under the path gone, or half-way, with nothing outside it changed and some
      file under it left. Either way tree and stores are in order. */
  ghost predicate Ends(kv: Store, kv': Store, objects: Objects, objects': Objects, path: string, done: bool) {
    && WellFormed(kv')
    && (done ==> Erased(kv, kv', objects, objects', path))
    && (!done ==> PartlyCleared(kv, kv', objects, objects', Subtree(path)) && HoldsFile(kv', path))
    && (Sync(kv, objects) ==> Sync(kv', objects'))
  }

  lemma FileKept(kv: Store, objects: Objects, path: string)
    requires WellFormed(kv) && FileAt(kv, path).Some?
    ensures Ends(kv, kv, objects, objects, path, false)
  {
    assert FileUnder(kv, path, path);
  }

  /** The directories that lie under a path. */
  ghost function DirsUnder(kv: Store, path: string): (dirs: set<string>)
    ensures forall q :: q in dirs <==> DirAt(kv, q).Some? && Under(path, q)
  {
    var dirs := set key | key in kv && |key| >= 4 && DirAt(kv, key[4..]).Some? && Under(path, key[4..]) :: key[4..];
    assert forall q :: DirAt(kv, q).Some? ==> DirKey(q) in kv && DirKey(q)[4..] == q;
    dirs
  }

  lemma CreateDirOutcome(kv: Store, kv': Store, path: string, now: int)
    requires DirAt(kv, path).None?
    requires DirCreated(kv, kv', path, now)
    ensures WellFormed(kv) && ValidPath(path) ==>
      (WellFormed(kv') <==> path == "/" || (DirAt(kv, ParentOf(path)).Some? && FileAt(kv, path).None?))
  {
    if WellFormed(kv) && ValidPath(path) {
      if path == "/" { CreateRootKeeps(kv, kv', now); } else { CreateDirKeeps(kv, kv', path, now); }
    }
  }

  lemma SameFilesSync(kv: Store, kv': Store, objects: Objects)
    requires SameFiles(kv, kv')
    ensures Sync(kv, objects) ==> Sync(kv', objects)
  {
    if Sync(kv, objects) {
      forall q ensures Stored(kv', objects, q) { assert Stored(kv, objects, q); }
      forall key | key in objects ensures exists q :: Owns(kv', q, key) {
        var q :| Owns(kv, q, key);
        assert Owns(kv', q, key);
      }
      forall p, q, key | Owns(kv', p, key) && Owns(kv', q, key) ensures p == q {
        assert Owns(kv, p, key) && Owns(kv, q, key);
      }
    }
  }

  lemma FileErased(kv: Store, objects: Objects, path: string)
    requires WellFormed(kv) && FileAt(kv, path).Some?
    ensures Ends(kv, FileRemoved(kv, path), objects, objects - {FileAt(kv, path).value.s3Key}, path, true)
  {
    var kv', objects' := FileRemoved(kv, path), objects - {FileAt(kv, path).value.s3Key};
    FileRemovedOnly(kv, path);
    FileCleared(kv, kv', path);
    FileObjectCleared(kv, objects, path);
    if Sync(kv, objects) { ClearedSync(kv, kv', objects, objects', Subtree(path)); }
  }

  /** The state of a deletion after the first i entries: their subtrees are gone, the other names are still listed. */
  ghost predicate Progress(
    kv0: Store, kv: Store, o0: Objects, o: Objects, path: string, names: seq<string>, i: nat)
    requires i <= |names|
  {
    && WellFormed(kv)
    && Cleared(kv0, kv, Subtrees(path, names[..i]))
    && NamesCleared(kv0, kv, Subtrees(path, names[..i]), path, names[i..])
    && ObjectsCleared(kv0, o0, o, Subtrees(path, names[..i]))
    && (Sync(kv0, o0) ==> Sync(kv, o))
  }

  lemma Begin(kv0: Store, o0: Objects, path: string)
    requires WellFormed(kv0)
    ensures Progress(kv0, kv0, o0, o0, path, NamesAt(kv0, path), 0)
  {}

  /** The entry the loop is about to delete is live, is a child of the path, and holds fewer directories. */
  lemma NextEntry(kv0: Store, kv1: Store, o0: Objects, o1: Objects, path: string, i: nat)
    requires WellFormed(kv0) && DirAt(kv0, path).Some? && i < |NamesAt(kv0, path)|
    requires Progress(kv0, kv1, o0, o1, path, NamesAt(kv0, path), i)
    ensures var child := Join(path, NamesAt(kv0, path)[i]);
      Live(kv1, child) && DirsUnder(kv1, child) < DirsUnder(kv0, path)
  {
    var names := NamesAt(kv0, path);
    var child := Join(path, names[i]);
    ValidEntry(kv0, path, names[i]);
    NotInSubtrees(path, names[..i]);
    assert NamesAt(kv1, path) == names[i..] && names[i..][0] in NamesAt(kv1, path) && ListOk(kv1, path);
    ParentNotUnder(path, names[i]);
    ChildUnder(path, names[i]);
    forall q | q in DirsUnder(kv1, child) ensures q in DirsUnder(kv0, path) { UnderTrans(path, child, q); }
    assert path in DirsUnder(kv0, path) && path !in DirsUnder(kv1, child);
  }

  lemma ValidEntry(kv: Store, path: string, name: string)
    requires WellFormed(kv) && DirAt(kv, path).Some? && name in NamesAt(kv, path)
    ensures ValidPath(path) && Distinct(NamesAt(kv, path)) && forall n :: n in NamesAt(kv, path) ==> ValidName(n)
    ensures ParentOf(Join(path, name)) == path && NameOf(Join(path, name)) == name
  {
    assert LiveOk(kv, path) && ListOk(kv, path);
    ValidNotEmpty(path);
    SplitJoin(path, name);
  }

  lemma Advance(kv0: Store, kv1: Store, kv2: Store, o0: Objects, o1: Objects, o2: Objects, path: string, i: nat)
    requires WellFormed(kv0) && DirAt(kv0, path).Some? && i < |NamesAt(kv0, path)|
    requires Progress(kv0, kv1, o0, o1, path, NamesAt(kv0, path), i)
    requires WellFormed(kv2) && (Sync(kv1, o1) ==> Sync(kv2, o2))
    requires Erased(kv1, kv2, o1, o2, Join(path, NamesAt(kv0, path)[i]))
    ensures Progress(kv0, kv2, o0, o2, path, NamesAt(kv0, path), i + 1)
  {
    var names := NamesAt(kv0, path);
    ValidEntry(kv0, path, names[i]);
    ClearedMore(kv0, kv1, kv2, path, names, i);
    SubtreesMore(path, names, i);
    ObjectsMore(kv0, kv1, o0, o1, o2, Subtrees(path, names[..i]), Subtree(Join(path, names[i])));
  }

  lemma Halt(kv0: Store, kv1: Store, kv2: Store, o0: Objects, o1: Objects, o2: Objects, path: string, i: nat)
    requires WellFormed(kv0) && DirAt(kv0, path).Some? && i < |NamesAt(kv0, path)|
    requires Progress(kv0, kv1, o0, o1, path, NamesAt(kv0, path), i)
    requires PartlyCleared(kv1, kv2, o1, o2, Subtree(Join(path, NamesAt(kv0, path)[i])))
    ensures PartlyCleared(kv0, kv2, o0, o2, Subtree(path))
  {
    ValidEntry(kv0, path, NamesAt(kv0, path)[i]);
    PartlyMore(kv0, kv1, kv2, o0, o1, o2, path, NamesAt(kv0, path), i);
  }

  lemma Finish(kv0: Store, kv1: Store, kv2: Store, o0: Objects, o: Objects, path: string)
    requires WellFormed(kv0) && DirAt(kv0, path).Some?
    requires Progress(kv0, kv1, o0, o, path, NamesAt(kv0, path), |NamesAt(kv0, path)|)
    requires DirAt(kv1, path).None? ==> kv2 == kv1
    requires DirAt(kv1, path).Some? ==>
      DirsSet(kv1, kv2, path, None) && SameFiles(kv1, kv2) && NamesPruned(kv1, kv2, path)
    ensures WellFormed(kv2) && Erased(kv0, kv2, o0, o, path)
    ensures Sync(kv0, o0) ==> Sync(kv2, o)
  {
    var names := NamesAt(kv0, path);
    assert LiveOk(kv0, path) && ListOk(kv0, path);
    assert names[..|names|] == names && names[|names|..] == [];
    NotInSubtrees(path, names);
    assert DirAt(kv1, path) == DirAt(kv0, path) && NamesAt(kv1, path) == [];
    DirCleared(kv0, kv1, kv2, path);
    DirObjectsCleared(kv0, o0, o, path);
    DeleteDirKeeps(kv1, kv2, path);
    if Sync(kv0, o0) { ClearedSync(kv0, kv2, o0, o, Subtree(path)); }
  }

  // ---------------------------------------------------------------- undoing

  lemma AppendedErased(names: seq<string>, name: string)
    requires name !in names
    ensures Without(names + [name], name) == names
  {
    assert (names + [name])[..|names|] == names;
    WithoutAbsent(names, name);
  }

  /** Deleting an uploaded file restores both stores. */
  lemma UploadUndone(kv: Store, kv1: Store, kv2: Store, objects: Objects, path: string, file: FileMeta, data: string)
    requires WellFormed(kv) && ValidPath(path) && path != "/" && !Live(kv, path) && file.s3Key !in objects
    requires RecordOk(path, file.path, file.name, file.parent) && FileCreated(kv, kv1, file)
    requires kv2 == FileRemoved(kv1, path)
    ensures SameDirs(kv, kv2) && SameFiles(kv, kv2) && SameNames(kv, kv2)
    ensures objects[file.s3Key := Object(data, file.contentType)] - {file.s3Key} == objects
  {
    NotListed(kv, path);
    FileRemovedOnly(kv1, path);
    ListedUnlisted(kv, kv1, kv2, ParentOf(path), NameOf(path));
  }

  lemma ListedUnlisted(kv: Store, kv1: Store, kv2: Store, parent: string, name: string)
    requires name !in NamesAt(kv, parent)
    requires NamesSet(kv, kv1, parent, NamesAt(kv, parent) + [name])
    requires NamesSet(kv1, kv2, parent, Without(NamesAt(kv1, parent), name))
    ensures SameNames(kv, kv2)
  {
    AppendedErased(NamesAt(kv, parent), name);
  }

  /** Deleting a directory just created restores the tree and touches no object. */
  lemma CreateDirUndone(
    kv: Store, kv1: Store, kv2: Store, objects: Objects, objects': Objects, path: string, now: int)
    requires WellFormed(kv) && ValidPath(path) && path != "/" && !Live(kv, path) && DirAt(kv, ParentOf(path)).Some?
    requires DirCreated(kv, kv1, path, now)
    requires Erased(kv1, kv2, objects, objects', path)
    ensures SameDirs(kv, kv2) && SameFiles(kv, kv2) && SameNames(kv, kv2) && objects' == objects
  {
    CreatedAlone(kv, kv1, path, now);
    RestoredRecords(kv, kv1, kv2, path, now);
    RestoredNames(kv, kv1, kv2, path);
    UnownedKept(kv1, objects, objects', path);
  }

  lemma RestoredRecords(kv: Store, kv1: Store, kv2: Store, path: string, now: int)
    requires !Live(kv, path) && Cleared(kv1, kv2, Subtree(path))
    requires DirsSet(kv, kv1, path, Some(NewDir(path, now))) && SameFiles(kv, kv1)
    requires forall q :: q in Subtree(path) && q != path ==> !Live(kv1, q)
    ensures SameDirs(kv, kv2) && SameFiles(kv, kv2)
  {
    forall q ensures DirAt(kv2, q) == DirAt(kv, q) && FileAt(kv2, q) == FileAt(kv, q) {
      assert FileAt(kv1, q) == FileAt(kv, q);
    }
  }

  lemma UnownedKept(kv: Store, objects: Objects, objects': Objects, path: string)
    requires ObjectsCleared(kv, objects, objects', Subtree(path)) && forall key :: !Owned(kv, Subtree(path), key)
    ensures objects' == objects
  {}

  lemma CreatedAlone(kv: Store, kv1: Store, path: string, now: int)
    requires WellFormed(kv) && ValidPath(path) && path != "/" && !Live(kv, path) && DirAt(kv, ParentOf(path)).Some?
    requires DirCreated(kv, kv1, path, now)
    ensures forall q :: q in Subtree(path) && q != path ==> !Live(kv1, q) && NamesAt(kv1, q) == []
    ensures forall key :: !Owned(kv1, Subtree(path), key)
    ensures NamesAt(kv, path) == [] && NameOf(path) !in NamesAt(kv, ParentOf(path))
    ensures NamesSet(kv, kv1, ParentOf(path), NamesAt(kv, ParentOf(path)) + [NameOf(path)])
  {
    CreateDirKeeps(kv, kv1, path, now);
    NotListed(kv, path);
    GrownIsSet(kv, kv1, path);
    forall q | q in Subtree(path) && q != path
      ensures !Live(kv1, q) && NamesAt(kv1, q) == []
    {
      NothingBelow(kv1, path, q);
    }
    forall key ensures !Owned(kv1, Subtree(path), key) { DirOwns(kv1, path, key); }
  }

  lemma RestoredNames(kv: Store, kv1: Store, kv2: Store, path: string)
    requires ValidPath(path) && path != "/"
    requires NamesAt(kv, path) == [] && NameOf(path) !in NamesAt(kv, ParentOf(path))
    requires NamesSet(kv, kv1, ParentOf(path), NamesAt(kv, ParentOf(path)) + [NameOf(path)])
    requires NamesCleared(kv1, kv2, Subtree(path), ParentOf(path), Without(NamesAt(kv1, ParentOf(path)), NameOf(path)))
    requires forall q :: q in Subtree(path) && q != path ==> NamesAt(kv1, q) == []
    ensures SameNames(kv, kv2)
  {
    ParentOutside(path);
    AppendedErased(NamesAt(kv, ParentOf(path)), NameOf(path));
  }

  class FileSystem {
    const metadata: MetadataService
    const storage: StorageService

    constructor (metadata: MetadataService, storage: StorageService)
      ensures this.metadata == metadata && this.storage == storage
    {
      this.metadata := metadata;
      this.storage := storage;
    }

    method ListDir(path: string) returns (r: Result<Listing>)
      ensures DirAt(metadata.kv, path).None? ==> r == Fail(NotFound)
      ensures DirAt(metadata.kv, path).Some? ==>
        r == Ok(Listing(DirAt(metadata.kv, path).value, Items(metadata.kv, path, NamesAt(metadata.kv, path))))
    {
      var dir := metadata.GetDir(path);
      if dir.None? {
        return Fail(NotFound);
      }
      var names := metadata.GetChildren(path);
      var children: seq<Item> := [];
      for i := 0 to |names|
        invariant children == Items(metadata.kv, path, names[..i])
      {
        assert names[..i + 1][..i] == names[..i];
        var child := Join(path, names[i]);
        var file := metadata.GetFile(child);
        if file.Some? {
          children := children + [FileItem(file.value)];
          continue;
        }
        var sub := metadata.GetDir(child);
        if sub.Some? {
          children := children + [DirItem(sub.value)];
        }
      }
      assert names[..|names|] == names;
      return Ok(Listing(dir.value, children));
    }

    method EnsureRoot(now: int)
      modifies metadata
      ensures SameFiles(old(metadata.kv), metadata.kv) && DirAt(metadata.kv, "/").Some?
      ensures old(DirAt(metadata.kv, "/")).Some? ==> metadata.kv == old(metadata.kv)
      ensures old(WellFormed(metadata.kv)) ==> WellFormed(metadata.kv)
      ensures old(Sync(metadata.kv, storage.objects)) ==> Sync(metadata.kv, storage.objects)
    {
      ghost var kv0 := metadata.kv;
      metadata.EnsureRoot(now);
      if WellFormed(kv0) && DirAt(kv0, "/").None? { CreateRootKeeps(kv0, metadata.kv, now); }
      SameFilesSync(kv0, metadata.kv, storage.objects);
    }

    /** Keeps the tree exactly when the parent is a directory and no file has the path; always keeps the stores in
        step. */
    method CreateDir(path: string, now: int) returns (r: Outcome)
      modifies metadata
      ensures r == if old(DirAt(metadata.kv, path)).Some? then Failed(AlreadyExists) else Done
      ensures r != Done ==> metadata.kv == old(metadata.kv)
      ensures r == Done ==>
        && DirCreated(old(metadata.kv), metadata.kv, path, now)
        && DirAt(metadata.kv, path) == Some(DirMeta(NameOf(path), path, ParentOf(path), now, now))
      ensures r == Done && old(WellFormed(metadata.kv)) && ValidPath(path) ==>
        (WellFormed(metadata.kv) <==>
          path == "/" || (old(DirAt(metadata.kv, ParentOf(path))).Some? && old(FileAt(metadata.kv, path)).None?))
      ensures old(Sync(metadata.kv, storage.objects)) ==> Sync(metadata.kv, storage.objects)
    {
      ghost var kv0 := metadata.kv;
      if metadata.GetDir(path).Some? {
        return Failed(AlreadyExists);
      }
      metadata.CreateDir(path, now);
      CreateDirOutcome(kv0, metadata.kv, path, now);
      SameFilesSync(kv0, metadata.kv, storage.objects);
      r := Done;
    }

    /** With the stores in step, a download fails only if its request does. */
    method DownloadFile(path: string) returns (r: Result<Download>)
      modifies storage`requests
      ensures FileAt(metadata.kv, path).None? ==> r == Fail(NotFound) && storage.requests == old(storage.requests)
      ensures FileAt(metadata.kv, path).Some? ==>
        var file := FileAt(metadata.kv, path).value;
        && storage.requests == old(storage.requests) + 1
        && r == if file.s3Key in storage.objects && !storage.fails(old(storage.requests))
                then Ok(Download(storage.objects[file.s3Key].data, file.contentType)) else Fail(StorageFailure)
      ensures Sync(metadata.kv, storage.objects) && r == Fail(StorageFailure) ==> storage.fails(old(storage.requests))
    {
      var file := metadata.GetFile(path);
      if file.None? {
        return Fail(NotFound);
      }
      var data := storage.GetObject(file.value.s3Key);
      assert Sync(metadata.kv, storage.objects) ==> Stored(metadata.kv, storage.objects, path);
      r := if data.Some? then Ok(Download(data.value, file.value.contentType)) else Fail(StorageFailure);
    }

    /**
     * The generated key is a parameter. A success keeps the tree exactly when the parent is a directory and no
     * directory has the path, and keeps the stores in step exactly when the key was not in use; a failure changes
     * nothing.
     */
    method UploadFile(path: string, data: string, contentType: string, s3Key: string, now: int)
      returns (r: Result<FileMeta>)
      modifies metadata, storage
      ensures old(FileAt(metadata.kv, path)).Some? ==>
        r == Fail(AlreadyExists) && storage.requests == old(storage.requests)
      ensures old(FileAt(metadata.kv, path)).None? ==>
        && storage.requests == old(storage.requests) + 1
        && if storage.fails(old(storage.requests)) then r == Fail(StorageFailure) else r.Ok?
      ensures r.Fail? ==> metadata.kv == old(metadata.kv) && storage.objects == old(storage.objects)
      ensures r.Ok? ==>
        && r.value == FileMeta(NameOf(path), path, ParentOf(path), contentType, s3Key, |data|, now, now)
        && FileCreated(old(metadata.kv), metadata.kv, r.value)
        && storage.objects == old(storage.objects)[s3Key := Object(data, contentType)]
      ensures r.Ok? && old(WellFormed(metadata.kv)) && ValidPath(path) && path != "/" ==>
        (WellFormed(metadata.kv) <==>
          old(DirAt(metadata.kv, ParentOf(path))).Some? && old(DirAt(metadata.kv, path)).None?)
      ensures r.Ok? && old(Sync(metadata.kv, storage.objects)) ==>
        (Sync(metadata.kv, storage.objects) <==> s3Key !in old(storage.objects))
    {
      ghost var kv0, o0 := metadata.kv, storage.objects;
      if metadata.GetFile(path).Some? {
        return Fail(AlreadyExists);
      }
      var stored := storage.PutObject(s3Key, data, contentType);
      if !stored {
        return Fail(StorageFailure);
      }
      var file := FileMeta(NameOf(path), path, ParentOf(path), contentType, s3Key, |data|, now, now);
      metadata.CreateFile(file, now);
      assert Stamped(file, now) == file;
      if WellFormed(kv0) && ValidPath(path) && path != "/" { CreateFileKeeps(kv0, metadata.kv, path, file); }
      if Sync(kv0, o0) { UploadSync(kv0, metadata.kv, o0, path, file, data); }
      r := Ok(file);
    }

    method DeleteFile(path: string) returns (r: Outcome)
      modifies metadata, storage
      ensures old(FileAt(metadata.kv, path)).None? ==>
        r == Failed(NotFound) && storage.requests == old(storage.requests)
      ensures old(FileAt(metadata.kv, path)).Some? ==>
        && storage.requests == old(storage.requests) + 1
        && r == (if storage.fails(old(storage.requests)) then Failed(StorageFailure) else Done)
        && r == if storage.AllWell(old(storage.requests)) then Done else Failed(StorageFailure)
      ensures r != Done ==> metadata.kv == old(metadata.kv) && storage.objects == old(storage.objects)
      ensures r == Done ==>
        && metadata.kv == FileRemoved(old(metadata.kv), path)
        && storage.objects == old(storage.objects) - {old(FileAt(metadata.kv, path)).value.s3Key}
      ensures old(WellFormed(metadata.kv)) && r != Failed(NotFound) ==>
        Ends(old(metadata.kv), metadata.kv, old(storage.objects), storage.objects, path, r == Done)
    {
      ghost var kv0, o0 := metadata.kv, storage.objects;
      var file := metadata.GetFile(path);
      if file.None? {
        return Failed(NotFound);
      }
      var deleted := storage.DeleteObject(file.value.s3Key);
      if !deleted {
        if WellFormed(kv0) { FileKept(kv0, o0, path); }
        return Failed(StorageFailure);
      }
      metadata.DeleteFile(path);
      if WellFormed(kv0) { FileErased(kv0, o0, path); }
      r := Done;
    }

    /** One child of a directory: a file is deleted, a directory is deleted with all it holds. */
    method DeleteEntry(child: string) returns (r: Outcome)
      requires WellFormed(metadata.kv) && Live(metadata.kv, child)
      modifies metadata, storage
      ensures Ends(old(metadata.kv), metadata.kv, old(storage.objects), storage.objects, child, r == Done)
      ensures storage.requests >= old(storage.requests)
      ensures r == if storage.AllWell(old(storage.requests)) then Done else Failed(StorageFailure)
      decreases DirsUnder(metadata.kv, child), 1
    {
      if metadata.GetFile(child).Some? {
        r := DeleteFile(child);
      } else if metadata.GetDir(child).Some? {
        r := DeleteDir(child);
      } else {
        assert false;
        r := Done;
      }
    }

    /** Recursive deletion is exact: everything under the path goes, in both stores, and nothing else changes. It stops
        half-way exactly if a request fails, at a file that is then still there. */
    method DeleteDir(path: string) returns (r: Outcome)
      requires WellFormed(metadata.kv)
      modifies metadata, storage
      ensures old(DirAt(metadata.kv, path)).None? ==>
        && r == Failed(NotFound) && metadata.kv == old(metadata.kv)
        && storage.objects == old(storage.objects) && storage.requests == old(storage.requests)
      ensures old(DirAt(metadata.kv, path)).Some? ==>
        && Ends(old(metadata.kv), metadata.kv, old(storage.objects), storage.objects, path, r == Done)
        && storage.requests >= old(storage.requests)
        && r == if storage.AllWell(old(storage.requests)) then Done else Failed(StorageFailure)
      decreases DirsUnder(metadata.kv, path), 0
    {
      if metadata.GetDir(path).None? {
        return Failed(NotFound);
      }
      ghost var kv0, o0 := metadata.kv, storage.objects;
      var names := metadata.GetChildren(path);
      Begin(kv0, o0, path);
      for i := 0 to |names|
        invariant Progress(kv0, metadata.kv, o0, storage.objects, path, names, i)
        invariant storage.requests >= old(storage.requests) && storage.AllWell(old(storage.requests))
      {
        ghost var kv1, o1 := metadata.kv, storage.objects;
        NextEntry(kv0, kv1, o0, o1, path, i);
        r := DeleteEntry(Join(path, names[i]));
        if r != Done {
          Halt(kv0, kv1, metadata.kv, o0, o1, storage.objects, path, i);
          ValidEntry(kv0, path, names[i]);
          HoldsFileAbove(metadata.kv, path, names[i]);
          return;
        }
        Advance(kv0, kv1, metadata.kv, o0, o1, storage.objects, path, i);
      }
      ghost var kv1 := metadata.kv;
      metadata.DeleteDir(path);
      Finish(kv0, kv1, metadata.kv, o0, storage.objects, path);
      r := Done;
    }
  }
}
