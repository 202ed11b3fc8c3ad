/** The metadata service: directory and file records, and the list of names each directory keeps. */
module MetadataService {
  import opened Paths
  import opened Metadata

  function NewDir(path: string, now: int): DirMeta {
    DirMeta(NameOf(path), path, ParentOf(path), now, now)
  }

  /** A record whose missing times are filled in. */
  function Stamped(file: FileMeta, now: int): FileMeta {
    file.(createdAt := if file.createdAt != 0 then file.createdAt else now,
          modifiedAt := if file.modifiedAt != 0 then file.modifiedAt else now)
  }

  /** The lists after creating a directory: its own is emptied, and its name, if any, joins its parent's. */
  ghost predicate NamesGrown(kv: Store, kv': Store, path: string) {
    forall q :: NamesAt(kv', q) ==
      (if q == path then [] else NamesAt(kv, q))
      + (if q == ParentOf(path) && NameOf(path) != "" then [NameOf(path)] else [])
  }

  /** The lists after deleting a directory: its own is emptied, and its name is erased from its parent's. */
  ghost predicate NamesPruned(kv: Store, kv': Store, path: string) {
    forall q :: NamesAt(kv', q) ==
      if q == path then [] else if q == ParentOf(path) then Without(NamesAt(kv, q), NameOf(path)) else NamesAt(kv, q)
  }

  /** The stores before and after a directory is created. */
  ghost predicate DirCreated(kv: Store, kv': Store, path: string, now: int) {
    DirsSet(kv, kv', path, Some(NewDir(path, now))) && SameFiles(kv, kv') && NamesGrown(kv, kv', path)
  }

  /** The stores before and after a file is created. */
  ghost predicate FileCreated(kv: Store, kv': Store, file: FileMeta) {
    && FilesSet(kv, kv', file.path, Some(file)) && SameDirs(kv, kv')
    && NamesSet(kv, kv', file.parent, NamesAt(kv, file.parent) + [file.name])
  }

  /** The store without a file: its record is blank, and its name is erased from its parent's list. */
  function FileRemoved(kv: Store, path: string): Store {
    var names := Without(NamesAt(kv, ParentOf(path)), NameOf(path));
    kv[FileKey(path) := NoValue][ChildrenKey(ParentOf(path)) := Names(names)]
  }

  /** Nothing else is different without the file. */
  lemma FileRemovedOnly(kv: Store, path: string)
    ensures FilesSet(kv, FileRemoved(kv, path), path, None) && SameDirs(kv, FileRemoved(kv, path))
    ensures NamesSet(kv, FileRemoved(kv, path), ParentOf(path), Without(NamesAt(kv, ParentOf(path)), NameOf(path)))
  {
    var kv1 := kv[FileKey(path) := NoValue];
    PutFile(kv, kv1, path, NoValue, None);
    var names := Without(NamesAt(kv, ParentOf(path)), NameOf(path));
    PutNames(kv1, FileRemoved(kv, path), ParentOf(path), Names(names), names);
  }

  class MetadataService {
    var kv: Store

    constructor ()
      ensures kv == map[]
    {
      kv := map[];
    }

    function GetDir(path: string): (r: Option<DirMeta>)
      reads this
      ensures r == DirAt(kv, path)
    {
      var v := Read(kv, DirKey(path));
      if v.DirRecord? then Some(v.dir) else None
    }

    function GetFile(path: string): (r: Option<FileMeta>)
      reads this
      ensures r == FileAt(kv, path)
    {
      var v := Read(kv, FileKey(path));
      if v.FileRecord? then Some(v.file) else None
    }

    function GetChildren(path: string): (names: seq<string>)
      reads this
      ensures names == NamesAt(kv, path)
    {
      var v := Read(kv, ChildrenKey(path));
      if v.Names? then v.names else []
    }

    method EnsureRoot(now: int)
      modifies this
      ensures old(DirAt(kv, "/")).Some? ==> kv == old(kv)
      ensures old(DirAt(kv, "/")).None? ==>
        DirCreated(old(kv), kv, "/", now)
    {
      if GetDir("/").None? {
        CreateDir("/", now);
      }
    }

    method CreateDir(path: string, now: int)
      modifies this
      ensures DirCreated(old(kv), kv, path, now)
      ensures DirAt(kv, path) == Some(DirMeta(NameOf(path), path, ParentOf(path), now, now))
    {
      ghost var kv0 := kv;
      kv := kv[DirKey(path) := DirRecord(NewDir(path, now))];
      PutDir(kv0, kv, path, DirRecord(NewDir(path, now)), Some(NewDir(path, now)));
      ghost var kv1 := kv;
      kv := kv[ChildrenKey(path) := Names([])];
      PutNames(kv1, kv, path, Names([]), []);
      if NameOf(path) != "" {
        CreateChild(ParentOf(path), NameOf(path));
      }
    }

    method DeleteDir(path: string)
      modifies this
      ensures old(DirAt(kv, path)).None? ==> kv == old(kv)
      ensures old(DirAt(kv, path)).Some? ==>
        DirsSet(old(kv), kv, path, None) && SameFiles(old(kv), kv) && NamesPruned(old(kv), kv, path)
    {
      if GetDir(path).None? {
        return;
      }
      ghost var kv0 := kv;
      kv := kv[DirKey(path) := NoValue];
      PutDir(kv0, kv, path, NoValue, None);
      ghost var kv1 := kv;
      kv := kv[ChildrenKey(path) := NoValue];
      PutNames(kv1, kv, path, NoValue, []);
      DeleteChild(ParentOf(path), NameOf(path));
    }

    method CreateFile(file: FileMeta, now: int)
      modifies this
      ensures FileCreated(old(kv), kv, Stamped(file, now))
      ensures file.createdAt != 0 && file.modifiedAt != 0 ==> FileAt(kv, file.path) == Some(file)
      ensures file.createdAt == file.modifiedAt == 0 ==>
        FileAt(kv, file.path) == Some(file.(createdAt := now, modifiedAt := now))
    {
      ghost var kv0 := kv;
      kv := kv[FileKey(file.path) := FileRecord(Stamped(file, now))];
      PutFile(kv0, kv, file.path, FileRecord(Stamped(file, now)), Some(Stamped(file, now)));
      CreateChild(file.parent, file.name);
    }

    method DeleteFile(path: string)
      modifies this
      ensures old(FileAt(kv, path)).None? ==> kv == old(kv)
      ensures old(FileAt(kv, path)).Some? ==> kv == FileRemoved(old(kv), path)
    {
      if GetFile(path).None? {
        return;
      }
      ghost var kv0 := kv;
      kv := kv[FileKey(path) := NoValue];
      PutFile(kv0, kv, path, NoValue, None);
      DeleteChild(ParentOf(path), NameOf(path));
    }

    method CreateChild(parent: string, name: string)
      modifies this
      ensures SameDirs(old(kv), kv) && SameFiles(old(kv), kv)
      ensures NamesSet(old(kv), kv, parent, old(NamesAt(kv, parent)) + [name])
    {
      var children := GetChildren(parent) + [name];
      ghost var kv0 := kv;
      kv := kv[ChildrenKey(parent) := Names(children)];
      PutNames(kv0, kv, parent, Names(children), children);
    }

    method DeleteChild(parent: string, name: string)
      modifies this
      ensures SameDirs(old(kv), kv) && SameFiles(old(kv), kv)
      ensures NamesSet(old(kv), kv, parent, Without(old(NamesAt(kv, parent)), name))
      ensures kv == old(kv)[ChildrenKey(parent) := Names(Without(old(NamesAt(kv, parent)), name))]
    {
      var children := Without(GetChildren(parent), name);
      ghost var kv0 := kv;
      kv := kv[ChildrenKey(parent) := Names(children)];
      PutNames(kv0, kv, parent, Names(children), children);
    }
  }
}
