/** What the file services do not check: inputs they accept that leave the tree or the two stores out of order. */
module Unchecked {
  import opened Paths
  import opened Metadata
  import opened MetadataService
  import opened TreeProof
  import opened ObjectStore

  /** The store a directory's creation leaves. */
  lemma MakeDir(kv: Store, path: string, now: int) returns (kv': Store)
    ensures DirCreated(kv, kv', path, now)
  {
    var kv1 := kv[DirKey(path) := DirRecord(NewDir(path, now))];
    PutDir(kv, kv1, path, DirRecord(NewDir(path, now)), Some(NewDir(path, now)));
    var kv2 := kv1[ChildrenKey(path) := Names([])];
    PutNames(kv1, kv2, path, Names([]), []);
    kv' := kv2;
    if NameOf(path) != "" {
      var names := NamesAt(kv2, ParentOf(path)) + [NameOf(path)];
      kv' := kv2[ChildrenKey(ParentOf(path)) := Names(names)];
      PutNames(kv2, kv', ParentOf(path), Names(names), names);
    }
  }

  /** The store a file's creation leaves. */
  lemma MakeFile(kv: Store, file: FileMeta) returns (kv': Store)
    ensures FileCreated(kv, kv', file)
  {
    var kv1 := kv[FileKey(file.path) := FileRecord(file)];
    PutFile(kv, kv1, file.path, FileRecord(file), Some(file));
    var names := NamesAt(kv1, file.parent) + [file.name];
    kv' := kv1[ChildrenKey(file.parent) := Names(names)];
    PutNames(kv1, kv', file.parent, Names(names), names);
  }

  lemma SmallPaths()
    ensures ValidPath("/a") && ParentOf("/a") == "/" && NameOf("/a") == "a"
    ensures ValidPath("/b") && ParentOf("/b") == "/" && NameOf("/b") == "b"
    ensures ValidPath("/a/b") && ParentOf("/a/b") == "/a" && NameOf("/a/b") == "b"
  {
    LastSlashIs("/a", 0);
    LastSlashIs("/b", 0);
    LastSlashIs("/a/b", 2);
    assert "/a"[1..] == "a" && "/a"[..0] == "" && "/b"[1..] == "b" && "/b"[..0] == "";
    assert "/a/b"[3..] == "b" && "/a/b"[..2] == "/a";
    assert ValidPath("/");
  }

  lemma EmptyStore(kv: Store)
    requires kv == map[]
    ensures WellFormed(kv) && forall q :: DirAt(kv, q).None? && FileAt(kv, q).None?
  {}

  /** A directory under a parent that does not exist: nothing lists it. */
  lemma OrphanDirectory(now: int) returns (kv: Store, kv': Store)
    ensures WellFormed(kv) && DirAt(kv, "/a/b").None?
    ensures DirCreated(kv, kv', "/a/b", now) && !WellFormed(kv')
  {
    kv := map[];
    EmptyStore(kv);
    SmallPaths();
    kv' := MakeDir(kv, "/a/b", now);
    CreateDirKeeps(kv, kv', "/a/b", now);
  }

  /** A tree of the root and one directory in it. */
  lemma OneDirectory(now: int) returns (kv: Store)
    ensures WellFormed(kv) && forall q :: FileAt(kv, q).None? && (DirAt(kv, q).Some? <==> q == "/" || q == "/a")
  {
    SmallPaths();
    var kv0: Store := map[];
    EmptyStore(kv0);
    var kv1 := MakeDir(kv0, "/", now);
    CreateRootKeeps(kv0, kv1, now);
    kv := MakeDir(kv1, "/a", now);
    CreateDirKeeps(kv1, kv, "/a", now);
  }

  /** A file at the path of a directory: it is uploaded all the same, and the path is then both. */
  lemma FileOverDirectory(data: string, contentType: string, s3Key: string, now: int)
    returns (kv: Store, kv': Store, file: FileMeta)
    ensures WellFormed(kv) && FileAt(kv, "/a").None? && DirAt(kv, "/").Some?
    ensures file == FileMeta("a", "/a", "/", contentType, s3Key, |data|, now, now) && FileCreated(kv, kv', file)
    ensures DirAt(kv', "/a").Some? && FileAt(kv', "/a").Some? && !WellFormed(kv')
  {
    SmallPaths();
    kv := OneDirectory(now);
    file := FileMeta("a", "/a", "/", contentType, s3Key, |data|, now, now);
    kv' := MakeFile(kv, file);
    CreateFileKeeps(kv, kv', "/a", file);
  }

  /** A tree with one file in that directory, and its object. */
  lemma OneFile(data: string, contentType: string, s3Key: string, now: int) returns (kv: Store)
    ensures WellFormed(kv) && Sync(kv, map[s3Key := Object(data, contentType)])
    ensures forall q :: (DirAt(kv, q).Some? <==> q == "/" || q == "/a") && (FileAt(kv, q).Some? <==> q == "/a/b")
  {
    SmallPaths();
    var kv0 := OneDirectory(now);
    var objects: Objects := map[];
    var file := FileMeta("b", "/a/b", "/a", contentType, s3Key, |data|, now, now);
    kv := MakeFile(kv0, file);
    CreateFileKeeps(kv0, kv, "/a/b", file);
    UploadSync(kv0, kv, objects, "/a/b", file, data);
    assert objects[s3Key := Object(data, contentType)] == map[s3Key := Object(data, contentType)];
  }

  /** A generated key that is already in use: the tree is in order, but the upload overwrites another file's object. */
  lemma KeyInUse(data: string, other: string, contentType: string, s3Key: string, now: int)
    returns (kv: Store, kv': Store, file: FileMeta)
    ensures var objects := map[s3Key := Object(other, contentType)];
      && WellFormed(kv) && Sync(kv, objects) && FileAt(kv, "/b").None?
      && WellFormed(kv') && !Sync(kv', objects[s3Key := Object(data, contentType)])
    ensures file == FileMeta("b", "/b", "/", contentType, s3Key, |data|, now, now) && FileCreated(kv, kv', file)
  {
    SmallPaths();
    kv := OneFile(other, contentType, s3Key, now);
    file := FileMeta("b", "/b", "/", contentType, s3Key, |data|, now, now);
    kv' := MakeFile(kv, file);
    CreateFileKeeps(kv, kv', "/b", file);
    UploadSync(kv, kv', map[s3Key := Object(other, contentType)], "/b", file, data);
  }
}
