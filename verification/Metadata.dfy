/** The directory tree as the metadata service keeps it: three families of keys in one flat store. */
module Metadata {
  import opened Paths

  datatype Option<T> = None | Some(value: T)

  datatype DirMeta = DirMeta(name: string, path: string, parent: string, createdAt: int, modifiedAt: int)

  datatype FileMeta = FileMeta(
    name: string, path: string, parent: string, contentType: string, s3Key: string,
    size: nat, createdAt: int, modifiedAt: int)

  /** A stored value: the empty string, which also stands for a deleted key, or one of three kinds of record. */
  datatype Value = NoValue | DirRecord(dir: DirMeta) | FileRecord(file: FileMeta) | Names(names: seq<string>)

  type Store = map<string, Value>

  function Read(kv: Store, key: string): Value {
    if key in kv then kv[key] else NoValue
  }

  function DirKey(path: string): string { "dir:" + path }

  function FileKey(path: string): string { "file:" + path }

  function ChildrenKey(path: string): string { "children:" + path }

  // ---------------------------------------------------------------- the tree behind the keys

  function DirAt(kv: Store, path: string): Option<DirMeta> {
    var v := Read(kv, DirKey(path));
    if v.DirRecord? then Some(v.dir) else None
  }

  function FileAt(kv: Store, path: string): Option<FileMeta> {
    var v := Read(kv, FileKey(path));
    if v.FileRecord? then Some(v.file) else None
  }

  function NamesAt(kv: Store, path: string): seq<string> {
    var v := Read(kv, ChildrenKey(path));
    if v.Names? then v.names else []
  }

  /** The key families are apart, and each tells paths apart. */
  lemma KeysApart(p: string, q: string)
    ensures DirKey(p) != FileKey(q) && DirKey(p) != ChildrenKey(q) && FileKey(p) != ChildrenKey(q)
    ensures (DirKey(p) == DirKey(q) || FileKey(p) == FileKey(q) || ChildrenKey(p) == ChildrenKey(q)) ==> p == q
  {
    assert DirKey(p)[0] == 'd' && FileKey(p)[0] == 'f' && FileKey(q)[0] == 'f' && ChildrenKey(q)[0] == 'c';
    assert DirKey(p)[4..] == p && DirKey(q)[4..] == q;
    assert FileKey(p)[5..] == p && FileKey(q)[5..] == q;
    assert ChildrenKey(p)[9..] == p && ChildrenKey(q)[9..] == q;
  }

  ghost predicate DirsSet(kv: Store, kv': Store, path: string, now: Option<DirMeta>) {
    forall q :: DirAt(kv', q) == if q == path then now else DirAt(kv, q)
  }

  ghost predicate FilesSet(kv: Store, kv': Store, path: string, now: Option<FileMeta>) {
    forall q :: FileAt(kv', q) == if q == path then now else FileAt(kv, q)
  }

  ghost predicate NamesSet(kv: Store, kv': Store, path: string, now: seq<string>) {
    forall q :: NamesAt(kv', q) == if q == path then now else NamesAt(kv, q)
  }

  ghost predicate SameDirs(kv: Store, kv': Store) {
    forall q :: DirAt(kv', q) == DirAt(kv, q)
  }

  ghost predicate SameFiles(kv: Store, kv': Store) {
    forall q :: FileAt(kv', q) == FileAt(kv, q)
  }

  ghost predicate SameNames(kv: Store, kv': Store) {
    forall q :: NamesAt(kv', q) == NamesAt(kv, q)
  }

  lemma PutDir(kv: Store, kv': Store, path: string, v: Value, now: Option<DirMeta>)
    requires kv' == kv[DirKey(path) := v] && (v.NoValue? || v.DirRecord?)
    requires now == if v.DirRecord? then Some(v.dir) else None
    ensures DirsSet(kv, kv', path, now) && SameFiles(kv, kv') && SameNames(kv, kv')
  {
    forall q ensures DirAt(kv', q) == if q == path then now else DirAt(kv, q) { KeysApart(q, path); }
    forall q ensures FileAt(kv', q) == FileAt(kv, q) { KeysApart(q, path); KeysApart(path, q); }
    forall q ensures NamesAt(kv', q) == NamesAt(kv, q) { KeysApart(q, path); KeysApart(path, q); }
  }

  lemma PutFile(kv: Store, kv': Store, path: string, v: Value, now: Option<FileMeta>)
    requires kv' == kv[FileKey(path) := v] && (v.NoValue? || v.FileRecord?)
    requires now == if v.FileRecord? then Some(v.file) else None
    ensures FilesSet(kv, kv', path, now) && SameDirs(kv, kv') && SameNames(kv, kv')
  {
    forall q ensures FileAt(kv', q) == if q == path then now else FileAt(kv, q) { KeysApart(q, path); }
    forall q ensures DirAt(kv', q) == DirAt(kv, q) { KeysApart(q, path); KeysApart(path, q); }
    forall q ensures NamesAt(kv', q) == NamesAt(kv, q) { KeysApart(q, path); KeysApart(path, q); }
  }

  lemma PutNames(kv: Store, kv': Store, path: string, v: Value, now: seq<string>)
    requires kv' == kv[ChildrenKey(path) := v] && (v.NoValue? || v.Names?)
    requires now == if v.Names? then v.names else []
    ensures NamesSet(kv, kv', path, now) && SameDirs(kv, kv') && SameFiles(kv, kv')
  {
    forall q ensures NamesAt(kv', q) == if q == path then now else NamesAt(kv, q) { KeysApart(q, path); }
    forall q ensures DirAt(kv', q) == DirAt(kv, q) { KeysApart(q, path); KeysApart(path, q); }
    forall q ensures FileAt(kv', q) == FileAt(kv, q) { KeysApart(q, path); KeysApart(path, q); }
  }

  // ---------------------------------------------------------------- lists of names

  ghost predicate Distinct(names: seq<string>) {
    forall i, j :: 0 <= i < j < |names| ==> names[i] != names[j]
  }

  /** All occurrences of a name erased. */
  function Without(names: seq<string>, name: string): (rest: seq<string>)
    ensures name !in rest
    ensures forall x :: x in rest <==> x in names && x != name
    ensures |rest| <= |names|
  {
    if names == [] then []
    else
      var rest := Without(names[..|names| - 1], name);
      if names[|names| - 1] == name then rest else rest + [names[|names| - 1]]
  }

  lemma {:induction false} WithoutDistinct(names: seq<string>, name: string)
    requires Distinct(names)
    ensures Distinct(Without(names, name))
  {
    if names != [] {
      WithoutDistinct(names[..|names| - 1], name);
      assert names[|names| - 1] !in names[..|names| - 1];
    }
  }

  lemma {:induction false} WithoutAbsent(names: seq<string>, name: string)
    requires name !in names
    ensures Without(names, name) == names
  {
    if names != [] { WithoutAbsent(names[..|names| - 1], name); }
  }

  /** Erasing the first of distinct names leaves the others. */
  lemma {:induction false} WithoutFirst(names: seq<string>)
    requires names != [] && Distinct(names)
    ensures Without(names, names[0]) == names[1..]
  {
    if |names| > 1 {
      var front := names[..|names| - 1];
      WithoutFirst(front);
      assert front[1..] + [names[|names| - 1]] == names[1..];
    }
  }

  // ---------------------------------------------------------------- well-formed trees

  ghost predicate Live(kv: Store, q: string) {
    DirAt(kv, q).Some? || FileAt(kv, q).Some?
  }

  /** A live path is valid, is either a directory or a file, and is listed by its live parent. */
  ghost predicate LiveOk(kv: Store, q: string) {
    Live(kv, q) ==>
      && ValidPath(q)
      && (DirAt(kv, q).Some? ==>
        FileAt(kv, q).None? && RecordOk(q, DirAt(kv, q).value.path, DirAt(kv, q).value.name, DirAt(kv, q).value.parent))
      && (FileAt(kv, q).Some? ==>
        q != "/" && RecordOk(q, FileAt(kv, q).value.path, FileAt(kv, q).value.name, FileAt(kv, q).value.parent))
      && (q != "/" ==> DirAt(kv, ParentOf(q)).Some? && NameOf(q) in NamesAt(kv, ParentOf(q)))
  }

  /** A record names the path it is stored at. */
  ghost predicate RecordOk(q: string, path: string, name: string, parent: string) {
    path == q && name == NameOf(q) && parent == ParentOf(q)
  }

  /** Only live directories have names, each once, and each naming something live. */
  ghost predicate ListOk(kv: Store, q: string) {
    && Distinct(NamesAt(kv, q))
    && forall name :: name in NamesAt(kv, q) ==> DirAt(kv, q).Some? && ValidName(name) && Live(kv, Join(q, name))
  }

  ghost predicate WellFormed(kv: Store) {
    (forall q :: LiveOk(kv, q)) && (forall q :: ListOk(kv, q))
  }
}
