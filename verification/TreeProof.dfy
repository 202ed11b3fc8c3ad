/** What each change to the flat keys does to the tree they encode. */
module TreeProof {
  import opened Paths
  import opened Metadata
  import opened MetadataService

  // ---------------------------------------------------------------- growing

  ghost predicate SameElsewhere(kv: Store, kv': Store, path: string) {
    forall q :: q != path ==> DirAt(kv', q) == DirAt(kv, q) && FileAt(kv', q) == FileAt(kv, q)
  }

  /** One live path more, with its name at the end of its parent's list. */
  ghost predicate Added(kv: Store, kv': Store, path: string) {
    && SameElsewhere(kv, kv', path)
    && NamesSet(kv, kv', ParentOf(path), NamesAt(kv, ParentOf(path)) + [NameOf(path)])
  }

  lemma NotListed(kv: Store, path: string)
    requires WellFormed(kv) && ValidPath(path) && path != "/" && !Live(kv, path)
    ensures NameOf(path) !in NamesAt(kv, ParentOf(path)) && NamesAt(kv, path) == []
  {
    assert ListOk(kv, ParentOf(path));
    NamesNeedDir(kv, path);
  }

  lemma NamesNeedDir(kv: Store, q: string)
    requires ListOk(kv, q)
    ensures NamesAt(kv, q) != [] ==> DirAt(kv, q).Some?
  {
    if NamesAt(kv, q) != [] { assert NamesAt(kv, q)[0] in NamesAt(kv, q); }
  }

  lemma AddedLists(kv: Store, kv': Store, path: string, q: string)
    requires WellFormed(kv) && ValidPath(path) && path != "/" && !Live(kv, path) && Live(kv', path)
    requires Added(kv, kv', path) && DirAt(kv, ParentOf(path)).Some?
    ensures ListOk(kv', q)
  {
    assert ListOk(kv, q);
    NotListed(kv, path);
    var names := NamesAt(kv', q);
    assert Distinct(names);
    forall name | name in names
      ensures DirAt(kv', q).Some? && ValidName(name) && Live(kv', Join(q, name))
    {
      assert q != path;
      if q == ParentOf(path) && name == NameOf(path) {
        assert Join(q, name) == path;
      } else {
        assert name in NamesAt(kv, q) && Live(kv, Join(q, name));
      }
    }
  }

  lemma AddedLive(kv: Store, kv': Store, path: string, q: string)
    requires WellFormed(kv) && ValidPath(path) && path != "/" && !Live(kv, path)
    requires Added(kv, kv', path) && DirAt(kv, ParentOf(path)).Some?
    requires LiveOk(kv', path)
    ensures LiveOk(kv', q)
  {
    assert LiveOk(kv, q);
  }

  lemma AddedKeeps(kv: Store, kv': Store, path: string)
    requires WellFormed(kv) && ValidPath(path) && path != "/" && !Live(kv, path) && Live(kv', path)
    requires Added(kv, kv', path) && DirAt(kv, ParentOf(path)).Some?
    requires LiveOk(kv', path)
    ensures WellFormed(kv')
  {
    forall q ensures LiveOk(kv', q) { AddedLive(kv, kv', path, q); }
    forall q ensures ListOk(kv', q) { AddedLists(kv, kv', path, q); }
  }

  /** Creating a directory that does not exist keeps the tree exactly when its parent is a directory and no file has
      its path. */
  lemma CreateDirKeeps(kv: Store, kv': Store, path: string, now: int)
    requires WellFormed(kv) && ValidPath(path) && path != "/" && DirAt(kv, path).None?
    requires DirCreated(kv, kv', path, now)
    ensures WellFormed(kv') <==> DirAt(kv, ParentOf(path)).Some? && FileAt(kv, path).None?
  {
    if DirAt(kv, ParentOf(path)).Some? && FileAt(kv, path).None? {
      NotListed(kv, path);
      GrownIsSet(kv, kv', path);
      assert LiveOk(kv', path);
      AddedKeeps(kv, kv', path);
    }
    if WellFormed(kv') { assert LiveOk(kv', path); }
  }

  lemma GrownIsSet(kv: Store, kv': Store, path: string)
    requires NamesGrown(kv, kv', path) && ValidPath(path) && path != "/" && NamesAt(kv, path) == []
    ensures NamesSet(kv, kv', ParentOf(path), NamesAt(kv, ParentOf(path)) + [NameOf(path)])
  {
    forall q
      ensures NamesAt(kv', q) ==
        if q == ParentOf(path) then NamesAt(kv, ParentOf(path)) + [NameOf(path)] else NamesAt(kv, q)
    {
      assert NamesAt(kv, q) + [] == NamesAt(kv, q);
    }
  }

  /** Creating a file that does not exist keeps the tree exactly when its parent is a directory and no directory has
      its path. */
  lemma CreateFileKeeps(kv: Store, kv': Store, path: string, file: FileMeta)
    requires WellFormed(kv) && ValidPath(path) && path != "/" && FileAt(kv, path).None?
    requires RecordOk(path, file.path, file.name, file.parent) && FileCreated(kv, kv', file)
    ensures WellFormed(kv') <==> DirAt(kv, ParentOf(path)).Some? && DirAt(kv, path).None?
  {
    if DirAt(kv, ParentOf(path)).Some? && DirAt(kv, path).None? {
      assert LiveOk(kv', path);
      AddedKeeps(kv, kv', path);
    }
    if WellFormed(kv') { assert LiveOk(kv', path); }
  }

  lemma NothingUnderNothing(kv: Store, q: string)
    requires WellFormed(kv) && DirAt(kv, "/").None?
    ensures !Live(kv, q)
    decreases |q|
  {
    assert LiveOk(kv, q);
    if Live(kv, q) {
      assert q != "/";
      NothingUnderNothing(kv, ParentOf(q));
    }
  }

  lemma CreateRootKeeps(kv: Store, kv': Store, now: int)
    requires WellFormed(kv) && DirAt(kv, "/").None?
    requires DirCreated(kv, kv', "/", now)
    ensures WellFormed(kv')
  {
    forall q ensures LiveOk(kv', q) { NothingUnderNothing(kv, q); }
    forall q ensures ListOk(kv', q) {
      assert ListOk(kv, q);
      NothingUnderNothing(kv, q);
      NamesNeedDir(kv, q);
    }
  }

  // ---------------------------------------------------------------- shrinking

  /** One path without names gone, and its name erased from its parent's list. */
  ghost predicate Dropped(kv: Store, kv': Store, path: string) {
    && SameElsewhere(kv, kv', path) && !Live(kv', path)
    && NamesSet(kv, kv', ParentOf(path), Without(NamesAt(kv, ParentOf(path)), NameOf(path)))
  }

  lemma DroppedLive(kv: Store, kv': Store, path: string, q: string)
    requires WellFormed(kv) && ValidPath(path) && path != "/" && NamesAt(kv, path) == [] && Dropped(kv, kv', path)
    ensures LiveOk(kv', q)
  {
    assert LiveOk(kv, q);
    if Live(kv', q) && q != "/" {
      assert q != path;
      assert q == Join(ParentOf(q), NameOf(q)) && path == Join(ParentOf(path), NameOf(path));
      assert ParentOf(q) != path;
    }
  }

  lemma DroppedLists(kv: Store, kv': Store, path: string, q: string)
    requires WellFormed(kv) && ValidPath(path) && path != "/" && NamesAt(kv, path) == [] && Dropped(kv, kv', path)
    ensures ListOk(kv', q)
  {
    assert ListOk(kv, q);
    ValidNotEmpty(ParentOf(path));
    WithoutDistinct(NamesAt(kv, q), NameOf(path));
    assert Distinct(NamesAt(kv', q));
    forall name | name in NamesAt(kv', q)
      ensures DirAt(kv', q).Some? && ValidName(name) && Live(kv', Join(q, name))
    {
      assert name in NamesAt(kv, q);
      assert LiveOk(kv, q);
      ValidNotEmpty(q);
      SplitJoin(q, name);
      assert q != path;
      assert Join(q, name) != path;
    }
  }

  lemma DroppedKeeps(kv: Store, kv': Store, path: string)
    requires WellFormed(kv) && ValidPath(path) && path != "/" && NamesAt(kv, path) == [] && Dropped(kv, kv', path)
    ensures WellFormed(kv')
  {
    forall q ensures LiveOk(kv', q) { DroppedLive(kv, kv', path, q); }
    forall q ensures ListOk(kv', q) { DroppedLists(kv, kv', path, q); }
  }

  /** Whatever is live below a directory lies under one of the names the directory lists. */
  lemma {:induction false} Descend(kv: Store, path: string, q: string) returns (name: string)
    requires WellFormed(kv) && Live(kv, q) && Under(path, q) && q != path
    ensures name in NamesAt(kv, path) && Under(Join(path, name), q)
    decreases |q|
  {
    assert LiveOk(kv, q);
    var parent := ParentOf(q);
    if parent == path {
      name := NameOf(q);
    } else {
      name := Descend(kv, path, parent);
    }
  }

  // ---------------------------------------------------------------- clearing whole regions

  ghost function Subtree(path: string): iset<string> {
    iset q | Under(path, q)
  }

  ghost function Subtrees(path: string, names: seq<string>): iset<string> {
    iset q, name | name in names && Under(Join(path, name), q) :: q
  }

  /** No record is left in the region, and every record outside it is as it was. */
  ghost predicate Cleared(kv: Store, kv': Store, region: iset<string>) {
    && (forall q :: DirAt(kv', q) == if q in region then None else DirAt(kv, q))
    && (forall q :: FileAt(kv', q) == if q in region then None else FileAt(kv, q))
  }

  /** The lists in the region are empty, the one at top is as given, and every other is as it was. */
  ghost predicate NamesCleared(kv: Store, kv': Store, region: iset<string>, top: string, names: seq<string>) {
    forall q :: NamesAt(kv', q) == if q in region then [] else if q == top then names else NamesAt(kv, q)
  }

  lemma SubtreesMore(path: string, names: seq<string>, i: nat)
    requires i < |names|
    ensures Subtrees(path, names[..i + 1]) == Subtrees(path, names[..i]) + Subtree(Join(path, names[i]))
  {
    assert names[..i + 1] == names[..i] + [names[i]];
  }

  /** Clearing one more child extends the region by the child's subtree. */
  lemma ClearedMore(kv0: Store, kv1: Store, kv2: Store, path: string, names: seq<string>, i: nat)
    requires ValidPath(path) && i < |names| && Distinct(names) && forall n :: n in names ==> ValidName(n)
    requires Cleared(kv0, kv1, Subtrees(path, names[..i]))
    requires NamesCleared(kv0, kv1, Subtrees(path, names[..i]), path, names[i..])
    requires Cleared(kv1, kv2, Subtree(Join(path, names[i])))
    requires NamesCleared(kv1, kv2, Subtree(Join(path, names[i])), path, Without(NamesAt(kv1, path), names[i]))
    ensures Cleared(kv0, kv2, Subtrees(path, names[..i + 1]))
    ensures NamesCleared(kv0, kv2, Subtrees(path, names[..i + 1]), path, names[i + 1..])
  {
    SubtreesMore(path, names, i);
    NotInSubtrees(path, names[..i]);
    ParentNotUnder(path, names[i]);
    var before, child := Subtrees(path, names[..i]), Subtree(Join(path, names[i]));
    forall q
      ensures NamesAt(kv2, q) ==
        if q in before + child then [] else if q == path then names[i + 1..] else NamesAt(kv0, q)
    {
      NamesMore(kv0, kv1, kv2, path, names, i, before, child, q);
    }
    RecordsMore(kv0, kv1, kv2, before, child);
  }

  lemma RecordsMore(kv0: Store, kv1: Store, kv2: Store, before: iset<string>, child: iset<string>)
    requires Cleared(kv0, kv1, before) && Cleared(kv1, kv2, child)
    ensures Cleared(kv0, kv2, before + child)
  {}

  lemma NamesMore(
    kv0: Store, kv1: Store, kv2: Store, path: string, names: seq<string>, i: nat,
    before: iset<string>, child: iset<string>, q: string)
    requires i < |names| && Distinct(names)
    requires NamesCleared(kv0, kv1, before, path, names[i..])
    requires NamesCleared(kv1, kv2, child, path, Without(NamesAt(kv1, path), names[i]))
    requires path !in before && path !in child
    ensures NamesAt(kv2, q) == if q in before + child then [] else if q == path then names[i + 1..] else NamesAt(kv0, q)
  {
    if q == path {
      assert NamesAt(kv1, path) == names[i..];
      WithoutFirst(names[i..]);
      assert names[i..][1..] == names[i + 1..];
    }
  }

  lemma NotInSubtrees(path: string, names: seq<string>)
    requires ValidPath(path) && forall n :: n in names ==> ValidName(n)
    ensures path !in Subtrees(path, names)
    ensures Subtrees(path, names) <= Subtree(path)
  {
    forall n | n in names ensures !Under(Join(path, n), path) { ParentNotUnder(path, n); }
    forall n, q | n in names && Under(Join(path, n), q) ensures Under(path, q) {
      ChildUnder(path, n);
      UnderTrans(path, Join(path, n), q);
    }
  }

  /** The subtree of a directory is the directory and the subtrees of its names, as far as anything is stored. */
  lemma SubtreeSplits(kv: Store, path: string, q: string)
    requires WellFormed(kv) && Under(path, q) && q != path && (Live(kv, q) || NamesAt(kv, q) != [])
    ensures q in Subtrees(path, NamesAt(kv, path))
  {
    assert ListOk(kv, q);
    NamesNeedDir(kv, q);
    var name := Descend(kv, path, q);
  }

  lemma NothingBelow(kv: Store, path: string, q: string)
    requires WellFormed(kv) && Under(path, q) && q != path && NamesAt(kv, path) == []
    ensures !Live(kv, q) && NamesAt(kv, q) == []
  {
    if Live(kv, q) || NamesAt(kv, q) != [] { SubtreeSplits(kv, path, q); }
  }

  /** Deleting a file clears its subtree: nothing lies under a file. */
  lemma FileCleared(kv: Store, kv': Store, path: string)
    requires WellFormed(kv) && FileAt(kv, path).Some?
    requires FilesSet(kv, kv', path, None) && SameDirs(kv, kv')
    requires NamesSet(kv, kv', ParentOf(path), Without(NamesAt(kv, ParentOf(path)), NameOf(path)))
    ensures Cleared(kv, kv', Subtree(path)) && WellFormed(kv')
    ensures NamesCleared(kv, kv', Subtree(path), ParentOf(path), Without(NamesAt(kv, ParentOf(path)), NameOf(path)))
  {
    assert LiveOk(kv, path) && ListOk(kv, path);
    NamesNeedDir(kv, path);
    DroppedKeeps(kv, kv', path);
    forall q | Under(path, q) && q != path ensures !Live(kv, q) && NamesAt(kv, q) == [] { NothingBelow(kv, path, q); }
    ParentNotUnder(ParentOf(path), NameOf(path));
  }

  /** Once the subtrees of its names are cleared, deleting the directory itself clears its own subtree. */
  lemma DirCleared(kv0: Store, kv1: Store, kv2: Store, path: string)
    requires WellFormed(kv0) && WellFormed(kv1) && DirAt(kv0, path).Some?
    requires Cleared(kv0, kv1, Subtrees(path, NamesAt(kv0, path)))
    requires NamesCleared(kv0, kv1, Subtrees(path, NamesAt(kv0, path)), path, [])
    requires DirsSet(kv1, kv2, path, None) && SameFiles(kv1, kv2) && NamesPruned(kv1, kv2, path)
    ensures Cleared(kv0, kv2, Subtree(path))
    ensures NamesCleared(kv0, kv2, Subtree(path), ParentOf(path), Without(NamesAt(kv0, ParentOf(path)), NameOf(path)))
  {
    assert LiveOk(kv0, path) && ListOk(kv0, path);
    var below := Subtrees(path, NamesAt(kv0, path));
    NotInSubtrees(path, NamesAt(kv0, path));
    ParentOutside(path);
    forall q
      ensures DirAt(kv2, q) == if q in Subtree(path) then None else DirAt(kv0, q)
    {
      Blank(kv0, path, below, q);
    }
    forall q
      ensures FileAt(kv2, q) == if q in Subtree(path) then None else FileAt(kv0, q)
    {
      Blank(kv0, path, below, q);
      assert FileAt(kv2, q) == FileAt(kv1, q);
    }
    forall q
      ensures NamesAt(kv2, q) == if q in Subtree(path) then []
        else if q == ParentOf(path) then Without(NamesAt(kv0, ParentOf(path)), NameOf(path)) else NamesAt(kv0, q)
    {
      Blank(kv0, path, below, q);
      DirClearedNames(kv0, kv1, kv2, path, below, q);
    }
  }

  /** Nothing is stored in the subtree outside the directory itself and the subtrees of its names. */
  lemma Blank(kv: Store, path: string, below: iset<string>, q: string)
    requires WellFormed(kv) && DirAt(kv, path).Some? && below == Subtrees(path, NamesAt(kv, path))
    ensures q in Subtree(path) && q != path && q !in below ==>
      DirAt(kv, q).None? && FileAt(kv, q).None? && NamesAt(kv, q) == []
    ensures q == path ==> FileAt(kv, q).None?
  {
    assert LiveOk(kv, path);
    if q in Subtree(path) && q != path && (Live(kv, q) || NamesAt(kv, q) != []) { SubtreeSplits(kv, path, q); }
  }

  lemma DirClearedNames(kv0: Store, kv1: Store, kv2: Store, path: string, below: iset<string>, q: string)
    requires NamesCleared(kv0, kv1, below, path, []) && NamesPruned(kv1, kv2, path)
    requires below <= Subtree(path) && path !in below && path in Subtree(path)
    requires path != "/" ==> ParentOf(path) !in Subtree(path)
    requires q in Subtree(path) && q != path && q !in below ==> NamesAt(kv0, q) == []
    ensures NamesAt(kv2, q) == if q in Subtree(path) then []
      else if q == ParentOf(path) then Without(NamesAt(kv0, ParentOf(path)), NameOf(path)) else NamesAt(kv0, q)
  {
    assert NamesAt(kv1, q) == if q in below then [] else if q == path then [] else NamesAt(kv0, q);
    assert NamesAt(kv2, q) ==
      if q == path then [] else if q == ParentOf(path) then Without(NamesAt(kv1, q), NameOf(path)) else NamesAt(kv1, q);
  }

  lemma ParentOutside(path: string)
    requires ValidPath(path)
    ensures path != "/" ==> ParentOf(path) !in Subtree(path)
    ensures path in Subtree(path)
  {
    if path != "/" { ParentNotUnder(ParentOf(path), NameOf(path)); }
  }

  /** Deleting a directory without names keeps the tree well formed. */
  lemma DeleteDirKeeps(kv: Store, kv': Store, path: string)
    requires WellFormed(kv) && DirAt(kv, path).Some? && NamesAt(kv, path) == []
    requires DirsSet(kv, kv', path, None) && SameFiles(kv, kv') && NamesPruned(kv, kv', path)
    ensures WellFormed(kv')
  {
    assert LiveOk(kv, path);
    ParentOutside(path);
    if path == "/" {
      forall q ensures LiveOk(kv', q) && ListOk(kv', q) { RootGone(kv, kv', q); }
    } else {
      assert Dropped(kv, kv', path);
      DroppedKeeps(kv, kv', path);
    }
  }

  lemma RootGone(kv: Store, kv': Store, q: string)
    requires WellFormed(kv) && NamesAt(kv, "/") == []
    requires DirsSet(kv, kv', "/", None) && SameFiles(kv, kv') && NamesPruned(kv, kv', "/")
    ensures LiveOk(kv', q) && ListOk(kv', q)
  {
    assert LiveOk(kv, q) && ListOk(kv, q) && LiveOk(kv, "/");
    NamesNeedDir(kv, q);
    if Live(kv, q) && q != "/" {
      ValidUnderRoot(q);
      NothingBelow(kv, "/", q);
    }
  }
}
