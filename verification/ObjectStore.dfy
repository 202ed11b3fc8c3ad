/** The object store, and what it means for it to be in step with the file records. */
module ObjectStore {
  import opened Paths
  import opened Metadata
  import opened TreeProof

  datatype Object = Object(data: string, contentType: string)

  type Objects = map<string, Object>

  /** The bucket, reached over a network that lets the requests it likes fail. */
  class StorageService {
    var objects: Objects
    /** Which requests fail: those that are refused or never get through. */
    const fails: nat -> bool
    /** How many requests have been made. */
    var requests: nat

    constructor (fails: nat -> bool)
      ensures objects == map[] && this.fails == fails && requests == 0
    {
      this.fails := fails;
      objects, requests := map[], 0;
    }

    /** Has every request since the given one got through? */
    ghost predicate AllWell(since: nat)
      reads this
    {
      forall k :: since <= k < requests ==> !fails(k)
    }

    /** A request that fails stores nothing. */
    method PutObject(key: string, data: string, contentType: string) returns (ok: bool)
      modifies this
      ensures requests == old(requests) + 1 && ok == !fails(old(requests))
      ensures objects == if ok then old(objects)[key := Object(data, contentType)] else old(objects)
    {
      ok := !fails(requests);
      requests := requests + 1;
      if ok { objects := objects[key := Object(data, contentType)]; }
    }

    /** The object's data, unless the request fails or there is no such object. */
    method GetObject(key: string) returns (data: Option<string>)
      modifies this`requests
      ensures requests == old(requests) + 1
      ensures data == if !fails(old(requests)) && key in objects then Some(objects[key].data) else None
    {
      data := if !fails(requests) && key in objects then Some(objects[key].data) else None;
      requests := requests + 1;
    }

    /** A request that fails deletes nothing; deleting an absent key succeeds. */
    method DeleteObject(key: string) returns (ok: bool)
      modifies this
      ensures requests == old(requests) + 1 && ok == !fails(old(requests)) == AllWell(old(requests))
      ensures objects == if ok then old(objects) - {key} else old(objects)
    {
      ok := !fails(requests);
      requests := requests + 1;
      if ok { objects := objects - {key}; }
    }
  }

  // ---------------------------------------------------------------- files and objects in bijection

  ghost predicate Owns(kv: Store, q: string, key: string) {
    FileAt(kv, q).Some? && FileAt(kv, q).value.s3Key == key
  }

  ghost predicate Owned(kv: Store, region: iset<string>, key: string) {
    exists q :: q in region && Owns(kv, q, key)
  }

  /** The object of a live file is stored, with the size and the type on record. */
  ghost predicate Stored(kv: Store, objects: Objects, q: string) {
    FileAt(kv, q).Some? ==>
      var file := FileAt(kv, q).value;
      file.s3Key in objects && |objects[file.s3Key].data| == file.size
        && objects[file.s3Key].contentType == file.contentType
  }

  /** Every live file has its object, every object belongs to a live file, and no two files share one. */
  ghost predicate Sync(kv: Store, objects: Objects) {
    && (forall q :: Stored(kv, objects, q))
    && (forall key :: key in objects ==> (exists q :: Owns(kv, q, key)))
    && (forall p, q, key :: Owns(kv, p, key) && Owns(kv, q, key) ==> p == q)
  }

  /** Exactly the objects owned by files in the region are gone; the others are as they were. */
  ghost predicate ObjectsCleared(kv: Store, objects: Objects, objects': Objects, region: iset<string>) {
    && (forall key :: key in objects' <==> key in objects && !Owned(kv, region, key))
    && (forall key :: key in objects' && key in objects ==> objects'[key] == objects[key])
  }

  /** Clearing a region in both stores keeps them in step. */
  lemma ClearedSync(kv: Store, kv': Store, objects: Objects, objects': Objects, region: iset<string>)
    requires Sync(kv, objects) && Cleared(kv, kv', region) && ObjectsCleared(kv, objects, objects', region)
    ensures Sync(kv', objects')
  {
    forall q ensures Stored(kv', objects', q) {
      assert Stored(kv, objects, q);
      if FileAt(kv', q).Some? {
        var key := FileAt(kv, q).value.s3Key;
        assert Owns(kv, q, key) && !Owned(kv, region, key);
      }
    }
    forall key | key in objects' ensures exists q :: Owns(kv', q, key) {
      var q :| Owns(kv, q, key);
      assert q !in region && Owns(kv', q, key);
    }
    forall p, q, key | Owns(kv', p, key) && Owns(kv', q, key) ensures p == q {
      assert Owns(kv, p, key) && Owns(kv, q, key);
    }
  }

  lemma ObjectsMore(
    kv0: Store, kv1: Store, o0: Objects, o1: Objects, o2: Objects, before: iset<string>, more: iset<string>)
    requires Cleared(kv0, kv1, before) && ObjectsCleared(kv0, o0, o1, before) && ObjectsCleared(kv1, o1, o2, more)
    ensures ObjectsCleared(kv0, o0, o2, before + more)
  {
    forall key ensures Owned(kv0, before + more, key) <==> Owned(kv0, before, key) || Owned(kv1, more, key) {
      if Owned(kv0, before + more, key) && !Owned(kv0, before, key) {
        var q :| q in before + more && Owns(kv0, q, key);
        assert Owns(kv1, q, key);
      }
      if Owned(kv1, more, key) {
        var q :| q in more && Owns(kv1, q, key);
        assert Owns(kv0, q, key);
      }
    }
  }

  /** The only file in the subtree of a file is the file itself. */
  lemma FileOwns(kv: Store, path: string, key: string)
    requires WellFormed(kv) && FileAt(kv, path).Some?
    ensures Owned(kv, Subtree(path), key) <==> Owns(kv, path, key)
  {
    assert LiveOk(kv, path) && ListOk(kv, path);
    NamesNeedDir(kv, path);
    assert path in Subtree(path);
    if Owned(kv, Subtree(path), key) {
      var q :| q in Subtree(path) && Owns(kv, q, key);
      if q != path { NothingBelow(kv, path, q); }
    }
  }

  /** The files in the subtree of a directory are those in the subtrees of its names. */
  lemma DirOwns(kv: Store, path: string, key: string)
    requires WellFormed(kv) && DirAt(kv, path).Some?
    ensures Owned(kv, Subtree(path), key) <==> Owned(kv, Subtrees(path, NamesAt(kv, path)), key)
  {
    assert LiveOk(kv, path) && ListOk(kv, path);
    NotInSubtrees(path, NamesAt(kv, path));
    if Owned(kv, Subtree(path), key) {
      var q :| q in Subtree(path) && Owns(kv, q, key);
      SubtreeSplits(kv, path, q);
    }
  }

  lemma FileObjectCleared(kv: Store, objects: Objects, path: string)
    requires WellFormed(kv) && FileAt(kv, path).Some?
    ensures ObjectsCleared(kv, objects, objects - {FileAt(kv, path).value.s3Key}, Subtree(path))
  {
    forall key ensures Owned(kv, Subtree(path), key) <==> key == FileAt(kv, path).value.s3Key {
      FileOwns(kv, path, key);
    }
  }

  lemma DirObjectsCleared(kv: Store, objects: Objects, objects': Objects, path: string)
    requires WellFormed(kv) && DirAt(kv, path).Some?
    requires ObjectsCleared(kv, objects, objects', Subtrees(path, NamesAt(kv, path)))
    ensures ObjectsCleared(kv, objects, objects', Subtree(path))
  {
    forall key ensures key in objects' <==> key in objects && !Owned(kv, Subtree(path), key) { DirOwns(kv, path, key); }
  }

  /** Storing a new file keeps the stores in step exactly when its key was not in use. */
  lemma UploadSync(kv: Store, kv': Store, objects: Objects, path: string, file: FileMeta, data: string)
    requires Sync(kv, objects) && FileAt(kv, path).None? && file.size == |data|
    requires FilesSet(kv, kv', path, Some(file))
    ensures Sync(kv', objects[file.s3Key := Object(data, file.contentType)]) <==> file.s3Key !in objects
  {
    var objects' := objects[file.s3Key := Object(data, file.contentType)];
    assert Owns(kv', path, file.s3Key);
    if file.s3Key in objects {
      var q :| Owns(kv, q, file.s3Key);
      assert Owns(kv', q, file.s3Key) && q != path;
    } else {
      forall q ensures Stored(kv', objects', q) { assert Stored(kv, objects, q); }
      forall key | key in objects' ensures exists q :: Owns(kv', q, key) {
        if key == file.s3Key {
          assert Owns(kv', path, key);
        } else {
          var q :| Owns(kv, q, key);
          assert Owns(kv', q, key);
        }
      }
      forall p, q, key | Owns(kv', p, key) && Owns(kv', q, key) ensures p == q {
        assert Stored(kv, objects, p) && Stored(kv, objects, q);
        assert p != path ==> Owns(kv, p, key);
        assert q != path ==> Owns(kv, q, key);
      }
    }
  }

  /** Everything under the path is gone from both stores, its name from its parent's list, and nothing else has
      changed. */
  ghost predicate Erased(kv: Store, kv': Store, objects: Objects, objects': Objects, path: string) {
    && Cleared(kv, kv', Subtree(path))
    && NamesCleared(kv, kv', Subtree(path), ParentOf(path), Without(NamesAt(kv, ParentOf(path)), NameOf(path)))
    && ObjectsCleared(kv, objects, objects', Subtree(path))
  }

  // ---------------------------------------------------------------- deletion that stops half-way

  /** Inside the region records and objects may be gone; outside it nothing has changed. */
  ghost predicate PartlyCleared(kv: Store, kv': Store, objects: Objects, objects': Objects, region: iset<string>) {
    && (forall q :: q !in region ==>
      DirAt(kv', q) == DirAt(kv, q) && FileAt(kv', q) == FileAt(kv, q) && NamesAt(kv', q) == NamesAt(kv, q))
    && (forall q :: DirAt(kv', q).Some? ==> DirAt(kv', q) == DirAt(kv, q))
    && (forall q :: FileAt(kv', q).Some? ==> FileAt(kv', q) == FileAt(kv, q))
    && (forall key :: key in objects' ==> key in objects && objects'[key] == objects[key])
    && (forall key :: key in objects && !Owned(kv, region, key) ==> key in objects')
  }

  lemma OwnedWider(kv: Store, kv': Store, region: iset<string>, wider: iset<string>, key: string)
    requires region <= wider && forall q :: FileAt(kv', q).Some? ==> FileAt(kv', q) == FileAt(kv, q)
    ensures Owned(kv', region, key) ==> Owned(kv, wider, key)
  {
    if Owned(kv', region, key) {
      var q :| q in region && Owns(kv', q, key);
      assert q in wider && Owns(kv, q, key);
    }
  }

  lemma PartlyMore(
    kv0: Store, kv1: Store, kv2: Store, o0: Objects, o1: Objects, o2: Objects,
    path: string, names: seq<string>, i: nat)
    requires ValidPath(path) && i < |names| && forall n :: n in names ==> ValidName(n)
    requires Cleared(kv0, kv1, Subtrees(path, names[..i])) && ObjectsCleared(kv0, o0, o1, Subtrees(path, names[..i]))
    requires NamesCleared(kv0, kv1, Subtrees(path, names[..i]), path, names[i..])
    requires PartlyCleared(kv1, kv2, o1, o2, Subtree(Join(path, names[i])))
    ensures PartlyCleared(kv0, kv2, o0, o2, Subtree(path))
  {
    var before, child, all := Subtrees(path, names[..i]), Subtree(Join(path, names[i])), Subtree(path);
    NotInSubtrees(path, names[..i]);
    NotInSubtrees(path, [names[i]]);
    assert [names[i]] == [names[i]][..1];
    SubtreesMore(path, [names[i]], 0);
    assert child <= all && before <= all && path in all;
    PartlyOnceMore(kv0, kv1, kv2, o0, o1, o2, before, child, all, path, names[i..]);
  }

  lemma PartlyOnceMore(
    kv0: Store, kv1: Store, kv2: Store, o0: Objects, o1: Objects, o2: Objects,
    before: iset<string>, child: iset<string>, all: iset<string>, path: string, rest: seq<string>)
    requires Cleared(kv0, kv1, before) && ObjectsCleared(kv0, o0, o1, before)
    requires NamesCleared(kv0, kv1, before, path, rest)
    requires PartlyCleared(kv1, kv2, o1, o2, child)
    requires child <= all && before <= all && path in all
    ensures PartlyCleared(kv0, kv2, o0, o2, all)
  {
    forall key | key in o0 && !Owned(kv0, all, key) ensures key in o2 {
      OwnedWider(kv0, kv0, before, all, key);
      OwnedWider(kv0, kv1, child, all, key);
    }
  }
}
