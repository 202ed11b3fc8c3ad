/** Path strings as the file service splits and joins them, and what it means for one path to lie under another. */
module Paths {

  /** The position of the last slash, or -1. */
  function LastSlash(path: string): (i: int)
    ensures -1 <= i < |path|
    ensures i >= 0 ==> path[i] == '/'
    ensures forall k :: i < k < |path| ==> path[k] != '/'
  {
    if path == "" then -1
    else if path[|path| - 1] == '/' then |path| - 1
    else LastSlash(path[..|path| - 1])
  }

  /** What follows the last slash; the whole path if there is none. */
  function NameOf(path: string): string {
    path[LastSlash(path) + 1..]
  }

  /** What precedes the last slash; the whole path if there is none; the root for an empty result. */
  function ParentOf(path: string): string {
    var i := LastSlash(path);
    var parent := if i < 0 then path else path[..i];
    if parent == "" then "/" else parent
  }

  function Join(parent: string, name: string): string {
    if parent == "/" then "/" + name else parent + "/" + name
  }

  predicate ValidName(name: string) {
    name != "" && '/' !in name
  }

  /** The root, or a valid path extended by a valid name. */
  predicate ValidPath(path: string)
    decreases |path|
  {
    path == "/"
    || (ValidName(NameOf(path)) && path == Join(ParentOf(path), NameOf(path))
        && |ParentOf(path)| < |path| && ValidPath(ParentOf(path)))
  }

  lemma LastSlashIs(path: string, i: nat)
    requires i < |path| && path[i] == '/' && forall k :: i < k < |path| ==> path[k] != '/'
    ensures LastSlash(path) == i
  {}

  /** Splitting undoes joining. */
  lemma SplitJoin(parent: string, name: string)
    requires parent != "" && ValidName(name)
    ensures NameOf(Join(parent, name)) == name && ParentOf(Join(parent, name)) == parent
  {
    var path := Join(parent, name);
    var i := |path| - |name| - 1;
    assert path[i + 1..] == name;
    LastSlashIs(path, i);
    assert path[..i] == if parent == "/" then "" else parent;
  }

  /** A path without a slash is its own name and its own parent. */
  lemma NoSlash(path: string)
    requires '/' !in path && path != ""
    ensures NameOf(path) == path && ParentOf(path) == path
  {
    assert LastSlash(path) == -1;
  }

  lemma JoinValid(parent: string, name: string)
    requires ValidPath(parent) && ValidName(name)
    ensures ValidPath(Join(parent, name)) && |Join(parent, name)| > |parent| && Join(parent, name) != "/"
  {
    ValidNotEmpty(parent);
    SplitJoin(parent, name);
  }

  lemma ValidNotEmpty(path: string)
    requires ValidPath(path)
    ensures path != ""
  {
    if path != "/" { assert |ParentOf(path)| < |path|; }
  }

  /** q is p, or the parent of q lies under p. */
  predicate Under(p: string, q: string)
    decreases |q|
  {
    q == p || (q != "/" && ValidPath(q) && Under(p, ParentOf(q)))
  }

  lemma {:induction false} UnderLonger(p: string, q: string)
    requires Under(p, q)
    ensures |p| <= |q|
    decreases |q|
  {
    if q != p { UnderLonger(p, ParentOf(q)); }
  }

  lemma {:induction false} UnderTrans(p: string, q: string, r: string)
    requires Under(p, q) && Under(q, r)
    ensures Under(p, r)
    decreases |r|
  {
    if r != q { UnderTrans(p, q, ParentOf(r)); }
  }

  lemma ParentNotUnder(parent: string, name: string)
    requires ValidPath(parent) && ValidName(name)
    ensures !Under(Join(parent, name), parent)
  {
    JoinValid(parent, name);
    if Under(Join(parent, name), parent) { UnderLonger(Join(parent, name), parent); }
  }

  lemma ChildUnder(parent: string, name: string)
    requires ValidPath(parent) && ValidName(name)
    ensures Under(parent, Join(parent, name))
  {
    ValidNotEmpty(parent);
    JoinValid(parent, name);
    SplitJoin(parent, name);
    assert Under(parent, parent);
  }

  lemma {:induction false} ValidUnderRoot(q: string)
    requires ValidPath(q)
    ensures Under("/", q) && "/" <= q
    decreases |q|
  {
    ValidNotEmpty(q);
    if q != "/" {
      ValidUnderRoot(ParentOf(q));
      assert q[0] == Join(ParentOf(q), NameOf(q))[0];
    }
  }

  /** Lying under is what the strings say: q starts with p and a slash. */
  lemma {:induction false} UnderIsPrefix(p: string, q: string)
    requires ValidPath(p) && ValidPath(q)
    ensures Under(p, q) <==> q == p || (if p == "/" then "/" else p + "/") <= q
    decreases |q|
  {
    ValidNotEmpty(q);
    ValidNotEmpty(p);
    if p == "/" {
      ValidUnderRoot(q);
    } else if q != p && q != "/" {
      ValidNotEmpty(ParentOf(q));
      UnderIsPrefix(p, ParentOf(q));
      if p + "/" <= q { PrefixDown(p, ParentOf(q), NameOf(q)); }
      if p == ParentOf(q) || p + "/" <= ParentOf(q) { PrefixUp(p, ParentOf(q), NameOf(q)); }
    }
  }

  lemma PrefixUp(p: string, parent: string, name: string)
    requires p != "/" && p != "" && (p == parent || p + "/" <= parent)
    ensures p + "/" <= Join(parent, name)
  {
    var q := Join(parent, name);
    if p == parent {
      assert q[..|p| + 1] == p + "/";
    } else {
      assert q[..|p| + 1] == parent[..|p| + 1];
    }
  }

  lemma PrefixDown(p: string, parent: string, name: string)
    requires p != "/" && p != "" && parent != "" && ValidName(name) && p + "/" <= Join(parent, name)
    ensures p == parent || p + "/" <= parent
  {
    var q := Join(parent, name);
    var i := |q| - |name|;
    assert q[i..] == name;
    assert q[..|p| + 1] == p + "/";
    assert q[|p|] == '/';
    assert forall k :: i <= k < |q| ==> q[k] == name[k - i] && name[k - i] in name;
    if parent != "/" {
      assert q[..|parent|] == parent;
      assert p == q[..|p|];
      if |p| < |parent| {
        assert parent[..|p| + 1] == q[..|p| + 1];
      }
    }
  }
}
