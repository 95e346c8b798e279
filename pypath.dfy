/**
 * POSIX path handling as the modules use it: `os.path.join` of two
 * components, `os.path.basename`, `os.path.splitext`, and the `stem` of a
 * `pathlib.Path`.
 */
module PyPath {
  import opened PyStr

  /** The index just after the last '/' of `p`, or 0 when `p` has none. */
  function NameStart(p: string): (i: nat)
    ensures i <= |p|
    ensures i > 0 ==> p[i - 1] == '/'
    ensures forall k :: i <= k < |p| ==> p[k] != '/'
  {
    if p == [] then 0
    else if p[|p| - 1] == '/' then |p|
    else NameStart(p[..|p| - 1])
  }

  /** `os.path.basename(p)`: what follows the last '/'. */
  function Basename(p: string): (name: string)
    ensures '/' !in name
    ensures EndsWith(p, name)
  {
    p[NameStart(p)..]
  }

  /** `os.path.join(dir, name)`: an absolute `name` wins; otherwise one '/' separates the two. */
  function Join(dir: string, name: string): string {
    if StartsWith(name, "/") then name
    else if dir == [] || EndsWith(dir, "/") then dir + name
    else dir + "/" + name
  }

  lemma {:induction false} NameStartAfterSlash(pre: string, name: string)
    requires '/' !in name
    requires pre == [] || pre[|pre| - 1] == '/'
    ensures NameStart(pre + name) == |pre|
  {
    if name != [] {
      var init := name[..|name| - 1];
      NameStartAfterSlash(pre, init);
      assert (pre + name)[..|pre + name| - 1] == pre + init;
    } else {
      assert pre + name == pre;
    }
  }

  /**
   * Joining a folder with a plain file name puts the file in that folder:
   * the path is the folder, at most one '/', then the name, and its basename
   * is the name again.
   */
  lemma BasenameOfJoin(dir: string, name: string)
    requires name != [] && '/' !in name
    ensures Basename(Join(dir, name)) == name
    ensures Join(dir, name) == dir + name || Join(dir, name) == dir + "/" + name
  {
    assert name[0] != '/';
    var pre := if dir == [] || EndsWith(dir, "/") then dir else dir + "/";
    assert Join(dir, name) == pre + name;
    NameStartAfterSlash(pre, name);
    assert (pre + name)[|pre|..] == name;
  }

  /** The index of the last '.' of `p`, or -1. */
  function LastDot(p: string): (d: int)
    ensures -1 <= d < |p|
    ensures d >= 0 ==> p[d] == '.'
    ensures forall k :: d < k < |p| ==> p[k] != '.'
  {
    if p == [] then -1
    else if p[|p| - 1] == '.' then |p| - 1
    else LastDot(p[..|p| - 1])
  }

  /** Whether the positions `from` up to `to` of `p` hold something other than a dot. */
  predicate HasNonDot(p: string, from: nat, to: nat)
    requires from <= to <= |p|
  {
    exists k :: from <= k < to && p[k] != '.'
  }

  /**
   * Where `os.path.splitext(p)` cuts `p`: at the last dot of the last
   * component, unless only dots precede it in that component; otherwise
   * nowhere (at the end).
   */
  function ExtStart(p: string): (e: nat)
    ensures e <= |p|
  {
    var b, d := NameStart(p), LastDot(p);
    if b <= d && HasNonDot(p, b, d) then d else |p|
  }

  /** `os.path.splitext(p)[0]` */
  function Root(p: string): string {
    p[..ExtStart(p)]
  }

  /** `os.path.splitext(p)[1]` */
  function Ext(p: string): string {
    p[ExtStart(p)..]
  }

  /** Root and extension of `splitext` rebuild the path. */
  lemma SplitextRebuilds(p: string)
    ensures Root(p) + Ext(p) == p
  {
    assert p[..ExtStart(p)] + p[ExtStart(p)..] == p;
  }

  /** The extension of `splitext` is empty, or a dot followed by neither dots nor slashes. */
  lemma SplitextExtShape(p: string)
    ensures var x := Ext(p); x == [] || (x[0] == '.' && forall k :: 1 <= k < |x| ==> x[k] != '.' && x[k] != '/')
  {
    var e := ExtStart(p);
    if e < |p| {
      var d := LastDot(p);
      assert e == d && d >= NameStart(p);
      var x := p[e..];
      forall k | 1 <= k < |x|
        ensures x[k] != '.' && x[k] != '/'
      {
        assert x[k] == p[d + k];
      }
    }
  }

  /** `Path(name).stem` for a single-component name: drops a last suffix that is neither leading nor empty. */
  function PathStem(name: string): string {
    var i := LastDot(name);
    if 0 < i < |name| - 1 then name[..i] else name
  }
}
