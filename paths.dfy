/** The parts of `std::path` that the program relies on, for `/`-separated
    Unix paths: the last component, its stem and extension, replacing the
    extension, and joining a relative name onto a directory. */
module Paths {
  import opened Wrappers

  /** The index of the last occurrence of c in s, if any. */
  function LastIndex(s: string, c: char): (r: Option<nat>)
    ensures r.Some? ==> r.value < |s| && s[r.value] == c
    ensures r.Some? ==> forall k :: r.value < k < |s| ==> s[k] != c
    ensures r.None? ==> c !in s
  {
    if s == [] then None
    else if s[|s| - 1] == c then Some(|s| - 1)
    else LastIndex(s[..|s| - 1], c)
  }

  /** The last component of a path (what `file_name` gives for a path
      without a trailing separator). */
  function FileName(p: string): (r: string)
    ensures '/' !in r
  {
    match LastIndex(p, '/')
    case Some(i) => p[i + 1..]
    case None => p
  }

  /** The last component is the suffix of p without a separator that is
      either all of p or comes right after a separator. */
  lemma FileNameSuffix(p: string)
    ensures |FileName(p)| <= |p| && FileName(p) == p[|p| - |FileName(p)|..]
    ensures |FileName(p)| < |p| ==> p[|p| - |FileName(p)| - 1] == '/'
  {
  }

  /** Everything before the last component, separator included. */
  function DirPart(p: string): string {
    match LastIndex(p, '/')
    case Some(i) => p[..i + 1]
    case None => []
  }

  /** `file_stem` of a name: everything before the last '.', unless that
      dot is the first character (a hidden file such as ".png"). */
  function NameStem(name: string): string {
    if name == ".." then name
    else match LastIndex(name, '.')
      case Some(i) => if i == 0 then name else name[..i]
      case None => name
  }

  /** `extension` of a name: everything after the last '.', with the same
      exceptions as `NameStem`; a trailing dot gives Some(""). */
  function NameExtension(name: string): (r: Option<string>)
    ensures r.Some? ==> NameStem(name) + "." + r.value == name
    ensures r.None? ==> NameStem(name) == name
  {
    if name == ".." then None
    else match LastIndex(name, '.')
      case Some(i) =>
        if i == 0 then None
        else
          assert name[..i] + "." + name[i + 1..] == name by {
            assert name == name[..i] + [name[i]] + name[i + 1..];
          }
          Some(name[i + 1..])
      case None => None
  }

  function Stem(p: string): string {
    NameStem(FileName(p))
  }

  function Extension(p: string): Option<string> {
    NameExtension(FileName(p))
  }

  /** `Path::with_extension(ext)`: the path cut right after the stem of
      its last component, then "." and ext. A path without a last
      component is left as it is. */
  function WithExtension(p: string, ext: string): (r: string)
    requires ext != []
    ensures FileName(p) != [] ==> r == DirPart(p) + Stem(p) + "." + ext
  {
    if FileName(p) == [] then p else DirPart(p) + Stem(p) + "." + ext
  }

  /** `Path::join` of a directory and a name: an absolute name replaces the
      directory; otherwise one separator is inserted unless the directory
      is empty or already ends with one. */
  function JoinPath(dir: string, name: string): string {
    if |name| > 0 && name[0] == '/' then name
    else if dir == [] || dir[|dir| - 1] == '/' then dir + name
    else dir + "/" + name
  }

  /** Whether `Path::parent` gives a directory: not for the empty path and
      not for a path made only of separators (the root). */
  predicate HasParent(p: string) {
    exists k :: 0 <= k < |p| && p[k] != '/'
  }

  /** When a ends with c and b has no c, the last c of a + b is a's. */
  lemma {:induction false} LastIndexAfter(a: string, b: string, c: char)
    requires c !in b
    requires |a| > 0 && a[|a| - 1] == c
    ensures LastIndex(a + b, c) == Some(|a| - 1)
    decreases |b|
  {
    var s := a + b;
    if b != [] {
      assert s[..|s| - 1] == a + b[..|b| - 1];
      assert b[|b| - 1] in b;
      LastIndexAfter(a, b[..|b| - 1], c);
    } else {
      assert s == a;
    }
  }

  /** Joining a plain name onto a directory and taking the last component
      gives the name back. */
  lemma FileNameOfJoin(dir: string, name: string)
    requires '/' !in name && name != []
    ensures FileName(JoinPath(dir, name)) == name
  {
    var p := JoinPath(dir, name);
    if dir == [] {
      assert p == name;
    } else if dir[|dir| - 1] == '/' {
      LastIndexAfter(dir, name, '/');
      assert p[|dir|..] == name;
    } else {
      LastIndexAfter(dir + "/", name, '/');
      assert p == (dir + "/") + name;
      assert p[|dir| + 1..] == name;
    }
  }

  /** The extension of the last component is replaced, and the directory
      and the stem are kept. */
  lemma WithExtensionReplaces(dir: string, stem: string, oldExt: string, ext: string)
    requires |dir| > 0 && dir[|dir| - 1] == '/'
    requires stem != [] && oldExt != [] && ext != []
    requires '/' !in stem && '/' !in oldExt && '.' !in oldExt
    ensures WithExtension(dir + stem + "." + oldExt, ext) == dir + stem + "." + ext
  {
    var name := stem + "." + oldExt;
    var p := dir + name;
    assert p == dir + stem + "." + oldExt;
    assert '/' !in name by {
      forall k | 0 <= k < |name|
        ensures name[k] != '/'
      {
        if k < |stem| {
          assert name[k] == stem[k];
        } else if k > |stem| {
          assert name[k] == oldExt[k - |stem| - 1];
        }
      }
    }
    LastIndexAfter(dir, name, '/');
    assert p[..|dir|] == dir;
    assert p[|dir|..] == name;
    assert FileName(p) == name && DirPart(p) == dir;
    LastIndexAfter(stem + ".", oldExt, '.');
    assert LastIndex(name, '.') == Some(|stem|);
    assert |name| > 2;
    assert name[..|stem|] == stem;
    assert NameStem(name) == stem;
  }

  /** A hidden file's name is all stem, so the extension is appended. */
  lemma WithExtensionHidden(dir: string, rest: string, ext: string)
    requires |dir| > 0 && dir[|dir| - 1] == '/'
    requires rest != [] && ext != []
    requires '/' !in rest && '.' !in rest
    ensures WithExtension(dir + "." + rest, ext) == dir + "." + rest + "." + ext
  {
    var name := "." + rest;
    var p := dir + name;
    assert p == dir + "." + rest;
    assert '/' !in name by {
      forall k | 0 <= k < |name|
        ensures name[k] != '/'
      {
        if k > 0 {
          assert name[k] == rest[k - 1];
        }
      }
    }
    LastIndexAfter(dir, name, '/');
    assert p[..|dir|] == dir;
    assert p[|dir|..] == name;
    LastIndexAfter(".", rest, '.');
  }
}
