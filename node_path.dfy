/**
 * Node.js `path` operations on POSIX separators: `extname` as Node implements it
 * (trailing separators are skipped, the last component is examined, the extension runs
 * from its last '.' to its end) and `join` of a normalized directory with plain names.
 */
module NodePath {
  import opened JsValues

  /** No character of `s` is `c`. */
  predicate Lacks(s: string, c: char) {
    forall i :: 0 <= i < |s| ==> s[i] != c
  }

  /** The path without its trailing '/' characters. */
  function TrimTrailingSlashes(p: string): (r: string)
    ensures |r| <= |p| && r == p[..|r|]
    ensures r == [] || r[|r| - 1] != '/'
    ensures forall i :: |r| <= i < |p| ==> p[i] == '/'
  {
    if p != [] && p[|p| - 1] == '/' then TrimTrailingSlashes(p[..|p| - 1]) else p
  }

  /** Index of the last `c` in `s`, or -1. */
  function LastIndexOf(s: string, c: char): (r: int)
    ensures -1 <= r < |s|
    ensures r >= 0 ==> s[r] == c
    ensures forall i :: r < i < |s| ==> s[i] != c
  {
    if s == [] then -1
    else if s[|s| - 1] == c then |s| - 1
    else LastIndexOf(s[..|s| - 1], c)
  }

  /** The last component of the path, after trailing separators are skipped. */
  function BaseName(p: string): (b: string)
    ensures Lacks(b, '/')
    ensures EndsWith(TrimTrailingSlashes(p), b)
  {
    var t := TrimTrailingSlashes(p);
    var k := LastIndexOf(t, '/');
    t[k + 1..]
  }

  /** `path.extname(p)`: empty when the last component has no '.', when its only '.'
      that could start an extension is its first character, or when it is "..". */
  function ExtName(p: string): (e: string)
    ensures e == [] || e[0] == '.'
    ensures forall i :: 0 < i < |e| ==> e[i] != '.'
  {
    var b := BaseName(p);
    var d := LastIndexOf(b, '.');
    if d <= 0 || b == ".." then [] else
      var e := b[d..];
      assert forall i :: 0 < i < |e| ==> e[i] == b[d + i];
      e
  }

  /** The extension is the tail of the last component, so it holds no separator. */
  lemma ExtNameIsTailOfBaseName(p: string)
    ensures EndsWith(BaseName(p), ExtName(p))
    ensures Lacks(ExtName(p), '/')
  {
    var b := BaseName(p);
    var e := ExtName(p);
    assert forall i :: 0 <= i < |e| ==> e[i] == b[|b| - |e| + i];
  }

  /** The extension is non-empty exactly when the last component has a '.' after its first
      character and is not "..". */
  lemma ExtNameNonEmpty(p: string)
    ensures var b := BaseName(p);
            ExtName(p) != [] <==> (exists d :: 0 < d < |b| && b[d] == '.') && b != ".."
  {
    var b := BaseName(p);
    var d := LastIndexOf(b, '.');
    if ExtName(p) == [] && b != ".." {
      assert d <= 0;
      assert forall i :: 0 < i < |b| ==> b[i] != '.';
    }
  }

  lemma LacksConcat(a: string, b: string, c: char)
    ensures Lacks(a + b, c) <==> Lacks(a, c) && Lacks(b, c)
  {
    if Lacks(a, c) && Lacks(b, c) {
      forall i | 0 <= i < |a + b| ensures (a + b)[i] != c {
        if i >= |a| { assert (a + b)[i] == b[i - |a|]; }
      }
    }
    if Lacks(a + b, c) {
      forall i | 0 <= i < |b| ensures b[i] != c { assert (a + b)[|a| + i] == b[i]; }
      forall i | 0 <= i < |a| ensures a[i] != c { assert (a + b)[i] == a[i]; }
    }
  }

  /** The last `c` of `a + [c] + b` is the one after `a` when `b` holds none. */
  lemma LastIndexOfSplit(a: string, c: char, b: string)
    requires Lacks(b, c)
    ensures LastIndexOf(a + [c] + b, c) == |a|
  {
    var s := a + [c] + b;
    assert s[|a|] == c;
    var r := LastIndexOf(s, c);
    if r > |a| {
      assert false;
    }
  }

  /** A path with no '/' is its own last component. */
  lemma BaseNameOfPlainName(p: string)
    requires Lacks(p, '/')
    ensures BaseName(p) == p
  {
    assert p == [] || p[|p| - 1] != '/';
    assert TrimTrailingSlashes(p) == p;
    assert LastIndexOf(p, '/') == -1;
  }

  /** A plain file name `stem.ext` whose extension part holds no '.' has extension ".ext". */
  lemma ExtNameOfFileName(stem: string, ext: string)
    requires stem != []
    requires Lacks(stem, '/') && Lacks(ext, '/') && Lacks(ext, '.')
    requires stem + "." + ext != ".."
    ensures ExtName(stem + "." + ext) == "." + ext
  {
    var p := stem + "." + ext;
    LacksConcat(stem, ".", '/');
    LacksConcat(stem + ".", ext, '/');
    BaseNameOfPlainName(p);
    LastIndexOfSplit(stem, '.', ext);
    assert p[|stem|..] == "." + ext;
  }

  /** A name without any '.' has no extension. */
  lemma ExtNameWithoutDot(p: string)
    requires Lacks(p, '.')
    ensures ExtName(p) == []
  {
    var t := TrimTrailingSlashes(p);
    var b := BaseName(p);
    assert Lacks(t, '.') by {
      forall i | 0 <= i < |t| ensures t[i] != '.' { assert t[i] == p[i]; }
    }
    assert Lacks(b, '.') by {
      forall i | 0 <= i < |b| ensures b[i] != '.' { assert b[i] == t[|t| - |b| + i]; }
    }
    assert LastIndexOf(b, '.') == -1;
  }

  /** A dot-file name such as ".bashrc" has no extension. */
  lemma ExtNameOfDotFile(name: string)
    requires Lacks(name, '/') && Lacks(name, '.')
    ensures ExtName("." + name) == []
  {
    var p := "." + name;
    LacksConcat(".", name, '/');
    BaseNameOfPlainName(p);
    LastIndexOfSplit([], '.', name);
    assert [] + ['.'] + name == p;
  }

  /** `path.join(dir, name)` for a normalized directory and a plain name, with separator `sep`. */
  function JoinPath(dir: string, name: string, sep: char): (r: string)
    ensures StartsWith(r, dir) && EndsWith(r, name)
    ensures |r| == |dir| + |name| + (if dir != [] && dir[|dir| - 1] == sep then 0 else 1)
  {
    if dir != [] && dir[|dir| - 1] == sep then dir + name else dir + [sep] + name
  }

  /** A joined path ends with the separator and the name. */
  lemma JoinPathEnds(dir: string, name: string, sep: char)
    ensures EndsWith(JoinPath(dir, name, sep), [sep] + name)
  {
    var r := JoinPath(dir, name, sep);
    if dir != [] && dir[|dir| - 1] == sep {
      assert r[|r| - |name| - 1..] == [dir[|dir| - 1]] + name;
    } else {
      assert r[|r| - |name| - 1..] == [sep] + name;
    }
  }

  /** Joining onto a path that ends in `suffix` (not in a separator) keeps `suffix`
      in front of the separator and the new name. */
  lemma JoinPathKeepsSuffix(dir: string, suffix: string, name: string, sep: char)
    requires EndsWith(dir, suffix) && suffix != [] && suffix[|suffix| - 1] != sep
    ensures EndsWith(JoinPath(dir, name, sep), suffix + [sep] + name)
  {
    assert dir[|dir| - 1] == suffix[|suffix| - 1];
    var r := JoinPath(dir, name, sep);
    var tail := [sep] + name;
    assert r == dir + tail;
    var k := |dir| - |suffix|;
    assert dir[k..] == suffix;
    assert r[k..] == dir[k..] + tail;
    assert suffix + [sep] + name == suffix + tail;
  }
}
