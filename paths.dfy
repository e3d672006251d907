/** The POSIX path split that the facade's unique-filename policy relies on
    (`parse` and `format` of Node's `path` module, without roots given by
    drive letters and without trailing separators), and `getFileName`. */
module Paths {

  /** Index of the last occurrence of `c` in `s`, or -1. */
  function LastIndexOf(s: string, c: char): (r: int)
    ensures -1 <= r < |s|
    ensures r >= 0 ==> s[r] == c
    ensures forall j :: r < j < |s| ==> s[j] != c
  {
    if |s| == 0 then -1
    else if s[|s| - 1] == c then |s| - 1
    else LastIndexOf(s[..|s| - 1], c)
  }

  /** Index of the first occurrence of `c` in `s`, or |s|. */
  function IndexOf(s: string, c: char): (r: nat)
    ensures r <= |s|
    ensures r < |s| ==> s[r] == c
    ensures forall j :: 0 <= j < r ==> s[j] != c
  {
    if |s| == 0 then 0
    else if s[0] == c then 0
    else
      var r := IndexOf(s[1..], c);
      assert forall j :: 1 <= j < |s| ==> s[j] == s[1..][j - 1];
      r + 1
  }

  /** The directory part of `path` with its separator ("" for a bare name). */
  function DirPrefix(path: string): (dir: string)
  {
    path[..LastIndexOf(path, '/') + 1]
  }

  /** The base name of `path`: everything after the last separator. */
  function BaseName(path: string): (base: string)
    ensures forall j :: 0 <= j < |base| ==> base[j] != '/'
    ensures DirPrefix(path) + base == path
  {
    var k := LastIndexOf(path, '/') + 1;
    assert path[..k] + path[k..] == path;
    path[k..]
  }

  /** Node's `ext` of a base name: from the last dot on, except that a leading
      dot (".bashrc") and the name ".." have no extension. */
  function ExtName(base: string): (ext: string)
    ensures ext == "" || (ext[0] == '.' && forall j :: 1 <= j < |ext| ==> ext[j] != '.')
    ensures |ext| <= |base| && ext == base[|base| - |ext|..]
    ensures ext == "" <==> LastIndexOf(base, '.') <= 0 || base == ".."
    ensures LastIndexOf(base, '.') > 0 && base != ".." ==> ext == base[LastIndexOf(base, '.')..]
  {
    var j := LastIndexOf(base, '.');
    if j <= 0 || base == ".." then "" else base[j..]
  }

  /** `format(parsed)` after `parsed.base = token + parsed.ext`: the same
      directory, the token as the name, the old extension. */
  function ReplaceBase(path: string, token: string): (stored: string)
  {
    DirPrefix(path) + token + ExtName(BaseName(path))
  }

  /** What a v4 UUID looks like as far as paths go: non-empty, no separator, no dot. */
  predicate TokenShaped(token: string)
  {
    |token| > 0 && forall j :: 0 <= j < |token| ==> token[j] != '/' && token[j] != '.'
  }

  /** `getFileName`: the base name of the part before any query string. */
  function FileName(path: string): (name: string)
  {
    BaseName(path[..IndexOf(path, '?')])
  }

  lemma LastIndexOfAt(s: string, c: char, k: int)
    requires -1 <= k < |s|
    requires k >= 0 ==> s[k] == c
    requires forall j :: k < j < |s| ==> s[j] != c
    ensures LastIndexOf(s, c) == k
  {
  }

  /** The last separator of `d + rest` is the last character of `d` when
      `rest` has none. */
  lemma {:induction false} LastSeparatorOfJoin(d: string, rest: string)
    requires d == "" || d[|d| - 1] == '/'
    requires Free(rest, '/')
    ensures LastIndexOf(d + rest, '/') == |d| - 1
  {
    var r := d + rest;
    forall j | |d| - 1 < j < |r| ensures r[j] != '/' {
      assert r[j] == rest[j - |d|];
    }
    LastIndexOfAt(r, '/', |d| - 1);
  }

  /** A token without dots followed by an extension has that extension. */
  lemma {:induction false} ExtNameOfTokenExt(token: string, e: string)
    requires TokenShaped(token)
    requires e == "" || (e[0] == '.' && forall j :: 1 <= j < |e| ==> e[j] != '.')
    ensures ExtName(token + e) == e
  {
    var base := token + e;
    if e == "" {
      forall j | -1 < j < |base| ensures base[j] != '.' {
        assert base[j] == token[j];
      }
      LastIndexOfAt(base, '.', -1);
    } else {
      assert base[|token|] == e[0];
      forall j | |token| < j < |base| ensures base[j] != '.' {
        assert base[j] == e[j - |token|];
      }
      LastIndexOfAt(base, '.', |token|);
      assert base[0] == token[0];
      assert base[|token|..] == e;
    }
  }

  /** The extension of a path's base name contains no separator. */
  lemma ExtNameFree(path: string)
    ensures Free(ExtName(BaseName(path)), '/')
  {
    var b := BaseName(path);
    var e := ExtName(b);
    forall j | 0 <= j < |e| ensures e[j] != '/' {
      assert e[j] == b[|b| - |e| + j];
    }
  }

  /** Parsing the rewritten path gives back the original directory, the token
      followed by the original extension as base name, and the original
      extension: the policy keeps directory and extension. */
  lemma {:induction false} ReplaceBaseKeepsDirAndExt(path: string, token: string)
    requires TokenShaped(token)
    ensures DirPrefix(ReplaceBase(path, token)) == DirPrefix(path)
    ensures BaseName(ReplaceBase(path, token)) == token + ExtName(BaseName(path))
    ensures ExtName(BaseName(ReplaceBase(path, token))) == ExtName(BaseName(path))
  {
    var d, e := DirPrefix(path), ExtName(BaseName(path));
    ExtNameFree(path);
    assert Free(token + e, '/') by {
      forall j | 0 <= j < |token + e| ensures (token + e)[j] != '/' {
        if j >= |token| { assert (token + e)[j] == e[j - |token|]; }
      }
    }
    assert d + token + e == d + (token + e);
    LastSeparatorOfJoin(d, token + e);
    ExtNameOfTokenExt(token, e);
  }

  /** Distinct tokens give distinct stored paths for the same input path. */
  lemma ReplaceBaseInjective(path: string, t1: string, t2: string)
    requires t1 != t2
    ensures ReplaceBase(path, t1) != ReplaceBase(path, t2)
  {
    MiddleInjective(DirPrefix(path), t1, t2, ExtName(BaseName(path)));
  }

  lemma {:induction false} MiddleInjective(d: string, t1: string, t2: string, e: string)
    requires t1 != t2
    ensures d + t1 + e != d + t2 + e
  {
    if |t1| == |t2| {
      var j :| 0 <= j < |t1| && t1[j] != t2[j];
      assert (d + t1 + e)[|d| + j] == t1[j];
      assert (d + t2 + e)[|d| + j] == t2[j];
    } else {
      assert |d + t1 + e| != |d + t2 + e|;
    }
  }

  predicate Free(s: string, c: char)
  {
    forall j :: 0 <= j < |s| ==> s[j] != c
  }

  lemma IndexOfAt(s: string, c: char, k: nat)
    requires k <= |s|
    requires k < |s| ==> s[k] == c
    requires forall j :: 0 <= j < k ==> s[j] != c
    ensures IndexOf(s, c) == k
  {
  }

  /** `getFileName` keeps the last path segment and drops a query string, as
      its tests show on "file-name.png", "/file-name.png",
      "path/to/file-name.png" and "path/to/file-name.png?v=foo&t=bar". */
  lemma {:induction false} FileNameOfSegment(dir: string, name: string, query: string)
    requires dir == "" || dir[|dir| - 1] == '/'
    requires Free(dir, '?') && Free(name, '?') && Free(name, '/')
    requires query == "" || query[0] == '?'
    ensures FileName(dir + name + query) == name
  {
    var p := dir + name + query;
    IndexOfAt(p, '?', |dir| + |name|);
    var q := p[..|dir| + |name|];
    assert q == dir + name;
    LastIndexOfAt(q, '/', |dir| - 1);
    assert q[|dir|..] == name;
  }
}
