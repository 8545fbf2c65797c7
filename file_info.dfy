/** File-name rules of the framework's file-info helper, as far as the loaders and the
    readability test use them: back slashes are normalised to forward slashes, the file name is
    what follows the last slash, the extension is what follows the last dot of the whole path, and
    extensions compare without regard to ASCII case. */
module FileInfo {

  /** ASCII lower case; other characters are left alone. */
  function Lower(c: char): (r: char)
    ensures 'A' <= c <= 'Z' ==> r as int == c as int + 32
    ensures !('A' <= c <= 'Z') ==> r == c
  {
    if 'A' <= c <= 'Z' then (c as int + 32) as char else c
  }

  function LowerString(s: string): (r: string)
    ensures |r| == |s|
    ensures forall i :: 0 <= i < |s| ==> r[i] == Lower(s[i])
  {
    if s == [] then [] else [Lower(s[0])] + LowerString(s[1..])
  }

  /** Case-insensitive equality of two strings, character by character. */
  predicate EqualIgnoringCase(a: string, b: string) {
    LowerString(a) == LowerString(b)
  }

  function Slashes(s: string): (r: string)
    ensures |r| == |s|
    ensures forall i :: 0 <= i < |s| ==> r[i] == (if s[i] == '\\' then '/' else s[i])
  {
    if s == [] then [] else [if s[0] == '\\' then '/' else s[0]] + Slashes(s[1..])
  }

  /** The stored path: every back slash becomes a slash, except the two that open a UNC path. */
  function Normalize(path: string): (r: string)
    ensures |r| == |path|
    ensures '\\' !in r[(if |path| >= 2 && path[..2] == "\\\\" then 2 else 0)..]
  {
    if |path| >= 2 && path[..2] == "\\\\" then path[..2] + Slashes(path[2..]) else Slashes(path)
  }

  /** The position just after the last occurrence of `c` in `s`, or 0 when there is none. */
  function AfterLast(s: string, c: char): (r: nat)
    ensures r <= |s|
    ensures r > 0 ==> s[r - 1] == c
    ensures forall i :: r <= i < |s| ==> s[i] != c
  {
    if s == [] then 0
    else if s[|s| - 1] == c then |s|
    else AfterLast(s[..|s| - 1], c)
  }

  /** `fileName()`: the part of the normalised path after its last slash. */
  function FileName(path: string): (r: string)
    ensures '/' !in r
    ensures exists k :: 0 <= k <= |Normalize(path)| && Normalize(path)[k..] == r
  {
    var p := Normalize(path);
    var k := AfterLast(p, '/');
    assert forall i :: 0 <= i < |p[k..]| ==> p[k..][i] == p[k + i];
    p[k..]
  }

  /** `extension()`: the part of the normalised path after its last dot, or the empty string
      when the path has no dot. */
  function Extension(path: string): (r: string)
    ensures '.' !in r
    ensures '.' !in Normalize(path) ==> r == ""
  {
    var p := Normalize(path);
    var k := AfterLast(p, '.');
    assert forall i :: 0 <= i < |p[k..]| ==> p[k..][i] == p[k + i];
    if k == 0 then "" else p[k..]
  }

  /** `hasExtension(ext)`: the extension equals `ext` ignoring case. */
  predicate HasExtension(path: string, ext: string) {
    EqualIgnoringCase(Extension(path), ext)
  }

  /** Normalising leaves every character other than a back slash where it was. */
  lemma NormalizeKeeps(path: string)
    ensures forall i :: 0 <= i < |path| && path[i] != '\\' ==> Normalize(path)[i] == path[i]
  {
    if |path| >= 2 && path[..2] == "\\\\" {
      var rest := Slashes(path[2..]);
      assert Normalize(path) == path[..2] + rest;
      assert forall i :: 2 <= i < |path| ==> Normalize(path)[i] == rest[i - 2];
    }
  }

  /** The position after the last `c` is just past an occurrence of `c` followed by none. */
  lemma AfterLastAt(s: string, c: char, n: nat)
    requires 0 < n <= |s| && s[n - 1] == c
    requires forall i :: n <= i < |s| ==> s[i] != c
    ensures AfterLast(s, c) == n
  {
  }

  /** The extension of a path whose normalised form has its last dot just before `n`. */
  lemma ExtensionAt(path: string, n: nat)
    requires 0 < n <= |Normalize(path)| && Normalize(path)[n - 1] == '.'
    requires forall i :: n <= i < |Normalize(path)| ==> Normalize(path)[i] != '.'
    ensures Extension(path) == Normalize(path)[n..]
  {
    AfterLastAt(Normalize(path), '.', n);
  }

  /** A path ending in `/` followed by a name free of both kinds of slash has that file name. */
  lemma {:induction false} FileNameOfSuffix(dir: string, name: string)
    requires '/' !in name && '\\' !in name
    ensures FileName(dir + "/" + name) == name
  {
    var path := dir + "/" + name;
    var n := |dir| + 1;
    var p := Normalize(path);
    NormalizeKeeps(path);
    assert path[n - 1] == '/' && p[n - 1] == '/';
    forall i | n <= i < |p|
      ensures p[i] == name[i - n]
    {
      assert path[i] == name[i - n];
    }
    AfterLastAt(p, '/', n);
    assert p[n..] == name;
  }

  /** A path ending in `.` followed by a dot-free, slash-free extension has that extension. */
  lemma {:induction false} ExtensionOfSuffix(stem: string, ext: string)
    requires '.' !in ext && '\\' !in ext
    ensures Extension(stem + "." + ext) == ext
  {
    var path := stem + "." + ext;
    var n := |stem| + 1;
    var p := Normalize(path);
    NormalizeKeeps(path);
    assert path[n - 1] == '.' && p[n - 1] == '.';
    forall i | n <= i < |p|
      ensures p[i] == ext[i - n]
    {
      assert path[i] == ext[i - n];
    }
    ExtensionAt(path, n);
    assert p[n..] == ext;
  }
}
