/** The parts of Python's `pathlib` and `str` that the playlist filter relies on:
    the final component of a POSIX path (`PurePath.name`), its file extension
    (`PurePath.suffix`) and lower-casing (`str.lower`). Paths are strings. */
module PathNames {

  /** `str.rfind` for one character: the highest index holding `c`, or -1. */
  function RFind(s: string, c: char): (i: int)
    ensures -1 <= i < |s|
    ensures i >= 0 ==> s[i] == c
    ensures forall k :: i < k < |s| ==> s[k] != c
  {
    LastIndexBefore(s, c, |s|)
  }

  /** The highest index below `n` holding `c`, or -1. */
  function LastIndexBefore(s: string, c: char, n: nat): (i: int)
    requires n <= |s|
    ensures -1 <= i < n
    ensures i >= 0 ==> s[i] == c
    ensures forall k :: i < k < n ==> s[k] != c
  {
    if n == 0 then -1
    else if s[n - 1] == c then n - 1
    else LastIndexBefore(s, c, n - 1)
  }

  /** `PurePosixPath.name`: the text after the last '/'. */
  function Name(path: string): (name: string)
  {
    path[RFind(path, '/') + 1..]
  }

  /** The name is the longest tail of the path without a '/'. */
  lemma NameIsLastComponent(path: string)
    ensures '/' !in Name(path)
    ensures |Name(path)| <= |path| && Name(path) == path[|path| - |Name(path)|..]
    ensures |Name(path)| < |path| ==> path[|path| - |Name(path)| - 1] == '/'
  {
  }

  /** `PurePath.suffix` (CPython 3.12): the text from the last '.' of the name,
      provided that dot is neither the first nor the last character; else "". */
  function Suffix(name: string): (suffix: string)
  {
    var i := RFind(name, '.');
    if 0 < i < |name| - 1 then name[i..] else ""
  }

  /** A suffix that is not empty is a tail of the name, shorter than it, made
      of a '.' and at least one more character, none of them a '.'; the suffix
      is empty exactly when the name has no dot after its first character or
      ends with a dot. */
  lemma SuffixIsLastExtension(name: string)
    ensures var r := Suffix(name);
            r != "" ==> |r| >= 2 && |r| < |name| && r == name[|name| - |r|..]
                        && r[0] == '.' && forall k :: 0 < k < |r| ==> r[k] != '.'
    ensures Suffix(name) == "" <==> (forall k :: 0 < k < |name| ==> name[k] != '.')
                                    || (|name| > 0 && name[|name| - 1] == '.')
  {
    var i := RFind(name, '.');
    if 0 < i < |name| - 1 {
      assert Suffix(name) == name[i..];
    }
  }

  /** `str.lower` on one character, restricted to ASCII. */
  function LowerChar(c: char): (lower: char)
  {
    if 'A' <= c <= 'Z' then (c as int + 32) as char else c
  }

  /** `str.lower` restricted to ASCII: 'A'..'Z' become 'a'..'z', all else stays. */
  function Lower(s: string): (r: string)
    ensures |r| == |s|
    ensures forall k :: 0 <= k < |s| ==>
              if 'A' <= s[k] <= 'Z' then r[k] as int == s[k] as int + 32 else r[k] == s[k]
  {
    seq(|s|, k requires 0 <= k < |s| => LowerChar(s[k]))
  }

  /** `Path(path).suffix` computed on the whole path: the text from the last
      '.' of the path, provided that dot lies inside the final component,
      after its first character and before its last. `ExtensionIsSuffixOfName`
      shows it equal to `Suffix(Name(path))`. */
  function Extension(path: string): (r: string)
  {
    var start := RFind(path, '/') + 1;
    var i := RFind(path, '.');
    if start < i < |path| - 1 then path[i..] else ""
  }

  /** `RFind` is determined by its contract: an index holding `c` (or -1)
      with no `c` after it is the one `RFind` returns. */
  lemma RFindUnique(s: string, c: char, i: int)
    requires -1 <= i < |s| && (i >= 0 ==> s[i] == c)
    requires forall k :: i < k < |s| ==> s[k] != c
    ensures RFind(s, c) == i
  {
  }

  /** The suffix computed on the whole path is the suffix of the path's name. */
  lemma ExtensionIsSuffixOfName(path: string)
    ensures Extension(path) == Suffix(Name(path))
  {
    var start := RFind(path, '/') + 1;
    var name := path[start..];
    assert Name(path) == name;
    var i := RFind(path, '.');
    if i >= start {
      forall k | i - start < k < |name|
        ensures name[k] != '.'
      {
        assert name[k] == path[start + k];
      }
      RFindUnique(name, '.', i - start);
      if start < i < |path| - 1 {
        assert path[i..] == name[i - start..];
      }
    } else {
      forall k | 0 <= k < |name|
        ensures name[k] != '.'
      {
        assert name[k] == path[start + k];
      }
      RFindUnique(name, '.', -1);
    }
  }

  /** A stem that is not empty followed by "." and an extension without dots
      has that extension (with its dot) as suffix, whatever dots the stem holds. */
  lemma SuffixOfStemAndExtension(stem: string, ext: string)
    requires stem != "" && ext != "" && '.' !in ext
    ensures Suffix(stem + "." + ext) == "." + ext
  {
    var name := stem + "." + ext;
    assert name[|stem|] == '.';
    assert name[|stem| + 1..] == ext;
    var r := Suffix(name);
    assert r != "";
  }

  /** A name whose only dot (if any) is its first character has no suffix:
      a hidden file such as ".mp3" has no extension. */
  lemma NoSuffixWithoutInnerDot(name: string)
    requires forall k :: 0 < k < |name| ==> name[k] != '.'
    ensures Suffix(name) == ""
  {
  }

  /** The name of a path built by joining a directory and a component. */
  lemma NameOfJoin(dir: string, component: string)
    requires '/' !in component
    ensures Name(dir + "/" + component) == component
  {
    var path := dir + "/" + component;
    var r := Name(path);
    assert path[|dir|] == '/';
  }
}
