/** The slice of Python's `str` and `posixpath` behaviour the installer relies on:
    `lower()`, the `in` operator on strings, `endswith`, `os.path.join` with two
    arguments and `os.path.basename`. Strings are sequences of characters. */
module Text {

  /** `c.lower()` for the ASCII letters; every other character is left alone. */
  function LowerChar(c: char): char
  {
    if 'A' <= c <= 'Z' then (c as int - 'A' as int + 'a' as int) as char else c
  }

  /** `s.lower()`, character by character. */
  function Lower(s: string): (r: string)
    ensures |r| == |s|
    ensures forall i :: 0 <= i < |s| ==> r[i] == LowerChar(s[i])
  {
    seq(|s|, i requires 0 <= i < |s| => LowerChar(s[i]))
  }

  /** No ASCII upper-case letter occurs in `s`. */
  predicate IsLowerCase(s: string)
  {
    forall i :: 0 <= i < |s| ==> !('A' <= s[i] <= 'Z')
  }

  /** Lower-casing leaves no upper-case letter behind and changes nothing twice. */
  lemma LowerIsIdempotent(s: string)
    ensures IsLowerCase(Lower(s))
    ensures Lower(Lower(s)) == Lower(s)
  {
  }

  /** Lower-casing a slice is slicing the lower-cased string. */
  lemma LowerOfSlice(s: string, i: nat, j: nat)
    requires i <= j <= |s|
    ensures Lower(s)[i..j] == Lower(s[i..j])
  {
  }

  predicate StartsWith(s: string, prefix: string)
  {
    |prefix| <= |s| && s[..|prefix|] == prefix
  }

  /** `s.endswith(suffix)`. */
  predicate EndsWith(s: string, suffix: string)
  {
    |suffix| <= |s| && s[|s| - |suffix|..] == suffix
  }

  /** `needle` occurs in `s` starting at index `i`. */
  ghost predicate OccursAt(s: string, needle: string, i: int)
  {
    0 <= i && i + |needle| <= |s| && s[i..i + |needle|] == needle
  }

  /** Python's `needle in s` on strings, searched from the left. */
  predicate Contains(s: string, needle: string)
    decreases |s|
  {
    StartsWith(s, needle) || (|s| > 0 && Contains(s[1..], needle))
  }

  /** The search finds `needle` exactly when it occurs at some index. */
  lemma {:induction false} ContainsIffOccurs(s: string, needle: string)
    ensures Contains(s, needle) <==> exists i :: OccursAt(s, needle, i)
    decreases |s|
  {
    if |s| > 0 {
      ContainsIffOccurs(s[1..], needle);
    }
    if Contains(s, needle) {
      if StartsWith(s, needle) {
        assert OccursAt(s, needle, 0);
      } else {
        var i :| OccursAt(s[1..], needle, i);
        assert s[i + 1..i + 1 + |needle|] == s[1..][i..i + |needle|];
        assert OccursAt(s, needle, i + 1);
      }
    }
    if exists i :: OccursAt(s, needle, i) {
      var i :| OccursAt(s, needle, i);
      if i == 0 {
        assert s[..|needle|] == s[i..i + |needle|];
        assert StartsWith(s, needle);
      } else {
        assert s[1..][i - 1..i - 1 + |needle|] == s[i..i + |needle|];
        assert OccursAt(s[1..], needle, i - 1);
      }
    }
  }

  /** A string containing `needle` verbatim in its middle contains it. */
  lemma ContainsInMiddle(before: string, needle: string, after: string)
    ensures Contains(before + needle + after, needle)
  {
    var s := before + needle + after;
    assert s[|before|..|before| + |needle|] == needle;
    assert OccursAt(s, needle, |before|);
    ContainsIffOccurs(s, needle);
  }

  /** `needle in text.lower()` is the same as: some window of `text` of the
      keyword's length lower-cases to the keyword. */
  ghost predicate MentionsIgnoringCase(text: string, keyword: string)
  {
    exists i :: 0 <= i <= |text| - |keyword| && LowerWindow(text, i, |keyword|) == keyword
  }

  /** The `n` characters of `text` from index `i`, lower-cased. */
  function LowerWindow(text: string, i: nat, n: nat): string
    requires i + n <= |text|
  {
    Lower(text[i..i + n])
  }

  lemma ContainsLowerIffMentions(text: string, keyword: string)
    ensures Contains(Lower(text), keyword) <==> MentionsIgnoringCase(text, keyword)
  {
    ContainsIffOccurs(Lower(text), keyword);
    if Contains(Lower(text), keyword) {
      var i :| OccursAt(Lower(text), keyword, i);
      LowerOfSlice(text, i, i + |keyword|);
      assert LowerWindow(text, i, |keyword|) == keyword;
    }
    if MentionsIgnoringCase(text, keyword) {
      var i :| 0 <= i <= |text| - |keyword| && LowerWindow(text, i, |keyword|) == keyword;
      LowerOfSlice(text, i, i + |keyword|);
      assert OccursAt(Lower(text), keyword, i);
    }
  }

  /** `os.path.join(dir, name)` on POSIX: an absolute `name` replaces `dir`,
      otherwise one separator is put between them unless `dir` is empty or
      already ends with one. */
  function Join(dir: string, name: string): string
  {
    if StartsWith(name, "/") then name
    else if dir == [] || EndsWith(dir, "/") then dir + name
    else dir + "/" + name
  }

  /** The joined path ends with `name`; a relative `name` keeps `dir` in
      front, with a '/' right before `name` when `dir` is not empty. */
  lemma JoinShape(dir: string, name: string)
    ensures EndsWith(Join(dir, name), name)
    ensures !StartsWith(name, "/") ==> StartsWith(Join(dir, name), dir)
    ensures !StartsWith(name, "/") && dir != [] ==>
      var r := Join(dir, name);
      |name| < |r| && r[|r| - |name| - 1] == '/'
  {
  }

  /** `os.path.basename(p)`: the longest suffix of `p` free of '/'. */
  function Basename(p: string): string
    decreases |p|
  {
    if |p| == 0 || p[|p| - 1] == '/' then ""
    else Basename(p[..|p| - 1]) + [p[|p| - 1]]
  }

  /** The basename is a slash-free suffix that is the whole path or follows
      a '/'. */
  lemma BasenameShape(p: string)
    ensures '/' !in Basename(p)
    ensures EndsWith(p, Basename(p))
    ensures |Basename(p)| < |p| ==> p[|p| - |Basename(p)| - 1] == '/'
  {
    BasenameSlashFree(p);
    BasenameSuffix(p);
    BasenameAfterSlash(p);
  }

  /** No '/' occurs in a basename. */
  lemma {:induction false} BasenameSlashFree(p: string)
    ensures '/' !in Basename(p)
    decreases |p|
  {
    if |p| > 0 && p[|p| - 1] != '/' {
      BasenameSlashFree(p[..|p| - 1]);
    }
  }

  /** A basename is a suffix of the path. */
  lemma {:induction false} BasenameSuffix(p: string)
    ensures EndsWith(p, Basename(p))
    decreases |p|
  {
    if |p| > 0 && p[|p| - 1] != '/' {
      var q := p[..|p| - 1];
      BasenameSuffix(q);
      var b := Basename(q);
      assert p[|p| - |b| - 1..] == q[|q| - |b|..] + [p[|p| - 1]];
    } else {
      assert p[|p|..] == "";
    }
  }

  /** A basename shorter than the path comes right after a '/'. */
  lemma {:induction false} BasenameAfterSlash(p: string)
    ensures |Basename(p)| < |p| ==> p[|p| - |Basename(p)| - 1] == '/'
    decreases |p|
  {
    if |p| > 0 && p[|p| - 1] != '/' {
      var q := p[..|p| - 1];
      BasenameAfterSlash(q);
      assert |Basename(p)| == |Basename(q)| + 1;
    }
  }

  /** The three properties of `Basename` pin it down: any slash-free suffix
      that is the whole string or follows a '/' is the basename. */
  lemma BasenameUnique(p: string, r: string)
    requires '/' !in r && EndsWith(p, r)
    requires |r| < |p| ==> p[|p| - |r| - 1] == '/'
    ensures Basename(p) == r
  {
    BasenameShape(p);
    var b := Basename(p);
    assert |b| == |r|;
  }

  /** The basename of a joined path is the plain name that was joined on. */
  lemma BasenameOfJoin(dir: string, name: string)
    requires '/' !in name
    ensures Basename(Join(dir, name)) == name
  {
    var p := Join(dir, name);
    JoinShape(dir, name);
    if !StartsWith(name, "/") && dir != [] {
      if |name| < |p| {
        assert p[|p| - |name| - 1] == '/';
      }
    } else if !StartsWith(name, "/") {
      assert p == name;
    }
    BasenameUnique(p, name);
  }
}
