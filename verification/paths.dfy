/**
  Path handling of the batch renderer: paths as lists of parts, POSIX-style
  suffix rules, str.replace on the joined path, the ordering Python uses to sort
  paths, and model discovery as filter-and-sort over the entries of the input
  tree.
*/
module Paths {

  /** A relative or absolute POSIX path as the list of its parts ("" first for the root). */
  type Path = seq<string>

  /** str(path): the parts joined by '/'; the empty path prints as ".". */
  function Join(p: Path): string
    decreases |p|
  {
    if p == [] then "."
    else if |p| == 1 then p[0]
    else Join(p[..|p| - 1]) + "/" + p[|p| - 1]
  }

  /** Index of the last `c` in `s`, or -1. */
  function LastIndex(s: string, c: char): (i: int)
    ensures -1 <= i < |s|
    ensures i >= 0 ==> s[i] == c
    ensures forall k :: i < k < |s| ==> s[k] != c
    decreases |s|
  {
    if s == [] then -1
    else if s[|s| - 1] == c then |s| - 1
    else LastIndex(s[..|s| - 1], c)
  }

  /**
    PurePath.suffix of a final component: from its last dot, provided the dot
    is neither the first nor the last character; "" otherwise.
  */
  function Suffix(name: string): string {
    var i := LastIndex(name, '.');
    if 0 < i < |name| - 1 then name[i..] else ""
  }

  /** The name without its suffix. */
  function Stem(name: string): string {
    name[..|name| - |Suffix(name)|]
  }

  /** PurePath.with_suffix on a final component: the stem followed by the new suffix. */
  function WithSuffix(name: string, suffix: string): string {
    Stem(name) + suffix
  }

  /** A suffix with_suffix accepts: a dot followed by at least one character and no further dot. */
  predicate ValidSuffix(s: string) {
    |s| >= 2 && s[0] == '.' && forall k :: 1 <= k < |s| ==> s[k] != '.'
  }

  /** with_suffix and suffix are inverse: the new suffix is read back, and the stem is kept. */
  lemma SuffixOfWithSuffix(name: string, s: string)
    requires |name| > 0 && ValidSuffix(s)
    ensures Suffix(WithSuffix(name, s)) == s
    ensures Stem(WithSuffix(name, s)) == Stem(name)
  {
    var stem := Stem(name);
    var w := stem + s;
    assert |stem| > 0;
    assert w[|stem|] == '.';
    var i := LastIndex(w, '.');
    assert i == |stem|;
    assert w[i..] == s;
  }

  /** The final component of a non-empty path. */
  function Name(p: Path): string
    requires |p| > 0
  {
    p[|p| - 1]
  }

  /** Path.with_suffix: the final component gets the new suffix. */
  function PathWithSuffix(p: Path, suffix: string): (r: Path)
    requires |p| > 0
    ensures |r| == |p| && r[..|p| - 1] == p[..|p| - 1]
    ensures Name(r) == WithSuffix(Name(p), suffix)
  {
    p[..|p| - 1] + [WithSuffix(Name(p), suffix)]
  }

  /** The joined path ends with its final component. */
  lemma JoinEndsWithName(p: Path)
    requires |p| > 0
    ensures EndsWith(Join(p), Name(p))
  {
  }

  /** A path given the suffix ".png" prints as a string ending in ".png". */
  lemma PngPathEndsWithPng(p: Path)
    requires |p| > 0
    ensures EndsWith(Join(PathWithSuffix(p, ".png")), ".png")
  {
    var q := PathWithSuffix(p, ".png");
    JoinEndsWithName(q);
    var j := Join(q);
    assert j[|j| - |Name(q)|..][|Name(q)| - 4..] == ".png";
  }

  /**
    The path string without what PurePath drops at its end: trailing
    separators and trailing "." components ("." alone is the empty path).
  */
  function Trimmed(s: string): (r: string)
    ensures |r| <= |s| && r == s[..|r|]
    ensures forall k :: |r| <= k < |s| ==> s[k] == '/' || s[k] == '.'
    ensures r == [] || (r[|r| - 1] != '/' && r != "." && !EndsWith(r, "/."))
    decreases |s|
  {
    if |s| > 0 && s[|s| - 1] == '/' then Trimmed(s[..|s| - 1])
    else if s == "." then ""
    else if |s| >= 2 && s[|s| - 2..] == "/." then Trimmed(s[..|s| - 1])
    else s
  }

  /**
    Path(s).name: the text after the last separator of the trimmed path, so
    "a/b.obj/" and "a/b.obj/." name "b.obj".
  */
  /** Trimming removes whole components only: a non-empty result is followed by a separator. */
  lemma {:induction false} TrimmedEndsAtSeparator(s: string)
    ensures var r := Trimmed(s); |r| < |s| && r != [] ==> s[|r|] == '/'
    decreases |s|
  {
    if |s| > 0 && (s[|s| - 1] == '/' || (s != "." && |s| >= 2 && s[|s| - 2..] == "/.")) {
      var p := s[..|s| - 1];
      assert Trimmed(s) == Trimmed(p);
      TrimmedEndsAtSeparator(p);
    }
  }

  /**
    Every "." that trimming drops stands alone between separators (or the
    ends of the text), so a "." that is part of a name is kept.
  */
  lemma {:induction false} TrimmedKeepsNames(s: string)
    ensures var r := Trimmed(s);
      forall k :: |r| <= k < |s| && s[k] == '.' ==> (k == 0 || s[k - 1] == '/') && (k == |s| - 1 || s[k + 1] == '/')
    decreases |s|
  {
    var r := Trimmed(s);
    if |s| > 0 && (s[|s| - 1] == '/' || (s != "." && |s| >= 2 && s[|s| - 2..] == "/.")) {
      var p := s[..|s| - 1];
      assert r == Trimmed(p);
      TrimmedKeepsNames(p);
      forall k | |r| <= k < |s| && s[k] == '.'
        ensures (k == 0 || s[k - 1] == '/') && (k == |s| - 1 || s[k + 1] == '/')
      {
        if k < |p| {
          assert p[k] == '.';
          if k + 1 < |p| {
            assert s[k + 1] == p[k + 1];
          }
        } else {
          assert s[|s| - 2..] == "/.";
        }
      }
    }
  }

  /** "x." keeps its dot, and a ".." component is kept whole. */
  lemma TrimmedExamples()
    ensures Trimmed("x.") == "x."
    ensures Trimmed("a/..") == "a/.."
  {
    var xd, up := "x.", "a/..";
    assert xd[|xd| - 2..] != "/.";
    assert up[|up| - 2..] != "/.";
  }

  function NameOf(s: string): (r: string)
    ensures '/' !in r
  {
    var t := Trimmed(s);
    t[LastIndex(t, '/') + 1..]
  }

  /**
    The name is the last component of the trimmed path: the trimmed path
    ends with it, and a "/" comes just before it unless it is all of it.
  */
  lemma NameOfIsLastComponent(s: string)
    ensures var t, r := Trimmed(s), NameOf(s);
      && EndsWith(t, r)
      && (|r| < |t| ==> t[|t| - |r| - 1] == '/')
  {
    var t := Trimmed(s);
    var i := LastIndex(t, '/');
    assert NameOf(s) == t[i + 1..];
  }

  /** The name is the text after the last separator. */
  lemma NameOfPlain()
    ensures NameOf("a/b") == "b"
    ensures NameOf("/") == ""
  {
    assert LastIndex("a/b", '/') == 1;
  }

  /** A trailing separator or "." component does not change the name. */
  lemma NameOfTrailing(s: string)
    ensures NameOf(s + "/") == NameOf(s)
    ensures NameOf(s + "/.") == NameOf(s)
  {
    var slash, dot := s + "/", s + "/.";
    assert slash[..|slash| - 1] == s;
    assert dot[..|dot| - 1] == slash && dot[|dot| - 2..] == "/.";
    assert Trimmed(slash) == Trimmed(s);
    assert Trimmed(dot) == Trimmed(slash);
  }

  function LowerChar(c: char): char {
    if 'A' <= c <= 'Z' then (c as int - 'A' as int + 'a' as int) as char else c
  }

  /** str.lower on ASCII letters. */
  function Lower(s: string): (r: string)
    ensures |r| == |s|
    ensures forall k :: 0 <= k < |s| ==> r[k] == LowerChar(s[k])
  {
    seq(|s|, k requires 0 <= k < |s| => LowerChar(s[k]))
  }

  predicate EndsWith(s: string, suffix: string) {
    |suffix| <= |s| && s[|s| - |suffix|..] == suffix
  }

  /** str.replace(pat, rep): every non-overlapping occurrence, scanning left to right. */
  function ReplaceAll(s: string, pat: string, rep: string): string
    requires |pat| > 0
    decreases |s|
  {
    if |s| < |pat| then s
    else if s[..|pat|] == pat then rep + ReplaceAll(s[|pat|..], pat, rep)
    else [s[0]] + ReplaceAll(s[1..], pat, rep)
  }

  /** `pat` occurs in `s` starting at index k. */
  predicate MatchAt(s: string, pat: string, k: int) {
    0 <= k && k + |pat| <= |s| && s[k..k + |pat|] == pat
  }

  /** Replacing by a text at least as long never shortens the string. */
  lemma {:induction false} ReplaceNoShorter(s: string, pat: string, rep: string)
    requires |pat| > 0 && |rep| >= |pat|
    ensures |ReplaceAll(s, pat, rep)| >= |s|
    decreases |s|
  {
    if |s| >= |pat| {
      if s[..|pat|] == pat {
        ReplaceNoShorter(s[|pat|..], pat, rep);
      } else {
        ReplaceNoShorter(s[1..], pat, rep);
      }
    }
  }

  /** With an occurrence of the pattern and a longer replacement, the string grows. */
  lemma {:induction false} ReplaceGrows(s: string, pat: string, rep: string, k: int)
    requires |pat| > 0 && |rep| > |pat| && MatchAt(s, pat, k)
    ensures |ReplaceAll(s, pat, rep)| > |s|
    decreases |s|
  {
    if s[..|pat|] == pat {
      ReplaceNoShorter(s[|pat|..], pat, rep);
    } else {
      assert k != 0;
      assert s[1..][k - 1..k - 1 + |pat|] == s[k..k + |pat|];
      ReplaceGrows(s[1..], pat, rep, k - 1);
    }
  }

  /** `pat` ends `s` and occurs nowhere else in it. */
  predicate OnlyAtEnd(s: string, pat: string) {
    && EndsWith(s, pat)
    && forall k :: 0 <= k < |s| - |pat| ==> !MatchAt(s, pat, k)
  }

  /** Dropping the first character of a longer string keeps the pattern at its end only. */
  lemma OnlyAtEndTail(s: string, pat: string)
    requires OnlyAtEnd(s, pat) && |s| > |pat|
    ensures OnlyAtEnd(s[1..], pat)
  {
    var t := s[1..];
    forall k | 0 <= k < |t| - |pat|
      ensures !MatchAt(t, pat, k)
    {
      assert !MatchAt(s, pat, k + 1);
      assert t[k..k + |pat|] == s[k + 1..k + 1 + |pat|];
    }
    assert t[|t| - |pat|..] == s[|s| - |pat|..];
  }

  /** When the pattern occurs only at the end, str.replace rewrites just that occurrence. */
  lemma {:induction false} ReplaceAtEnd(s: string, pat: string, rep: string)
    requires |pat| > 0 && OnlyAtEnd(s, pat)
    ensures ReplaceAll(s, pat, rep) == s[..|s| - |pat|] + rep
    decreases |s|
  {
    if |s| == |pat| {
      assert s[..|pat|] == pat by { assert s[..|pat|] == s[|s| - |pat|..]; }
      assert ReplaceAll(s[|pat|..], pat, rep) == [];
    } else {
      var t := s[1..];
      assert s[..|pat|] != pat by { assert !MatchAt(s, pat, 0); }
      assert ReplaceAll(s, pat, rep) == [s[0]] + ReplaceAll(t, pat, rep);
      OnlyAtEndTail(s, pat);
      ReplaceAtEnd(t, pat, rep);
      assert s[..|s| - |pat|] == [s[0]] + t[..|t| - |pat|];
    }
  }

  /** A filename suffix inserted before ".png" by the rotation loop: "" or '_' and no dot. */
  predicate RotationSuffix(sfx: string) {
    sfx == "" || (sfx[0] == '_' && '.' !in sfx)
  }

  /** Inserting a rotation suffix before the final ".png" creates no new ".png". */
  lemma SuffixedOnlyAtEnd(stem: string, sfx: string)
    requires OnlyAtEnd(stem + ".png", ".png") && RotationSuffix(sfx)
    ensures OnlyAtEnd(stem + sfx + ".png", ".png")
  {
    var f := stem + ".png";
    var g := stem + sfx + ".png";
    assert g[|g| - 4..] == ".png";
    if sfx == "" {
      assert g == f;
      return;
    }
    forall k | 0 <= k < |g| - 4
      ensures !MatchAt(g, ".png", k)
    {
      if k + 4 <= |stem| {
        assert !MatchAt(f, ".png", k);
        assert g[k..k + 4] == f[k..k + 4];
      } else if k < |stem| {
        assert g[|stem|] == sfx[0] == '_';
        assert g[k..k + 4][|stem| - k] == '_';
      } else {
        assert g[k] == sfx[k - |stem|];
        assert g[k..k + 4][0] == g[k];
      }
    }
  }

  /** The image path of one rotation: every ".png" becomes suffix + ".png". */
  function RotatedPath(outputFile: string, sfx: string): string {
    ReplaceAll(outputFile, ".png", sfx + ".png")
  }

  /** A rotated path is never the path it was made from, when that ends in ".png" and the suffix is not empty. */
  lemma RotatedDiffers(outputFile: string, sfx: string)
    requires EndsWith(outputFile, ".png") && |sfx| > 0
    ensures RotatedPath(outputFile, sfx) != outputFile
  {
    ReplaceGrows(outputFile, ".png", sfx + ".png", |outputFile| - 4);
  }

  /** The sidecar metadata path: every ".png" becomes ".json". */
  function MetadataPath(imagePath: string): string {
    ReplaceAll(imagePath, ".png", ".json")
  }

  /**
    When ".png" occurs only at the end of the output file, the rotated image is
    the stem plus suffix plus ".png", and its metadata sits beside it with the
    same stem, suffix and ".json".
  */
  lemma SidecarPaths(outputFile: string, sfx: string)
    requires OnlyAtEnd(outputFile, ".png") && RotationSuffix(sfx)
    ensures var stem := outputFile[..|outputFile| - 4];
      && RotatedPath(outputFile, sfx) == stem + sfx + ".png"
      && MetadataPath(RotatedPath(outputFile, sfx)) == stem + sfx + ".json"
  {
    var stem := outputFile[..|outputFile| - 4];
    assert outputFile == stem + ".png";
    ReplaceAtEnd(outputFile, ".png", sfx + ".png");
    assert stem + (sfx + ".png") == stem + sfx + ".png";
    SuffixedOnlyAtEnd(stem, sfx);
    ReplaceAtEnd(stem + sfx + ".png", ".png", ".json");
    assert (stem + sfx + ".png")[..|stem + sfx + ".png"| - 4] == stem + sfx;
  }

  // ---------------------------------------------------------------------------
  // Ordering and discovery
  // ---------------------------------------------------------------------------

  /** Python string comparison: lexicographic by code point. */
  predicate StrLe(a: string, b: string)
    decreases |a|
  {
    if a == [] then true
    else if b == [] then false
    else if a[0] != b[0] then a[0] < b[0]
    else StrLe(a[1..], b[1..])
  }

  lemma {:induction false} StrLeTotal(a: string, b: string)
    ensures StrLe(a, b) || StrLe(b, a)
    decreases |a|
  {
    if a != [] && b != [] && a[0] == b[0] {
      StrLeTotal(a[1..], b[1..]);
    }
  }

  lemma {:induction false} StrLeAntisymmetric(a: string, b: string)
    requires StrLe(a, b) && StrLe(b, a)
    ensures a == b
    decreases |a|
  {
    if a != [] && b != [] {
      StrLeAntisymmetric(a[1..], b[1..]);
      assert a == [a[0]] + a[1..] && b == [b[0]] + b[1..];
    }
  }

  lemma {:induction false} StrLeTransitive(a: string, b: string, c: string)
    requires StrLe(a, b) && StrLe(b, c)
    ensures StrLe(a, c)
    decreases |a|
  {
    if a != [] && b != [] && c != [] && a[0] == b[0] && b[0] == c[0] {
      StrLeTransitive(a[1..], b[1..], c[1..]);
    }
  }

  /** Python path comparison: lexicographic over the parts. */
  predicate PathLe(a: Path, b: Path)
    decreases |a|
  {
    if a == [] then true
    else if b == [] then false
    else if a[0] != b[0] then StrLe(a[0], b[0])
    else PathLe(a[1..], b[1..])
  }

  lemma {:induction false} PathLeTotal(a: Path, b: Path)
    ensures PathLe(a, b) || PathLe(b, a)
    decreases |a|
  {
    if a != [] && b != [] {
      if a[0] == b[0] {
        PathLeTotal(a[1..], b[1..]);
      } else {
        StrLeTotal(a[0], b[0]);
      }
    }
  }

  lemma {:induction false} PathLeTransitive(a: Path, b: Path, c: Path)
    requires PathLe(a, b) && PathLe(b, c)
    ensures PathLe(a, c)
    decreases |a|
  {
    if a != [] && b != [] && c != [] {
      if a[0] == b[0] && b[0] == c[0] {
        PathLeTransitive(a[1..], b[1..], c[1..]);
      } else if a[0] != b[0] && b[0] != c[0] {
        StrLeTransitive(a[0], b[0], c[0]);
        if a[0] == c[0] {
          StrLeAntisymmetric(a[0], b[0]);
        }
      }
    }
  }

  predicate Sorted(s: seq<Path>) {
    forall i, j :: 0 <= i < j < |s| ==> PathLe(s[i], s[j])
  }

  /** Insert into a sorted list, before the first element not below it. */
  function Insert(p: Path, s: seq<Path>): (r: seq<Path>)
    ensures multiset(r) == multiset(s) + multiset{p}
    decreases |s|
  {
    if s == [] then [p]
    else if PathLe(p, s[0]) then [p] + s
    else assert s == [s[0]] + s[1..]; [s[0]] + Insert(p, s[1..])
  }

  lemma {:induction false} InsertSorted(p: Path, s: seq<Path>)
    requires Sorted(s)
    ensures Sorted(Insert(p, s))
    decreases |s|
  {
    if s == [] {
    } else if PathLe(p, s[0]) {
      forall j | 0 <= j < |s| ensures PathLe(p, s[j]) {
        if j > 0 { PathLeTransitive(p, s[0], s[j]); }
      }
    } else {
      var tail := Insert(p, s[1..]);
      InsertSorted(p, s[1..]);
      PathLeTotal(p, s[0]);
      forall j | 0 <= j < |tail| ensures PathLe(s[0], tail[j]) {
        assert tail[j] in multiset(tail);
        if tail[j] != p {
          assert tail[j] in multiset(s[1..]);
          var k :| 0 <= k < |s[1..]| && s[1..][k] == tail[j];
          assert s[k + 1] == tail[j];
        }
      }
    }
  }

  /** sorted(): insertion sort, a permutation of its input. */
  function SortPaths(s: seq<Path>): (r: seq<Path>)
    ensures multiset(r) == multiset(s)
    decreases |s|
  {
    if s == [] then []
    else assert s == [s[0]] + s[1..]; Insert(s[0], SortPaths(s[1..]))
  }

  lemma {:induction false} SortPathsSorted(s: seq<Path>)
    ensures Sorted(SortPaths(s))
    decreases |s|
  {
    if s != [] {
      SortPathsSorted(s[1..]);
      InsertSorted(s[0], SortPaths(s[1..]));
    }
  }

  /** The entries matched by rglob("*" + fmt): those whose name ends with fmt, in order. */
  function Matches(entries: seq<Path>, fmt: string): (r: seq<Path>)
    requires forall e :: e in entries ==> |e| > 0
    ensures forall p :: p in r <==> p in entries && EndsWith(Name(p), fmt)
    decreases |entries|
  {
    if entries == [] then []
    else
      var last := entries[|entries| - 1];
      Matches(entries[..|entries| - 1], fmt) + (if EndsWith(Name(last), fmt) then [last] else [])
  }

  /** Every format's matches, one format after another, before sorting. */
  function Discovered(entries: seq<Path>, formats: seq<string>): seq<Path>
    requires forall e :: e in entries ==> |e| > 0
    decreases |formats|
  {
    if formats == [] then []
    else Discovered(entries, formats[..|formats| - 1]) + Matches(entries, formats[|formats| - 1])
  }

  /** An entry is discovered when its name ends with one of the formats. */
  lemma {:induction false} DiscoveredMembers(entries: seq<Path>, formats: seq<string>, p: Path)
    requires forall e :: e in entries ==> |e| > 0
    ensures p in Discovered(entries, formats) <==>
      p in entries && exists f :: f in formats && EndsWith(Name(p), f)
    decreases |formats|
  {
    if formats != [] {
      var init := formats[..|formats| - 1];
      DiscoveredMembers(entries, init, p);
      if p in entries && exists f :: f in formats && EndsWith(Name(p), f) {
        var f :| f in formats && EndsWith(Name(p), f);
        if f != formats[|formats| - 1] {
          assert f in init;
        }
      }
    }
  }

  /** What find_models returns: the per-format matches, sorted. */
  function FoundModels(entries: seq<Path>, formats: seq<string>): (r: seq<Path>)
    requires forall e :: e in entries ==> |e| > 0
    ensures forall i :: 0 <= i < |r| ==> |r[i]| > 0
  {
    var r := SortPaths(Discovered(entries, formats));
    assert forall i :: 0 <= i < |r| ==> |r[i]| > 0 by {
      forall i | 0 <= i < |r| ensures |r[i]| > 0 {
        assert r[i] in multiset(r);
        DiscoveredMembers(entries, formats, r[i]);
      }
    }
    r
  }

  /**
    The models found are sorted, a permutation of the per-format matches (an
    entry matched by two formats appears twice), and hold exactly the entries
    whose name ends with some format.
  */
  lemma FoundModelsSpec(entries: seq<Path>, formats: seq<string>)
    requires forall e :: e in entries ==> |e| > 0
    ensures Sorted(FoundModels(entries, formats))
    ensures multiset(FoundModels(entries, formats)) == multiset(Discovered(entries, formats))
    ensures forall p :: p in FoundModels(entries, formats) <==>
      p in entries && exists f :: f in formats && EndsWith(Name(p), f)
  {
    var found := Discovered(entries, formats);
    var models := FoundModels(entries, formats);
    SortPathsSorted(found);
    forall p ensures p in models <==> p in entries && exists f :: f in formats && EndsWith(Name(p), f) {
      assert p in models <==> p in multiset(found);
      DiscoveredMembers(entries, formats, p);
    }
  }

  /** find_models: extends the list with each format's matches in turn and returns it sorted. */
  method FindModels(entries: seq<Path>, formats: seq<string>) returns (models: seq<Path>)
    requires forall e :: e in entries ==> |e| > 0
    ensures models == FoundModels(entries, formats)
  {
    var found: seq<Path> := [];
    var i := 0;
    while i < |formats|
      invariant 0 <= i <= |formats|
      invariant found == Discovered(entries, formats[..i])
    {
      assert formats[..i + 1][..i] == formats[..i];
      found := found + Matches(entries, formats[i]);
      i := i + 1;
    }
    assert formats[..i] == formats;
    models := SortPaths(found);
  }
}
