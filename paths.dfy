/** The part of POSIX `pathlib` the recorder relies on: parsing a path into
    its components, `is_absolute`, `name`, `suffix`, `with_suffix`, `/` with a
    plain name, and `str(path)`. */
module Paths {
  import opened Common
  import opened Text

  datatype PathError =
    | InvalidSuffix(suffix: string)
    | EmptyName(path: string)

  /** A component pathlib keeps: not empty, not ".", no separator. */
  predicate CleanPart(part: string)
  {
    part != "" && part != "." && '/' !in part
  }

  predicate AllClean(parts: seq<string>)
  {
    forall i :: 0 <= i < |parts| ==> CleanPart(parts[i])
  }

  /** Drops the empty and "." pieces of a split path. */
  function Clean(pieces: seq<string>): (r: seq<string>)
    requires forall i :: 0 <= i < |pieces| ==> '/' !in pieces[i]
    ensures AllClean(r)
  {
    if pieces == [] then []
    else if pieces[0] == "" || pieces[0] == "." then Clean(pieces[1..])
    else [pieces[0]] + Clean(pieces[1..])
  }

  lemma {:induction false} CleanKeepsClean(parts: seq<string>)
    requires AllClean(parts)
    ensures Clean(parts) == parts
  {
    if parts != [] {
      CleanKeepsClean(parts[1..]);
    }
  }

  /** The components of a path, as pathlib parses them. */
  function Parts(p: string): (r: seq<string>)
    ensures AllClean(r)
  {
    SplitPiecesLackSeparator(p, '/');
    Clean(Split(p, '/'))
  }

  /** PurePosixPath.is_absolute. */
  predicate IsAbsolute(p: string)
  {
    |p| > 0 && p[0] == '/'
  }

  /** str() of a path with the given root and components. */
  function Render(absolute: bool, parts: seq<string>): string
  {
    if absolute then "/" + Join(parts, '/')
    else if parts == [] then "."
    else Join(parts, '/')
  }

  /** str(Path(p)). */
  function Normalize(p: string): string
  {
    Render(IsAbsolute(p), Parts(p))
  }

  /** Path.name: the last component, or "" when there is none. */
  function Name(p: string): (r: string)
    ensures r == "" || CleanPart(r)
  {
    var parts := Parts(p);
    if parts == [] then "" else parts[|parts| - 1]
  }

  /** Position of the last occurrence of c in s (str.rfind), or -1. */
  function LastIndexOf(s: string, c: char): (i: int)
    ensures -1 <= i < |s|
    ensures i >= 0 ==> s[i] == c
    ensures forall j :: i < j < |s| ==> s[j] != c
  {
    if s == [] then -1
    else if s[|s| - 1] == c then |s| - 1
    else LastIndexOf(s[..|s| - 1], c)
  }

  /** Path.suffix of a component: from its last dot, unless that dot opens or
      ends the name. */
  function Suffix(name: string): (r: string)
    ensures r == "" || (|r| >= 2 && r[0] == '.' && '.' !in r[1..])
    ensures |r| < |name| || r == ""
  {
    var i := LastIndexOf(name, '.');
    if 0 < i < |name| - 1 then name[i..] else ""
  }

  /** A suffix with_suffix accepts. */
  predicate ValidSuffix(suffix: string)
  {
    '/' !in suffix && (suffix == "" || suffix[0] == '.') && suffix != "."
  }

  /** The name that with_suffix gives the last component. */
  function Resuffixed(name: string, suffix: string): string
  {
    var current := Suffix(name);
    if current == "" then name + suffix else name[..|name| - |current|] + suffix
  }

  /** str(Path(p).with_suffix(suffix)). */
  function WithSuffix(p: string, suffix: string): Result<string, PathError>
  {
    if !ValidSuffix(suffix) then Err(InvalidSuffix(suffix))
    else
      var parts := Parts(p);
      if parts == [] then Err(EmptyName(p))
      else Ok(Render(IsAbsolute(p), parts[..|parts| - 1] + [Resuffixed(parts[|parts| - 1], suffix)]))
  }

  /** str(Path(base) / name) for a single component name. */
  function Child(base: string, name: string): string
  {
    Render(IsAbsolute(base), Parts(base) + Parts(name))
  }

  /** Printing clean components and parsing them again gives them back. */
  lemma PartsOfRender(absolute: bool, parts: seq<string>)
    requires AllClean(parts)
    ensures Parts(Render(absolute, parts)) == parts
    ensures IsAbsolute(Render(absolute, parts)) == absolute
  {
    SplitPiecesLackSeparator(Render(absolute, parts), '/');
    var joined := Join(parts, '/');
    var pieces := if parts == [] then [""] else parts;
    if parts != [] {
      assert forall i :: 0 <= i < |parts| ==> '/' !in parts[i];
      SplitJoin(parts, '/');
    }
    assert Split(joined, '/') == pieces;
    CleanKeepsClean(parts);
    if absolute {
      var s := "/" + joined;
      assert s[1..] == joined;
      assert Split(s, '/') == [""] + pieces;
      assert ([""] + pieces)[1..] == pieces;
    } else if parts == [] {
      SplitWithoutSeparator(".", '/');
    } else {
      assert joined[0] == parts[0][0];
    }
  }

  /** The new last component keeps every property of a clean component and
      carries exactly the requested suffix. */
  lemma ResuffixedHasSuffix(name: string, suffix: string)
    requires CleanPart(name)
    requires |suffix| >= 2 && suffix[0] == '.' && '.' !in suffix[1..] && '/' !in suffix
    ensures CleanPart(Resuffixed(name, suffix))
    ensures Suffix(Resuffixed(name, suffix)) == suffix
  {
    var current := Suffix(name);
    var stem := if current == "" then name else name[..|name| - |current|];
    assert |stem| > 0;
    var r := stem + suffix;
    assert Resuffixed(name, suffix) == r;
    assert r[|stem|] == '.';
    assert forall j :: |stem| < j < |r| ==> r[j] == suffix[j - |stem|];
    assert LastIndexOf(r, '.') == |stem|;
    assert r[|stem|..] == suffix;
  }

  /** with_suffix changes only the last component, which then has the new suffix. */
  lemma WithSuffixSetsSuffix(p: string, suffix: string)
    requires |suffix| >= 2 && suffix[0] == '.' && '.' !in suffix[1..] && '/' !in suffix
    requires Parts(p) != []
    ensures WithSuffix(p, suffix).Ok?
    ensures Suffix(Name(WithSuffix(p, suffix).value)) == suffix
    ensures IsAbsolute(WithSuffix(p, suffix).value) == IsAbsolute(p)
    ensures Parts(WithSuffix(p, suffix).value) == Parts(p)[..|Parts(p)| - 1] + [Name(WithSuffix(p, suffix).value)]
  {
    var parts := Parts(p);
    var n := |parts|;
    var last := Resuffixed(parts[n - 1], suffix);
    var newParts := parts[..n - 1] + [last];
    var q := Render(IsAbsolute(p), newParts);
    assert WithSuffix(p, suffix).value == q by {
      assert ValidSuffix(suffix);
    }
    ResuffixedHasSuffix(parts[n - 1], suffix);
    assert AllClean(newParts) by {
      forall i | 0 <= i < |newParts| ensures CleanPart(newParts[i]) {
        if i < n - 1 {
          assert newParts[i] == parts[i];
        }
      }
    }
    PartsOfRender(IsAbsolute(p), newParts);
    assert Name(q) == last;
  }
}
