/**
 * `java.nio.file.Paths.get` and `Path.getFileName` as the default (Unix) file system
 * provider implements them under a path encoding that maps every character (UTF-8): a
 * string is then an invalid path exactly when it contains a NUL character; otherwise it is split at '/', redundant and trailing separators are dropped,
 * and a leading '/' makes the path absolute.  The file system itself is an oracle.
 */
module Paths {
  import opened Wrappers
  import opened Exceptions

  const Separator: char := '/'
  const Nul: char := 0 as char

  /** A parsed path: whether it is absolute, and its name elements in order. */
  datatype Path = Path(absolute: bool, names: seq<string>)

  /** A single name element: non-empty, without separator and without NUL. */
  predicate IsName(n: string)
  {
    n != [] && Separator !in n && Nul !in n
  }

  predicate WellFormed(p: Path)
  {
    forall i :: 0 <= i < |p.names| ==> IsName(p.names[i])
  }

  /** Length of the leading run of characters that are not separators. */
  function NameLength(s: string): (n: nat)
    ensures n <= |s|
    ensures forall i :: 0 <= i < n ==> s[i] != Separator
    ensures n < |s| ==> s[n] == Separator
  {
    if s == [] || s[0] == Separator then 0 else 1 + NameLength(s[1..])
  }

  /** The non-empty pieces of `s` between separators, in order. */
  function Names(s: string): (r: seq<string>)
    ensures forall i :: 0 <= i < |r| ==> r[i] != [] && Separator !in r[i]
    ensures Nul !in s ==> forall i :: 0 <= i < |r| ==> Nul !in r[i]
    decreases |s|
  {
    if s == [] then []
    else if s[0] == Separator then Names(s[1..])
    else
      var n := NameLength(s);
      assert Nul !in s ==> Nul !in s[..n];
      [s[..n]] + Names(s[n..])
  }

  /** `Paths.get(s)`. */
  function Parse(s: string): (r: Result<Path, Error>)
    ensures r.Ok? <==> Nul !in s
    ensures r.Ok? ==> WellFormed(r.value)
    ensures r.Ok? ==> (r.value.absolute <==> s != [] && s[0] == Separator)
    ensures r.Err? ==> r.error.InvalidPath?
  {
    if Nul in s then Err(InvalidPath("Nul character not allowed: " + s))
    else Ok(Path(s != [] && s[0] == Separator, Names(s)))
  }

  /** The name elements joined by single separators. */
  function Join(names: seq<string>): string
  {
    if names == [] then []
    else if |names| == 1 then names[0]
    else names[0] + [Separator] + Join(names[1..])
  }

  /** `Path.toString()`: the normalised string form of a path. */
  function Render(p: Path): string
  {
    (if p.absolute then [Separator] else []) + Join(p.names)
  }

  /**
   * `Path.getFileName()`: the last name element; the empty path names itself, and the
   * root directory has no file name (Java returns null).
   */
  function FileName(p: Path): (r: Option<string>)
    ensures r.None? <==> p.absolute && p.names == []
    ensures p.names != [] ==> r == Some(p.names[|p.names| - 1])
    ensures !p.absolute && p.names == [] ==> r == Some([])
    ensures WellFormed(p) && p.names != [] ==> r.Some? && IsName(r.value)
  {
    if p.names != [] then Some(p.names[|p.names| - 1])
    else if p.absolute then None
    else Some([])
  }

  lemma {:induction false} NameLengthOfName(n: string, t: string)
    requires Separator !in n
    requires t == [] || t[0] == Separator
    ensures NameLength(n + t) == |n|
    decreases |n|
  {
    if n == [] {
    } else {
      assert (n + t)[1..] == n[1..] + t;
      NameLengthOfName(n[1..], t);
    }
  }

  /** A name followed by a separator (or by nothing) is split off as the first name. */
  lemma NamesOfNameThen(n: string, t: string)
    requires n != [] && Separator !in n
    requires t == [] || t[0] == Separator
    ensures Names(n + t) == [n] + Names(t)
  {
    NameLengthOfName(n, t);
    assert (n + t)[..|n|] == n;
    assert (n + t)[|n|..] == t;
  }

  /** Splitting distributes over a separator: the key step of the round trip. */
  lemma {:induction false} NamesAround(a: string, b: string)
    ensures Names(a + [Separator] + b) == Names(a) + Names(b)
    decreases |a|
  {
    var s := a + [Separator] + b;
    if a == [] {
      assert s[1..] == b;
    } else if a[0] == Separator {
      assert s[1..] == a[1..] + [Separator] + b;
      NamesAround(a[1..], b);
    } else {
      var k := NameLength(a);
      var n, rest := a[..k], a[k..];
      assert a == n + rest;
      assert s == n + (rest + [Separator] + b);
      NamesOfNameThen(n, rest + [Separator] + b);
      NamesOfNameThen(n, rest);
      NamesAround(rest, b);
    }
  }

  lemma NamesOfName(n: string)
    requires IsName(n)
    ensures Names(n) == [n]
  {
    NameLengthOfName(n, []);
    assert n + [] == n;
    assert n[..|n|] == n && n[|n|..] == [];
  }

  lemma {:induction false} NamesOfJoin(names: seq<string>)
    requires forall i :: 0 <= i < |names| ==> IsName(names[i])
    ensures Names(Join(names)) == names
  {
    if names == [] {
    } else if |names| == 1 {
      NamesOfName(names[0]);
    } else {
      NamesAround(names[0], Join(names[1..]));
      NamesOfName(names[0]);
      NamesOfJoin(names[1..]);
      assert names == [names[0]] + names[1..];
    }
  }

  lemma {:induction false} JoinHasNoNul(names: seq<string>)
    requires forall i :: 0 <= i < |names| ==> IsName(names[i])
    ensures Nul !in Join(names)
    ensures names != [] ==> names[0] <= Join(names)
  {
    if |names| > 1 {
      JoinHasNoNul(names[1..]);
      assert Join(names) == names[0] + ([Separator] + Join(names[1..]));
    }
  }

  /** Parsing the string form of a well-formed path gives the path back. */
  lemma ParseRender(p: Path)
    requires WellFormed(p)
    ensures Parse(Render(p)) == Ok(p)
  {
    JoinHasNoNul(p.names);
    NamesOfJoin(p.names);
    var s := Render(p);
    assert Nul !in s;
    if p.absolute {
      assert s == [] + [Separator] + Join(p.names);
      NamesAround([], Join(p.names));
    } else {
      assert s == Join(p.names);
      if p.names != [] {
        assert p.names[0] <= s;
        assert s[0] == p.names[0][0];
      }
    }
  }

  /** Normalisation is idempotent: re-parsing the string form of a parsed path changes nothing. */
  lemma ParseIdempotent(s: string)
    requires Parse(s).Ok?
    ensures Parse(Render(Parse(s).value)) == Parse(s)
  {
    ParseRender(Parse(s).value);
  }

  /** A string made only of separators has no name elements. */
  lemma {:induction false} NamesOfSeparators(trail: string)
    requires forall i :: 0 <= i < |trail| ==> trail[i] == Separator
    ensures Names(trail) == []
    decreases |trail|
  {
    if trail != [] {
      NamesOfSeparators(trail[1..]);
    }
  }

  /** An optional directory followed by a separator, then a name, then only separators. */
  function ChildPath(dir: Option<string>, name: string, trail: string): string
  {
    (if dir.Some? then dir.value + [Separator] else []) + name + trail
  }

  /**
   * The file name of `name`, of `dir/name`, and of either with trailing separators, is
   * `name`, whatever the directory part is.
   */
  lemma FileNameOfChild(dir: Option<string>, name: string, trail: string)
    requires dir.Some? ==> Nul !in dir.value
    requires IsName(name)
    requires forall i :: 0 <= i < |trail| ==> trail[i] == Separator
    ensures Parse(ChildPath(dir, name, trail)).Ok?
    ensures FileName(Parse(ChildPath(dir, name, trail)).value) == Some(name)
  {
    NamesOfSeparators(trail);
    assert trail == [] || trail[0] == Separator;
    NamesOfNameThen(name, trail);
    assert Names(name + trail) == [name];
    assert Nul !in name + trail by {
      forall i | 0 <= i < |name + trail|
        ensures (name + trail)[i] != Nul
      {
        if i >= |name| {
          assert (name + trail)[i] == trail[i - |name|];
        }
      }
    }
    if dir.Some? {
      assert ChildPath(dir, name, trail) == dir.value + [Separator] + (name + trail);
      NamesAround(dir.value, name + trail);
    } else {
      assert ChildPath(dir, name, trail) == name + trail;
    }
  }

  /** What `Files.notExists` and `Files.isReadable` can learn about a path. */
  datatype FileStatus =
    | Missing                  // confirmed not to exist
    | Unknown                  // existence cannot be determined
    | Present(readable: bool)

  /** The file system, consulted through `Files`. */
  type FileSystem = Path -> FileStatus

  /** `Files.notExists(p)`. */
  predicate NotExists(fs: FileSystem, p: Path)
  {
    fs(p) == Missing
  }

  /** `Files.isReadable(p)`: true only for a file known to exist and be readable. */
  predicate IsReadable(fs: FileSystem, p: Path)
  {
    fs(p) == Present(true)
  }
}
