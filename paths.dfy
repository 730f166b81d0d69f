/**
 * `pathlib.Path` values and the read-only view of the filesystem that
 * validation rules, schemas and runner helpers query.
 */
module Paths {
  import opened Options
  import opened Exceptions
  import Strings

  /** A path as the list of its parts; an absolute path starts with the empty part. */
  type Path = seq<string>

  /** `p / name`. */
  function Child(p: Path, name: string): (r: Path)
    ensures |r| == |p| + 1 && r[..|p|] == p && r[|p|] == name
  {
    p + [name]
  }

  /**
   * `p.parent`: the path without its last part. The empty path (`Path(".")`)
   * and the root are their own parents.
   */
  function Parent(p: Path): (r: Path)
    ensures p != [] && p != [""] ==> Child(r, Name(p)) == p
    ensures p == [] || p == [""] ==> r == p
  {
    if p == [] || p == [""] then p else p[..|p| - 1]
  }

  /** `p.name`: the last part, empty for the empty path and the root. */
  function Name(p: Path): string
  {
    if p == [] then "" else p[|p| - 1]
  }

  /** `str(p)`: the parts joined by `/`; the empty path is "." and the root "/". */
  function PathString(p: Path): string
  {
    if p == [] then "." else if p == [""] then "/" else Strings.Join(p, "/")
  }

  /**
   * The paths `pathlib` produces: no part holds a `/` or is ".", and only the
   * first part, the root of an absolute path, may be empty.
   */
  predicate Normal(p: Path)
  {
    forall i :: 0 <= i < |p| ==> '/' !in p[i] && p[i] != "." && (p[i] == "" ==> i == 0)
  }

  /** Parts that are neither empty nor "." and hold no `/`. */
  predicate Plain(q: seq<string>)
  {
    forall i :: 0 <= i < |q| ==> '/' !in q[i] && q[i] != "" && q[i] != "."
  }

  /** The pieces of `s` between its `/` separators, empty ones included: "a//b" has three. */
  function Segments(s: string): (r: seq<string>)
    ensures |r| >= 1
    ensures forall i :: 0 <= i < |r| ==> '/' !in r[i]
    ensures Strings.Join(r, "/") == s
    decreases |s|
  {
    var (head, found, tail) := Strings.Partition(s, '/');
    if found then
      var rest := Segments(tail);
      assert ([head] + rest)[1..] == rest;
      [head] + rest
    else [head]
  }

  /** The pieces `Path(s)` keeps: empty pieces and "." are dropped. */
  function Kept(pieces: seq<string>): (r: seq<string>)
    ensures forall i :: 0 <= i < |r| ==> r[i] != "" && r[i] != "."
    ensures (forall i :: 0 <= i < |pieces| ==> '/' !in pieces[i]) ==> forall i :: 0 <= i < |r| ==> '/' !in r[i]
    ensures Plain(pieces) ==> r == pieces
  {
    if pieces == [] then []
    else
      var rest := Kept(pieces[1..]);
      if pieces[0] == "" || pieces[0] == "." then rest else [pieces[0]] + rest
  }

  /**
   * `Path(s)` for a string: the pieces between the separators without the
   * empty ones and ".", after the root when `s` starts with `/`.
   */
  function ParsePath(s: string): (p: Path)
    ensures Normal(p)
    ensures (p != [] && p[0] == "") <==> (|s| > 0 && s[0] == '/')
  {
    (if |s| > 0 && s[0] == '/' then [""] else []) + Kept(Segments(s))
  }

  /**
   * `p / name` as `pathlib` computes it: an absolute name replaces the path;
   * otherwise the name's pieces between its separators, without "" and ".",
   * are appended.
   */
  function Join(p: Path, name: string): (r: Path)
    ensures |name| > 0 && name[0] == '/' ==> r == ParsePath(name)
    ensures !(|name| > 0 && name[0] == '/') ==> |r| >= |p| && r[..|p|] == p && Plain(r[|p|..])
    ensures Normal(p) ==> Normal(r)
  {
    if |name| > 0 && name[0] == '/' then ParsePath(name)
    else
      var added := Kept(Segments(name));
      assert (p + added)[|p|..] == added;
      p + added
  }

  /** A name without separators that is neither "" nor "." is joined as one part: `Join` is `Child`. */
  lemma JoinPlainName(p: Path, name: string)
    requires '/' !in name && name != "" && name != "."
    ensures Join(p, name) == Child(p, name)
  {
    assert Strings.Partition(name, '/') == (name, false, []);
    assert Segments(name) == [name];
    assert Plain([name]);
  }

  /** A name with one separator between two plain names is joined as two parts. */
  lemma JoinNestedName(p: Path, a: string, b: string)
    requires Plain([a, b])
    ensures Join(p, a + "/" + b) == Child(Child(p, a), b)
  {
    assert [a, b][0] == a && [a, b][1] == b;
    assert '/' !in a && a != "" && '/' !in b;
    PartitionAt(a, b);
    assert Strings.Partition(b, '/') == (b, false, []);
    assert Segments(b) == [b];
    assert Segments(a + "/" + b) == [a, b];
    assert (a + "/" + b)[0] == a[0];
  }

  /** Splitting at the first `/` of `a + "/" + b`, where `a` has none, gives `a` and `b`. */
  lemma PartitionAt(a: string, b: string)
    requires '/' !in a
    ensures Strings.Partition(a + "/" + b, '/') == (a, true, b)
  {
    var s := a + "/" + b;
    assert s[|a|] == '/';
    assert forall j :: 0 <= j < |a| ==> s[j] == a[j];
    var i := Strings.IndexOf(s, '/');
    assert i == |a|;
    assert s[..|a|] == a && s[|a| + 1..] == b;
  }

  /** Splitting joined pieces that hold no `/` gives the pieces back. */
  lemma {:induction false} SegmentsOfJoin(q: seq<string>)
    requires |q| >= 1 && forall i :: 0 <= i < |q| ==> '/' !in q[i]
    ensures Segments(Strings.Join(q, "/")) == q
  {
    if |q| == 1 {
      assert Strings.Join(q, "/") == q[0];
    } else {
      PartitionAt(q[0], Strings.Join(q[1..], "/"));
      SegmentsOfJoin(q[1..]);
    }
  }

  /** The string of a path `pathlib` produces parses back to that path. */
  lemma ParsePathString(p: Path)
    requires Normal(p)
    ensures ParsePath(PathString(p)) == p
  {
    if p == [] {
      assert Strings.Partition(".", '/') == (".", false, []);
    } else if p == [""] {
      PartitionAt("", "");
      assert "/" == "" + "/" + "";
      assert Strings.Partition("", '/') == ("", false, []);
    } else if p[0] == "" {
      ParseAbsolute(p);
    } else {
      ParseRelative(p);
    }
  }

  /** An absolute path below the root: "/" and its other parts joined by `/`. */
  lemma ParseAbsolute(p: Path)
    requires Normal(p) && |p| >= 2 && p[0] == ""
    ensures ParsePath(PathString(p)) == p
  {
    var q := p[1..];
    BelowRootPlain(p);
    var str := PathString(p);
    PartitionAt("", Strings.Join(q, "/"));
    assert Segments(str) == [""] + q by {
      SegmentsOfJoin(q);
    }
    assert ([""] + q)[1..] == q;
    assert [""] + q == p;
  }

  /** Below the root, the parts of a path `pathlib` produces are plain, and its string is "/" and them joined. */
  lemma BelowRootPlain(p: Path)
    requires Normal(p) && |p| >= 2 && p[0] == ""
    ensures Plain(p[1..])
    ensures PathString(p) == "" + "/" + Strings.Join(p[1..], "/")
  {
    var q := p[1..];
    assert forall i :: 0 <= i < |q| ==> q[i] == p[i + 1];
  }

  /** A relative path: its parts joined by `/`, the first of them not empty. */
  lemma ParseRelative(p: Path)
    requires Normal(p) && |p| >= 1 && p[0] != ""
    ensures ParsePath(PathString(p)) == p
  {
    var str := Strings.Join(p, "/");
    assert PathString(p) == str;
    assert Plain(p);
    assert Segments(str) == p by {
      SegmentsOfJoin(p);
    }
    assert p[0] <= str;
    assert str[0] == p[0][0] && p[0][0] != '/';
  }

  /** Parsing is a normalisation: parsing the string of a parsed path gives that path again. */
  lemma ParsePathIdempotent(s: string)
    ensures ParsePath(PathString(ParsePath(s))) == ParsePath(s)
  {
    ParsePathString(ParsePath(s));
  }

  /** Every ancestor of `p` and `p` itself: what `p.mkdir(parents=True, exist_ok=True)` ensures exists. */
  function Ancestors(p: Path): (r: set<Path>)
    ensures p != [] ==> p in r
    ensures forall q :: q in r ==> q <= p && q != []
  {
    assert p != [] ==> p[..|p|] == p;
    set k | 1 <= k <= |p| :: p[..k]
  }

  /** `p.relative_to(base)`: `None` models the `ValueError` raised when `p` is not under `base`. */
  function RelativeTo(p: Path, base: Path): (r: Option<Path>)
    ensures r.Some? <==> base <= p
    ensures r.Some? ==> base + r.value == p
  {
    if base <= p then Some(p[|base|..]) else None
  }

  /**
   * The filesystem as the core observes it: existing directories and files,
   * the entries `Path.iterdir()` lists in its (unspecified) order, and what
   * `Path.glob(pattern)` yields from a base directory.
   */
  datatype FileSystem = FileSystem(
    dirs: set<Path>,
    files: set<Path>,
    children: Path -> seq<string>,
    glob: (Path, string) -> seq<Path>)
  {
    predicate Exists(p: Path)
    {
      p in dirs || p in files
    }

    predicate IsDir(p: Path)
    {
      p in dirs
    }

    predicate IsFile(p: Path)
    {
      p in files
    }

    /** `list(p.iterdir())`. */
    function IterDir(p: Path): (r: seq<Path>)
      ensures |r| == |children(p)|
      ensures forall i :: 0 <= i < |r| ==> r[i] == Child(p, children(p)[i])
    {
      seq(|children(p)|, i requires 0 <= i < |children(p)| => Child(p, children(p)[i]))
    }

    /** `list(base.glob(pattern))`. */
    function Glob(base: Path, pattern: string): seq<Path>
    {
      glob(base, pattern)
    }
  }

  /**
   * The names among `names` of subdirectories of `dir` that start with `prefix`,
   * in the order given: `[d.name for d in dir.iterdir() if d.is_dir() and d.name.startswith(prefix)]`.
   */
  function SubdirsWithPrefix(fs: FileSystem, dir: Path, names: seq<string>, prefix: string): (r: seq<string>)
    ensures |r| <= |names|
    ensures forall n :: n in r <==> n in names && fs.IsDir(Child(dir, n)) && Strings.StartsWith(n, prefix)
  {
    if names == [] then []
    else
      var rest := SubdirsWithPrefix(fs, dir, names[1..], prefix);
      if fs.IsDir(Child(dir, names[0])) && Strings.StartsWith(names[0], prefix) then [names[0]] + rest else rest
  }

  /** The first name listed is the first of `names`, in their order, that is a subdirectory with the prefix. */
  lemma {:induction false} SubdirsFirst(fs: FileSystem, dir: Path, names: seq<string>, prefix: string)
    requires SubdirsWithPrefix(fs, dir, names, prefix) != []
    ensures exists i ::
      && 0 <= i < |names| && names[i] == SubdirsWithPrefix(fs, dir, names, prefix)[0]
      && fs.IsDir(Child(dir, names[i])) && Strings.StartsWith(names[i], prefix)
      && forall j :: 0 <= j < i ==> !(fs.IsDir(Child(dir, names[j])) && Strings.StartsWith(names[j], prefix))
  {
    if !(fs.IsDir(Child(dir, names[0])) && Strings.StartsWith(names[0], prefix)) {
      SubdirsFirst(fs, dir, names[1..], prefix);
      var i :|
        && 0 <= i < |names[1..]| && names[1..][i] == SubdirsWithPrefix(fs, dir, names[1..], prefix)[0]
        && fs.IsDir(Child(dir, names[1..][i])) && Strings.StartsWith(names[1..][i], prefix)
        && forall j :: 0 <= j < i ==> !(fs.IsDir(Child(dir, names[1..][j])) && Strings.StartsWith(names[1..][j], prefix));
      assert forall j :: 0 < j < i + 1 ==> names[j] == names[1..][j - 1];
      assert names[i + 1] == names[1..][i];
      assert SubdirsWithPrefix(fs, dir, names, prefix) == SubdirsWithPrefix(fs, dir, names[1..], prefix);
      SubdirsFirstAt(fs, dir, names, prefix, i + 1);
    } else {
      SubdirsFirstAt(fs, dir, names, prefix, 0);
    }
  }

  lemma SubdirsFirstAt(fs: FileSystem, dir: Path, names: seq<string>, prefix: string, i: nat)
    requires SubdirsWithPrefix(fs, dir, names, prefix) != []
    requires 0 <= i < |names| && names[i] == SubdirsWithPrefix(fs, dir, names, prefix)[0]
    requires fs.IsDir(Child(dir, names[i])) && Strings.StartsWith(names[i], prefix)
    requires forall j :: 0 <= j < i ==> !(fs.IsDir(Child(dir, names[j])) && Strings.StartsWith(names[j], prefix))
    ensures exists i ::
      && 0 <= i < |names| && names[i] == SubdirsWithPrefix(fs, dir, names, prefix)[0]
      && fs.IsDir(Child(dir, names[i])) && Strings.StartsWith(names[i], prefix)
      && forall j :: 0 <= j < i ==> !(fs.IsDir(Child(dir, names[j])) && Strings.StartsWith(names[j], prefix))
  {
  }

  /** Listing `dir` itself: a path that exists but is not a directory makes `iterdir` raise `NotADirectoryError`. */
  function ListSubdirs(fs: FileSystem, dir: Path, prefix: string): (r: Outcome<seq<string>>)
    ensures r.Ok? <==> fs.IsDir(dir)
    ensures r.Ok? ==> r.value == SubdirsWithPrefix(fs, dir, fs.children(dir), prefix)
    ensures r.Raised? ==> r.exc.cls == NotADirectoryError
  {
    if fs.IsDir(dir) then Ok(SubdirsWithPrefix(fs, dir, fs.children(dir), prefix))
    else Raised(Simple(NotADirectoryError, "[Errno 20] Not a directory: '" + PathString(dir) + "'"))
  }
}
