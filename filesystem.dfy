/**
  * The workspace file capability: every path is resolved against the
  * workspace root and refused when it leaves it; directories can be
  * listed and created, files read, written, appended to and deleted, and
  * directories never deleted. The disk is a map from absolute paths to
  * nodes.
  */
module FileSystem {
  import opened Wrappers
  import opened Text
  import opened Values
  import opened ToolResults

  /** An absolute path, as its components below `/`. */
  type Path = seq<string>

  datatype Node = Dir | File(content: string)

  type Tree = map<Path, Node>

  /** `Path.parent`; the parent of `/` is `/` itself. */
  function Parent(p: Path): Path
  {
    if p == [] then [] else p[..|p| - 1]
  }

  predicate IsPrefix(a: Path, b: Path)
  {
    |a| <= |b| && b[..|a|] == a
  }

  /** `/` is a directory and every other node sits in a directory. */
  predicate WellFormed(tree: Tree)
  {
    [] in tree && tree[[]] == Dir
    && forall p :: p in tree && p != [] ==> Parent(p) in tree && tree[Parent(p)] == Dir
  }

  /** `str(path)`. */
  function PathText(p: Path): string
  {
    "/" + Join(p, "/")
  }

  /** One component of a relative path applied to `base`, as resolving does it lexically. */
  function StepInto(base: Path, c: string): Path
  {
    if c == "" || c == "." then base
    else if c == ".." then Parent(base)
    else base + [c]
  }

  function Normalize(base: Path, parts: seq<string>): Path
    decreases |parts|
  {
    if parts == [] then base else Normalize(StepInto(base, parts[0]), parts[1..])
  }

  /** `(workspace_root / rel_path).resolve()`: an absolute `rel_path` replaces the root. */
  function Candidate(root: Path, rel: string): Path
  {
    Normalize(if StartsWith(rel, "/") then [] else root, SplitOn(rel, '/'))
  }

  const EscapeMessage: string := "Path escapes workspace root."

  /** `_resolve`: the candidate when it is the root or lies below it, else `PermissionError`. */
  function Resolve(root: Path, rel: string): (r: Result<Path>)
    ensures r.Ok? ==> IsPrefix(root, r.value)
    ensures r.Err? ==> r.error == Failure(PermissionError, EscapeMessage)
  {
    var c := Candidate(root, rel);
    if IsPrefix(root, c) then Ok(c) else Err(Failure(PermissionError, EscapeMessage))
  }

  /** `str(OSError(errno, text, path))`. */
  function OsFailure(errno: nat, text: string, p: Path): Failure
  {
    Failure(OSError, "[Errno " + NatToString(errno) + "] " + text + ": " + StrRepr(PathText(p)))
  }

  /** Some proper ancestor of `p` is a file. */
  predicate FileAbove(tree: Tree, p: Path)
  {
    exists i :: 0 <= i < |p| && p[..i] in tree && tree[p[..i]].File?
  }

  /**
    * `Path.mkdir(parents=True, exist_ok=True)`: an existing directory is
    * fine, an existing file is `FileExistsError`, a file on the way is
    * `NotADirectoryError`, and otherwise every missing directory down to
    * `p` is created.
    */
  function MakeDirs(tree: Tree, p: Path): Result<Tree>
    decreases |p|
  {
    if p in tree then
      if tree[p].Dir? then Ok(tree) else Err(OsFailure(17, "File exists", p))
    else if FileAbove(tree, p) then Err(OsFailure(20, "Not a directory", p))
    else if p == [] then Ok(tree[p := Dir])
    else match MakeDirs(tree, Parent(p))
      case Err(e) => Err(e)
      case Ok(t) => Ok(t[p := Dir])
  }

  /** The number of bytes `c` takes in UTF-8. */
  function CharBytes(c: char): nat
  {
    if c < '\U{80}' then 1 else if c < '\U{800}' then 2 else if c < '\U{10000}' then 3 else 4
  }

  /** `stat().st_size` of a UTF-8 file holding `s`. */
  function Utf8Size(s: string): nat
  {
    if s == [] then 0 else CharBytes(s[0]) + Utf8Size(s[1..])
  }

  /** The names directly inside directory `t`. */
  function Children(tree: Tree, t: Path): set<string>
  {
    set p | p in tree && |p| == |t| + 1 && p[..|t|] == t :: p[|t|]
  }

  function EntryFor(tree: Tree, t: Path, name: string): DirEntry
  {
    if t + [name] in tree then
      match tree[t + [name]]
      case Dir => DirEntry(name, true, None)
      case File(c) => DirEntry(name, false, Some(Utf8Size(c)))
    else DirEntry(name, false, None)
  }

  function EntriesFor(tree: Tree, t: Path, names: seq<string>): (r: seq<DirEntry>)
    ensures |r| == |names|
  {
    seq(|names|, i requires 0 <= i < |names| => EntryFor(tree, t, names[i]))
  }

  predicate IsLeast(m: string, names: set<string>)
  {
    forall y :: y in names ==> LexLe(m, y)
  }

  lemma {:induction false} LeastExists(names: set<string>)
    requires names != {}
    ensures exists m :: m in names && IsLeast(m, names)
    decreases |names|
  {
    var x :| x in names;
    if names == {x} {
      LexLeReflexive(x);
      assert IsLeast(x, names);
    } else {
      var rest := names - {x};
      LeastExists(rest);
      var m :| m in rest && IsLeast(m, rest);
      LexLeTotal(x, m);
      if LexLe(x, m) {
        forall y | y in names ensures LexLe(x, y) {
          if y == x { LexLeReflexive(x); } else { LexLeTransitive(x, m, y); }
        }
      } else {
        assert IsLeast(m, names);
      }
    }
  }

  /** `sorted(...)` of a set of names: each step takes the least name left. */
  ghost function SortedNames(names: set<string>): (r: seq<string>)
    ensures names != {} ==> r != [] && r[0] in names && IsLeast(r[0], names) && r[1..] == SortedNames(names - {r[0]})
    ensures names == {} ==> r == []
    decreases |names|
  {
    if names == {} then []
    else
      LeastExists(names);
      var m :| m in names && IsLeast(m, names);
      [m] + SortedNames(names - {m})
  }

  /** The least name is unique, so it is the one the sort takes first. */
  lemma SortedNamesFirst(names: set<string>, m: string)
    requires m in names && IsLeast(m, names)
    ensures SortedNames(names) == [m] + SortedNames(names - {m})
  {
    var r := SortedNames(names);
    LexLeAntisymmetric(m, r[0]);
  }

  lemma SortedStep(done: seq<string>, names: set<string>, m: string)
    requires m in names && IsLeast(m, names)
    ensures done + SortedNames(names) == (done + [m]) + SortedNames(names - {m})
  {
    SortedNamesFirst(names, m);
  }

  lemma EntriesForSnoc(tree: Tree, t: Path, names: seq<string>, m: string)
    ensures EntriesFor(tree, t, names + [m]) == EntriesFor(tree, t, names) + [EntryFor(tree, t, m)]
  {
  }

  /** The sorted names are exactly the set's names, in strictly increasing order. */
  lemma {:induction false} SortedNamesFacts(names: set<string>)
    ensures forall x :: x in SortedNames(names) <==> x in names
    ensures forall i, j :: 0 <= i < j < |SortedNames(names)| ==>
      LexLe(SortedNames(names)[i], SortedNames(names)[j]) && SortedNames(names)[i] != SortedNames(names)[j]
    decreases |names|
  {
    if names != {} {
      var r := SortedNames(names);
      var rest := names - {r[0]};
      var tail := SortedNames(rest);
      SortedNamesFacts(rest);
      assert r == [r[0]] + tail;
      forall i, j | 0 <= i < j < |r| ensures LexLe(r[i], r[j]) && r[i] != r[j] {
        if i == 0 {
          assert r[j] == tail[j - 1];
          assert r[j] in rest;
        } else {
          assert r[i] == tail[i - 1] && r[j] == tail[j - 1];
        }
      }
    }
  }

  const DirNotFound: string := "Directory not found."
  const FileNotFound: string := "File not found."
  const PathNotFound: string := "Path not found."
  const NoDirDeletion: string := "Directory deletion is disabled."

  /** What `list_dir` answers. */
  ghost function ListOutcome(tree: Tree, root: Path, rel: string): Result<ToolResult>
  {
    match Resolve(root, rel)
    case Err(e) => Err(e)
    case Ok(t) =>
      if t !in tree || tree[t].File? then Ok(Fail(DirNotFound))
      else Ok(Success(Listing(PathText(t), EntriesFor(tree, t, SortedNames(Children(tree, t))))))
  }

  /** `content[:n]` with Python's reading of a negative `n` as counting from the end. */
  function PyPrefix(s: string, n: int): string
  {
    if n >= 0 then (if n <= |s| then s[..n] else s)
    else if |s| + n >= 0 then s[..|s| + n]
    else []
  }

  /**
    * The text `read_text` returns for stored text: it reads in universal
    * newlines mode, so every "\r\n" and every other "\r" reads as "\n".
    */
  function UniversalNewlines(s: string): (r: string)
    ensures |r| <= |s|
    decreases |s|
  {
    if s == [] then []
    else if s[0] == '\r' then "\n" + UniversalNewlines(if |s| > 1 && s[1] == '\n' then s[2..] else s[1..])
    else [s[0]] + UniversalNewlines(s[1..])
  }

  /** Text without a carriage return reads back exactly as stored. */
  lemma {:induction false} NoCarriageReadsBack(s: string)
    requires forall i :: 0 <= i < |s| ==> s[i] != '\r'
    ensures UniversalNewlines(s) == s
  {
    if s != [] {
      NoCarriageReadsBack(s[1..]);
    }
  }

  /** What is read holds no carriage return, so reading it again changes nothing. */
  lemma {:induction false} NewlinesTranslated(s: string)
    ensures forall i :: 0 <= i < |UniversalNewlines(s)| ==> UniversalNewlines(s)[i] != '\r'
    ensures UniversalNewlines(UniversalNewlines(s)) == UniversalNewlines(s)
    decreases |s|
  {
    if s != [] {
      var rest := if s[0] == '\r' && |s| > 1 && s[1] == '\n' then s[2..] else s[1..];
      NewlinesTranslated(rest);
      NoCarriageReadsBack(UniversalNewlines(s));
    }
  }

  /** A Windows line break and a lone carriage return both read as one "\n". */
  lemma CarriageReturnsTranslated()
    ensures UniversalNewlines("x\r\ny") == "x\ny"
    ensures UniversalNewlines("x\ry") == "x\ny"
  {
    assert "x\r\ny"[1..] == "\r\ny" && "\r\ny"[2..] == "y";
    assert "x\ry"[1..] == "\ry" && "\ry"[1..] == "y";
  }

  /** What `read_file` answers: the newline-translated text, cut to `maxChars`. */
  function ReadOutcome(tree: Tree, root: Path, rel: string, maxChars: int): Result<ToolResult>
  {
    match Resolve(root, rel)
    case Err(e) => Err(e)
    case Ok(t) =>
      if t !in tree || tree[t].Dir? then Ok(Fail(FileNotFound))
      else
        var content := UniversalNewlines(tree[t].content);
        Ok(Success(FileText(PathText(t), PyPrefix(content, maxChars), |content| > maxChars)))
  }

  /** A result together with the disk it leaves behind. */
  datatype Effect = Effect(result: Result<ToolResult>, tree: Tree)

  /** What `write_file` answers and leaves on disk. */
  function WriteOutcome(tree: Tree, root: Path, rel: string, content: string, append: bool): Effect
  {
    match Resolve(root, rel)
    case Err(e) => Effect(Err(e), tree)
    case Ok(t) =>
      match MakeDirs(tree, Parent(t))
      case Err(e) => Effect(Err(e), tree)
      case Ok(t1) =>
        if t in t1 && t1[t].Dir? then Effect(Err(OsFailure(21, "Is a directory", t)), t1)
        else
          var written := if append && t in t1 then t1[t].content + content else content;
          Effect(Ok(Success(AtPath(PathText(t)))), t1[t := File(written)])
  }

  /** What `mkdir` answers and leaves on disk. */
  function MkdirOutcome(tree: Tree, root: Path, rel: string): Effect
  {
    match Resolve(root, rel)
    case Err(e) => Effect(Err(e), tree)
    case Ok(t) =>
      match MakeDirs(tree, t)
      case Err(e) => Effect(Err(e), tree)
      case Ok(t1) => Effect(Ok(Success(AtPath(PathText(t)))), t1)
  }

  /** What `delete_path` answers and leaves on disk. */
  function DeleteOutcome(tree: Tree, root: Path, rel: string): Effect
  {
    match Resolve(root, rel)
    case Err(e) => Effect(Err(e), tree)
    case Ok(t) =>
      if t !in tree then Effect(Ok(Fail(PathNotFound)), tree)
      else if tree[t].Dir? then Effect(Ok(Fail(NoDirDeletion)), tree)
      else Effect(Ok(Success(AtPath(PathText(t)))), tree - {t})
  }

  /** A disk whose workspace root exists as a directory. */
  predicate Mounted(tree: Tree, root: Path)
  {
    WellFormed(tree) && root in tree && tree[root] == Dir
  }

  class FileSystemModule {
    var tree: Tree
    const root: Path

    predicate Valid()
      reads this
    {
      Mounted(tree, root)
    }

    constructor(disk: Tree, workspaceRoot: Path)
      requires Mounted(disk, workspaceRoot)
      ensures tree == disk && root == workspaceRoot && Valid()
    {
      tree := disk;
      root := workspaceRoot;
    }

    /** `list_dir`: the directory's entries in name order. */
    method ListDir(rel: string) returns (r: Result<ToolResult>)
      requires Valid()
      ensures r == ListOutcome(tree, root, rel)
    {
      var resolved := Resolve(root, rel);
      if resolved.Err? {
        return Err(resolved.error);
      }
      var t := resolved.value;
      if t !in tree || tree[t].File? {
        return Ok(Fail(DirNotFound));
      }
      var entries := SortedEntries(t);
      return Ok(Success(Listing(PathText(t), entries)));
    }

    /** The loop of `list_dir`: one entry per child, in `sorted` order. */
    method SortedEntries(t: Path) returns (entries: seq<DirEntry>)
      ensures entries == EntriesFor(tree, t, SortedNames(Children(tree, t)))
    {
      var remaining := Children(tree, t);
      ghost var done: seq<string> := [];
      entries := [];
      while remaining != {}
        invariant done + SortedNames(remaining) == SortedNames(Children(tree, t))
        invariant entries == EntriesFor(tree, t, done)
        decreases |remaining|
      {
        LeastExists(remaining);
        var m :| m in remaining && IsLeast(m, remaining);
        SortedStep(done, remaining, m);
        EntriesForSnoc(tree, t, done, m);
        entries := entries + [EntryFor(tree, t, m)];
        done := done + [m];
        remaining := remaining - {m};
      }
      assert done == SortedNames(Children(tree, t));
    }

    /** `read_file`. */
    method ReadFile(rel: string, maxChars: int) returns (r: Result<ToolResult>)
      requires Valid()
      ensures r == ReadOutcome(tree, root, rel, maxChars)
    {
      var resolved := Resolve(root, rel);
      if resolved.Err? {
        return Err(resolved.error);
      }
      var t := resolved.value;
      if t !in tree || tree[t].Dir? {
        return Ok(Fail(FileNotFound));
      }
      var content := UniversalNewlines(tree[t].content);
      return Ok(Success(FileText(PathText(t), PyPrefix(content, maxChars), |content| > maxChars)));
    }

    /** `write_file`: create the parent directories, then write or append. */
    method WriteFile(rel: string, content: string, append: bool) returns (r: Result<ToolResult>)
      requires Valid()
      modifies this
      ensures Valid()
      ensures r == WriteOutcome(old(tree), root, rel, content, append).result
      ensures tree == WriteOutcome(old(tree), root, rel, content, append).tree
    {
      WriteKeepsMounted(tree, root, rel, content, append);
      var resolved := Resolve(root, rel);
      if resolved.Err? {
        return Err(resolved.error);
      }
      var t := resolved.value;
      var made := MakeDirs(tree, Parent(t));
      if made.Err? {
        return Err(made.error);
      }
      tree := made.value;
      if t in tree && tree[t].Dir? {
        return Err(OsFailure(21, "Is a directory", t));
      }
      var written := if append && t in tree then tree[t].content + content else content;
      tree := tree[t := File(written)];
      return Ok(Success(AtPath(PathText(t))));
    }

    /** `mkdir`. */
    method Mkdir(rel: string) returns (r: Result<ToolResult>)
      requires Valid()
      modifies this
      ensures Valid()
      ensures r == MkdirOutcome(old(tree), root, rel).result
      ensures tree == MkdirOutcome(old(tree), root, rel).tree
    {
      MkdirKeepsMounted(tree, root, rel);
      var resolved := Resolve(root, rel);
      if resolved.Err? {
        return Err(resolved.error);
      }
      var t := resolved.value;
      var made := MakeDirs(tree, t);
      if made.Err? {
        return Err(made.error);
      }
      tree := made.value;
      return Ok(Success(AtPath(PathText(t))));
    }

    /** `delete_path`: files only. */
    method DeletePath(rel: string) returns (r: Result<ToolResult>)
      requires Valid()
      modifies this
      ensures Valid()
      ensures r == DeleteOutcome(old(tree), root, rel).result
      ensures tree == DeleteOutcome(old(tree), root, rel).tree
    {
      DeleteKeepsMounted(tree, root, rel);
      var resolved := Resolve(root, rel);
      if resolved.Err? {
        return Err(resolved.error);
      }
      var t := resolved.value;
      if t !in tree {
        return Ok(Fail(PathNotFound));
      }
      if tree[t].Dir? {
        return Ok(Fail(NoDirDeletion));
      }
      tree := tree - {t};
      return Ok(Success(AtPath(PathText(t))));
    }
  }

  /** Every ancestor of a node is a directory on disk. */
  lemma {:induction false} AncestorsAreDirs(tree: Tree, p: Path, i: nat)
    requires WellFormed(tree) && p in tree && i < |p|
    ensures p[..i] in tree && tree[p[..i]] == Dir
    decreases |p|
  {
    var q := Parent(p);
    if i < |q| {
      AncestorsAreDirs(tree, q, i);
      assert q[..i] == p[..i];
    } else {
      assert q == p[..i];
    }
  }

  /** What `MakeDirs` does on a well-formed disk. */
  lemma {:induction false} MakeDirsFacts(tree: Tree, p: Path)
    requires WellFormed(tree)
    ensures MakeDirs(tree, p).Err? <==> (p in tree && tree[p].File?) || FileAbove(tree, p)
    ensures MakeDirs(tree, p).Ok? ==>
      var t1 := MakeDirs(tree, p).value;
      WellFormed(t1) && p in t1 && t1[p] == Dir
      && (forall q :: q in tree ==> q in t1 && t1[q] == tree[q])
      && (forall q :: q in t1 && q !in tree ==> IsPrefix(q, p))
    decreases |p|
  {
    if p in tree {
      if tree[p].Dir? {
        assert !FileAbove(tree, p) by {
          forall i | 0 <= i < |p| && p[..i] in tree ensures tree[p[..i]].Dir? {
            AncestorsAreDirs(tree, p, i);
          }
        }
      }
    } else if !FileAbove(tree, p) {
      var q := Parent(p);
      assert p != [];
      assert !FileAbove(tree, q) by {
        forall i | 0 <= i < |q| ensures !(q[..i] in tree && tree[q[..i]].File?) {
          assert q[..i] == p[..i];
        }
      }
      assert !(q in tree && tree[q].File?) by {
        assert q == p[..|p| - 1];
      }
      MakeDirsFacts(tree, q);
      var t1 := MakeDirs(tree, q).value;
      forall k | k in t1 && k !in tree ensures IsPrefix(k, p) {
        assert IsPrefix(k, q);
        assert q == p[..|q|];
      }
      assert IsPrefix(p, p);
    }
  }

  /** Paths outside the workspace root are the same on both disks. */
  ghost predicate SameOutside(root: Path, t1: Tree, t2: Tree)
  {
    forall q :: !IsPrefix(root, q) ==> (q in t1 <==> q in t2) && (q in t1 ==> t1[q] == t2[q])
  }

  /** A path that is missing from the disk, and lies on the way to a path under the root, lies under the root. */
  lemma NewPathInside(tree: Tree, root: Path, p: Path, q: Path)
    requires Mounted(tree, root)
    requires IsPrefix(q, p) && q !in tree
    requires IsPrefix(root, p) || IsPrefix(p, root)
    ensures IsPrefix(root, q)
  {
    if |q| < |root| {
      assert q == root[..|q|] by {
        assert q == p[..|q|];
      }
      AncestorsAreDirs(tree, root, |q|);
    }
  }

  lemma WriteKeepsMounted(tree: Tree, root: Path, rel: string, content: string, append: bool)
    requires Mounted(tree, root)
    ensures Mounted(WriteOutcome(tree, root, rel, content, append).tree, root)
    ensures SameOutside(root, tree, WriteOutcome(tree, root, rel, content, append).tree)
  {
    var r := Resolve(root, rel);
    if r.Ok? {
      var t := r.value;
      var p := Parent(t);
      assert IsPrefix(root, p) || IsPrefix(p, root) by {
        if t != root {
          assert root == t[..|root|];
          assert p[..|root|] == t[..|root|];
        } else {
          assert root[..|p|] == p;
        }
      }
      MakeDirsFacts(tree, p);
      var made := MakeDirs(tree, p);
      if made.Ok? {
        var t1 := made.value;
        forall q | q in t1 && q !in tree ensures IsPrefix(root, q) {
          NewPathInside(tree, root, p, q);
        }
        if !(t in t1 && t1[t].Dir?) {
          forall q | q in t1 && q != [] ensures Parent(q) != t {
          }
          var t2 := WriteOutcome(tree, root, rel, content, append).tree;
          assert t2 == t1[t := t2[t]];
        }
      }
    }
  }

  lemma MkdirKeepsMounted(tree: Tree, root: Path, rel: string)
    requires Mounted(tree, root)
    ensures Mounted(MkdirOutcome(tree, root, rel).tree, root)
    ensures SameOutside(root, tree, MkdirOutcome(tree, root, rel).tree)
  {
    var r := Resolve(root, rel);
    if r.Ok? {
      var t := r.value;
      MakeDirsFacts(tree, t);
      var made := MakeDirs(tree, t);
      if made.Ok? {
        forall q | q in made.value && q !in tree ensures IsPrefix(root, q) {
          NewPathInside(tree, root, t, q);
        }
      }
    }
  }

  lemma DeleteKeepsMounted(tree: Tree, root: Path, rel: string)
    requires Mounted(tree, root)
    ensures Mounted(DeleteOutcome(tree, root, rel).tree, root)
    ensures SameOutside(root, tree, DeleteOutcome(tree, root, rel).tree)
  {
    var r := Resolve(root, rel);
    if r.Ok? && r.value in tree && tree[r.value].File? {
      var t := r.value;
      var t2 := tree - {t};
      forall q | q in t2 && q != [] ensures Parent(q) in t2 && t2[Parent(q)] == Dir {
      }
    }
  }

  function EntryNames(entries: seq<DirEntry>): (names: seq<string>)
    ensures |names| == |entries|
  {
    seq(|entries|, i requires 0 <= i < |entries| => entries[i].name)
  }

  /** `list_dir` of a directory lists each child once, in strictly increasing name order. */
  lemma ListingSorted(tree: Tree, root: Path, rel: string)
    requires ListOutcome(tree, root, rel).Ok? && ListOutcome(tree, root, rel).value.body.Listing?
    ensures var names := EntryNames(ListOutcome(tree, root, rel).value.body.entries);
      (forall x :: x in names <==> x in Children(tree, Resolve(root, rel).value))
      && (forall i, j :: 0 <= i < j < |names| ==> LexLe(names[i], names[j]) && names[i] != names[j])
  {
    var t := Resolve(root, rel).value;
    var sorted := SortedNames(Children(tree, t));
    SortedNamesFacts(Children(tree, t));
    assert EntryNames(EntriesFor(tree, t, sorted)) == sorted;
  }

  /** The components that name something: empty ones and `.` are dropped. */
  function Names(parts: seq<string>): seq<string>
  {
    if parts == [] then []
    else if parts[0] == "" || parts[0] == "." then Names(parts[1..])
    else [parts[0]] + Names(parts[1..])
  }

  lemma {:induction false} NormalizeDescends(base: Path, parts: seq<string>)
    requires forall k :: 0 <= k < |parts| ==> parts[k] != ".."
    ensures Normalize(base, parts) == base + Names(parts)
    decreases |parts|
  {
    if parts != [] {
      NormalizeDescends(StepInto(base, parts[0]), parts[1..]);
    }
  }

  /**
    * A relative path without `..` always resolves to the root followed by
    * its named components: it can never be refused.
    */
  lemma ResolveDescending(root: Path, rel: string)
    requires !StartsWith(rel, "/")
    requires forall k :: 0 <= k < |SplitOn(rel, '/')| ==> SplitOn(rel, '/')[k] != ".."
    ensures Resolve(root, rel) == Ok(root + Names(SplitOn(rel, '/')))
  {
    NormalizeDescends(root, SplitOn(rel, '/'));
  }

  /** Climbing out of the root is refused. */
  lemma ResolveParentRefused(root: Path)
    requires root != []
    ensures Resolve(root, "..") == Err(Failure(PermissionError, EscapeMessage))
  {
    assert SplitOn("..", '/') == [".."] by {
      assert IndexOfChar("..", '/') == 2;
    }
    assert !StartsWith("..", "/");
    assert Normalize(root, [".."]) == Normalize(Parent(root), []);
  }

  /** An absolute path outside the root is refused. */
  lemma ResolveAbsoluteOutsideRefused(root: Path)
    requires root != []
    ensures Resolve(root, "/").Err?
  {
    assert SplitOn("/", '/') == ["", ""] by {
      assert IndexOfChar("/", '/') == 0;
      assert "/"[1..] == "";
    }
    assert StartsWith("/", "/");
    assert Normalize([], ["", ""]) == Normalize([], [""]) == Normalize([], []);
  }

  /**
    * Writing a file and reading it back with a large enough limit gives
    * the text written (after the earlier text when appending to an
    * existing file) with its line breaks translated, untruncated; text
    * without a carriage return comes back exactly.
    */
  lemma WriteThenRead(tree: Tree, root: Path, rel: string, content: string, append: bool, maxChars: int)
    requires Mounted(tree, root)
    requires WriteOutcome(tree, root, rel, content, append).result.Ok?
    ensures var t := Resolve(root, rel).value;
      var expected := UniversalNewlines(if append && t in tree then tree[t].content + content else content);
      maxChars >= |expected| ==>
        ReadOutcome(WriteOutcome(tree, root, rel, content, append).tree, root, rel, maxChars)
        == Ok(Success(FileText(PathText(t), expected, false)))
  {
    var t := Resolve(root, rel).value;
    var p := Parent(t);
    var t1 := MakeDirs(tree, p).value;
    assert t != [] by {
      MakeDirsFacts(tree, p);
    }
    MakeDirsKeepsLonger(tree, p, t);
    var written := if append && t in tree then tree[t].content + content else content;
    var t2 := WriteOutcome(tree, root, rel, content, append).tree;
    assert t2 == t1[t := File(written)];
    var read := UniversalNewlines(written);
    if maxChars >= |read| {
      assert PyPrefix(read, maxChars) == read;
    }
  }

  /** `MakeDirs` leaves every path longer than its argument as it was. */
  lemma MakeDirsKeepsLonger(tree: Tree, p: Path, q: Path)
    requires WellFormed(tree) && MakeDirs(tree, p).Ok? && |q| > |p|
    ensures q in MakeDirs(tree, p).value <==> q in tree
    ensures q in tree ==> MakeDirs(tree, p).value[q] == tree[q]
  {
    MakeDirsFacts(tree, p);
  }

  /** Creating a directory twice is the same as creating it once. */
  lemma MkdirIdempotent(tree: Tree, root: Path, rel: string)
    requires Mounted(tree, root)
    ensures var once := MkdirOutcome(tree, root, rel);
      MkdirOutcome(once.tree, root, rel) == once
  {
    var r := Resolve(root, rel);
    if r.Ok? {
      MakeDirsFacts(tree, r.value);
    }
  }

  /** A successful delete removes exactly the file, which then reads as missing. */
  lemma DeleteThenRead(tree: Tree, root: Path, rel: string, maxChars: int)
    requires Mounted(tree, root)
    requires DeleteOutcome(tree, root, rel).result.Ok? && DeleteOutcome(tree, root, rel).result.value.ok
    ensures var t := Resolve(root, rel).value;
      t in tree && tree[t].File? && DeleteOutcome(tree, root, rel).tree == tree - {t}
      && ReadOutcome(DeleteOutcome(tree, root, rel).tree, root, rel, maxChars) == Ok(Fail(FileNotFound))
  {
  }

  /** No delete ever removes or changes a directory. */
  lemma DeleteKeepsDirectories(tree: Tree, root: Path, rel: string, d: Path)
    requires d in tree && tree[d] == Dir
    ensures d in DeleteOutcome(tree, root, rel).tree && DeleteOutcome(tree, root, rel).tree[d] == Dir
  {
  }

  /** A refused delete (missing path or directory) leaves the disk as it was. */
  lemma DeleteRefusedUnchanged(tree: Tree, root: Path, rel: string)
    requires !(DeleteOutcome(tree, root, rel).result.Ok? && DeleteOutcome(tree, root, rel).result.value.ok)
    ensures DeleteOutcome(tree, root, rel).tree == tree
  {
  }

  /**
    * With a non-negative limit, `read_file` gives a prefix of the text
    * read (the file with its line breaks translated) of length
    * `min(limit, length)`, and `truncated` says exactly whether something
    * was cut off.
    */
  lemma ReadTruncation(tree: Tree, root: Path, rel: string, maxChars: nat)
    requires ReadOutcome(tree, root, rel, maxChars).Ok? && ReadOutcome(tree, root, rel, maxChars).value.ok
    ensures var t := Resolve(root, rel).value;
      var body := ReadOutcome(tree, root, rel, maxChars).value.body;
      t in tree && tree[t].File?
      && var text := UniversalNewlines(tree[t].content);
      body.content == text[..|body.content|]
      && |body.content| == (if maxChars < |text| then maxChars else |text|)
      && (body.truncated <==> body.content != text)
  {
  }
}
