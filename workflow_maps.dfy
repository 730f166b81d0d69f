/**
 * What the QSIRecon and QSIParc output schemas share: discovering sessions and
 * workflows as prefix-stripped subdirectory names, and the nested
 * `{workflow: {session: path}}` dictionaries (how `from_inputs` fills them, how
 * `exist()` walks them, how `to_dict` renders them).
 */
module WorkflowMaps {
  import opened Options
  import opened Paths
  import opened Values
  import opened Exceptions
  import Strings
  import opened Sorting
  import opened Dicts
  import opened Rules

  /**
   * `sorted(d.name.replace(prefix, "") for d in dir.iterdir() if d.is_dir() and
   * d.name.startswith(prefix))`, and no names when `dir` does not exist. Listing a
   * path that is a file raises `NotADirectoryError`.
   */
  function StrippedSubdirs(fs: FileSystem, dir: Path, prefix: string): (r: Outcome<seq<string>>)
    requires prefix != []
    ensures !fs.Exists(dir) ==> r == Ok([])
    ensures fs.Exists(dir) ==> (r.Ok? <==> fs.IsDir(dir))
    ensures r.Raised? ==> r.exc.cls == NotADirectoryError
    ensures r.Ok? ==> forall i :: 0 < i < |r.value| ==> StrLe(r.value[i - 1], r.value[i])
    ensures r.Ok? && fs.Exists(dir) ==>
      multiset(r.value) == multiset(Strings.ReplaceEach(SubdirsWithPrefix(fs, dir, fs.children(dir), prefix), prefix, ""))
  {
    if !fs.Exists(dir) then Ok([])
    else
      var names :- ListSubdirs(fs, dir, prefix);
      Ok(SortStrings(Strings.ReplaceEach(names, prefix, "")))
  }

  /**
   * A subdirectory `<prefix><s>` of a directory, where `s` holds no further
   * prefix, is listed as `s`; and every listed name comes from a subdirectory
   * starting with the prefix.
   */
  lemma StrippedSubdirsContents(fs: FileSystem, dir: Path, prefix: string)
    requires prefix != [] && fs.IsDir(dir)
    ensures var r := StrippedSubdirs(fs, dir, prefix);
      && r.Ok?
      && (forall s :: s in r.value ==>
            exists n :: n in fs.children(dir) && fs.IsDir(Child(dir, n)) && Strings.StartsWith(n, prefix)
                        && Strings.ReplaceAll(n, prefix, "") == s)
      && (forall s :: prefix + s in fs.children(dir) && fs.IsDir(Child(dir, prefix + s)) && !Strings.Contains(s, prefix)
                      ==> s in r.value)
  {
    var names := SubdirsWithPrefix(fs, dir, fs.children(dir), prefix);
    var stripped := Strings.ReplaceEach(names, prefix, "");
    var r := StrippedSubdirs(fs, dir, prefix);
    assert multiset(r.value) == multiset(stripped);
    forall s | s in r.value
      ensures exists n :: n in fs.children(dir) && fs.IsDir(Child(dir, n)) && Strings.StartsWith(n, prefix)
                          && Strings.ReplaceAll(n, prefix, "") == s
    {
      assert s in multiset(stripped);
      var i :| 0 <= i < |stripped| && stripped[i] == s;
      assert names[i] in names;
    }
    forall s | prefix + s in fs.children(dir) && fs.IsDir(Child(dir, prefix + s)) && !Strings.Contains(s, prefix)
      ensures s in r.value
    {
      var n := prefix + s;
      assert Strings.StartsWith(n, prefix) by { assert n[..|prefix|] == prefix; }
      assert n in names;
      var i :| 0 <= i < |names| && names[i] == n;
      Strings.ReplaceAllPrefix(prefix, s);
      assert stripped[i] == s;
      assert s in multiset(r.value);
    }
  }

  /** `{session: path}`, with the key `None` for a dataset without sessions. */
  type SessionMap = seq<Item<Option<string>, Path>>

  /** `{workflow: {session: path}}`. */
  type WorkflowMap = seq<Item<string, SessionMap>>

  /** The inner dictionary after `d[session] = leaf(workflow, session)` for each of `sessions` in turn. */
  function SessionsFold(w: string, sessions: seq<string>, leaf: (string, Option<string>) -> Path): SessionMap
    decreases |sessions|
  {
    if sessions == [] then []
    else
      var n := |sessions| - 1;
      Put(SessionsFold(w, sessions[..n], leaf), Some(sessions[n]), leaf(w, Some(sessions[n])))
  }

  /** The inner dictionary of workflow `w`: one entry per session, or the single key `None` without sessions. */
  function SessionMapFor(w: string, sessions: seq<string>, leaf: (string, Option<string>) -> Path): SessionMap
  {
    if sessions == [] then [Item(None, leaf(w, None))] else SessionsFold(w, sessions, leaf)
  }

  /** The outer dictionary after `d[workflow] = SessionMapFor(workflow)` for each of `workflows` in turn. */
  function WorkflowsFold(workflows: seq<string>, sessions: seq<string>, leaf: (string, Option<string>) -> Path): WorkflowMap
    decreases |workflows|
  {
    if workflows == [] then []
    else
      var n := |workflows| - 1;
      Put(WorkflowsFold(workflows[..n], sessions, leaf), workflows[n], SessionMapFor(workflows[n], sessions, leaf))
  }

  /** The outer dictionary has at most one entry per workflow named. */
  lemma {:induction false} WorkflowsFoldLength(workflows: seq<string>, sessions: seq<string>, leaf: (string, Option<string>) -> Path)
    ensures |WorkflowsFold(workflows, sessions, leaf)| <= |workflows|
    decreases |workflows|
  {
    if workflows != [] {
      WorkflowsFoldLength(workflows[..|workflows| - 1], sessions, leaf);
    }
  }

  /** The nested loops of `from_inputs`: for each workflow, for each session (or once with `None`). */
  method Build(workflows: seq<string>, sessions: seq<string>, leaf: (string, Option<string>) -> Path) returns (m: WorkflowMap)
    ensures m == WorkflowsFold(workflows, sessions, leaf)
  {
    m := [];
    var i := 0;
    while i < |workflows|
      invariant 0 <= i <= |workflows|
      invariant m == WorkflowsFold(workflows[..i], sessions, leaf)
    {
      var w := workflows[i];
      var inner: SessionMap := [];
      if |sessions| > 0 {
        var j := 0;
        while j < |sessions|
          invariant 0 <= j <= |sessions|
          invariant inner == SessionsFold(w, sessions[..j], leaf)
        {
          inner := Put(inner, Some(sessions[j]), leaf(w, Some(sessions[j])));
          assert sessions[..j + 1][..j] == sessions[..j];
          j := j + 1;
        }
        assert sessions[..j] == sessions;
      } else {
        inner := [Item(None, leaf(w, None))];
      }
      m := Put(m, w, inner);
      assert workflows[..i + 1][..i] == workflows[..i];
      i := i + 1;
    }
    assert workflows[..i] == workflows;
  }

  /** The inner dictionary maps exactly the given sessions, each to its leaf, and has no `None` key. */
  lemma {:induction false} SessionsFoldGet(w: string, sessions: seq<string>, leaf: (string, Option<string>) -> Path, k: Option<string>)
    ensures Get(SessionsFold(w, sessions, leaf), k) == (if k.Some? && k.value in sessions then Some(leaf(w, k)) else None)
    decreases |sessions|
  {
    if sessions != [] {
      var n := |sessions| - 1;
      SessionsFoldGet(w, sessions[..n], leaf, k);
      assert sessions == sessions[..n] + [sessions[n]];
      assert k.Some? ==> (k.value in sessions <==> k.value in sessions[..n] || k.value == sessions[n]);
    }
  }

  /** Every entry of the inner dictionary is a session's leaf. */
  lemma {:induction false} SessionsFoldItems(w: string, sessions: seq<string>, leaf: (string, Option<string>) -> Path)
    ensures forall x :: x in SessionsFold(w, sessions, leaf) ==> x.key.Some? && x.key.value in sessions && x.val == leaf(w, x.key)
    decreases |sessions|
  {
    if sessions != [] {
      var n := |sessions| - 1;
      SessionsFoldItems(w, sessions[..n], leaf);
      PutItems(SessionsFold(w, sessions[..n], leaf), Some(sessions[n]), leaf(w, Some(sessions[n])));
      assert sessions == sessions[..n] + [sessions[n]];
    }
  }

  /** Every entry of a workflow's inner dictionary is its leaf; with sessions, the keys are exactly the sessions. */
  lemma SessionMapContents(w: string, sessions: seq<string>, leaf: (string, Option<string>) -> Path)
    ensures sessions == [] ==> SessionMapFor(w, sessions, leaf) == [Item(None, leaf(w, None))]
    ensures sessions != [] ==> forall k :: Get(SessionMapFor(w, sessions, leaf), k)
                                           == (if k.Some? && k.value in sessions then Some(leaf(w, k)) else None)
    ensures forall x :: x in SessionMapFor(w, sessions, leaf) ==> x.val == leaf(w, x.key)
    ensures forall x :: x in SessionMapFor(w, sessions, leaf) ==> (x.key.None? <==> sessions == [])
  {
    SessionsFoldItems(w, sessions, leaf);
    forall k ensures sessions != [] ==> Get(SessionMapFor(w, sessions, leaf), k)
                                        == (if k.Some? && k.value in sessions then Some(leaf(w, k)) else None) {
      SessionsFoldGet(w, sessions, leaf, k);
    }
  }

  /** The outer dictionary holds exactly the given workflows, each with its inner dictionary. */
  lemma WorkflowsFoldContents(workflows: seq<string>, sessions: seq<string>, leaf: (string, Option<string>) -> Path)
    ensures forall w :: Get(WorkflowsFold(workflows, sessions, leaf), w)
                        == (if w in workflows then Some(SessionMapFor(w, sessions, leaf)) else None)
    ensures forall x :: x in WorkflowsFold(workflows, sessions, leaf) ==> x.key in workflows && x.val == SessionMapFor(x.key, sessions, leaf)
  {
    forall w
      ensures Get(WorkflowsFold(workflows, sessions, leaf), w) == (if w in workflows then Some(SessionMapFor(w, sessions, leaf)) else None)
    {
      WorkflowsFoldGet(workflows, sessions, leaf, w);
    }
    WorkflowsFoldItems(workflows, sessions, leaf);
  }

  lemma {:induction false} WorkflowsFoldGet(workflows: seq<string>, sessions: seq<string>, leaf: (string, Option<string>) -> Path, w: string)
    ensures Get(WorkflowsFold(workflows, sessions, leaf), w) == (if w in workflows then Some(SessionMapFor(w, sessions, leaf)) else None)
    decreases |workflows|
  {
    if workflows != [] {
      var n := |workflows| - 1;
      var prev := WorkflowsFold(workflows[..n], sessions, leaf);
      WorkflowsFoldGet(workflows[..n], sessions, leaf, w);
      assert WorkflowsFold(workflows, sessions, leaf) == Put(prev, workflows[n], SessionMapFor(workflows[n], sessions, leaf));
      if w != workflows[n] {
        SnocMember(workflows, w);
      }
    }
  }

  /** Apart from the last element, the members of a sequence are those of its front. */
  lemma SnocMember<T>(s: seq<T>, x: T)
    requires s != [] && x != s[|s| - 1]
    ensures x in s <==> x in s[..|s| - 1]
  {
    if x in s {
      var i :| 0 <= i < |s| && s[i] == x;
      assert s[..|s| - 1][i] == x;
    }
  }

  lemma {:induction false} WorkflowsFoldItems(workflows: seq<string>, sessions: seq<string>, leaf: (string, Option<string>) -> Path)
    ensures forall x :: x in WorkflowsFold(workflows, sessions, leaf) ==> x.key in workflows && x.val == SessionMapFor(x.key, sessions, leaf)
    decreases |workflows|
  {
    if workflows != [] {
      var n := |workflows| - 1;
      var prev := WorkflowsFold(workflows[..n], sessions, leaf);
      var last := Item(workflows[n], SessionMapFor(workflows[n], sessions, leaf));
      WorkflowsFoldItems(workflows[..n], sessions, leaf);
      PutItems(prev, last.key, last.val);
      assert WorkflowsFold(workflows, sessions, leaf) == Put(prev, last.key, last.val);
      forall x | x in WorkflowsFold(workflows, sessions, leaf)
        ensures x.key in workflows && x.val == SessionMapFor(x.key, sessions, leaf)
      {
        assert x in prev || x == last;
        assert workflows == workflows[..n] + [workflows[n]];
      }
    }
  }

  /** Every leaf path of `m` exists. */
  predicate AllExist(fs: FileSystem, m: WorkflowMap)
  {
    forall i, j :: 0 <= i < |m| && 0 <= j < |m[i].val| ==> fs.Exists(m[i].val[j].val)
  }

  /** The nested loops of `exist()`, returning `False` at the first missing path. */
  method LeavesExist(fs: FileSystem, m: WorkflowMap) returns (b: bool)
    ensures b == AllExist(fs, m)
  {
    var i := 0;
    while i < |m|
      invariant 0 <= i <= |m|
      invariant forall i', j :: 0 <= i' < i && 0 <= j < |m[i'].val| ==> fs.Exists(m[i'].val[j].val)
    {
      var j := 0;
      while j < |m[i].val|
        invariant 0 <= j <= |m[i].val|
        invariant forall j' :: 0 <= j' < j ==> fs.Exists(m[i].val[j'].val)
      {
        if !fs.Exists(m[i].val[j].val) {
          return false;
        }
        j := j + 1;
      }
      i := i + 1;
    }
    return true;
  }

  /** Each workflow's leaf exists for every session, or for `None` when there are no sessions. */
  predicate LeavesPresent(fs: FileSystem, workflows: seq<string>, sessions: seq<string>, leaf: (string, Option<string>) -> Path)
  {
    forall w :: w in workflows ==>
      (sessions == [] ==> fs.Exists(leaf(w, None))) && (forall s :: s in sessions ==> fs.Exists(leaf(w, Some(s))))
  }

  lemma AllExistGivesLeaves(fs: FileSystem, workflows: seq<string>, sessions: seq<string>, leaf: (string, Option<string>) -> Path, w: string)
    requires AllExist(fs, WorkflowsFold(workflows, sessions, leaf))
    requires w in workflows
    ensures sessions == [] ==> fs.Exists(leaf(w, None))
    ensures forall s :: s in sessions ==> fs.Exists(leaf(w, Some(s)))
  {
    var m := WorkflowsFold(workflows, sessions, leaf);
    var inner := SessionMapFor(w, sessions, leaf);
    WorkflowsFoldContents(workflows, sessions, leaf);
    SessionMapContents(w, sessions, leaf);
    assert Get(m, w) == Some(inner);
    GetItem(m, w);
    if sessions == [] {
      LeafOfPresent(fs, m, w, inner, inner[0]);
    }
    forall s | s in sessions ensures fs.Exists(leaf(w, Some(s))) {
      assert Get(inner, Some(s)) == Some(leaf(w, Some(s)));
      GetItem(inner, Some(s));
      LeafOfPresent(fs, m, w, inner, Item(Some(s), leaf(w, Some(s))));
    }
  }

  /** Every path of an inner dictionary of a dictionary whose paths all exist exists. */
  lemma LeafOfPresent(fs: FileSystem, m: WorkflowMap, w: string, inner: SessionMap, x: Item<Option<string>, Path>)
    requires AllExist(fs, m) && Item(w, inner) in m && x in inner
    ensures fs.Exists(x.val)
  {
    var i :| 0 <= i < |m| && m[i] == Item(w, inner);
    var j :| 0 <= j < |inner| && inner[j] == x;
    assert fs.Exists(m[i].val[j].val);
  }

  lemma LeavesGiveAllExist(fs: FileSystem, workflows: seq<string>, sessions: seq<string>, leaf: (string, Option<string>) -> Path)
    requires LeavesPresent(fs, workflows, sessions, leaf)
    ensures AllExist(fs, WorkflowsFold(workflows, sessions, leaf))
  {
    var m := WorkflowsFold(workflows, sessions, leaf);
    WorkflowsFoldContents(workflows, sessions, leaf);
    forall i, j | 0 <= i < |m| && 0 <= j < |m[i].val| ensures fs.Exists(m[i].val[j].val) {
      assert m[i] in m;
      var x := m[i].val[j];
      SessionMapContents(m[i].key, sessions, leaf);
      assert x in SessionMapFor(m[i].key, sessions, leaf);
      if x.key.Some? {
        assert Get(m[i].val, x.key).Some?;
      }
    }
  }

  /**
   * A dictionary built for `workflows` and `sessions` has all its paths present
   * exactly when each workflow's leaf exists for every session (for `None` when
   * there are no sessions).
   */
  lemma AllExistFold(fs: FileSystem, workflows: seq<string>, sessions: seq<string>, leaf: (string, Option<string>) -> Path)
    ensures AllExist(fs, WorkflowsFold(workflows, sessions, leaf)) <==> LeavesPresent(fs, workflows, sessions, leaf)
  {
    if AllExist(fs, WorkflowsFold(workflows, sessions, leaf)) {
      forall w | w in workflows
        ensures (sessions == [] ==> fs.Exists(leaf(w, None))) && (forall s :: s in sessions ==> fs.Exists(leaf(w, Some(s))))
      {
        AllExistGivesLeaves(fs, workflows, sessions, leaf, w);
      }
    }
    if LeavesPresent(fs, workflows, sessions, leaf) {
      LeavesGiveAllExist(fs, workflows, sessions, leaf);
    }
  }

  /** `to_dict`'s rendering: the same nesting and keys, every path as its string. */
  function ToValue(m: WorkflowMap): (v: Value)
    ensures v.VDict? && |v.entries| == |m|
    ensures forall i :: 0 <= i < |m| ==>
      && v.entries[i].key == Some(m[i].key)
      && v.entries[i].val.VDict? && |v.entries[i].val.entries| == |m[i].val|
      && forall j :: 0 <= j < |m[i].val| ==>
           v.entries[i].val.entries[j] == Entry(m[i].val[j].key, VStr(PathString(m[i].val[j].val)))
  {
    VDict(seq(|m|, i requires 0 <= i < |m| =>
      Entry(Some(m[i].key), VDict(seq(|m[i].val|, j requires 0 <= j < |m[i].val| =>
        Entry(m[i].val[j].key, VStr(PathString(m[i].val[j].val))))))))
  }

  /** The dictionary as the schema object holds it, with paths as paths: a mapping of mappings of paths. */
  function PathDict(m: WorkflowMap): (v: Value)
    ensures v.VDict? && |v.entries| == |m| && NestedShape(v.entries)
    ensures forall i :: 0 <= i < |m| ==>
      && v.entries[i].key == Some(m[i].key)
      && v.entries[i].val.VDict? && |v.entries[i].val.entries| == |m[i].val|
      && forall j :: 0 <= j < |m[i].val| ==> v.entries[i].val.entries[j] == Entry(m[i].val[j].key, VPath(m[i].val[j].val))
  {
    VDict(seq(|m|, i requires 0 <= i < |m| =>
      Entry(Some(m[i].key), VDict(seq(|m[i].val|, j requires 0 <= j < |m[i].val| =>
        Entry(m[i].val[j].key, VPath(m[i].val[j].val)))))))
  }

  /** A validation rule that checks every leaf of the dictionary sees exactly the paths of `m`. */
  lemma PathDictLeaves(fs: FileSystem, m: WorkflowMap)
    ensures (forall v :: v in Leaves(PathDict(m).entries) ==> v.VPath? && fs.Exists(v.p)) <==> AllExist(fs, m)
  {
    var es := PathDict(m).entries;
    LeavesOfNested(es);
    if forall v :: v in Leaves(es) ==> v.VPath? && fs.Exists(v.p) {
      forall i, j | 0 <= i < |m| && 0 <= j < |m[i].val| ensures fs.Exists(m[i].val[j].val) {
        assert es[i].val.entries[j].val == VPath(m[i].val[j].val);
      }
    }
  }
}
