/**
 * The part of the disk the run writes to: the directories that exist and the
 * lines of each file opened for appending (each line one JSON document,
 * kept as the value it encodes).
 */
module Disk {
  import opened Paths
  import opened Values

  /** Every file other than `p` is as it was in `before`, and no file other than `p` appeared. */
  predicate OthersUnchanged(before: map<Path, seq<Value>>, after: map<Path, seq<Value>>, p: Path)
  {
    && before.Keys <= after.Keys <= before.Keys + {p}
    && forall q :: q in before && q != p ==> after[q] == before[q]
  }

  /** Leaving all but `p` alone twice leaves all but `p` alone. */
  lemma OthersUnchangedTrans(a: map<Path, seq<Value>>, b: map<Path, seq<Value>>, c: map<Path, seq<Value>>, p: Path)
    requires OthersUnchanged(a, b, p) && OthersUnchanged(b, c, p)
    ensures OthersUnchanged(a, c, p)
  {
  }

  class Disk {
    var dirs: set<Path>
    var files: map<Path, seq<Value>>

    constructor(dirs: set<Path>, files: map<Path, seq<Value>>)
      ensures this.dirs == dirs && this.files == files
    {
      this.dirs := dirs;
      this.files := files;
    }

    /** The lines of file `p`; a file that does not exist reads as empty. */
    function Lines(p: Path): seq<Value>
      reads this
    {
      if p in files then files[p] else []
    }

    /** `p.mkdir(parents=True, exist_ok=True)`: `p` and every ancestor exist afterwards. */
    method MakeDirs(p: Path)
      modifies this
      ensures dirs == old(dirs) + Ancestors(p)
      ensures files == old(files)
    {
      dirs := dirs + Ancestors(p);
    }

    /** `open(p, "a").write(json.dumps(line) + "\n")`: one more line at the end of `p`. */
    method AppendLine(p: Path, line: Value)
      modifies this
      ensures files == old(files)[p := old(Lines(p)) + [line]]
      ensures Lines(p) == old(Lines(p)) + [line]
      ensures forall q :: q != p ==> Lines(q) == old(Lines(q))
      ensures OthersUnchanged(old(files), files, p)
      ensures dirs == old(dirs)
    {
      files := files[p := Lines(p) + [line]];
    }
  }
}
