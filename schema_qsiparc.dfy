/**
 * QSIParc's inputs, its expected outputs (the per-workflow, per-session dwi
 * directories derived by `from_inputs`), `exist()`, `to_dict()`, session and
 * workflow discovery from the QSIRecon output and its default configuration.
 */
module QSIParcSchema {
  import opened Options
  import opened Paths
  import opened Values
  import opened Exceptions
  import Strings
  import Sorting
  import opened Dicts
  import opened WorkflowMaps
  import opened Context
  import opened ValidatorBase
  import opened ProcedureValidators

  /**
   * The inputs after `__post_init__`, whose only effect is to turn strings into
   * paths; atlas definitions are represented by their names.
   */
  datatype QSIParcInputs = QSIParcInputs(
    qsireconDir: Path,
    participant: string,
    outputDir: Option<Path>,
    session: Option<string>,
    atlases: Option<seq<string>>,
    nJobs: Option<int>,
    nProcs: Option<int>)

  /**
   * `_discover_sessions(qsirecon_dir, participant)`: no sessions without a
   * `derivatives` directory or without a `qsirecon-*` directory in it; otherwise
   * the sorted, "ses-"-stripped `ses-*` subdirectories of the participant's
   * directory in the first `qsirecon-*` directory that `iterdir` lists.
   */
  function DiscoverSessions(fs: FileSystem, qsireconDir: Path, participant: string): (r: Outcome<seq<string>>)
    ensures var deriv := Child(qsireconDir, "derivatives");
      && (!fs.Exists(deriv) ==> r == Ok([]))
      && (fs.Exists(deriv) && !fs.IsDir(deriv) ==> r.Raised? && r.exc.cls == NotADirectoryError)
      && (fs.IsDir(deriv) ==>
            var workflowDirs := SubdirsWithPrefix(fs, deriv, fs.children(deriv), "qsirecon-");
            r == if workflowDirs == [] then Ok([])
                 else StrippedSubdirs(fs, Child(Child(deriv, workflowDirs[0]), "sub-" + participant), "ses-"))
  {
    var deriv := Child(qsireconDir, "derivatives");
    if !fs.Exists(deriv) then Ok([])
    else
      var workflowDirs :- ListSubdirs(fs, deriv, "qsirecon-");
      if workflowDirs == [] then Ok([])
      else StrippedSubdirs(fs, Child(Child(deriv, workflowDirs[0]), "sub-" + participant), "ses-")
  }

  /**
   * `_discover_workflows(qsirecon_dir)`: no workflows without a `derivatives`
   * directory; otherwise the sorted names of its `qsirecon-*` subdirectories with
   * every "qsirecon-" removed.
   */
  function DiscoverWorkflows(fs: FileSystem, qsireconDir: Path): (r: Outcome<seq<string>>)
    ensures var deriv := Child(qsireconDir, "derivatives");
      && (!fs.Exists(deriv) ==> r == Ok([]))
      && (fs.Exists(deriv) ==> (r.Ok? <==> fs.IsDir(deriv)))
      && (r.Raised? ==> r.exc.cls == NotADirectoryError)
      && (r.Ok? ==> forall i :: 0 < i < |r.value| ==> Sorting.StrLe(r.value[i - 1], r.value[i]))
      && (fs.IsDir(deriv) ==> forall w :: w in r.value ==>
            exists n :: n in fs.children(deriv) && fs.IsDir(Child(deriv, n)) && Strings.StartsWith(n, "qsirecon-")
                        && Strings.ReplaceAll(n, "qsirecon-", "") == w)
      && (fs.IsDir(deriv) ==> forall w :: ("qsirecon-" + w in fs.children(deriv) && fs.IsDir(Child(deriv, "qsirecon-" + w))
                                          && !Strings.Contains(w, "qsirecon-")) ==> w in r.value)
  {
    var deriv := Child(qsireconDir, "derivatives");
    if fs.IsDir(deriv) then
      StrippedSubdirsContents(fs, deriv, "qsirecon-");
      StrippedSubdirs(fs, deriv, "qsirecon-")
    else StrippedSubdirs(fs, deriv, "qsirecon-")
  }

  /**
   * The sessions are read from one workflow only: the first `qsirecon-*`
   * subdirectory of `derivatives`, in `iterdir` order.
   */
  lemma SessionsFromFirstWorkflow(fs: FileSystem, qsireconDir: Path, participant: string)
    requires fs.IsDir(Child(qsireconDir, "derivatives"))
    requires SubdirsWithPrefix(fs, Child(qsireconDir, "derivatives"), fs.children(Child(qsireconDir, "derivatives")), "qsirecon-") != []
    ensures var deriv := Child(qsireconDir, "derivatives");
      exists i ::
        && 0 <= i < |fs.children(deriv)|
        && fs.IsDir(Child(deriv, fs.children(deriv)[i])) && Strings.StartsWith(fs.children(deriv)[i], "qsirecon-")
        && (forall j :: 0 <= j < i ==>
              !(fs.IsDir(Child(deriv, fs.children(deriv)[j])) && Strings.StartsWith(fs.children(deriv)[j], "qsirecon-")))
        && DiscoverSessions(fs, qsireconDir, participant)
             == StrippedSubdirs(fs, Child(Child(deriv, fs.children(deriv)[i]), "sub-" + participant), "ses-")
  {
    var deriv := Child(qsireconDir, "derivatives");
    SubdirsFirst(fs, deriv, fs.children(deriv), "qsirecon-");
  }

  /**
   * `if inputs.session: sessions = [inputs.session] if inputs.session in sessions
   * else []`: a requested session narrows the discovered ones to itself, and to
   * none when it was not discovered.
   */
  function SelectSessions(discovered: seq<string>, session: Option<string>): (r: seq<string>)
    ensures !HasSession(session) ==> r == discovered
    ensures HasSession(session) ==> |r| <= 1 && forall s :: s in r <==> s == session.value && s in discovered
  {
    if HasSession(session) then (if session.value in discovered then [session.value] else []) else discovered
  }

  /** The dwi directory of one workflow for one session, or for the whole dataset without sessions. */
  function DwiPath(outputDir: Path, participant: string, workflow: string, session: Option<string>): (p: Path)
    ensures Name(p) == "dwi"
    ensures session.None? ==> p == Child(Child(Child(outputDir, "qsirecon-" + workflow), "sub-" + participant), "dwi")
    ensures session.Some? ==>
      Parent(p) == Child(Child(Child(outputDir, "qsirecon-" + workflow), "sub-" + participant), "ses-" + session.value)
  {
    var dir := Child(Child(outputDir, "qsirecon-" + workflow), "sub-" + participant);
    Child(if session.Some? then Child(dir, "ses-" + session.value) else dir, "dwi")
  }

  function DwiLeaf(outputDir: Path, participant: string): (string, Option<string>) -> Path
  {
    (w: string, s: Option<string>) => DwiPath(outputDir, participant, w, s)
  }

  datatype QSIParcOutputs = QSIParcOutputs(outputDir: Path, workflowDirs: WorkflowMap)
  {
    /** The outputs as the object post-validation reads its attributes from. */
    function ToObject(): (v: Value)
      ensures GetAttr(v, "output_dir") == Some(VPath(outputDir))
      ensures GetAttr(v, "workflow_dirs") == Some(PathDict(workflowDirs))
    {
      var fields := [Field("output_dir", VPath(outputDir)), Field("workflow_dirs", PathDict(workflowDirs))];
      assert fields[1].name[0] != fields[0].name[0];
      FindFieldAt(fields, 1);
      VObj("QSIParcOutputs", fields)
    }
  }

  /**
   * `QSIParcOutputs.from_inputs(inputs, output_dir)` as a value: the given output
   * directory, and every discovered workflow mapping each selected session (or
   * `None`) to its dwi directory. Raises when discovery does.
   */
  function OutputsFor(fs: FileSystem, inputs: QSIParcInputs, outputDir: Path): (r: Outcome<QSIParcOutputs>)
    ensures r.Ok? <==> DiscoverSessions(fs, inputs.qsireconDir, inputs.participant).Ok?
                       && DiscoverWorkflows(fs, inputs.qsireconDir).Ok?
    ensures r.Ok? ==> r.value.outputDir == outputDir
    ensures r.Ok? ==> |r.value.workflowDirs| <= |DiscoverWorkflows(fs, inputs.qsireconDir).value|
  {
    var discovered :- DiscoverSessions(fs, inputs.qsireconDir, inputs.participant);
    var sessions := SelectSessions(discovered, inputs.session);
    var workflows :- DiscoverWorkflows(fs, inputs.qsireconDir);
    WorkflowsFoldLength(workflows, sessions, DwiLeaf(outputDir, inputs.participant));
    Ok(QSIParcOutputs(outputDir, WorkflowsFold(workflows, sessions, DwiLeaf(outputDir, inputs.participant))))
  }

  /** `from_inputs`, filling the directory dictionary in nested loops. */
  method FromInputs(fs: FileSystem, inputs: QSIParcInputs, outputDir: Path) returns (r: Outcome<QSIParcOutputs>)
    ensures r == OutputsFor(fs, inputs, outputDir)
  {
    var discovered :- DiscoverSessions(fs, inputs.qsireconDir, inputs.participant);
    var sessions := SelectSessions(discovered, inputs.session);
    var workflows :- DiscoverWorkflows(fs, inputs.qsireconDir);
    var dirs := Build(workflows, sessions, DwiLeaf(outputDir, inputs.participant));
    return Ok(QSIParcOutputs(outputDir, dirs));
  }

  /**
   * The directories of derived outputs: exactly the discovered workflows, each
   * mapping every selected session to its dwi directory, or `None` to the
   * dataset's dwi directory when no session is selected — which is also the case
   * for a requested session that was not discovered.
   */
  lemma DirsLayout(fs: FileSystem, inputs: QSIParcInputs, outputDir: Path, w: string, k: Option<string>)
    requires OutputsFor(fs, inputs, outputDir).Ok?
    ensures var discovered := DiscoverSessions(fs, inputs.qsireconDir, inputs.participant).value;
      var sessions := SelectSessions(discovered, inputs.session);
      var workflows := DiscoverWorkflows(fs, inputs.qsireconDir).value;
      var dirs := OutputsFor(fs, inputs, outputDir).value.workflowDirs;
      && (Get(dirs, w).Some? <==> w in workflows)
      && (w in workflows ==>
            Get(Get(dirs, w).value, k)
              == if (sessions == [] && k.None?) || (k.Some? && k.value in sessions)
                 then Some(DwiPath(outputDir, inputs.participant, w, k)) else None)
  {
    var discovered := DiscoverSessions(fs, inputs.qsireconDir, inputs.participant).value;
    var sessions := SelectSessions(discovered, inputs.session);
    var workflows := DiscoverWorkflows(fs, inputs.qsireconDir).value;
    assert OutputsFor(fs, inputs, outputDir).value.workflowDirs == WorkflowsFold(workflows, sessions, DwiLeaf(outputDir, inputs.participant));
    FoldLayout(workflows, sessions, outputDir, inputs.participant, w, k);
  }

  /** The layout of `DirsLayout`, for given workflows and sessions. */
  lemma FoldLayout(workflows: seq<string>, sessions: seq<string>, outputDir: Path, participant: string, w: string, k: Option<string>)
    ensures var dirs := WorkflowsFold(workflows, sessions, DwiLeaf(outputDir, participant));
      && (Get(dirs, w).Some? <==> w in workflows)
      && (w in workflows ==>
            Get(Get(dirs, w).value, k)
              == if (sessions == [] && k.None?) || (k.Some? && k.value in sessions)
                 then Some(DwiPath(outputDir, participant, w, k)) else None)
  {
    var leaf := DwiLeaf(outputDir, participant);
    WorkflowsFoldContents(workflows, sessions, leaf);
    SessionMapContents(w, sessions, leaf);
  }

  /**
   * `exist()`: `False` when the output directory is missing; otherwise whether
   * every dwi directory exists, stopping at the first missing one.
   */
  method Exist(o: QSIParcOutputs, fs: FileSystem) returns (b: bool)
    ensures b == (fs.Exists(o.outputDir) && AllExist(fs, o.workflowDirs))
  {
    if !fs.Exists(o.outputDir) {
      return false;
    }
    b := LeavesExist(fs, o.workflowDirs);
  }

  /**
   * For derived outputs, `exist()` holds exactly when the output directory and
   * every workflow's dwi directory for every selected session (or the dataset's
   * without sessions) exist; with no workflow discovered, the output directory
   * alone decides.
   */
  lemma ExistMeansDirs(fs: FileSystem, inputs: QSIParcInputs, outputDir: Path, fsNow: FileSystem)
    requires OutputsFor(fs, inputs, outputDir).Ok?
    ensures var o := OutputsFor(fs, inputs, outputDir).value;
      var sessions := SelectSessions(DiscoverSessions(fs, inputs.qsireconDir, inputs.participant).value, inputs.session);
      var workflows := DiscoverWorkflows(fs, inputs.qsireconDir).value;
      && ((fsNow.Exists(o.outputDir) && AllExist(fsNow, o.workflowDirs)) <==>
            && fsNow.Exists(outputDir)
            && forall w :: w in workflows ==>
                 && (sessions == [] ==> fsNow.Exists(DwiPath(outputDir, inputs.participant, w, None)))
                 && (forall s :: s in sessions ==> fsNow.Exists(DwiPath(outputDir, inputs.participant, w, Some(s)))))
      && (workflows == [] ==> ((fsNow.Exists(o.outputDir) && AllExist(fsNow, o.workflowDirs)) <==> fsNow.Exists(outputDir)))
  {
    var sessions := SelectSessions(DiscoverSessions(fs, inputs.qsireconDir, inputs.participant).value, inputs.session);
    var workflows := DiscoverWorkflows(fs, inputs.qsireconDir).value;
    AllExistFold(fsNow, workflows, sessions, DwiLeaf(outputDir, inputs.participant));
  }

  /** `to_dict()`: the output directory as a string and the directory nesting kept with every path as a string. */
  function ToDict(o: QSIParcOutputs): (v: Value)
    ensures v.VDict? && Keys(v.entries) == [Some("output_dir"), Some("workflow_dirs")]
    ensures DictGet(v.entries, Some("output_dir")) == Some(VStr(PathString(o.outputDir)))
    ensures DictGet(v.entries, Some("workflow_dirs")) == Some(WorkflowMaps.ToValue(o.workflowDirs))
  {
    var keys := ["output_dir", "workflow_dirs"];
    var vals := [VStr(PathString(o.outputDir)), WorkflowMaps.ToValue(o.workflowDirs)];
    KeysDistinctByLength(keys, [10, 13]);
    EntriesOfGet(keys, vals);
    assert keys[0] == "output_dir" && keys[1] == "workflow_dirs";
    VDict(EntriesOf(keys, vals))
  }

  /**
   * Post-validation, with the output directory also set on the inputs, passes
   * over derived outputs exactly when the output directory and every expected dwi
   * directory exist and a TSV file is found below the output directory.
   */
  lemma PostValidationOfOutputs(fs: FileSystem, inputs: QSIParcInputs, outputDir: Path, ctx: Context, fsNow: FileSystem)
    requires OutputsFor(fs, inputs, outputDir).Ok?
    requires GetAttr(ctx.inputs, "output_dir") == Some(VPath(outputDir))
    requires ctx.expectedOutputs == OutputsFor(fs, inputs, outputDir).value.ToObject()
    ensures var o := OutputsFor(fs, inputs, outputDir).value;
      RunPasses(QSIParc.postRules, ctx, fsNow) <==>
        fsNow.Exists(outputDir) && AllExist(fsNow, o.workflowDirs) && |fsNow.Glob(outputDir, "**/*.tsv")| >= 1
  {
    var o := OutputsFor(fs, inputs, outputDir).value;
    QSIParcPostPasses(ctx, fsNow, outputDir, PathDict(o.workflowDirs).entries);
    PathDictLeaves(fsNow, o.workflowDirs);
  }

  datatype QSIParcDefaults = QSIParcDefaults(
    mask: Option<string>,
    force: bool,
    backgroundLabel: int,
    resamplingTarget: Option<string>,
    logLevel: string,
    nJobs: Option<int>,
    nProcs: Option<int>)

  /** `QSIParcDefaults(...)` with the dataclass defaults. */
  function NewQSIParcDefaults(mask: Option<string> := Some("gm"), force: bool := false, backgroundLabel: int := 0,
                              resamplingTarget: Option<string> := Some("data"), logLevel: string := "INFO",
                              nJobs: Option<int> := Some(1), nProcs: Option<int> := Some(1)): QSIParcDefaults
  {
    QSIParcDefaults(mask, force, backgroundLabel, resamplingTarget, logLevel, nJobs, nProcs)
  }

  /** The brain-bank defaults of QSIParc. */
  lemma DefaultConfiguration()
    ensures var d := NewQSIParcDefaults();
      && d.mask == Some("gm") && !d.force && d.backgroundLabel == 0 && d.resamplingTarget == Some("data")
      && d.logLevel == "INFO" && d.nJobs == Some(1) && d.nProcs == Some(1)
  {
  }
}
