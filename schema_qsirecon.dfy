/**
 * QSIRecon's inputs, its expected outputs (the per-workflow, per-session HTML
 * reports derived by `from_inputs`), `exist()`, `to_dict()`, session discovery
 * from the QSIPrep output and its default configuration.
 */
module QSIReconSchema {
  import opened Options
  import Strings
  import Sorting
  import opened Paths
  import opened Values
  import opened Exceptions
  import opened Dicts
  import opened WorkflowMaps
  import opened Context
  import opened ValidatorBase
  import opened ProcedureValidators

  /** The inputs after `__post_init__`, whose only effect is to turn strings into paths. */
  datatype QSIReconInputs = QSIReconInputs(
    qsiprepDir: Path,
    participant: string,
    atlases: seq<string>,
    outputDir: Option<Path>,
    workDir: Option<Path>,
    reconSpec: Option<Path>,
    datasets: Option<seq<Item<string, Path>>>)

  /** The atlases used for connectivity when none are given. */
  const DefaultAtlases: seq<string> := [
    "4S156Parcels", "4S256Parcels", "4S356Parcels", "4S456Parcels", "4S556Parcels", "4S656Parcels",
    "4S756Parcels", "4S856Parcels", "4S956Parcels", "4S1056Parcels", "AICHA384Ext", "Brainnetome246Ext",
    "AAL116", "Gordon333Ext"]

  /** `QSIReconInputs(...)` with the dataclass defaults. */
  function NewQSIReconInputs(qsiprepDir: Path, participant: string, atlases: seq<string> := DefaultAtlases,
                             outputDir: Option<Path> := None, workDir: Option<Path> := None,
                             reconSpec: Option<Path> := None,
                             datasets: Option<seq<Item<string, Path>>> := None): QSIReconInputs
  {
    QSIReconInputs(qsiprepDir, participant, atlases, outputDir, workDir, reconSpec, datasets)
  }

  /** Fourteen atlases by default, the 4S family first. */
  lemma DefaultInputs(qsiprepDir: Path, participant: string)
    ensures var i := NewQSIReconInputs(qsiprepDir, participant);
      |i.atlases| == 14 && i.atlases[0] == "4S156Parcels" && i.atlases[13] == "Gordon333Ext"
      && i.outputDir.None? && i.workDir.None? && i.reconSpec.None? && i.datasets.None?
  {
  }

  /**
   * `_discover_sessions(qsiprep_dir, participant)`: the `ses-*` subdirectories of
   * the participant's QSIPrep directory, sorted and with "ses-" removed.
   */
  function DiscoverSessions(fs: FileSystem, qsiprepDir: Path, participant: string): (r: Outcome<seq<string>>)
    ensures var dir := Child(qsiprepDir, "sub-" + participant);
      && (!fs.Exists(dir) ==> r == Ok([]))
      && (fs.Exists(dir) ==> (r.Ok? <==> fs.IsDir(dir)))
      && (r.Raised? ==> r.exc.cls == NotADirectoryError)
      && (r.Ok? ==> forall i :: 0 < i < |r.value| ==> Sorting.StrLe(r.value[i - 1], r.value[i]))
      && (fs.IsDir(dir) ==> forall s :: s in r.value ==>
            exists n :: n in fs.children(dir) && fs.IsDir(Child(dir, n)) && Strings.StartsWith(n, "ses-")
                        && Strings.ReplaceAll(n, "ses-", "") == s)
      && (fs.IsDir(dir) ==> forall s :: ("ses-" + s in fs.children(dir) && fs.IsDir(Child(dir, "ses-" + s))
                                        && !Strings.Contains(s, "ses-")) ==> s in r.value)
  {
    var dir := Child(qsiprepDir, "sub-" + participant);
    if fs.IsDir(dir) then
      StrippedSubdirsContents(fs, dir, "ses-");
      StrippedSubdirs(fs, dir, "ses-")
    else StrippedSubdirs(fs, dir, "ses-")
  }

  /**
   * `_extract_workflows(recon_spec)`, applied only when a spec is given: the
   * default workflow when the spec file does not exist; otherwise the
   * `qsirecon_suffix` values read from it, or the default workflow when there are
   * none or reading it raised. `suffixes` is what reading the YAML file yields,
   * `None` when it raised.
   */
  function Workflows(fs: FileSystem, reconSpec: Option<Path>, suffixes: Option<seq<string>>): (r: seq<string>)
    ensures r != []
    ensures reconSpec.None? || !fs.Exists(reconSpec.value) || suffixes.None? ==> r == ["default"]
    ensures reconSpec.Some? && fs.Exists(reconSpec.value) && suffixes.Some? ==>
      r == (if suffixes.value == [] then ["default"] else suffixes.value)
  {
    if reconSpec.None? || !fs.Exists(reconSpec.value) then ["default"]
    else if suffixes.None? || suffixes.value == [] then ["default"]
    else suffixes.value
  }

  /** The HTML report of one workflow for one session, or for the whole dataset without sessions. */
  function ReportPath(outputDir: Path, participant: string, workflow: string, session: Option<string>): (p: Path)
    ensures Parent(Parent(p)) == Child(outputDir, "derivatives")
    ensures Name(Parent(p)) == "qsirecon-" + workflow
    ensures Name(p) == if session.Some? then "sub-" + participant + "_ses-" + session.value + ".html"
                       else "sub-" + participant + ".html"
  {
    Child(Child(Child(outputDir, "derivatives"), "qsirecon-" + workflow),
          if session.Some? then "sub-" + participant + "_ses-" + session.value + ".html" else "sub-" + participant + ".html")
  }

  function ReportLeaf(outputDir: Path, participant: string): (string, Option<string>) -> Path
  {
    (w: string, s: Option<string>) => ReportPath(outputDir, participant, w, s)
  }

  datatype QSIReconOutputs = QSIReconOutputs(
    qsireconDir: Path,
    participantDir: Path,
    workflowReports: WorkflowMap,
    workDir: Path)
  {
    /** The outputs as the object post-validation reads its attributes from. */
    function ToObject(): (v: Value)
      ensures GetAttr(v, "qsirecon_dir") == Some(VPath(qsireconDir))
      ensures GetAttr(v, "participant_dir") == Some(VPath(participantDir))
      ensures GetAttr(v, "workflow_reports") == Some(PathDict(workflowReports))
      ensures GetAttr(v, "work_dir") == Some(VPath(workDir))
    {
      var fields := [Field("qsirecon_dir", VPath(qsireconDir)), Field("participant_dir", VPath(participantDir)),
                     Field("workflow_reports", PathDict(workflowReports)), Field("work_dir", VPath(workDir))];
      assert fields[1].name[0] != fields[0].name[0];
      assert fields[2].name[0] != fields[0].name[0] && fields[2].name[0] != fields[1].name[0];
      assert fields[3].name[0] != fields[0].name[0] && fields[3].name[0] != fields[1].name[0];
      assert |fields[3].name| != |fields[2].name|;
      FindFieldAt(fields, 1);
      FindFieldAt(fields, 2);
      FindFieldAt(fields, 3);
      VObj("QSIReconOutputs", fields)
    }
  }

  /**
   * `QSIReconOutputs.from_inputs(inputs, output_dir, work_dir)` as a value: the
   * output directory is the QSIRecon directory, the participant directory is
   * below it, and every workflow maps each discovered session (or `None`) to its
   * report. Raises when session discovery does.
   */
  function OutputsFor(fs: FileSystem, inputs: QSIReconInputs, outputDir: Path, workDir: Path,
                      suffixes: Option<seq<string>>): (r: Outcome<QSIReconOutputs>)
    ensures r.Ok? <==> DiscoverSessions(fs, inputs.qsiprepDir, inputs.participant).Ok?
    ensures r.Raised? ==> r == DiscoverSessions(fs, inputs.qsiprepDir, inputs.participant).PropagateFailure()
    ensures r.Ok? ==> r.value.qsireconDir == outputDir && r.value.workDir == workDir
    ensures r.Ok? ==> r.value.participantDir == Child(outputDir, "sub-" + inputs.participant)
  {
    var sessions :- DiscoverSessions(fs, inputs.qsiprepDir, inputs.participant);
    var workflows := Workflows(fs, inputs.reconSpec, suffixes);
    Ok(QSIReconOutputs(outputDir, Child(outputDir, "sub-" + inputs.participant),
                       WorkflowsFold(workflows, sessions, ReportLeaf(outputDir, inputs.participant)), workDir))
  }

  /** `from_inputs`, filling the report dictionary in nested loops. */
  method FromInputs(fs: FileSystem, inputs: QSIReconInputs, outputDir: Path, workDir: Path,
                    suffixes: Option<seq<string>>) returns (r: Outcome<QSIReconOutputs>)
    ensures r == OutputsFor(fs, inputs, outputDir, workDir, suffixes)
  {
    var sessions :- DiscoverSessions(fs, inputs.qsiprepDir, inputs.participant);
    var workflows := Workflows(fs, inputs.reconSpec, suffixes);
    var reports := Build(workflows, sessions, ReportLeaf(outputDir, inputs.participant));
    return Ok(QSIReconOutputs(outputDir, Child(outputDir, "sub-" + inputs.participant), reports, workDir));
  }

  /**
   * The reports of derived outputs: exactly the workflows, each mapping every
   * discovered session to its report, or `None` to the dataset's report when no
   * session was discovered.
   */
  lemma ReportsLayout(fs: FileSystem, inputs: QSIReconInputs, outputDir: Path, workDir: Path,
                      suffixes: Option<seq<string>>, w: string, k: Option<string>)
    requires OutputsFor(fs, inputs, outputDir, workDir, suffixes).Ok?
    ensures var sessions := DiscoverSessions(fs, inputs.qsiprepDir, inputs.participant).value;
      var workflows := Workflows(fs, inputs.reconSpec, suffixes);
      var reports := OutputsFor(fs, inputs, outputDir, workDir, suffixes).value.workflowReports;
      && (Get(reports, w).Some? <==> w in workflows)
      && (w in workflows ==>
            Get(Get(reports, w).value, k)
              == if (sessions == [] && k.None?) || (k.Some? && k.value in sessions)
                 then Some(ReportPath(outputDir, inputs.participant, w, k)) else None)
  {
    var sessions := DiscoverSessions(fs, inputs.qsiprepDir, inputs.participant).value;
    var workflows := Workflows(fs, inputs.reconSpec, suffixes);
    var leaf := ReportLeaf(outputDir, inputs.participant);
    WorkflowsFoldContents(workflows, sessions, leaf);
    SessionMapContents(w, sessions, leaf);
  }

  /**
   * `exist()`: `False` when the QSIRecon directory is missing; otherwise whether
   * every report exists, stopping at the first missing one.
   */
  method Exist(o: QSIReconOutputs, fs: FileSystem) returns (b: bool)
    ensures b == (fs.Exists(o.qsireconDir) && AllExist(fs, o.workflowReports))
  {
    if !fs.Exists(o.qsireconDir) {
      return false;
    }
    b := LeavesExist(fs, o.workflowReports);
  }

  /**
   * For derived outputs, `exist()` holds exactly when the QSIRecon directory and
   * every workflow's report for every discovered session (or the dataset's report
   * without sessions) exist.
   */
  lemma ExistMeansReports(fs: FileSystem, inputs: QSIReconInputs, outputDir: Path, workDir: Path,
                          suffixes: Option<seq<string>>, fsNow: FileSystem)
    requires OutputsFor(fs, inputs, outputDir, workDir, suffixes).Ok?
    ensures var o := OutputsFor(fs, inputs, outputDir, workDir, suffixes).value;
      var sessions := DiscoverSessions(fs, inputs.qsiprepDir, inputs.participant).value;
      (fsNow.Exists(o.qsireconDir) && AllExist(fsNow, o.workflowReports)) <==>
        && fsNow.Exists(outputDir)
        && forall w :: w in Workflows(fs, inputs.reconSpec, suffixes) ==>
             && (sessions == [] ==> fsNow.Exists(ReportPath(outputDir, inputs.participant, w, None)))
             && (forall s :: s in sessions ==> fsNow.Exists(ReportPath(outputDir, inputs.participant, w, Some(s))))
  {
    var sessions := DiscoverSessions(fs, inputs.qsiprepDir, inputs.participant).value;
    AllExistFold(fsNow, Workflows(fs, inputs.reconSpec, suffixes), sessions, ReportLeaf(outputDir, inputs.participant));
  }

  /** `to_dict()`: the same four entries with every path as a string, the report nesting kept. */
  function ToDict(o: QSIReconOutputs): (v: Value)
    ensures v.VDict? && Keys(v.entries) == [Some("qsirecon_dir"), Some("participant_dir"), Some("workflow_reports"), Some("work_dir")]
    ensures DictGet(v.entries, Some("qsirecon_dir")) == Some(VStr(PathString(o.qsireconDir)))
    ensures DictGet(v.entries, Some("participant_dir")) == Some(VStr(PathString(o.participantDir)))
    ensures DictGet(v.entries, Some("workflow_reports")) == Some(WorkflowMaps.ToValue(o.workflowReports))
    ensures DictGet(v.entries, Some("work_dir")) == Some(VStr(PathString(o.workDir)))
  {
    var keys := ["qsirecon_dir", "participant_dir", "workflow_reports", "work_dir"];
    var vals := [VStr(PathString(o.qsireconDir)), VStr(PathString(o.participantDir)),
                 WorkflowMaps.ToValue(o.workflowReports), VStr(PathString(o.workDir))];
    DictEntries(keys, vals);
    VDict(EntriesOf(keys, vals))
  }

  /** The four keys of `to_dict()` are different, so each reads back its own value. */
  lemma DictEntries(keys: seq<string>, vals: seq<Value>)
    requires keys == ["qsirecon_dir", "participant_dir", "workflow_reports", "work_dir"] && |vals| == 4
    ensures Keys(EntriesOf(keys, vals)) == [Some("qsirecon_dir"), Some("participant_dir"), Some("workflow_reports"), Some("work_dir")]
    ensures DictGet(EntriesOf(keys, vals), Some("qsirecon_dir")) == Some(vals[0])
    ensures DictGet(EntriesOf(keys, vals), Some("participant_dir")) == Some(vals[1])
    ensures DictGet(EntriesOf(keys, vals), Some("workflow_reports")) == Some(vals[2])
    ensures DictGet(EntriesOf(keys, vals), Some("work_dir")) == Some(vals[3])
  {
    KeysDistinctByLength(keys, [12, 15, 16, 8]);
    EntriesOfGet(keys, vals);
    assert keys[0] == "qsirecon_dir" && keys[1] == "participant_dir" && keys[2] == "workflow_reports" && keys[3] == "work_dir";
    assert Keys(EntriesOf(keys, vals)) == [Some(keys[0]), Some(keys[1]), Some(keys[2]), Some(keys[3])];
  }

  /** Post-validation over derived outputs passes exactly when the QSIRecon directory exists. */
  lemma PostValidationOfOutputs(fs: FileSystem, inputs: QSIReconInputs, outputDir: Path, workDir: Path,
                                suffixes: Option<seq<string>>, ctx: Context, fsNow: FileSystem)
    requires OutputsFor(fs, inputs, outputDir, workDir, suffixes).Ok?
    requires ctx.expectedOutputs == OutputsFor(fs, inputs, outputDir, workDir, suffixes).value.ToObject()
    ensures RunPasses(QSIRecon.postRules, ctx, fsNow) <==> fsNow.Exists(outputDir)
  {
    QSIReconPostPasses(ctx, fsNow, outputDir);
  }

  datatype QSIReconDefaults = QSIReconDefaults(
    nprocs: int,
    memMb: int,
    fsSubjectsDir: Option<Path>,
    fsLicense: Option<Path>,
    dockerImage: string,
    force: bool)

  /** `QSIReconDefaults(...)` with the dataclass defaults. */
  function NewQSIReconDefaults(nprocs: int := 8, memMb: int := 16000, fsSubjectsDir: Option<Path> := None,
                               fsLicense: Option<Path> := None, dockerImage: string := "pennlinc/qsirecon:latest",
                               force: bool := false): QSIReconDefaults
  {
    QSIReconDefaults(nprocs, memMb, fsSubjectsDir, fsLicense, dockerImage, force)
  }

  /** The brain-bank defaults of QSIRecon. */
  lemma DefaultConfiguration()
    ensures var d := NewQSIReconDefaults();
      && d.nprocs == 8 && d.memMb == 16000 && d.fsSubjectsDir.None? && d.fsLicense.None?
      && d.dockerImage == "pennlinc/qsirecon:latest" && !d.force
  {
  }
}
