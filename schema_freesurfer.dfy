/**
 * FreeSurfer's inputs and subject label, the expected outputs of a `recon-all`
 * run and of the longitudinal base-template step, their `exist()` and
 * `to_dict()`, and the default configuration.
 */
module FreeSurferSchema {
  import opened Options
  import opened Paths
  import opened Values
  import opened Dicts
  import opened Context
  import opened ValidatorBase
  import opened ProcedureValidators

  /** BIDS entity filters `{key: value}`, in insertion order. */
  type Filters = seq<Item<string, string>>

  /** The inputs after `__post_init__`, whose only effect is to turn strings into paths. */
  datatype FreeSurferInputs = FreeSurferInputs(
    bidsDir: Path,
    participant: string,
    session: Option<string>,
    outputDir: Option<Path>,
    workDir: Option<Path>,
    t1wFilters: Option<Filters>,
    t2wFilters: Option<Filters>,
    flairFilters: Option<Filters>)
  {
    /**
     * `subject_label`: "sub-<participant>", whatever the session (the
     * per-session label is disabled in the source).
     */
    function SubjectLabel(): (l: string)
      ensures l == "sub-" + participant
    {
      "sub-" + participant
    }

    /** The inputs as the object an execution record carries under `inputs`: one field per dataclass attribute. */
    function ToObject(): (v: Value)
      ensures v.VObj? && v.cls == "FreeSurferInputs" && |v.fields| == 8
      ensures GetAttr(v, "bids_dir") == Some(VPath(bidsDir))
      ensures GetAttr(v, "participant") == Some(VStr(participant))
      ensures GetAttr(v, "session") == Some(if session.Some? then VStr(session.value) else VNone)
      ensures GetAttr(v, "output_dir") == Some(PathOrNone(outputDir))
      ensures GetAttr(v, "work_dir") == Some(PathOrNone(workDir))
      ensures GetAttr(v, "t1w_filters") == Some(FiltersObject(t1wFilters))
      ensures GetAttr(v, "t2w_filters") == Some(FiltersObject(t2wFilters))
      ensures GetAttr(v, "flair_filters") == Some(FiltersObject(flairFilters))
    {
      var fs := [Field("bids_dir", VPath(bidsDir)), Field("participant", VStr(participant)),
                 Field("session", if session.Some? then VStr(session.value) else VNone),
                 Field("output_dir", PathOrNone(outputDir)), Field("work_dir", PathOrNone(workDir)),
                 Field("t1w_filters", FiltersObject(t1wFilters)), Field("t2w_filters", FiltersObject(t2wFilters)),
                 Field("flair_filters", FiltersObject(flairFilters))];
      var names := ["bids_dir", "participant", "session", "output_dir", "work_dir", "t1w_filters", "t2w_filters", "flair_filters"];
      InputNamesDistinct(names);
      assert forall i :: 0 <= i < 8 ==> fs[i].name == names[i];
      FindFieldDistinct(fs);
      assert fs[0].name == "bids_dir" && fs[1].name == "participant" && fs[2].name == "session" && fs[3].name == "output_dir";
      assert fs[4].name == "work_dir" && fs[5].name == "t1w_filters" && fs[6].name == "t2w_filters" && fs[7].name == "flair_filters";
      VObj("FreeSurferInputs", fs)
    }
  }

  /** An optional path as an attribute value: the path, or `None`. */
  function PathOrNone(p: Option<Path>): Value
  {
    if p.Some? then VPath(p.value) else VNone
  }

  /** Optional filters as an attribute value: a `dict` of strings in insertion order, or `None`. */
  function FiltersObject(f: Option<Filters>): (v: Value)
    ensures f.None? ==> v == VNone
    ensures f.Some? ==> v.VDict? && |v.entries| == |f.value|
    ensures f.Some? ==> forall i :: 0 <= i < |f.value| ==> v.entries[i] == Entry(Some(f.value[i].key), VStr(f.value[i].val))
  {
    match f
    case None => VNone
    case Some(items) => VDict(seq(|items|, i requires 0 <= i < |items| => Entry(Some(items[i].key), VStr(items[i].val))))
  }

  /** The eight attribute names of the inputs are pairwise different. */
  lemma InputNamesDistinct(ns: seq<string>)
    requires ns == ["bids_dir", "participant", "session", "output_dir", "work_dir", "t1w_filters", "t2w_filters", "flair_filters"]
    ensures forall i, j :: 0 <= i < j < |ns| ==> ns[i] != ns[j]
  {
    assert ns[0][0] == 'b' && ns[1][0] == 'p' && ns[2][0] == 's' && ns[3][0] == 'o';
    assert ns[4][0] == 'w' && ns[5][0] == 't' && ns[6][0] == 't' && ns[7][0] == 'f';
    assert ns[5][1] == '1' && ns[6][1] == '2';
  }

  datatype FreeSurferOutputs = FreeSurferOutputs(
    subjectsDir: Path,
    subjectDir: Path,
    mriDir: Path,
    surfDir: Path,
    statsDir: Path,
    reconDoneFlag: Path)
  {
    /** `exist()`: the run completed, i.e. its `recon-all.done` flag and its `mri` directory exist. */
    predicate Exist(fs: FileSystem)
    {
      fs.Exists(reconDoneFlag) && fs.Exists(mriDir)
    }

    /** The outputs as the object post-validation reads its attributes from. */
    function ToObject(): (v: Value)
      ensures GetAttr(v, "subjects_dir") == Some(VPath(subjectsDir))
      ensures GetAttr(v, "subject_dir") == Some(VPath(subjectDir))
      ensures GetAttr(v, "mri_dir") == Some(VPath(mriDir))
      ensures GetAttr(v, "surf_dir") == Some(VPath(surfDir))
      ensures GetAttr(v, "stats_dir") == Some(VPath(statsDir))
      ensures GetAttr(v, "recon_done_flag") == Some(VPath(reconDoneFlag))
    {
      var fields := [Field("subjects_dir", VPath(subjectsDir)), Field("subject_dir", VPath(subjectDir)),
                     Field("mri_dir", VPath(mriDir)), Field("surf_dir", VPath(surfDir)),
                     Field("stats_dir", VPath(statsDir)), Field("recon_done_flag", VPath(reconDoneFlag))];
      DistinctSix(fields[0].name, fields[1].name, fields[2].name, fields[3].name, fields[4].name, fields[5].name);
      FindFieldAt(fields, 1);
      FindFieldAt(fields, 2);
      FindFieldAt(fields, 3);
      FindFieldAt(fields, 4);
      FindFieldAt(fields, 5);
      VObj("FreeSurferOutputs", fields)
    }
  }

  /** The six attribute names of the outputs are pairwise different (by length, or else by first letter). */
  lemma DistinctSix(a: string, b: string, c: string, d: string, e: string, f: string)
    requires a == "subjects_dir" && b == "subject_dir" && c == "mri_dir" && d == "surf_dir"
    requires e == "stats_dir" && f == "recon_done_flag"
    ensures b != a
    ensures c != a && c != b
    ensures d != a && d != b && d != c
    ensures e != a && e != b && e != c && e != d
    ensures f != a && f != b && f != c && f != d && f != e
  {
    assert c[0] != d[0] && c[0] != e[0];
    assert |a| == 12 && |b| == 11 && |c| == 7 && |d| == 8 && |e| == 9 && |f| == 15;
  }

  /**
   * `FreeSurferOutputs.from_inputs(inputs, output_dir, work_dir)`: the output
   * directory is SUBJECTS_DIR; the subject directory `<subject_label>` is below
   * it; `mri`, `surf`, `stats` and `scripts/recon-all.done` are below that. The
   * work directory is not used.
   */
  function OutputsFor(inputs: FreeSurferInputs, outputDir: Path, workDir: Path): (o: FreeSurferOutputs)
    ensures o.subjectsDir == outputDir
    ensures o.subjectDir == Child(outputDir, inputs.SubjectLabel())
    ensures Parent(o.mriDir) == o.subjectDir && Name(o.mriDir) == "mri"
    ensures Parent(o.surfDir) == o.subjectDir && Name(o.surfDir) == "surf"
    ensures Parent(o.statsDir) == o.subjectDir && Name(o.statsDir) == "stats"
    ensures o.reconDoneFlag == Child(Child(o.subjectDir, "scripts"), "recon-all.done")
  {
    var subjectDir := Child(outputDir, inputs.SubjectLabel());
    FreeSurferOutputs(outputDir, subjectDir, Child(subjectDir, "mri"), Child(subjectDir, "surf"),
                      Child(subjectDir, "stats"), Child(Child(subjectDir, "scripts"), "recon-all.done"))
  }

  /**
   * Two sessions of one participant are expected in the same subject directory,
   * so the outputs of one session's run satisfy `exist()` for every other session.
   */
  lemma SessionsShareSubject(inputs: FreeSurferInputs, s1: Option<string>, s2: Option<string>,
                             outputDir: Path, workDir: Path, fs: FileSystem)
    ensures OutputsFor(inputs.(session := s1), outputDir, workDir) == OutputsFor(inputs.(session := s2), outputDir, workDir)
    ensures OutputsFor(inputs.(session := s1), outputDir, workDir).Exist(fs)
            <==> OutputsFor(inputs.(session := s2), outputDir, workDir).Exist(fs)
  {
  }

  /** For derived outputs, `exist()` holds exactly when the subject's completion flag and `mri` directory exist. */
  lemma ExistMeansCompleted(inputs: FreeSurferInputs, outputDir: Path, workDir: Path, fs: FileSystem)
    ensures var subject := Child(outputDir, "sub-" + inputs.participant);
      OutputsFor(inputs, outputDir, workDir).Exist(fs) <==>
        fs.Exists(Child(Child(subject, "scripts"), "recon-all.done")) && fs.Exists(Child(subject, "mri"))
  {
  }

  /** `to_dict()`: the six paths as strings under their attribute names. */
  function ToDict(o: FreeSurferOutputs): (v: Value)
    ensures v.VDict? && |v.entries| == 6
    ensures DictGet(v.entries, Some("subjects_dir")) == Some(VStr(PathString(o.subjectsDir)))
    ensures DictGet(v.entries, Some("subject_dir")) == Some(VStr(PathString(o.subjectDir)))
    ensures DictGet(v.entries, Some("mri_dir")) == Some(VStr(PathString(o.mriDir)))
    ensures DictGet(v.entries, Some("surf_dir")) == Some(VStr(PathString(o.surfDir)))
    ensures DictGet(v.entries, Some("stats_dir")) == Some(VStr(PathString(o.statsDir)))
    ensures DictGet(v.entries, Some("recon_done_flag")) == Some(VStr(PathString(o.reconDoneFlag)))
  {
    var keys := ["subjects_dir", "subject_dir", "mri_dir", "surf_dir", "stats_dir", "recon_done_flag"];
    var vals := [VStr(PathString(o.subjectsDir)), VStr(PathString(o.subjectDir)), VStr(PathString(o.mriDir)),
                 VStr(PathString(o.surfDir)), VStr(PathString(o.statsDir)), VStr(PathString(o.reconDoneFlag))];
    KeysDistinctByLength(keys, [12, 11, 7, 8, 9, 15]);
    EntriesOfGet(keys, vals);
    assert keys[0] == "subjects_dir" && keys[1] == "subject_dir" && keys[2] == "mri_dir";
    assert keys[3] == "surf_dir" && keys[4] == "stats_dir" && keys[5] == "recon_done_flag";
    VDict(EntriesOf(keys, vals))
  }

  /**
   * Post-validation over derived outputs passes exactly when the subject, `mri`
   * and `surf` directories and the completion flag exist and `mri` holds
   * `aparc+aseg.mgz`; so a passing post-validation implies `exist()`.
   */
  lemma PostValidationOfOutputs(inputs: FreeSurferInputs, outputDir: Path, workDir: Path, ctx: Context, fs: FileSystem)
    requires !(Truthy(ctx.inputs) && HasAttr(ctx.inputs, "mri_dir"))
    requires ctx.expectedOutputs == OutputsFor(inputs, outputDir, workDir).ToObject()
    ensures var o := OutputsFor(inputs, outputDir, workDir);
      RunPasses(FreeSurfer.postRules, ctx, fs) <==>
        && fs.Exists(o.subjectDir) && fs.Exists(o.mriDir) && fs.Exists(o.surfDir) && fs.Exists(o.reconDoneFlag)
        && |fs.Glob(o.mriDir, "aparc+aseg.mgz")| >= 1
    ensures RunPasses(FreeSurfer.postRules, ctx, fs) ==> OutputsFor(inputs, outputDir, workDir).Exist(fs)
  {
    var o := OutputsFor(inputs, outputDir, workDir);
    FreeSurferPostPasses(ctx, fs, o.subjectDir, o.mriDir, o.surfDir, o.reconDoneFlag);
  }

  datatype FreeSurferBaseInputs = FreeSurferBaseInputs(subjectsDir: Path, participant: string, sessions: seq<string>)
  {
    /** `output_dir`: an alias of the subjects directory. */
    function OutputDir(): (p: Path)
      ensures p == subjectsDir
    {
      subjectsDir
    }

    /** The inputs as the object an execution record carries under `inputs`: one field per dataclass attribute. */
    function ToObject(): (v: Value)
      ensures v.VObj? && v.cls == "FreeSurferBaseInputs" && |v.fields| == 3
      ensures GetAttr(v, "subjects_dir") == Some(VPath(subjectsDir))
      ensures GetAttr(v, "participant") == Some(VStr(participant))
      ensures GetAttr(v, "sessions") == Some(VList(seq(|sessions|, i requires 0 <= i < |sessions| => VStr(sessions[i]))))
    {
      var fs := [Field("subjects_dir", VPath(subjectsDir)), Field("participant", VStr(participant)),
                 Field("sessions", VList(seq(|sessions|, i requires 0 <= i < |sessions| => VStr(sessions[i]))))];
      assert fs[0].name[0] == 's' && fs[1].name[0] == 'p' && fs[2].name[1] == 'e' && fs[0].name[1] == 'u';
      FindFieldAt(fs, 1);
      FindFieldAt(fs, 2);
      VObj("FreeSurferBaseInputs", fs)
    }

    /** `base_label`: "sub-<participant>_base". */
    function BaseLabel(): string
    {
      "sub-" + participant + "_base"
    }

    /** `timepoint_labels`: one "sub-<participant>_ses-<session>" per session, in session order. */
    function TimepointLabels(): (ls: seq<string>)
      ensures |ls| == |sessions|
      ensures forall i :: 0 <= i < |sessions| ==> ls[i] == "sub-" + participant + "_ses-" + sessions[i]
    {
      seq(|sessions|, i requires 0 <= i < |sessions| => "sub-" + participant + "_ses-" + sessions[i])
    }
  }

  /**
   * The base template's label differs from every timepoint label and from the
   * subject label of a per-session run; and no timepoint label is the subject
   * label that a per-session run of the same participant produces, so the
   * timepoint directories the base step names are not among the subject
   * directories `recon-all` runs are expected to create.
   */
  lemma LabelsDistinct(b: FreeSurferBaseInputs, inputs: FreeSurferInputs)
    requires inputs.participant == b.participant
    ensures b.BaseLabel() != inputs.SubjectLabel()
    ensures forall l :: l in b.TimepointLabels() ==> l != b.BaseLabel() && l != inputs.SubjectLabel()
  {
    var p := "sub-" + b.participant;
    assert |b.BaseLabel()| == |p| + 5;
    forall l | l in b.TimepointLabels() ensures l != b.BaseLabel() && l != inputs.SubjectLabel() {
      var i :| 0 <= i < |b.sessions| && b.TimepointLabels()[i] == l;
      assert l[..|p| + 5] == p + "_ses-";
      assert b.BaseLabel()[..|p| + 5] == p + "_base";
      assert ("_ses-")[1] != ("_base")[1];
      assert l[|p| + 1] != b.BaseLabel()[|p| + 1];
    }
  }

  datatype FreeSurferBaseOutputs = FreeSurferBaseOutputs(
    subjectsDir: Path,
    baseSubjectDir: Path,
    mriDir: Path,
    reconDoneFlag: Path)
  {
    /** `exist()`: the base run completed, i.e. its `recon-all.done` flag and its `mri` directory exist. */
    predicate Exist(fs: FileSystem)
    {
      fs.Exists(reconDoneFlag) && fs.Exists(mriDir)
    }

    /** The outputs as the object post-validation reads its attributes from. */
    function ToObject(): (v: Value)
      ensures GetAttr(v, "subjects_dir") == Some(VPath(subjectsDir))
      ensures GetAttr(v, "base_subject_dir") == Some(VPath(baseSubjectDir))
      ensures GetAttr(v, "mri_dir") == Some(VPath(mriDir))
      ensures GetAttr(v, "recon_done_flag") == Some(VPath(reconDoneFlag))
    {
      var fields := [Field("subjects_dir", VPath(subjectsDir)), Field("base_subject_dir", VPath(baseSubjectDir)),
                     Field("mri_dir", VPath(mriDir)), Field("recon_done_flag", VPath(reconDoneFlag))];
      assert |fields[1].name| != |fields[0].name|;
      assert fields[2].name[0] != fields[0].name[0] && fields[2].name[0] != fields[1].name[0];
      assert fields[3].name[0] != fields[0].name[0] && fields[3].name[0] != fields[1].name[0];
      assert fields[3].name[0] != fields[2].name[0];
      FindFieldAt(fields, 1);
      FindFieldAt(fields, 2);
      FindFieldAt(fields, 3);
      VObj("FreeSurferBaseOutputs", fields)
    }
  }

  /**
   * `FreeSurferBaseOutputs.from_inputs(inputs)`: the base subject directory
   * `<base_label>` below the subjects directory, with `mri` and
   * `scripts/recon-all.done` below it.
   */
  function BaseOutputsFor(inputs: FreeSurferBaseInputs): (o: FreeSurferBaseOutputs)
    ensures o.subjectsDir == inputs.OutputDir()
    ensures o.baseSubjectDir == Child(inputs.subjectsDir, "sub-" + inputs.participant + "_base")
    ensures Parent(o.mriDir) == o.baseSubjectDir && Name(o.mriDir) == "mri"
    ensures o.reconDoneFlag == Child(Child(o.baseSubjectDir, "scripts"), "recon-all.done")
  {
    var baseDir := Child(inputs.subjectsDir, inputs.BaseLabel());
    FreeSurferBaseOutputs(inputs.subjectsDir, baseDir, Child(baseDir, "mri"), Child(Child(baseDir, "scripts"), "recon-all.done"))
  }

  /** `to_dict()` of the base outputs: the four paths as strings under their attribute names. */
  function BaseToDict(o: FreeSurferBaseOutputs): (v: Value)
    ensures v.VDict? && |v.entries| == 4
    ensures DictGet(v.entries, Some("subjects_dir")) == Some(VStr(PathString(o.subjectsDir)))
    ensures DictGet(v.entries, Some("base_subject_dir")) == Some(VStr(PathString(o.baseSubjectDir)))
    ensures DictGet(v.entries, Some("mri_dir")) == Some(VStr(PathString(o.mriDir)))
    ensures DictGet(v.entries, Some("recon_done_flag")) == Some(VStr(PathString(o.reconDoneFlag)))
  {
    var keys := ["subjects_dir", "base_subject_dir", "mri_dir", "recon_done_flag"];
    var vals := [VStr(PathString(o.subjectsDir)), VStr(PathString(o.baseSubjectDir)), VStr(PathString(o.mriDir)),
                 VStr(PathString(o.reconDoneFlag))];
    KeysDistinctByLength(keys, [12, 16, 7, 15]);
    EntriesOfGet(keys, vals);
    assert keys[0] == "subjects_dir" && keys[1] == "base_subject_dir" && keys[2] == "mri_dir" && keys[3] == "recon_done_flag";
    VDict(EntriesOf(keys, vals))
  }

  /**
   * Post-validation of the base step over derived outputs passes exactly when the
   * base subject directory, its `mri` directory and its completion flag exist, and
   * then `exist()` holds.
   */
  lemma BasePostValidationOfOutputs(inputs: FreeSurferBaseInputs, ctx: Context, fs: FileSystem)
    requires ctx.expectedOutputs == BaseOutputsFor(inputs).ToObject()
    ensures var o := BaseOutputsFor(inputs);
      RunPasses(FreeSurferBase.postRules, ctx, fs) <==>
        fs.Exists(o.baseSubjectDir) && fs.Exists(o.mriDir) && fs.Exists(o.reconDoneFlag)
    ensures RunPasses(FreeSurferBase.postRules, ctx, fs) ==> BaseOutputsFor(inputs).Exist(fs)
  {
    var o := BaseOutputsFor(inputs);
    FreeSurferBasePostPasses(ctx, fs, o.baseSubjectDir, o.mriDir, o.reconDoneFlag);
  }

  datatype FreeSurferDefaults = FreeSurferDefaults(
    nthreads: int,
    hires: bool,
    useT2pial: bool,
    useFlairpial: bool,
    fsLicense: Option<Path>,
    dockerImage: string,
    force: bool)
  {
    /** The dataclass attributes as an object's fields, in declaration order; `getattr` finds each one's value. */
    function Fields(): (fs: seq<Field>)
      ensures FieldNamesAre(fs, ConfigNames())
      ensures FindField(fs, "nthreads") == Some(VInt(nthreads))
      ensures FindField(fs, "hires") == Some(VBool(hires))
      ensures FindField(fs, "use_t2pial") == Some(VBool(useT2pial))
      ensures FindField(fs, "use_flairpial") == Some(VBool(useFlairpial))
      ensures FindField(fs, "fs_license") == Some(if fsLicense.Some? then VPath(fsLicense.value) else VNone)
      ensures FindField(fs, "docker_image") == Some(VStr(dockerImage))
      ensures FindField(fs, "force") == Some(VBool(force))
    {
      var fs := [Field("nthreads", VInt(nthreads)), Field("hires", VBool(hires)), Field("use_t2pial", VBool(useT2pial)),
                 Field("use_flairpial", VBool(useFlairpial)),
                 Field("fs_license", if fsLicense.Some? then VPath(fsLicense.value) else VNone),
                 Field("docker_image", VStr(dockerImage)), Field("force", VBool(force))];
      var names := ConfigNames();
      ConfigNamesDistinct(names);
      assert forall i :: 0 <= i < 7 ==> fs[i].name == names[i];
      FindFieldDistinct(fs);
      assert fs[1].name == "hires" && fs[2].name == "use_t2pial" && fs[3].name == "use_flairpial";
      assert fs[4].name == "fs_license" && fs[5].name == "docker_image" && fs[6].name == "force";
      fs
    }

    /** The configuration as the object an execution record carries under `config`. */
    function ToObject(): (v: Value)
      ensures v.VObj? && v.cls == "FreeSurferDefaults" && FieldNamesAre(v.fields, ConfigNames())
    {
      VObj("FreeSurferDefaults", Fields())
    }
  }

  /**
   * Reading a configuration's object back gives that configuration, whatever
   * the fallback: each attribute is present and holds a value of its type.
   */
  lemma ConfigRoundTrip(c: FreeSurferDefaults, fallback: FreeSurferDefaults)
    ensures FromFields(c.ToObject().fields, fallback) == c
  {
    var fs := c.Fields();
    assert FindField(fs, "fs_license") == Some(if c.fsLicense.Some? then VPath(c.fsLicense.value) else VNone);
  }

  /** The attribute names of `FreeSurferDefaults`, in declaration order. */
  function ConfigNames(): seq<string>
  {
    ["nthreads", "hires", "use_t2pial", "use_flairpial", "fs_license", "docker_image", "force"]
  }

  predicate FieldNamesAre(fs: seq<Field>, names: seq<string>)
  {
    |fs| == |names| && forall i :: 0 <= i < |fs| ==> fs[i].name == names[i]
  }

  /** The seven attribute names are pairwise different. */
  lemma ConfigNamesDistinct(ns: seq<string>)
    requires ns == ConfigNames()
    ensures forall i, j :: 0 <= i < j < |ns| ==> ns[i] != ns[j]
  {
    assert ns[0][0] == 'n' && ns[1][0] == 'h' && ns[2][0] == 'u' && ns[3][0] == 'u';
    assert ns[4][0] == 'f' && ns[5][0] == 'd' && ns[6][0] == 'f';
    assert ns[2][4] == 't' && ns[3][4] == 'f' && ns[4][1] == 's' && ns[6][1] == 'o';
  }

  /** An `int` attribute read from a field: its value when the field holds an `int`, else the fallback. */
  function IntOr(v: Option<Value>, fallback: int): int
  {
    if v.Some? && v.value.VInt? then v.value.i else fallback
  }

  /** A `bool` attribute read from a field: its value when the field holds a `bool`, else the fallback. */
  function BoolOr(v: Option<Value>, fallback: bool): bool
  {
    if v.Some? && v.value.VBool? then v.value.b else fallback
  }

  /** A `str` attribute read from a field: its value when the field holds a `str`, else the fallback. */
  function StrOr(v: Option<Value>, fallback: string): string
  {
    if v.Some? && v.value.VStr? then v.value.s else fallback
  }

  /** The licence attribute read from a field: `None` or a path, else the fallback. */
  function LicenseOr(v: Option<Value>, fallback: Option<Path>): Option<Path>
  {
    if v == Some(VNone) then None else if v.Some? && v.value.VPath? then Some(v.value.p) else fallback
  }

  /**
   * The typed configuration an object's fields describe: each attribute read
   * with `getattr`, an attribute that is missing or holds a value of another
   * type keeping the fallback's value.
   */
  function FromFields(fields: seq<Field>, fallback: FreeSurferDefaults): FreeSurferDefaults
  {
    FreeSurferDefaults(
      IntOr(FindField(fields, "nthreads"), fallback.nthreads),
      BoolOr(FindField(fields, "hires"), fallback.hires),
      BoolOr(FindField(fields, "use_t2pial"), fallback.useT2pial),
      BoolOr(FindField(fields, "use_flairpial"), fallback.useFlairpial),
      LicenseOr(FindField(fields, "fs_license"), fallback.fsLicense),
      StrOr(FindField(fields, "docker_image"), fallback.dockerImage),
      BoolOr(FindField(fields, "force"), fallback.force))
  }

  /** `FreeSurferDefaults(...)` with the dataclass defaults. */
  function NewFreeSurferDefaults(nthreads: int := 4, hires: bool := false, useT2pial: bool := true,
                                 useFlairpial: bool := true, fsLicense: Option<Path> := None,
                                 dockerImage: string := "freesurfer/freesurfer:8.1.0", force: bool := false): FreeSurferDefaults
  {
    FreeSurferDefaults(nthreads, hires, useT2pial, useFlairpial, fsLicense, dockerImage, force)
  }

  /** The defaults of FreeSurfer. */
  lemma DefaultConfiguration()
    ensures var d := NewFreeSurferDefaults();
      && d.nthreads == 4 && !d.hires && d.useT2pial && d.useFlairpial && d.fsLicense.None?
      && d.dockerImage == "freesurfer/freesurfer:8.1.0" && !d.force
  {
  }
}
