/**
 * The validators of the individual procedures: their declarative rule lists,
 * and what a passing report of each says about the filesystem.
 */
module ProcedureValidators {
  import opened Options
  import opened Paths
  import opened Values
  import opened Exceptions
  import opened ValidationBase
  import opened Context
  import opened Rules
  import opened ValidatorBase

  const HeudiConv: Validator := Validator(
    "heudiconv",
    [ DirectoryExists("dicom_dir", "DICOM directory", Error),
      FileExists("heuristic", "Heuristic file", Error, false),
      GlobFilesExist("dicom_dir", "**/*.dcm", 1, "DICOM files", Error, Pre, true) ],
    [ OutputDirectoryExists("bids_dir", "BIDS directory"),
      OutputDirectoryExists("participant_dir", "Participant directory") ])

  const QSIPrep: Validator := Validator(
    "qsiprep",
    [ DirectoryExists("bids_dir", "BIDS directory", Error),
      ParticipantExists("sub-"),
      GlobFilesExist("bids_dir", "**/dwi/*_dwi.nii.gz", 1, "DWI files", Error, Pre, true),
      GlobFilesExist("bids_dir", "**/dwi/*_dwi.bval", 1, "b-value files", Error, Pre, true),
      GlobFilesExist("bids_dir", "**/dwi/*_dwi.bvec", 1, "b-vector files", Error, Pre, true),
      GlobFilesExist("bids_dir", "**/anat/*_T1w.nii.gz", 1, "T1w anatomical", Error, Pre, true) ],
    [ OutputDirectoryExists("qsiprep_dir", "QSIPrep output directory"),
      OutputDirectoryExists("participant_dir", "Participant output directory"),
      HtmlReportExists ])

  /** Only the first post rule of the class is active; the others are commented out. */
  const QSIRecon: Validator := Validator(
    "qsirecon",
    [ DirectoryExists("qsiprep_dir", "QSIPrep directory", Error),
      ParticipantExists("sub-"),
      GlobFilesExist("qsiprep_dir", "**/dwi/*_desc-preproc_dwi.nii.gz", 1, "Preprocessed DWI", Error, Pre, true),
      GlobFilesExist("qsiprep_dir", "**/dwi/*-image_qc.tsv", 1, "QSIPrep QC files", Error, Pre, true) ],
    [ OutputDirectoryExists("qsirecon_dir", "QSIRecon output directory") ])

  const QSIParc: Validator := Validator(
    "qsiparc",
    [ DirectoryExists("qsirecon_dir", "QSIRecon directory", Error),
      ParticipantExists("sub-"),
      GlobFilesExist("qsirecon_dir", "**/*.nii.gz", 1, "Reconstruction files", Error, Pre, true) ],
    [ OutputDirectoryExists("output_dir", "Parcellation output directory"),
      WorkflowDirsExist,
      GlobFilesExist("output_dir", "**/*.tsv", 1, "Parcellation TSV files", Error, Post, false) ])

  const FreeSurfer: Validator := Validator(
    "freesurfer",
    [ DirectoryExists("bids_dir", "BIDS directory", Error),
      ParticipantExists("sub-"),
      GlobFilesExist("bids_dir", "**/anat/*_T1w.nii.gz", 1, "T1w anatomical", Error, Pre, true) ],
    [ OutputDirectoryExists("subject_dir", "FreeSurfer subject directory"),
      OutputDirectoryExists("mri_dir", "mri directory"),
      OutputDirectoryExists("surf_dir", "surf directory"),
      ExpectedOutputsExist("recon_done_flag", "recon-all completion flag", Error, false),
      GlobFilesExist("mri_dir", "aparc+aseg.mgz", 1, "aparc+aseg parcellation", Error, Post, false) ])

  const FreeSurferBase: Validator := Validator(
    "freesurfer_base",
    [ DirectoryExists("subjects_dir", "FreeSurfer subjects directory", Error) ],
    [ OutputDirectoryExists("base_subject_dir", "FreeSurfer base subject directory"),
      OutputDirectoryExists("mri_dir", "base template mri directory"),
      ExpectedOutputsExist("recon_done_flag", "base recon-all completion flag", Error, false) ])

  /** `search_dir` of a participant-level glob below `base`. */
  function ParticipantSearch(base: Path, ctx: Context): Path
  {
    SearchDir(base, true, ctx)
  }

  // The verdict of each rule kind as these validators configure it, one rule at a time.

  lemma DirVerdict(attr: string, dirType: string, ctx: Context, fs: FileSystem, dir: Path)
    requires GetAttr(ctx.inputs, attr) == Some(VPath(dir))
    ensures KnownVerdict(DirectoryExists(attr, dirType, Error), ctx, fs, fs.IsDir(dir))
  {
    DirectoryExistsVerdict(attr, dirType, Error, ctx, fs);
  }

  lemma HeuristicVerdict(ctx: Context, fs: FileSystem, heuristic: Value)
    requires GetAttr(ctx.inputs, "heuristic") == Some(heuristic) && (heuristic.VNone? || heuristic.VPath?)
    ensures KnownVerdict(FileExists("heuristic", "Heuristic file", Error, false), ctx, fs,
                         heuristic.VPath? ==> fs.IsFile(heuristic.p))
  {
    FileExistsVerdict("heuristic", "Heuristic file", Error, false, ctx, fs);
  }

  lemma ParticipantVerdict(ctx: Context, fs: FileSystem, input: Path)
    requires ctx.InputDir() == Ok(Some(input))
    ensures KnownVerdict(ParticipantExists("sub-"), ctx, fs, fs.Exists(Child(input, "sub-" + ctx.participant)))
  {
    ParticipantExistsVerdict("sub-", ctx, fs);
  }

  lemma ParticipantGlobVerdict(attr: string, pattern: string, fileType: string, ctx: Context, fs: FileSystem, base: Path)
    requires GetAttr(ctx.inputs, attr) == Some(VPath(base))
    ensures KnownVerdict(GlobFilesExist(attr, pattern, 1, fileType, Error, Pre, true), ctx, fs,
                         fs.Exists(base) && fs.Exists(ParticipantSearch(base, ctx))
                         && |fs.Glob(ParticipantSearch(base, ctx), pattern)| >= 1)
  {
    GlobVerdict(attr, pattern, 1, fileType, Error, Pre, true, ctx, fs);
  }

  lemma FlatGlobVerdict(attr: string, pattern: string, fileType: string, ctx: Context, fs: FileSystem, base: Path)
    requires GetBaseDir(attr, ctx) == Ok(Some(base))
    ensures KnownVerdict(GlobFilesExist(attr, pattern, 1, fileType, Error, Post, false), ctx, fs,
                         fs.Exists(base) && |fs.Glob(base, pattern)| >= 1)
  {
    GlobVerdict(attr, pattern, 1, fileType, Error, Post, false, ctx, fs);
  }

  lemma OutputVerdict(attr: string, outputType: string, ctx: Context, fs: FileSystem, p: Path)
    requires GetAttr(ctx.expectedOutputs, attr) == Some(VPath(p))
    ensures KnownVerdict(OutputDirectoryExists(attr, outputType), ctx, fs, fs.Exists(p))
  {
    OutputDirectoryVerdict(attr, outputType, ctx, fs);
  }

  lemma FlagVerdict(attr: string, itemType: string, ctx: Context, fs: FileSystem, p: Path)
    requires GetAttr(ctx.expectedOutputs, attr) == Some(VPath(p))
    ensures KnownVerdict(ExpectedOutputsExist(attr, itemType, Error, false), ctx, fs, fs.Exists(p))
  {
    ExpectedOutputsVerdict(attr, itemType, Error, ctx, fs);
  }

  lemma HtmlReportVerdict(ctx: Context, fs: FileSystem, report: Path)
    requires GetAttr(ctx.expectedOutputs, "html_report") == Some(VPath(report))
    ensures KnownVerdict(HtmlReportExists, ctx, fs, fs.Exists(report))
  {
  }

  lemma WorkflowVerdict(ctx: Context, fs: FileSystem, dirs: seq<Entry>)
    requires GetAttr(ctx.expectedOutputs, "workflow_dirs") == Some(VDict(dirs)) && NestedShape(dirs)
    ensures KnownVerdict(WorkflowDirsExist, ctx, fs, forall v :: v in Leaves(dirs) ==> v.VPath? && fs.Exists(v.p))
  {
    WorkflowDirsVerdict(ctx, fs, dirs);
  }

  /**
   * HeudiConv's pre-validation passes exactly when the DICOM directory is a
   * directory, the heuristic (if given) is a file, and the participant's
   * subdirectory of the DICOM directory holds at least one `.dcm` file.
   */
  lemma HeudiConvPrePasses(ctx: Context, fs: FileSystem, dicom: Path, heuristic: Value)
    requires GetAttr(ctx.inputs, "dicom_dir") == Some(VPath(dicom))
    requires GetAttr(ctx.inputs, "heuristic") == Some(heuristic) && (heuristic.VNone? || heuristic.VPath?)
    ensures RunRules(HeudiConv.preRules, ctx, fs).Ok?
    ensures RunPasses(HeudiConv.preRules, ctx, fs) <==>
      && fs.IsDir(dicom)
      && (heuristic.VPath? ==> fs.IsFile(heuristic.p))
      && fs.Exists(ParticipantSearch(dicom, ctx))
      && |fs.Glob(ParticipantSearch(dicom, ctx), "**/*.dcm")| >= 1
  {
    var rs := HeudiConv.preRules;
    var search := ParticipantSearch(dicom, ctx);
    DirVerdict("dicom_dir", "DICOM directory", ctx, fs, dicom);
    HeuristicVerdict(ctx, fs, heuristic);
    ParticipantGlobVerdict("dicom_dir", "**/*.dcm", "DICOM files", ctx, fs, dicom);
    RunKnown3(rs[0], rs[1], rs[2], ctx, fs,
      fs.IsDir(dicom), heuristic.VPath? ==> fs.IsFile(heuristic.p),
      fs.Exists(dicom) && fs.Exists(search) && |fs.Glob(search, "**/*.dcm")| >= 1);
    assert [rs[0], rs[1], rs[2]] == rs;
  }

  /** HeudiConv's post-validation passes exactly when both expected BIDS directories exist. */
  lemma HeudiConvPostPasses(ctx: Context, fs: FileSystem, bids: Path, participantDir: Path)
    requires GetAttr(ctx.expectedOutputs, "bids_dir") == Some(VPath(bids))
    requires GetAttr(ctx.expectedOutputs, "participant_dir") == Some(VPath(participantDir))
    ensures RunPasses(HeudiConv.postRules, ctx, fs) <==> fs.Exists(bids) && fs.Exists(participantDir)
  {
    var rs := HeudiConv.postRules;
    OutputVerdict("bids_dir", "BIDS directory", ctx, fs, bids);
    OutputVerdict("participant_dir", "Participant directory", ctx, fs, participantDir);
    RunKnown2(rs[0], rs[1], ctx, fs, fs.Exists(bids), fs.Exists(participantDir));
    assert [rs[0], rs[1]] == rs;
  }

  /**
   * QSIPrep's pre-validation passes exactly when the BIDS directory is a
   * directory holding the participant and each of the four DWI/anatomical globs
   * finds a file below the participant (and session) directory.
   */
  lemma QSIPrepPrePasses(ctx: Context, fs: FileSystem, bids: Path)
    requires GetAttr(ctx.inputs, "bids_dir") == Some(VPath(bids))
    ensures RunRules(QSIPrep.preRules, ctx, fs).Ok?
    ensures RunPasses(QSIPrep.preRules, ctx, fs) <==>
      var search := ParticipantSearch(bids, ctx);
      && fs.IsDir(bids)
      && fs.Exists(Child(bids, "sub-" + ctx.participant))
      && fs.Exists(search)
      && |fs.Glob(search, "**/dwi/*_dwi.nii.gz")| >= 1
      && |fs.Glob(search, "**/dwi/*_dwi.bval")| >= 1
      && |fs.Glob(search, "**/dwi/*_dwi.bvec")| >= 1
      && |fs.Glob(search, "**/anat/*_T1w.nii.gz")| >= 1
  {
    var rs := QSIPrep.preRules;
    var search := ParticipantSearch(bids, ctx);
    InputDirPrefersBids(ctx, bids);
    DirVerdict("bids_dir", "BIDS directory", ctx, fs, bids);
    ParticipantVerdict(ctx, fs, bids);
    ParticipantGlobVerdict("bids_dir", "**/dwi/*_dwi.nii.gz", "DWI files", ctx, fs, bids);
    ParticipantGlobVerdict("bids_dir", "**/dwi/*_dwi.bval", "b-value files", ctx, fs, bids);
    ParticipantGlobVerdict("bids_dir", "**/dwi/*_dwi.bvec", "b-vector files", ctx, fs, bids);
    ParticipantGlobVerdict("bids_dir", "**/anat/*_T1w.nii.gz", "T1w anatomical", ctx, fs, bids);
    RunKnown6(rs[0], rs[1], rs[2], rs[3], rs[4], rs[5], ctx, fs,
      fs.IsDir(bids), fs.Exists(Child(bids, "sub-" + ctx.participant)),
      fs.Exists(bids) && fs.Exists(search) && |fs.Glob(search, "**/dwi/*_dwi.nii.gz")| >= 1,
      fs.Exists(bids) && fs.Exists(search) && |fs.Glob(search, "**/dwi/*_dwi.bval")| >= 1,
      fs.Exists(bids) && fs.Exists(search) && |fs.Glob(search, "**/dwi/*_dwi.bvec")| >= 1,
      fs.Exists(bids) && fs.Exists(search) && |fs.Glob(search, "**/anat/*_T1w.nii.gz")| >= 1);
    assert [rs[0], rs[1], rs[2], rs[3], rs[4], rs[5]] == rs;
  }

  /** QSIPrep's post-validation passes exactly when its output directories and HTML report exist. */
  lemma QSIPrepPostPasses(ctx: Context, fs: FileSystem, qsiprepDir: Path, participantDir: Path, report: Path)
    requires GetAttr(ctx.expectedOutputs, "qsiprep_dir") == Some(VPath(qsiprepDir))
    requires GetAttr(ctx.expectedOutputs, "participant_dir") == Some(VPath(participantDir))
    requires GetAttr(ctx.expectedOutputs, "html_report") == Some(VPath(report))
    ensures RunPasses(QSIPrep.postRules, ctx, fs) <==>
      fs.Exists(qsiprepDir) && fs.Exists(participantDir) && fs.Exists(report)
  {
    var rs := QSIPrep.postRules;
    OutputVerdict("qsiprep_dir", "QSIPrep output directory", ctx, fs, qsiprepDir);
    OutputVerdict("participant_dir", "Participant output directory", ctx, fs, participantDir);
    HtmlReportVerdict(ctx, fs, report);
    RunKnown3(rs[0], rs[1], rs[2], ctx, fs, fs.Exists(qsiprepDir), fs.Exists(participantDir), fs.Exists(report));
    assert [rs[0], rs[1], rs[2]] == rs;
  }

  /**
   * QSIRecon's pre-validation, with the QSIPrep directory as the input
   * directory, passes exactly when it holds the participant and both globs match.
   */
  lemma QSIReconPrePasses(ctx: Context, fs: FileSystem, qsiprepDir: Path)
    requires Unset(ctx.inputs, "bids_dir") && Unset(ctx.inputs, "dicom_dir")
    requires GetAttr(ctx.inputs, "qsiprep_dir") == Some(VPath(qsiprepDir))
    ensures RunRules(QSIRecon.preRules, ctx, fs).Ok?
    ensures RunPasses(QSIRecon.preRules, ctx, fs) <==>
      var search := ParticipantSearch(qsiprepDir, ctx);
      && fs.IsDir(qsiprepDir)
      && fs.Exists(Child(qsiprepDir, "sub-" + ctx.participant))
      && fs.Exists(search)
      && |fs.Glob(search, "**/dwi/*_desc-preproc_dwi.nii.gz")| >= 1
      && |fs.Glob(search, "**/dwi/*-image_qc.tsv")| >= 1
  {
    var rs := QSIRecon.preRules;
    var search := ParticipantSearch(qsiprepDir, ctx);
    InputDirSkipsUnset(ctx, 2, qsiprepDir);
    DirVerdict("qsiprep_dir", "QSIPrep directory", ctx, fs, qsiprepDir);
    ParticipantVerdict(ctx, fs, qsiprepDir);
    ParticipantGlobVerdict("qsiprep_dir", "**/dwi/*_desc-preproc_dwi.nii.gz", "Preprocessed DWI", ctx, fs, qsiprepDir);
    ParticipantGlobVerdict("qsiprep_dir", "**/dwi/*-image_qc.tsv", "QSIPrep QC files", ctx, fs, qsiprepDir);
    RunKnown4(rs[0], rs[1], rs[2], rs[3], ctx, fs,
      fs.IsDir(qsiprepDir), fs.Exists(Child(qsiprepDir, "sub-" + ctx.participant)),
      fs.Exists(qsiprepDir) && fs.Exists(search) && |fs.Glob(search, "**/dwi/*_desc-preproc_dwi.nii.gz")| >= 1,
      fs.Exists(qsiprepDir) && fs.Exists(search) && |fs.Glob(search, "**/dwi/*-image_qc.tsv")| >= 1);
    assert [rs[0], rs[1], rs[2], rs[3]] == rs;
  }

  /** QSIRecon's post-validation checks only that its output directory was created. */
  lemma QSIReconPostPasses(ctx: Context, fs: FileSystem, qsireconDir: Path)
    requires GetAttr(ctx.expectedOutputs, "qsirecon_dir") == Some(VPath(qsireconDir))
    ensures RunPasses(QSIRecon.postRules, ctx, fs) <==> fs.Exists(qsireconDir)
  {
    var rs := QSIRecon.postRules;
    OutputVerdict("qsirecon_dir", "QSIRecon output directory", ctx, fs, qsireconDir);
    RunKnown1(rs[0], ctx, fs, fs.Exists(qsireconDir));
    assert [rs[0]] == rs;
  }

  /**
   * QSIParc's pre-validation, with the QSIRecon directory as the input
   * directory, passes exactly when it holds the participant and the
   * participant's directory holds a NIfTI file.
   */
  lemma QSIParcPrePasses(ctx: Context, fs: FileSystem, qsireconDir: Path)
    requires Unset(ctx.inputs, "bids_dir") && Unset(ctx.inputs, "dicom_dir") && Unset(ctx.inputs, "qsiprep_dir")
    requires GetAttr(ctx.inputs, "qsirecon_dir") == Some(VPath(qsireconDir))
    ensures RunRules(QSIParc.preRules, ctx, fs).Ok?
    ensures RunPasses(QSIParc.preRules, ctx, fs) <==>
      var search := ParticipantSearch(qsireconDir, ctx);
      && fs.IsDir(qsireconDir)
      && fs.Exists(Child(qsireconDir, "sub-" + ctx.participant))
      && fs.Exists(search)
      && |fs.Glob(search, "**/*.nii.gz")| >= 1
  {
    var rs := QSIParc.preRules;
    var search := ParticipantSearch(qsireconDir, ctx);
    InputDirSkipsUnset(ctx, 3, qsireconDir);
    DirVerdict("qsirecon_dir", "QSIRecon directory", ctx, fs, qsireconDir);
    ParticipantVerdict(ctx, fs, qsireconDir);
    ParticipantGlobVerdict("qsirecon_dir", "**/*.nii.gz", "Reconstruction files", ctx, fs, qsireconDir);
    RunKnown3(rs[0], rs[1], rs[2], ctx, fs,
      fs.IsDir(qsireconDir), fs.Exists(Child(qsireconDir, "sub-" + ctx.participant)),
      fs.Exists(qsireconDir) && fs.Exists(search) && |fs.Glob(search, "**/*.nii.gz")| >= 1);
    assert [rs[0], rs[1], rs[2]] == rs;
  }

  /**
   * QSIParc's post-validation passes exactly when the output directory exists,
   * every workflow's dwi directory exists, and a TSV file is found anywhere below
   * the output directory (the glob is not participant-level).
   */
  lemma QSIParcPostPasses(ctx: Context, fs: FileSystem, outputDir: Path, dirs: seq<Entry>)
    requires GetAttr(ctx.inputs, "output_dir") == Some(VPath(outputDir))
    requires GetAttr(ctx.expectedOutputs, "output_dir") == Some(VPath(outputDir))
    requires GetAttr(ctx.expectedOutputs, "workflow_dirs") == Some(VDict(dirs)) && NestedShape(dirs)
    ensures RunPasses(QSIParc.postRules, ctx, fs) <==>
      && fs.Exists(outputDir)
      && (forall v :: v in Leaves(dirs) ==> v.VPath? && fs.Exists(v.p))
      && |fs.Glob(outputDir, "**/*.tsv")| >= 1
  {
    var rs := QSIParc.postRules;
    OutputVerdict("output_dir", "Parcellation output directory", ctx, fs, outputDir);
    WorkflowVerdict(ctx, fs, dirs);
    BaseDirOfInput("output_dir", ctx, outputDir);
    FlatGlobVerdict("output_dir", "**/*.tsv", "Parcellation TSV files", ctx, fs, outputDir);
    RunKnown3(rs[0], rs[1], rs[2], ctx, fs, fs.Exists(outputDir),
      forall v :: v in Leaves(dirs) ==> v.VPath? && fs.Exists(v.p),
      fs.Exists(outputDir) && |fs.Glob(outputDir, "**/*.tsv")| >= 1);
    assert [rs[0], rs[1], rs[2]] == rs;
  }
  /**
   * When the inputs carry `output_dir = None`, QSIParc's TSV rule takes that
   * `None` as its base directory and `Path(None)` raises `TypeError`, so
   * post-validation raises instead of returning a report.
   */
  lemma QSIParcPostRaisesWithoutOutputDir(ctx: Context, fs: FileSystem)
    requires GetAttr(ctx.inputs, "output_dir") == Some(VNone)
    requires RuleCheck(QSIParc.postRules[0], ctx, fs).Ok? && RuleCheck(QSIParc.postRules[1], ctx, fs).Ok?
    ensures RunRules(QSIParc.postRules, ctx, fs).Raised?
    ensures RunRules(QSIParc.postRules, ctx, fs).exc.cls == TypeError
  {
    var rules := QSIParc.postRules;
    BaseDirOfUnsetInput("output_dir", ctx);
    GlobRaisesWithBase(rules[2], ctx, fs);
    assert !Skip(rules[2], ctx);
    RunRaisesAtThird(rules[0], rules[1], rules[2], ctx, fs);
    assert [rules[0], rules[1], rules[2]] == rules;
  }

  /**
   * FreeSurfer's pre-validation passes exactly when the BIDS directory is a
   * directory holding the participant and a T1w image below the participant
   * (and session) directory.
   */
  lemma FreeSurferPrePasses(ctx: Context, fs: FileSystem, bids: Path)
    requires GetAttr(ctx.inputs, "bids_dir") == Some(VPath(bids))
    ensures RunRules(FreeSurfer.preRules, ctx, fs).Ok?
    ensures RunPasses(FreeSurfer.preRules, ctx, fs) <==>
      var search := ParticipantSearch(bids, ctx);
      && fs.IsDir(bids)
      && fs.Exists(Child(bids, "sub-" + ctx.participant))
      && fs.Exists(search)
      && |fs.Glob(search, "**/anat/*_T1w.nii.gz")| >= 1
  {
    var rs := FreeSurfer.preRules;
    var search := ParticipantSearch(bids, ctx);
    InputDirPrefersBids(ctx, bids);
    DirVerdict("bids_dir", "BIDS directory", ctx, fs, bids);
    ParticipantVerdict(ctx, fs, bids);
    ParticipantGlobVerdict("bids_dir", "**/anat/*_T1w.nii.gz", "T1w anatomical", ctx, fs, bids);
    RunKnown3(rs[0], rs[1], rs[2], ctx, fs,
      fs.IsDir(bids), fs.Exists(Child(bids, "sub-" + ctx.participant)),
      fs.Exists(bids) && fs.Exists(search) && |fs.Glob(search, "**/anat/*_T1w.nii.gz")| >= 1);
    assert [rs[0], rs[1], rs[2]] == rs;
  }

  /**
   * FreeSurfer's post-validation passes exactly when the subject, mri and surf
   * directories and the `recon-all.done` flag exist and `mri_dir` itself holds
   * `aparc+aseg.mgz`.
   */
  lemma FreeSurferPostPasses(ctx: Context, fs: FileSystem, subjectDir: Path, mriDir: Path, surfDir: Path, flag: Path)
    requires !(Truthy(ctx.inputs) && HasAttr(ctx.inputs, "mri_dir"))
    requires GetAttr(ctx.expectedOutputs, "subject_dir") == Some(VPath(subjectDir))
    requires GetAttr(ctx.expectedOutputs, "mri_dir") == Some(VPath(mriDir))
    requires GetAttr(ctx.expectedOutputs, "surf_dir") == Some(VPath(surfDir))
    requires GetAttr(ctx.expectedOutputs, "recon_done_flag") == Some(VPath(flag))
    ensures RunPasses(FreeSurfer.postRules, ctx, fs) <==>
      && fs.Exists(subjectDir) && fs.Exists(mriDir) && fs.Exists(surfDir) && fs.Exists(flag)
      && |fs.Glob(mriDir, "aparc+aseg.mgz")| >= 1
  {
    var rs := FreeSurfer.postRules;
    OutputVerdict("subject_dir", "FreeSurfer subject directory", ctx, fs, subjectDir);
    OutputVerdict("mri_dir", "mri directory", ctx, fs, mriDir);
    OutputVerdict("surf_dir", "surf directory", ctx, fs, surfDir);
    FlagVerdict("recon_done_flag", "recon-all completion flag", ctx, fs, flag);
    BaseDirOfExpected("mri_dir", ctx, mriDir);
    FlatGlobVerdict("mri_dir", "aparc+aseg.mgz", "aparc+aseg parcellation", ctx, fs, mriDir);
    RunKnown5(rs[0], rs[1], rs[2], rs[3], rs[4], ctx, fs,
      fs.Exists(subjectDir), fs.Exists(mriDir), fs.Exists(surfDir), fs.Exists(flag),
      fs.Exists(mriDir) && |fs.Glob(mriDir, "aparc+aseg.mgz")| >= 1);
    assert [rs[0], rs[1], rs[2], rs[3], rs[4]] == rs;
  }

  /** The base template's pre-validation passes exactly when the subjects directory is a directory. */
  lemma FreeSurferBasePrePasses(ctx: Context, fs: FileSystem, subjectsDir: Path)
    requires GetAttr(ctx.inputs, "subjects_dir") == Some(VPath(subjectsDir))
    ensures RunRules(FreeSurferBase.preRules, ctx, fs).Ok?
    ensures RunPasses(FreeSurferBase.preRules, ctx, fs) <==> fs.IsDir(subjectsDir)
  {
    var rs := FreeSurferBase.preRules;
    DirVerdict("subjects_dir", "FreeSurfer subjects directory", ctx, fs, subjectsDir);
    RunKnown1(rs[0], ctx, fs, fs.IsDir(subjectsDir));
    assert [rs[0]] == rs;
  }

  /** The base template's post-validation passes exactly when its directories and completion flag exist. */
  lemma FreeSurferBasePostPasses(ctx: Context, fs: FileSystem, baseDir: Path, mriDir: Path, flag: Path)
    requires GetAttr(ctx.expectedOutputs, "base_subject_dir") == Some(VPath(baseDir))
    requires GetAttr(ctx.expectedOutputs, "mri_dir") == Some(VPath(mriDir))
    requires GetAttr(ctx.expectedOutputs, "recon_done_flag") == Some(VPath(flag))
    ensures RunPasses(FreeSurferBase.postRules, ctx, fs) <==> fs.Exists(baseDir) && fs.Exists(mriDir) && fs.Exists(flag)
  {
    var rs := FreeSurferBase.postRules;
    OutputVerdict("base_subject_dir", "FreeSurfer base subject directory", ctx, fs, baseDir);
    OutputVerdict("mri_dir", "base template mri directory", ctx, fs, mriDir);
    FlagVerdict("recon_done_flag", "base recon-all completion flag", ctx, fs, flag);
    RunKnown3(rs[0], rs[1], rs[2], ctx, fs, fs.Exists(baseDir), fs.Exists(mriDir), fs.Exists(flag));
    assert [rs[0], rs[1], rs[2]] == rs;
  }
}
