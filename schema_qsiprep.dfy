/**
 * QSIPrep's inputs, its expected outputs as derived by `from_inputs`, and its
 * default configuration.
 */
module QSIPrepSchema {
  import opened Options
  import opened Paths
  import opened Values
  import opened Context
  import opened ValidatorBase
  import opened ProcedureValidators

  /** The inputs after `__post_init__`, whose only effect is to turn strings into paths. */
  datatype QSIPrepInputs = QSIPrepInputs(
    bidsDir: Path,
    participant: string,
    outputDir: Option<Path>,
    workDir: Option<Path>,
    bidsFilters: Option<Path>)

  datatype QSIPrepOutputs = QSIPrepOutputs(
    qsiprepDir: Path,
    participantDir: Path,
    htmlReport: Path,
    workDir: Path,
    figuresDir: Path)
  {
    /** The outputs as the object post-validation reads its attributes from. */
    function ToObject(): (v: Value)
      ensures GetAttr(v, "qsiprep_dir") == Some(VPath(qsiprepDir))
      ensures GetAttr(v, "participant_dir") == Some(VPath(participantDir))
      ensures GetAttr(v, "html_report") == Some(VPath(htmlReport))
      ensures GetAttr(v, "work_dir") == Some(VPath(workDir))
      ensures GetAttr(v, "figures_dir") == Some(VPath(figuresDir))
    {
      var fields := [Field("qsiprep_dir", VPath(qsiprepDir)), Field("participant_dir", VPath(participantDir)),
                     Field("html_report", VPath(htmlReport)), Field("work_dir", VPath(workDir)),
                     Field("figures_dir", VPath(figuresDir))];
      assert fields[1].name[0] != fields[0].name[0];
      assert fields[2].name[0] != fields[0].name[0] && fields[2].name[0] != fields[1].name[0];
      assert fields[3].name[0] !in {fields[0].name[0], fields[1].name[0], fields[2].name[0]};
      assert fields[4].name[0] !in {fields[0].name[0], fields[1].name[0], fields[2].name[0], fields[3].name[0]};
      FindFieldAt(fields, 1);
      FindFieldAt(fields, 2);
      FindFieldAt(fields, 3);
      FindFieldAt(fields, 4);
      VObj("QSIPrepOutputs", fields)
    }
  }

  /**
   * `QSIPrepOutputs.from_inputs(inputs, output_dir, work_dir)`: everything sits
   * in `<output_dir>/qsiprep`; the HTML report `sub-<participant>.html` is next to
   * the participant directory, not inside it; the figures are inside it; the work
   * directory is passed through.
   */
  function QSIPrepOutputsFor(inputs: QSIPrepInputs, outputDir: Path, workDir: Path): (o: QSIPrepOutputs)
    ensures o.qsiprepDir == Child(outputDir, "qsiprep")
    ensures o.participantDir == Child(o.qsiprepDir, "sub-" + inputs.participant)
    ensures Parent(o.htmlReport) == o.qsiprepDir && Name(o.htmlReport) == "sub-" + inputs.participant + ".html"
    ensures Parent(o.figuresDir) == o.participantDir && Name(o.figuresDir) == "figures"
    ensures o.workDir == workDir
  {
    var qsiprepDir := Child(outputDir, "qsiprep");
    var participantDir := Child(qsiprepDir, "sub-" + inputs.participant);
    QSIPrepOutputs(qsiprepDir, participantDir, Child(qsiprepDir, "sub-" + inputs.participant + ".html"),
                   workDir, Child(participantDir, "figures"))
  }

  /** The HTML report is a sibling of the participant directory: it is neither that directory nor below it. */
  lemma ReportBesideParticipant(inputs: QSIPrepInputs, outputDir: Path, workDir: Path)
    ensures var o := QSIPrepOutputsFor(inputs, outputDir, workDir);
      Parent(o.htmlReport) == Parent(o.participantDir) && !(o.participantDir <= o.htmlReport)
  {
    var o := QSIPrepOutputsFor(inputs, outputDir, workDir);
    var n := |o.participantDir|;
    assert |o.htmlReport| == n;
    var name := "sub-" + inputs.participant;
    assert |o.htmlReport[n - 1]| == |name| + 5 != |name| == |o.participantDir[n - 1]|;
  }

  /**
   * Post-validation over the derived outputs passes exactly when the QSIPrep
   * directory, the participant directory and the HTML report exist.
   */
  lemma PostValidationOfOutputs(inputs: QSIPrepInputs, outputDir: Path, workDir: Path, ctx: Context, fs: FileSystem)
    requires ctx.expectedOutputs == QSIPrepOutputsFor(inputs, outputDir, workDir).ToObject()
    ensures var o := QSIPrepOutputsFor(inputs, outputDir, workDir);
      RunPasses(QSIPrep.postRules, ctx, fs) <==>
        fs.Exists(Child(outputDir, "qsiprep")) && fs.Exists(o.participantDir) && fs.Exists(o.htmlReport)
  {
    var o := QSIPrepOutputsFor(inputs, outputDir, workDir);
    QSIPrepPostPasses(ctx, fs, o.qsiprepDir, o.participantDir, o.htmlReport);
  }

  /** The configuration; `output_resolution` is a Python `float`, modelled as a real number. */
  datatype QSIPrepDefaults = QSIPrepDefaults(
    nprocs: int,
    memMb: int,
    outputResolution: real,
    anatomicalTemplate: seq<string>,
    longitudinal: bool,
    subjectAnatomicalReference: string,
    skipBidsValidation: bool,
    fsLicense: Option<Path>,
    dockerImage: string)

  /** `QSIPrepDefaults(...)` with the dataclass defaults. */
  function NewQSIPrepDefaults(nprocs: int := 8, memMb: int := 16000, outputResolution: real := 1.6,
                              anatomicalTemplate: seq<string> := ["MNI152NLin2009cAsym"], longitudinal: bool := false,
                              subjectAnatomicalReference: string := "unbiased", skipBidsValidation: bool := false,
                              fsLicense: Option<Path> := None,
                              dockerImage: string := "pennlinc/qsiprep:latest"): QSIPrepDefaults
  {
    QSIPrepDefaults(nprocs, memMb, outputResolution, anatomicalTemplate, longitudinal, subjectAnatomicalReference,
                    skipBidsValidation, fsLicense, dockerImage)
  }

  /** The brain-bank defaults of QSIPrep. */
  lemma DefaultConfiguration()
    ensures var d := NewQSIPrepDefaults();
      && d.nprocs == 8 && d.memMb == 16000 && d.outputResolution == 1.6
      && d.anatomicalTemplate == ["MNI152NLin2009cAsym"] && !d.longitudinal
      && d.subjectAnatomicalReference == "unbiased" && !d.skipBidsValidation && d.fsLicense.None?
      && d.dockerImage == "pennlinc/qsiprep:latest"
  {
  }
}
