/**
 * HeudiConv's inputs (with the `__post_init__` normalisation of `bids` and
 * `grouping`), its expected outputs as derived by `from_inputs`, and its
 * default configuration.
 */
module HeudiconvSchema {
  import opened Options
  import opened Paths
  import opened Values
  import opened Exceptions
  import Strings
  import opened Context
  import opened ValidatorBase
  import opened ProcedureValidators

  datatype HeudiconvInputs = HeudiconvInputs(
    dicomDir: Path,
    participant: string,
    outputDir: Option<Path>,
    session: Option<string>,
    heuristic: Option<Path>,
    bids: Option<string>,
    grouping: Option<string>)

  /**
   * What `__post_init__` makes of `bids` and `grouping`: a true value whose
   * lower-case form is "none" becomes `None`; anything else is kept. (Only
   * ASCII letters lower-case to the letters of "none", so ASCII `lower` suffices.)
   */
  function NoneIfNone(v: Option<string>): (r: Option<string>)
    ensures r.None? <==> v.None? || Strings.Lower(v.value) == "none"
    ensures r.Some? ==> r == v
  {
    if v.Some? && v.value != "" && Strings.Lower(v.value) == "none" then None else v
  }

  /** `HeudiconvInputs(...)` with the dataclass defaults, followed by `__post_init__`. */
  function NewHeudiconvInputs(dicomDir: Path, participant: string, outputDir: Option<Path> := None,
                              session: Option<string> := None, heuristic: Option<Path> := None,
                              bids: Option<string> := Some("notop"), grouping: Option<string> := Some("all")): (i: HeudiconvInputs)
    ensures i.bids == NoneIfNone(bids) && i.grouping == NoneIfNone(grouping)
    ensures i.(bids := bids, grouping := grouping) == HeudiconvInputs(dicomDir, participant, outputDir, session, heuristic, bids, grouping)
  {
    HeudiconvInputs(dicomDir, participant, outputDir, session, heuristic, NoneIfNone(bids), NoneIfNone(grouping))
  }

  /** The defaults survive normalisation; "None" in any case disables either option; normalising twice changes nothing. */
  lemma NormalisationCases(dicomDir: Path, participant: string)
    ensures NewHeudiconvInputs(dicomDir, participant).bids == Some("notop")
    ensures NewHeudiconvInputs(dicomDir, participant).grouping == Some("all")
    ensures NewHeudiconvInputs(dicomDir, participant, bids := Some("None")).bids.None?
    ensures NewHeudiconvInputs(dicomDir, participant, grouping := Some("NONE")).grouping.None?
    ensures forall v :: NoneIfNone(NoneIfNone(v)) == NoneIfNone(v)
  {
    assert Strings.Lower("notop") == "notop";
    assert Strings.Lower("all") == "all";
    assert Strings.Lower("None") == "none";
    assert Strings.Lower("NONE") == "none";
  }

  datatype HeudiconvOutputs = HeudiconvOutputs(bidsDir: Path, participantDir: Path, datasetDescription: Path)
  {
    /** The outputs as the object post-validation reads its attributes from. */
    function ToObject(): (v: Value)
      ensures GetAttr(v, "bids_dir") == Some(VPath(bidsDir))
      ensures GetAttr(v, "participant_dir") == Some(VPath(participantDir))
      ensures GetAttr(v, "dataset_description") == Some(VPath(datasetDescription))
    {
      assert "participant_dir"[0] != "bids_dir"[0] && "dataset_description"[0] != "bids_dir"[0];
      assert "dataset_description"[0] != "participant_dir"[0];
      var fields := [Field("bids_dir", VPath(bidsDir)), Field("participant_dir", VPath(participantDir)),
                     Field("dataset_description", VPath(datasetDescription))];
      FindFieldAt(fields, 1);
      FindFieldAt(fields, 2);
      VObj("HeudiconvOutputs", fields)
    }
  }

  /**
   * `HeudiconvOutputs.from_inputs(inputs, output_dir)`: the BIDS root is the
   * output directory itself, `dataset_description.json` sits in it, and the
   * participant directory is `sub-<participant>` below it, refined by
   * `ses-<session>` when a session is set.
   */
  function HeudiconvOutputsFor(inputs: HeudiconvInputs, outputDir: Path): (o: HeudiconvOutputs)
    ensures o.bidsDir == outputDir
    ensures Parent(o.datasetDescription) == o.bidsDir && Name(o.datasetDescription) == "dataset_description.json"
    ensures |o.participantDir| == |outputDir| + (if HasSession(inputs.session) then 2 else 1)
    ensures o.participantDir[..|outputDir| + 1] == Child(outputDir, "sub-" + inputs.participant)
    ensures HasSession(inputs.session) ==> Name(o.participantDir) == "ses-" + inputs.session.value
  {
    var dir := Child(outputDir, "sub-" + inputs.participant);
    var participantDir := if HasSession(inputs.session) then Child(dir, "ses-" + inputs.session.value) else dir;
    HeudiconvOutputs(outputDir, participantDir, Child(outputDir, "dataset_description.json"))
  }

  /**
   * The participant directory of the outputs is the validation context's
   * `participant_dir` once the output directory is the context's input directory.
   */
  lemma OutputsMatchContext(inputs: HeudiconvInputs, outputDir: Path, ctx: Context)
    requires ctx.InputDir() == Ok(Some(outputDir))
    requires ctx.participant == inputs.participant && ctx.session == inputs.session
    ensures ctx.ParticipantDir() == Ok(Some(HeudiconvOutputsFor(inputs, outputDir).participantDir))
  {
  }

  /** Post-validation over the derived outputs passes exactly when the BIDS root and the participant directory exist. */
  lemma PostValidationOfOutputs(inputs: HeudiconvInputs, outputDir: Path, ctx: Context, fs: FileSystem)
    requires ctx.expectedOutputs == HeudiconvOutputsFor(inputs, outputDir).ToObject()
    ensures RunPasses(HeudiConv.postRules, ctx, fs) <==>
      fs.Exists(outputDir) && fs.Exists(HeudiconvOutputsFor(inputs, outputDir).participantDir)
  {
    var o := HeudiconvOutputsFor(inputs, outputDir);
    HeudiConvPostPasses(ctx, fs, o.bidsDir, o.participantDir);
  }

  datatype HeudiconvDefaults = HeudiconvDefaults(
    heuristic: Option<Path>,
    bidsValidator: bool,
    overwrite: bool,
    converter: string,
    dockerImage: string,
    postProcess: bool,
    postProcessDryRun: bool)

  /** `HeudiconvDefaults(...)` with the dataclass defaults. */
  function NewHeudiconvDefaults(heuristic: Option<Path> := None, bidsValidator: bool := true, overwrite: bool := false,
                                converter: string := "dcm2niix", dockerImage: string := "nipy/heudiconv:1.3.4",
                                postProcess: bool := true, postProcessDryRun: bool := false): HeudiconvDefaults
  {
    HeudiconvDefaults(heuristic, bidsValidator, overwrite, converter, dockerImage, postProcess, postProcessDryRun)
  }

  /** The defaults: no heuristic, BIDS validation on, no overwrite, `dcm2niix`, post-processing on. */
  lemma DefaultConfiguration()
    ensures var d := NewHeudiconvDefaults();
      d.heuristic.None? && d.bidsValidator && !d.overwrite && d.converter == "dcm2niix"
      && d.dockerImage == "nipy/heudiconv:1.3.4" && d.postProcess && !d.postProcessDryRun
  {
  }
}
