/**
 * The validation rules: the reusable ones (directory, file, participant,
 * output-directory, glob and expected-output checks) and the three rules that
 * the QSIPrep, QSIRecon and QSIParc validators define for themselves. A rule is
 * its constructor arguments; `Meta` gives its class attributes and `RuleCheck`
 * what its `check` returns or raises.
 */
module Rules {
  import opened Options
  import opened Paths
  import opened Values
  import opened Exceptions
  import opened ValidationBase
  import opened Context
  import Strings

  datatype Rule =
    | DirectoryExists(pathAttr: string, dirType: string, dirSeverity: Severity)
    | FileExists(fileAttr: string, fileType: string, fileSeverity: Severity, onConfig: bool)
    | ParticipantExists(prefix: string)
    | OutputDirectoryExists(outputAttr: string, outputType: string)
    | GlobFilesExist(baseDirAttr: string, pattern: string, minCount: int, globType: string,
                     globSeverity: Severity, globPhase: Phase, participantLevel: bool)
    | ExpectedOutputsExist(outputsAttr: string, itemType: string, outputsSeverity: Severity, flattenNested: bool)
    | HtmlReportExists
    | WorkflowReportsExist
    | WorkflowDirsExist
      /** A rule class of the caller's, with its own `check` and `skip_condition`. */
    | Custom(meta: RuleMeta, check: (Context, FileSystem) -> Outcome<ValidationResult>, skip: Context -> bool)

  /** Constructors with the source's default arguments. */
  function NewDirectoryExists(pathAttr: string, dirType: string := "Input", severity: Severity := Error): Rule
  {
    DirectoryExists(pathAttr, dirType, severity)
  }

  function NewFileExists(pathAttr: string, fileType: string := "File", severity: Severity := Error,
                         onConfig: bool := false): Rule
  {
    FileExists(pathAttr, fileType, severity, onConfig)
  }

  function NewGlobFilesExist(baseDirAttr: string, pattern: string, minCount: int := 1, fileType: string := "Files",
                             severity: Severity := Error, phase: Phase := Pre, participantLevel: bool := true): Rule
  {
    GlobFilesExist(baseDirAttr, pattern, minCount, fileType, severity, phase, participantLevel)
  }

  /**
   * `f"{file_type.lower().replace(' ', '_')}_exist"`: one character per
   * character of the file type, a space becoming `_` and a capital its lower
   * case, then the suffix `_exist`.
   */
  function GlobRuleName(fileType: string): (name: string)
    ensures |name| == |fileType| + 6
    ensures name[|fileType|..] == "_exist"
    ensures forall i :: 0 <= i < |fileType| ==>
      name[i] == if fileType[i] == ' ' then '_' else Strings.LowerChar(fileType[i])
    ensures forall i :: 0 <= i < |fileType| ==> (name[i] == '_' <==> fileType[i] == ' ' || fileType[i] == '_')
  {
    Strings.ReplaceChar(Strings.Lower(fileType), ' ', '_') + "_exist"
  }

  /** The rule's `name`, `description`, `severity` and `phase`. */
  function Meta(rule: Rule): RuleMeta
  {
    match rule
    case DirectoryExists(attr, dirType, sev) =>
      RuleMeta(attr + "_exists", "Verify " + dirType + " directory exists", sev, Pre)
    case FileExists(attr, fileType, sev, _) =>
      RuleMeta(attr + "_exists", "Verify " + fileType + " file exists", sev, Pre)
    case ParticipantExists(_) =>
      RuleMeta("participant_exists", "Verify participant exists in input directory", Error, Pre)
    case OutputDirectoryExists(attr, outputType) =>
      RuleMeta(attr + "_created", "Verify " + outputType + " directory was created", Error, Post)
    case GlobFilesExist(_, pattern, _, fileType, sev, phase, _) =>
      RuleMeta(GlobRuleName(fileType), "Verify " + fileType + " exist (pattern: " + pattern + ")", sev, phase)
    // these classes never set `phase`, so they keep the base class's "pre"
    case ExpectedOutputsExist(attr, itemType, sev, _) =>
      RuleMeta(attr + "_exist", "Check " + itemType + " exist", sev, Pre)
    case HtmlReportExists =>
      RuleMeta("html_report_exists", "Check HTML report exists", Error, Pre)
    case WorkflowReportsExist =>
      RuleMeta("workflow_reports_exist", "Check workflow HTML reports exist", Error, Pre)
    case WorkflowDirsExist =>
      RuleMeta("workflow_dirs_exist", "Check workflow dwi directories exist", Error, Pre)
    case Custom(meta, _, _) => meta
  }

  /** `rule.skip_condition(context)`: only a caller's own rule class overrides it. */
  predicate Skip(rule: Rule, ctx: Context)
  {
    rule.Custom? && rule.skip(ctx)
  }

  function E(key: string, v: Value): Entry
  {
    Entry(Some(key), v)
  }

  function SessionValue(session: Option<string>): Value
  {
    if session.Some? then VStr(session.value) else VNone
  }

  function AttributeMissing(obj: Value, attr: string): Exc
  {
    Simple(AttributeError, "'" + TypeName(obj) + "' object has no attribute '" + attr + "'")
  }

  // ---------------------------------------------------------------- checks

  function CheckDirectoryExists(meta: RuleMeta, attr: string, dirType: string, ctx: Context, fs: FileSystem)
    : Outcome<ValidationResult>
  {
    if ctx.inputs.VNone? then Ok(FailResult(meta, "No inputs provided", [E("path_attr", VStr(attr))]))
    else if !HasAttr(ctx.inputs, attr) then
      Ok(FailResult(meta, "Inputs missing '" + attr + "' attribute", [E("path_attr", VStr(attr))]))
    else
      var v := GetAttr(ctx.inputs, attr).value;
      if v.VNone? then
        Ok(PassResult(meta, dirType + " directory not specified (optional)", [E("path_attr", VStr(attr)), E("value", VNone)]))
      else
        var p :- ToPath(v);
        var s := PathString(p);
        if !fs.Exists(p) then
          Ok(FailResult(meta, dirType + " directory not found: " + s, [E("path", VStr(s)), E("exists", VBool(false))]))
        else if !fs.IsDir(p) then
          Ok(FailResult(meta, dirType + " path is not a directory: " + s, [E("path", VStr(s)), E("is_dir", VBool(false))]))
        else
          Ok(PassResult(meta, dirType + " directory exists: " + s, [E("path", VStr(s)), E("exists", VBool(true))]))
  }

  function CheckFileExists(meta: RuleMeta, attr: string, fileType: string, onConfig: bool, ctx: Context, fs: FileSystem)
    : Outcome<ValidationResult>
  {
    var source := if onConfig then ctx.config else ctx.inputs;
    var sourceName := if onConfig then "config" else "inputs";
    var capitalized := if onConfig then "Config" else "Inputs";
    if source.VNone? then Ok(FailResult(meta, "No " + sourceName + " provided", [E("path_attr", VStr(attr))]))
    else if !HasAttr(source, attr) then
      Ok(FailResult(meta, capitalized + " missing '" + attr + "' attribute", [E("path_attr", VStr(attr))]))
    else
      var v := GetAttr(source, attr).value;
      if v.VNone? then
        Ok(PassResult(meta, fileType + " not specified (optional)", [E("path_attr", VStr(attr)), E("value", VNone)]))
      else
        var p :- ToPath(v);
        var s := PathString(p);
        if !fs.Exists(p) then
          Ok(FailResult(meta, fileType + " not found: " + s, [E("path", VStr(s)), E("exists", VBool(false))]))
        else if !fs.IsFile(p) then
          Ok(FailResult(meta, fileType + " path is not a file: " + s, [E("path", VStr(s)), E("is_file", VBool(false))]))
        else
          Ok(PassResult(meta, fileType + " exists: " + s, [E("path", VStr(s)), E("exists", VBool(true))]))
  }

  function CheckParticipantExists(meta: RuleMeta, prefix: string, ctx: Context, fs: FileSystem): Outcome<ValidationResult>
  {
    var input :- ctx.InputDir();
    if input.None? then Ok(FailResult(meta, "Cannot determine input directory", [E("participant", VStr(ctx.participant))]))
    else
      var dir := Child(input.value, prefix + ctx.participant);
      var s := PathString(dir);
      if !fs.Exists(dir) then
        Ok(FailResult(meta, "Participant not found: " + s,
          [E("participant", VStr(ctx.participant)), E("expected_path", VStr(s)), E("exists", VBool(false))]))
      else
        Ok(PassResult(meta, "Participant found: " + s,
          [E("participant", VStr(ctx.participant)), E("path", VStr(s)), E("exists", VBool(true))]))
  }

  function CheckOutputDirectoryExists(meta: RuleMeta, attr: string, outputType: string, ctx: Context, fs: FileSystem)
    : Outcome<ValidationResult>
  {
    var eo := ctx.expectedOutputs;
    if eo.VNone? then Ok(FailResult(meta, "No expected outputs defined", [E("output_attr", VStr(attr))]))
    else if !HasAttr(eo, attr) then
      Ok(FailResult(meta, "Expected outputs missing '" + attr + "'", [E("output_attr", VStr(attr))]))
    else
      var v := GetAttr(eo, attr).value;
      if v.VNone? then Ok(FailResult(meta, outputType + " path not defined", [E("output_attr", VStr(attr))]))
      else
        var p :- ToPath(v);
        var s := PathString(p);
        if !fs.Exists(p) then
          Ok(FailResult(meta, outputType + " not created: " + s, [E("path", VStr(s)), E("exists", VBool(false))]))
        else
          Ok(PassResult(meta, outputType + " created: " + s, [E("path", VStr(s)), E("exists", VBool(true))]))
  }

  /**
   * `GlobFilesExistRule._get_base_dir`: the inputs' attribute if the inputs have
   * it, else the expected outputs', else `input_dir`. An attribute that exists
   * but holds `None` is still taken, and `Path(None)` raises `TypeError`.
   */
  function GetBaseDir(attr: string, ctx: Context): Outcome<Option<Path>>
  {
    if Truthy(ctx.inputs) && HasAttr(ctx.inputs, attr) then
      var p :- ToPath(GetAttr(ctx.inputs, attr).value);
      Ok(Some(p))
    else if Truthy(ctx.expectedOutputs) && HasAttr(ctx.expectedOutputs, attr) then
      var p :- ToPath(GetAttr(ctx.expectedOutputs, attr).value);
      Ok(Some(p))
    else ctx.InputDir()
  }

  /** The directory the glob runs in: the base, or its participant (and session) subdirectory. */
  function SearchDir(base: Path, participantLevel: bool, ctx: Context): Path
  {
    if !participantLevel then base
    else
      var dir := Child(base, ctx.ParticipantLabel());
      if HasSession(ctx.session) then Child(dir, ctx.SessionLabel().value) else dir
  }

  /** The names of the files found, as strings, in the order of the glob. */
  function FileNames(found: seq<Path>): (r: seq<Value>)
    ensures |r| == |found|
    ensures forall i :: 0 <= i < |found| ==> r[i] == VStr(Name(found[i]))
  {
    seq(|found|, i requires 0 <= i < |found| => VStr(Name(found[i])))
  }

  function CheckGlobFilesExist(meta: RuleMeta, attr: string, pattern: string, minCount: int, fileType: string,
                               participantLevel: bool, ctx: Context, fs: FileSystem): Outcome<ValidationResult>
  {
    var base :- GetBaseDir(attr, ctx);
    if base.None? then
      Ok(FailResult(meta, "Cannot determine base directory for " + fileType, [E("base_dir_attr", VStr(attr))]))
    else if !fs.Exists(base.value) then
      Ok(FailResult(meta, "Base directory does not exist: " + PathString(base.value),
        [E("base_dir", VStr(PathString(base.value))), E("pattern", VStr(pattern))]))
    else
      var search := SearchDir(base.value, participantLevel, ctx);
      if participantLevel && !fs.Exists(search) then
        Ok(FailResult(meta, "Participant directory does not exist: " + PathString(search),
          [E("base_dir", VStr(PathString(base.value))), E("participant", VStr(ctx.participant)),
           E("session", SessionValue(ctx.session)), E("expected_path", VStr(PathString(search)))]))
      else
        var found := fs.Glob(search, pattern);
        var n := Strings.NatToString(|found|);
        if |found| < minCount then
          Ok(FailResult(meta, "Found " + n + " " + fileType + ", required " + Strings.IntToString(minCount),
            [E("pattern", VStr(pattern)), E("search_dir", VStr(PathString(search))), E("found_count", VInt(|found|)),
             E("required_count", VInt(minCount)), E("found_files", VList(FileNames(found)))]))
        else
          Ok(PassResult(meta, "Found " + n + " " + fileType,
            [E("pattern", VStr(pattern)), E("found_count", VInt(|found|)), E("found_files", VList(FileNames(found)))]))
  }

  // ------------------------------------------------- scans of expected outputs

  /** How the inner key of a nested mapping is labelled: as is, or with a "ses-" prefix. */
  datatype SessionStyle = Bare | SesPrefixed

  /** `f"{k}" if k else "no-session"`, or `f"ses-{k}" if k else "no-session"`. */
  function InnerLabel(k: Key, style: SessionStyle): string
  {
    if k.Some? && k.value != "" then (if style == SesPrefixed then "ses-" + k.value else k.value) else "no-session"
  }

  /** What a scan has collected: the labels of items found and the descriptions of items missing. */
  datatype Scan = Scan(found: seq<Value>, missing: seq<string>)

  function Join(a: Scan, b: Scan): Scan
  {
    Scan(a.found + b.found, a.missing + b.missing)
  }

  /**
   * The effect on a scan of one `key: path` entry. `outer` is the outer key's
   * text in a nested mapping (`None` for a flat one). An entry whose value is
   * not a path raises `AttributeError` on `.exists()`.
   */
  function ScanEntry(e: Entry, outer: Option<string>, style: SessionStyle, fs: FileSystem): Outcome<Scan>
  {
    if !e.val.VPath? then Raised(AttributeMissing(e.val, "exists"))
    else
      var itemLabel := if outer.Some? then outer.value + "/" + InnerLabel(e.key, style) else KeyString(e.key);
      var item := if outer.Some? then VStr(itemLabel) else KeyValue(e.key);
      if fs.Exists(e.val.p) then Ok(Scan([item], []))
      else Ok(Scan([], [itemLabel + " (" + PathString(e.val.p) + ")"]))
  }

  /** A single-level mapping `{key: path}` scanned in order. */
  function LeafScan(es: seq<Entry>, outer: Option<string>, style: SessionStyle, fs: FileSystem): Outcome<Scan>
    decreases |es|
  {
    if es == [] then Ok(Scan([], []))
    else
      var init :- LeafScan(es[..|es| - 1], outer, style, fs);
      var last :- ScanEntry(es[|es| - 1], outer, style, fs);
      Ok(Join(init, last))
  }

  /** The inner mappings of `{key1: {key2: path}}` scanned in order. */
  function NestedScan(es: seq<Entry>, style: SessionStyle, fs: FileSystem): Outcome<Scan>
    decreases |es|
  {
    if es == [] then Ok(Scan([], []))
    else
      var init :- NestedScan(es[..|es| - 1], style, fs);
      var inner := es[|es| - 1].val;
      if !inner.VDict? then Raised(AttributeMissing(inner, "items"))
      else
        var last :- LeafScan(inner.entries, Some(KeyString(es[|es| - 1].key)), style, fs);
        Ok(Join(init, last))
  }

  /** `outputs.items()` for a flat or nested mapping. */
  function ScanOutputs(outputs: Value, nested: bool, style: SessionStyle, fs: FileSystem): Outcome<Scan>
  {
    if !outputs.VDict? then Raised(AttributeMissing(outputs, "items"))
    else if nested then NestedScan(outputs.entries, style, fs)
    else LeafScan(outputs.entries, None, style, fs)
  }

  /** The labels as string values, in order. */
  function Strs(xs: seq<string>): (r: seq<Value>)
    ensures |r| == |xs|
    ensures forall i :: 0 <= i < |xs| ==> r[i] == VStr(xs[i])
  {
    seq(|xs|, i requires 0 <= i < |xs| => VStr(xs[i]))
  }

  /** The verdict on a finished scan, with the messages and detail keys of each rule. */
  function ScanVerdict(meta: RuleMeta, scan: Scan, itemType: string, rule: Rule): Outcome<ValidationResult>
  {
    var nMissing := Strings.NatToString(|scan.missing|);
    var nFound := Strings.NatToString(|scan.found|);
    match rule
    case WorkflowReportsExist =>
      if scan.missing != [] then
        Ok(FailResult(meta, "Missing " + nMissing + " workflow report(s)",
          [E("missing_reports", VList(Strs(scan.missing))), E("found_reports", VList(scan.found))]))
      else Ok(PassResult(meta, "All " + nFound + " workflow HTML reports exist", [E("found_reports", VList(scan.found))]))
    case WorkflowDirsExist =>
      if scan.missing != [] then
        Ok(FailResult(meta, "Missing " + nMissing + " workflow dwi director(ies)",
          [E("missing_dirs", VList(Strs(scan.missing))), E("found_dirs", VList(scan.found))]))
      else Ok(PassResult(meta, "All " + nFound + " workflow dwi directories exist", [E("found_dirs", VList(scan.found))]))
    case _ =>
      if scan.missing != [] then
        Ok(FailResult(meta, "Missing " + nMissing + " " + itemType,
          [E("missing", VList(Strs(scan.missing))), E("found", VList(scan.found))]))
      else Ok(PassResult(meta, "All " + nFound + " " + itemType + " exist", [E("found", VList(scan.found))]))
  }

  /** The attribute, nesting and itemLabel style each scanning rule reads. */
  function ScanTarget(rule: Rule): (string, bool, SessionStyle)
    requires rule.ExpectedOutputsExist? || rule.WorkflowReportsExist? || rule.WorkflowDirsExist?
  {
    match rule
    case ExpectedOutputsExist(attr, _, _, nested) => (attr, nested, Bare)
    case WorkflowReportsExist => ("workflow_reports", true, SesPrefixed)
    case WorkflowDirsExist => ("workflow_dirs", true, SesPrefixed)
  }

  /**
   * The scanning rules up to the scan itself: `None` when the rule decides
   * before scanning, else the value to scan.
   */
  function ScanPrelude(rule: Rule, ctx: Context, fs: FileSystem): Outcome<Either>
    requires rule.ExpectedOutputsExist? || rule.WorkflowReportsExist? || rule.WorkflowDirsExist?
  {
    var meta := Meta(rule);
    var eo := ctx.expectedOutputs;
    if !Truthy(eo) then Ok(Decided(FailResult(meta, "No expected outputs available", [])))
    else if rule.ExpectedOutputsExist? then
      if !HasAttr(eo, rule.outputsAttr) then
        Ok(Decided(FailResult(meta, "Expected outputs missing attribute: " + rule.outputsAttr, [])))
      else
        var outputs := GetAttr(eo, rule.outputsAttr).value;
        if outputs.VPath? then
          var s := PathString(outputs.p);
          Ok(Decided(
            if fs.Exists(outputs.p) then PassResult(meta, rule.itemType + " exists: " + s, [E(rule.outputsAttr, VStr(s))])
            else FailResult(meta, rule.itemType + " not found: " + s, [E(rule.outputsAttr, VStr(s))])))
        else Ok(ToScan(outputs))
    else
      var attr := ScanTarget(rule).0;
      if !HasAttr(eo, attr) then Raised(AttributeMissing(eo, attr))
      else Ok(ToScan(GetAttr(eo, attr).value))
  }

  datatype Either = Decided(result: ValidationResult) | ToScan(outputs: Value)

  function CheckScanning(rule: Rule, ctx: Context, fs: FileSystem): Outcome<ValidationResult>
    requires rule.ExpectedOutputsExist? || rule.WorkflowReportsExist? || rule.WorkflowDirsExist?
  {
    var pre :- ScanPrelude(rule, ctx, fs);
    if pre.Decided? then Ok(pre.result)
    else
      var (_, nested, style) := ScanTarget(rule);
      var scan :- ScanOutputs(pre.outputs, nested, style, fs);
      ScanVerdict(Meta(rule), scan, if rule.ExpectedOutputsExist? then rule.itemType else "", rule)
  }

  function CheckHtmlReport(meta: RuleMeta, ctx: Context, fs: FileSystem): Outcome<ValidationResult>
  {
    var eo := ctx.expectedOutputs;
    if !Truthy(eo) then Ok(FailResult(meta, "No expected outputs available", []))
    else if !HasAttr(eo, "html_report") then Raised(AttributeMissing(eo, "html_report"))
    else
      var report := GetAttr(eo, "html_report").value;
      if !report.VPath? then Raised(AttributeMissing(report, "exists"))
      else
        var s := PathString(report.p);
        if fs.Exists(report.p) then Ok(PassResult(meta, "HTML report exists: " + s, [E("html_report", VStr(s))]))
        else Ok(FailResult(meta, "HTML report not found: " + s, [E("html_report", VStr(s))]))
  }

  /** `rule.check(context)`: the result it returns, or the exception that escapes it. */
  function RuleCheck(rule: Rule, ctx: Context, fs: FileSystem): Outcome<ValidationResult>
  {
    var meta := Meta(rule);
    match rule
    case DirectoryExists(attr, dirType, _) => CheckDirectoryExists(meta, attr, dirType, ctx, fs)
    case FileExists(attr, fileType, _, onConfig) => CheckFileExists(meta, attr, fileType, onConfig, ctx, fs)
    case ParticipantExists(prefix) => CheckParticipantExists(meta, prefix, ctx, fs)
    case OutputDirectoryExists(attr, outputType) => CheckOutputDirectoryExists(meta, attr, outputType, ctx, fs)
    case GlobFilesExist(attr, pattern, minCount, fileType, _, _, participantLevel) =>
      CheckGlobFilesExist(meta, attr, pattern, minCount, fileType, participantLevel, ctx, fs)
    case ExpectedOutputsExist(_, _, _, _) => CheckScanning(rule, ctx, fs)
    case HtmlReportExists => CheckHtmlReport(meta, ctx, fs)
    case WorkflowReportsExist => CheckScanning(rule, ctx, fs)
    case WorkflowDirsExist => CheckScanning(rule, ctx, fs)
    case Custom(_, check, _) => check(ctx, fs)
  }

  // ------------------------------------------------------ the scanning loops

  /** The loop over one `{key: path}` mapping, adding to what `acc` already holds. */
  method ScanLeaves(es: seq<Entry>, outer: Option<string>, style: SessionStyle, fs: FileSystem, acc: Scan)
    returns (r: Outcome<Scan>)
    ensures LeafScan(es, outer, style, fs).Ok? ==> r == Ok(Join(acc, LeafScan(es, outer, style, fs).value))
    ensures LeafScan(es, outer, style, fs).Raised? ==> r == LeafScan(es, outer, style, fs)
  {
    var found, missing := acc.found, acc.missing;
    var i := 0;
    while i < |es|
      invariant 0 <= i <= |es|
      invariant LeafScan(es[..i], outer, style, fs).Ok?
      invariant Scan(found, missing) == Join(acc, LeafScan(es[..i], outer, style, fs).value)
    {
      assert es[..i + 1][..i] == es[..i];
      var e := es[i];
      if !e.val.VPath? {
        LeafScanRaisedExtends(es, i + 1, outer, style, fs);
        assert es[..|es|] == es;
        return Raised(AttributeMissing(e.val, "exists"));
      }
      var itemLabel := if outer.Some? then outer.value + "/" + InnerLabel(e.key, style) else KeyString(e.key);
      LeafScanSnoc(es, i, outer, style, fs, acc, Scan(found, missing));
      if fs.Exists(e.val.p) {
        found := found + [if outer.Some? then VStr(itemLabel) else KeyValue(e.key)];
      } else {
        missing := missing + [itemLabel + " (" + PathString(e.val.p) + ")"];
      }
      i := i + 1;
    }
    assert es[..i] == es;
    return Ok(Scan(found, missing));
  }

  /** One more path entry extends the scan of a prefix by that entry's effect. */
  lemma LeafScanSnoc(es: seq<Entry>, i: nat, outer: Option<string>, style: SessionStyle, fs: FileSystem, acc: Scan, sofar: Scan)
    requires i < |es| && es[i].val.VPath? && LeafScan(es[..i], outer, style, fs).Ok?
    requires sofar == Join(acc, LeafScan(es[..i], outer, style, fs).value)
    ensures LeafScan(es[..i + 1], outer, style, fs).Ok?
    ensures Join(sofar, ScanEntry(es[i], outer, style, fs).value) == Join(acc, LeafScan(es[..i + 1], outer, style, fs).value)
  {
    assert es[..i + 1][..i] == es[..i];
    var init, last := LeafScan(es[..i], outer, style, fs).value, ScanEntry(es[i], outer, style, fs).value;
    assert LeafScan(es[..i + 1], outer, style, fs) == Ok(Join(init, last));
    assert acc.found + init.found + last.found == acc.found + (init.found + last.found);
    assert acc.missing + init.missing + last.missing == acc.missing + (init.missing + last.missing);
  }

  /** Once a prefix of the entries raises, every longer prefix raises the same exception. */
  lemma {:induction false} LeafScanRaisedExtends(es: seq<Entry>, k: nat, outer: Option<string>, style: SessionStyle,
                                                 fs: FileSystem)
    requires k <= |es| && LeafScan(es[..k], outer, style, fs).Raised?
    ensures LeafScan(es, outer, style, fs) == LeafScan(es[..k], outer, style, fs)
    decreases |es| - k
  {
    if k < |es| {
      assert es[..k + 1][..k] == es[..k];
      LeafScanRaisedExtends(es, k + 1, outer, style, fs);
    } else {
      assert es[..k] == es;
    }
  }

  lemma {:induction false} NestedScanRaisedExtends(es: seq<Entry>, k: nat, style: SessionStyle, fs: FileSystem)
    requires k <= |es| && NestedScan(es[..k], style, fs).Raised?
    ensures NestedScan(es, style, fs) == NestedScan(es[..k], style, fs)
    decreases |es| - k
  {
    if k < |es| {
      assert es[..k + 1][..k] == es[..k];
      NestedScanRaisedExtends(es, k + 1, style, fs);
    } else {
      assert es[..k] == es;
    }
  }

  /** The nested loop over `{key1: {key2: path}}`. */
  method ScanNested(es: seq<Entry>, style: SessionStyle, fs: FileSystem) returns (r: Outcome<Scan>)
    ensures r == NestedScan(es, style, fs)
  {
    var acc := Scan([], []);
    var i := 0;
    while i < |es|
      invariant 0 <= i <= |es|
      invariant NestedScan(es[..i], style, fs) == Ok(acc)
    {
      assert es[..i + 1][..i] == es[..i];
      var inner := es[i].val;
      if !inner.VDict? {
        NestedScanRaisedExtends(es, i + 1, style, fs);
        return Raised(AttributeMissing(inner, "items"));
      }
      var step := ScanLeaves(inner.entries, Some(KeyString(es[i].key)), style, fs, acc);
      if step.Raised? {
        NestedScanRaisedExtends(es, i + 1, style, fs);
        return step;
      }
      acc := step.value;
      i := i + 1;
    }
    assert es[..i] == es;
    return Ok(acc);
  }

  /** `rule.check(context)`, running the scanning rules' loops. */
  method CheckRule(rule: Rule, ctx: Context, fs: FileSystem) returns (r: Outcome<ValidationResult>)
    ensures r == RuleCheck(rule, ctx, fs)
  {
    if !(rule.ExpectedOutputsExist? || rule.WorkflowReportsExist? || rule.WorkflowDirsExist?) {
      return RuleCheck(rule, ctx, fs);
    }
    var pre := ScanPrelude(rule, ctx, fs);
    if pre.Raised? {
      return Raised(pre.exc);
    }
    if pre.value.Decided? {
      return Ok(pre.value.result);
    }
    var (_, nested, style) := ScanTarget(rule);
    var outputs := pre.value.outputs;
    var scan: Outcome<Scan>;
    if !outputs.VDict? {
      scan := Raised(AttributeMissing(outputs, "items"));
    } else if nested {
      scan := ScanNested(outputs.entries, style, fs);
    } else {
      scan := ScanLeaves(outputs.entries, None, style, fs, Scan([], []));
      assert LeafScan(outputs.entries, None, style, fs).Ok? ==>
        Join(Scan([], []), LeafScan(outputs.entries, None, style, fs).value) == LeafScan(outputs.entries, None, style, fs).value;
    }
    if scan.Raised? {
      return Raised(scan.exc);
    }
    r := ScanVerdict(Meta(rule), scan.value, if rule.ExpectedOutputsExist? then rule.itemType else "", rule);
  }

  // ------------------------------------------------ what the verdicts mean

  /** A directory rule passes exactly for an unset (None) attribute or an existing directory. */
  lemma DirectoryExistsVerdict(attr: string, dirType: string, sev: Severity, ctx: Context, fs: FileSystem)
    ensures var r := RuleCheck(DirectoryExists(attr, dirType, sev), ctx, fs);
      var v := GetAttr(ctx.inputs, attr);
      && (ctx.inputs.VNone? || v.None? ==> r.Ok? && !r.value.passed)
      && (v == Some(VNone) ==> r.Ok? && r.value.passed)
      && (v.Some? && v.value.VPath? ==> r.Ok? && (r.value.passed <==> fs.IsDir(v.value.p)))
      && (v.Some? && !v.value.VNone? && !v.value.VPath? && !v.value.VStr? ==> r.Raised? && r.exc.cls == TypeError)
      && (r.Ok? ==> r.value.ruleName == attr + "_exists" && r.value.severity == sev)
  {
  }

  /** A file rule passes exactly for an unset (None) attribute or an existing regular file. */
  lemma FileExistsVerdict(attr: string, fileType: string, sev: Severity, onConfig: bool, ctx: Context, fs: FileSystem)
    ensures var r := RuleCheck(FileExists(attr, fileType, sev, onConfig), ctx, fs);
      var source := if onConfig then ctx.config else ctx.inputs;
      var v := GetAttr(source, attr);
      && (source.VNone? || v.None? ==> r.Ok? && !r.value.passed)
      && (v == Some(VNone) ==> r.Ok? && r.value.passed)
      && (v.Some? && v.value.VPath? ==> r.Ok? && (r.value.passed <==> fs.IsFile(v.value.p)))
  {
  }

  /** The participant rule passes exactly when `<input_dir>/<prefix><participant>` exists. */
  lemma ParticipantExistsVerdict(prefix: string, ctx: Context, fs: FileSystem)
    requires ctx.InputDir().Ok?
    ensures var r := RuleCheck(ParticipantExists(prefix), ctx, fs);
      var input := ctx.InputDir().value;
      r.Ok? && (r.value.passed <==> input.Some? && fs.Exists(Child(input.value, prefix + ctx.participant)))
  {
  }

  /** An output-directory rule passes exactly when the expected path is set and exists. */
  lemma OutputDirectoryVerdict(attr: string, outputType: string, ctx: Context, fs: FileSystem)
    ensures var r := RuleCheck(OutputDirectoryExists(attr, outputType), ctx, fs);
      var v := GetAttr(ctx.expectedOutputs, attr);
      && (ctx.expectedOutputs.VNone? || v.None? || v == Some(VNone) ==> r.Ok? && !r.value.passed)
      && (v.Some? && v.value.VPath? ==> r.Ok? && (r.value.passed <==> fs.Exists(v.value.p)))
      && (r.Ok? ==> r.value.severity == Error)
  {
  }

  /**
   * A glob rule passes exactly when its base directory is known and exists, the
   * participant (and session) subdirectory exists when it searches there, and the
   * glob yields at least `min_count` paths.
   */
  lemma GlobVerdict(attr: string, pattern: string, minCount: int, fileType: string, sev: Severity, phase: Phase,
                    participantLevel: bool, ctx: Context, fs: FileSystem)
    requires GetBaseDir(attr, ctx).Ok?
    ensures var r := RuleCheck(GlobFilesExist(attr, pattern, minCount, fileType, sev, phase, participantLevel), ctx, fs);
      var base := GetBaseDir(attr, ctx).value;
      r.Ok? && (r.value.passed <==>
        && base.Some? && fs.Exists(base.value)
        && (participantLevel ==> fs.Exists(SearchDir(base.value, true, ctx)))
        && |fs.Glob(SearchDir(base.value, participantLevel, ctx), pattern)| >= minCount)
  {
  }

  /** `_get_base_dir` takes the inputs' attribute even when it holds `None`, and `Path(None)` raises. */
  /** A glob rule whose base directory cannot be derived lets that exception escape. */
  lemma GlobRaisesWithBase(rule: Rule, ctx: Context, fs: FileSystem)
    requires rule.GlobFilesExist? && GetBaseDir(rule.baseDirAttr, ctx).Raised?
    ensures RuleCheck(rule, ctx, fs) == Raised(GetBaseDir(rule.baseDirAttr, ctx).exc)
  {
    var meta := Meta(rule);
    assert RuleCheck(rule, ctx, fs) == CheckGlobFilesExist(meta, rule.baseDirAttr, rule.pattern, rule.minCount,
                                                           rule.globType, rule.participantLevel, ctx, fs);
  }

  /** An input attribute holding a path is the base directory, whatever the expected outputs say. */
  lemma BaseDirOfInput(attr: string, ctx: Context, p: Path)
    requires GetAttr(ctx.inputs, attr) == Some(VPath(p))
    ensures GetBaseDir(attr, ctx) == Ok(Some(p))
  {
    assert ctx.inputs.VObj? && Truthy(ctx.inputs) && HasAttr(ctx.inputs, attr);
    assert ToPath(VPath(p)) == Ok(p);
  }

  /** Without such an input, an expected output holding a path is the base directory. */
  lemma BaseDirOfExpected(attr: string, ctx: Context, p: Path)
    requires !(Truthy(ctx.inputs) && HasAttr(ctx.inputs, attr))
    requires GetAttr(ctx.expectedOutputs, attr) == Some(VPath(p))
    ensures GetBaseDir(attr, ctx) == Ok(Some(p))
  {
    assert ctx.expectedOutputs.VObj? && Truthy(ctx.expectedOutputs) && HasAttr(ctx.expectedOutputs, attr);
    assert ToPath(VPath(p)) == Ok(p);
  }

  lemma BaseDirOfUnsetInput(attr: string, ctx: Context)
    requires ctx.inputs.VObj? && GetAttr(ctx.inputs, attr) == Some(VNone)
    ensures GetBaseDir(attr, ctx).Raised? && GetBaseDir(attr, ctx).exc.cls == TypeError
  {
    assert Truthy(ctx.inputs) && HasAttr(ctx.inputs, attr);
    assert ToPath(VNone).Raised?;
  }

  /** The name a glob rule derives from its file type. */
  lemma GlobRuleNameExample()
    ensures GlobRuleName("DWI files") == "dwi_files_exist"
  {
    assert Strings.Lower("DWI files") == "dwi files";
  }

  /**
   * Scanning a flat mapping succeeds exactly when every value is a path; then
   * every entry is counted once, as found or as missing, and nothing is missing
   * exactly when every path exists.
   */
  lemma {:induction false} LeafScanAccounts(es: seq<Entry>, outer: Option<string>, style: SessionStyle, fs: FileSystem)
    ensures LeafScan(es, outer, style, fs).Ok? <==> forall i :: 0 <= i < |es| ==> es[i].val.VPath?
    ensures LeafScan(es, outer, style, fs).Ok? ==>
      var s := LeafScan(es, outer, style, fs).value;
      && |s.found| + |s.missing| == |es|
      && (s.missing == [] <==> forall i :: 0 <= i < |es| ==> fs.Exists(es[i].val.p))
    decreases |es|
  {
    if es != [] {
      var init := es[..|es| - 1];
      LeafScanAccounts(init, outer, style, fs);
      ScanEntryAccounts(es[|es| - 1], outer, style, fs);
      assert forall i :: 0 <= i < |init| ==> init[i] == es[i];
    }
  }

  /** One entry is counted once: as found when its path exists, as missing otherwise. */
  lemma ScanEntryAccounts(e: Entry, outer: Option<string>, style: SessionStyle, fs: FileSystem)
    ensures ScanEntry(e, outer, style, fs).Ok? <==> e.val.VPath?
    ensures ScanEntry(e, outer, style, fs).Ok? ==>
      var s := ScanEntry(e, outer, style, fs).value;
      && |s.found| + |s.missing| == 1
      && (s.missing == [] <==> fs.Exists(e.val.p))
  {
  }

  /** The values of the inner mappings of a nested mapping, in iteration order. */
  function Leaves(es: seq<Entry>): seq<Value>
  {
    if es == [] then []
    else Leaves(es[..|es| - 1]) + (var inner := es[|es| - 1].val; if inner.VDict? then EntryValues(inner.entries) else [])
  }

  function EntryValues(es: seq<Entry>): (vs: seq<Value>)
    ensures |vs| == |es| && forall i :: 0 <= i < |es| ==> vs[i] == es[i].val
  {
    seq(|es|, i requires 0 <= i < |es| => es[i].val)
  }

  predicate NestedShape(es: seq<Entry>)
  {
    forall i :: 0 <= i < |es| ==> es[i].val.VDict? && forall j :: 0 <= j < |es[i].val.entries| ==> es[i].val.entries[j].val.VPath?
  }

  /** The leaves of a mapping of mappings are the values of its inner mappings. */
  lemma {:induction false} LeavesOfNested(es: seq<Entry>)
    requires forall i :: 0 <= i < |es| ==> es[i].val.VDict?
    ensures forall v :: v in Leaves(es) <==>
      exists i, j :: 0 <= i < |es| && 0 <= j < |es[i].val.entries| && v == es[i].val.entries[j].val
    decreases |es|
  {
    if es != [] {
      var n := |es| - 1;
      var init := es[..n];
      LeavesOfNested(init);
      assert forall i :: 0 <= i < n ==> init[i] == es[i];
      var vs := EntryValues(es[n].val.entries);
      assert Leaves(es) == Leaves(init) + vs;
      forall v | v in Leaves(es)
        ensures exists i, j :: 0 <= i < |es| && 0 <= j < |es[i].val.entries| && v == es[i].val.entries[j].val
      {
        if v in vs {
          var j :| 0 <= j < |vs| && vs[j] == v;
          assert v == es[n].val.entries[j].val;
        } else {
          var i, j :| 0 <= i < n && 0 <= j < |init[i].val.entries| && v == init[i].val.entries[j].val;
          assert v == es[i].val.entries[j].val;
        }
      }
      forall v, i, j | 0 <= i < |es| && 0 <= j < |es[i].val.entries| && v == es[i].val.entries[j].val
        ensures v in Leaves(es)
      {
        if i == n {
          assert vs[j] == v;
        } else {
          assert v == init[i].val.entries[j].val;
        }
      }
    }
  }

  /**
   * Scanning a nested mapping succeeds exactly when it is a mapping of mappings
   * of paths; then every leaf is counted once, and nothing is missing exactly
   * when every leaf path exists.
   */
  lemma NestedScanAccounts(es: seq<Entry>, style: SessionStyle, fs: FileSystem)
    ensures NestedScan(es, style, fs).Ok? <==> NestedShape(es)
    ensures NestedScan(es, style, fs).Ok? ==>
      var s := NestedScan(es, style, fs).value;
      && |s.found| + |s.missing| == |Leaves(es)|
      && (forall v :: v in Leaves(es) ==> v.VPath?)
      && (s.missing == [] <==> forall v :: v in Leaves(es) ==> fs.Exists(v.p))
  {
    NestedScanShape(es, style, fs);
    if NestedScan(es, style, fs).Ok? {
      NestedScanLeaves(es, style, fs);
    }
  }

  lemma {:induction false} NestedScanShape(es: seq<Entry>, style: SessionStyle, fs: FileSystem)
    ensures NestedScan(es, style, fs).Ok? <==> NestedShape(es)
    decreases |es|
  {
    if es != [] {
      var init, last := es[..|es| - 1], es[|es| - 1];
      NestedScanShape(init, style, fs);
      assert forall i :: 0 <= i < |init| ==> init[i] == es[i];
      if last.val.VDict? {
        LeafScanAccounts(last.val.entries, Some(KeyString(last.key)), style, fs);
      }
    }
  }

  lemma {:induction false} NestedScanLeaves(es: seq<Entry>, style: SessionStyle, fs: FileSystem)
    requires NestedScan(es, style, fs).Ok?
    ensures var s := NestedScan(es, style, fs).value;
      && |s.found| + |s.missing| == |Leaves(es)|
      && (forall v :: v in Leaves(es) ==> v.VPath?)
      && (s.missing == [] <==> forall v :: v in Leaves(es) ==> fs.Exists(v.p))
    decreases |es|
  {
    if es != [] {
      var init, last := es[..|es| - 1], es[|es| - 1];
      var outer := Some(KeyString(last.key));
      var inner := last.val.entries;
      assert NestedScan(init, style, fs).Ok? && last.val.VDict? && LeafScan(inner, outer, style, fs).Ok?;
      NestedScanLeaves(init, style, fs);
      LeafScanAccounts(inner, outer, style, fs);
      var s0, sl := NestedScan(init, style, fs).value, LeafScan(inner, outer, style, fs).value;
      assert NestedScan(es, style, fs).value == Join(s0, sl);
      var vs := EntryValues(inner);
      assert Leaves(es) == Leaves(init) + vs;
      assert forall v :: v in vs ==> v.VPath? by {
        forall v | v in vs ensures v.VPath? {
          var j :| 0 <= j < |vs| && vs[j] == v;
        }
      }
      assert (forall v :: v in vs ==> fs.Exists(v.p)) <==> (forall i :: 0 <= i < |inner| ==> fs.Exists(inner[i].val.p)) by {
        if forall v :: v in vs ==> fs.Exists(v.p) {
          forall i | 0 <= i < |inner| ensures fs.Exists(inner[i].val.p) {
            assert vs[i] in vs;
          }
        }
        if forall i :: 0 <= i < |inner| ==> fs.Exists(inner[i].val.p) {
          forall v | v in vs ensures fs.Exists(v.p) {
            var j :| 0 <= j < |vs| && vs[j] == v;
          }
        }
      }
    }
  }

  /** A finished scan passes exactly when nothing is missing. */
  lemma ScanVerdictPasses(meta: RuleMeta, scan: Scan, itemType: string, rule: Rule)
    ensures ScanVerdict(meta, scan, itemType, rule).Ok?
    ensures ScanVerdict(meta, scan, itemType, rule).value.passed <==> scan.missing == []
  {
  }

  /** Past its prelude, a workflow rule is the verdict on the nested scan of its attribute. */
  lemma WorkflowRuleScans(rule: Rule, ctx: Context, fs: FileSystem, es: seq<Entry>)
    requires rule.WorkflowReportsExist? || rule.WorkflowDirsExist?
    requires Truthy(ctx.expectedOutputs)
    requires GetAttr(ctx.expectedOutputs, ScanTarget(rule).0) == Some(VDict(es))
    requires NestedScan(es, SesPrefixed, fs).Ok?
    ensures RuleCheck(rule, ctx, fs) == ScanVerdict(Meta(rule), NestedScan(es, SesPrefixed, fs).value, "", rule)
  {
    assert ScanPrelude(rule, ctx, fs) == Ok(ToScan(VDict(es)));
  }

  /** The workflow-report rule passes exactly when every expected report exists. */
  lemma WorkflowReportsVerdict(ctx: Context, fs: FileSystem, reports: seq<Entry>)
    requires Truthy(ctx.expectedOutputs)
    requires GetAttr(ctx.expectedOutputs, "workflow_reports") == Some(VDict(reports))
    requires NestedShape(reports)
    ensures var r := RuleCheck(WorkflowReportsExist, ctx, fs);
      r.Ok? && (r.value.passed <==> forall v :: v in Leaves(reports) ==> v.VPath? && fs.Exists(v.p))
  {
    NestedScanAccounts(reports, SesPrefixed, fs);
    WorkflowRuleScans(WorkflowReportsExist, ctx, fs, reports);
    ScanVerdictPasses(Meta(WorkflowReportsExist), NestedScan(reports, SesPrefixed, fs).value, "", WorkflowReportsExist);
  }

  /** The workflow-directory rule passes exactly when every expected dwi directory exists. */
  lemma WorkflowDirsVerdict(ctx: Context, fs: FileSystem, dirs: seq<Entry>)
    requires Truthy(ctx.expectedOutputs)
    requires GetAttr(ctx.expectedOutputs, "workflow_dirs") == Some(VDict(dirs))
    requires NestedShape(dirs)
    ensures var r := RuleCheck(WorkflowDirsExist, ctx, fs);
      r.Ok? && (r.value.passed <==> forall v :: v in Leaves(dirs) ==> v.VPath? && fs.Exists(v.p))
  {
    NestedScanAccounts(dirs, SesPrefixed, fs);
    WorkflowRuleScans(WorkflowDirsExist, ctx, fs, dirs);
    ScanVerdictPasses(Meta(WorkflowDirsExist), NestedScan(dirs, SesPrefixed, fs).value, "", WorkflowDirsExist);
  }

  /** An expected-outputs rule on a single path or a flat mapping of paths passes exactly when they all exist. */
  lemma ExpectedOutputsVerdict(attr: string, itemType: string, sev: Severity, ctx: Context, fs: FileSystem)
    requires Truthy(ctx.expectedOutputs) && HasAttr(ctx.expectedOutputs, attr)
    ensures var r := RuleCheck(ExpectedOutputsExist(attr, itemType, sev, false), ctx, fs);
      var outputs := GetAttr(ctx.expectedOutputs, attr).value;
      && (outputs.VPath? ==> r.Ok? && (r.value.passed <==> fs.Exists(outputs.p)))
      && (outputs.VDict? && (forall i :: 0 <= i < |outputs.entries| ==> outputs.entries[i].val.VPath?) ==>
            r.Ok? && (r.value.passed <==> forall i :: 0 <= i < |outputs.entries| ==> fs.Exists(outputs.entries[i].val.p)))
  {
    var outputs := GetAttr(ctx.expectedOutputs, attr).value;
    if outputs.VDict? {
      LeafScanAccounts(outputs.entries, None, Bare, fs);
    }
  }

  /**
   * The HTML-report rule fails without expected outputs, passes exactly when
   * the report path exists, and raises `AttributeError` when the expected
   * outputs have no report attribute.
   */
  lemma HtmlReportVerdict(ctx: Context, fs: FileSystem)
    ensures var r := RuleCheck(HtmlReportExists, ctx, fs);
      var v := GetAttr(ctx.expectedOutputs, "html_report");
      && (!Truthy(ctx.expectedOutputs) ==> r.Ok? && !r.value.passed)
      && (Truthy(ctx.expectedOutputs) && v.None? ==> r.Raised? && r.exc.cls == AttributeError)
      && (Truthy(ctx.expectedOutputs) && v.Some? && v.value.VPath? ==> r.Ok? && (r.value.passed <==> fs.Exists(v.value.p)))
  {
  }

  /** Every library rule's result carries the rule's own name, description and severity. */
  lemma RuleCheckCarriesMeta(rule: Rule, ctx: Context, fs: FileSystem)
    requires !rule.Custom?
    ensures var r := RuleCheck(rule, ctx, fs);
      r.Ok? ==> r.value.ruleName == Meta(rule).name && r.value.ruleDescription == Meta(rule).description
                && r.value.severity == Meta(rule).severity
  {
    var meta := Meta(rule);
    match rule {
      case DirectoryExists(attr, dirType, _) => DirectoryCarries(meta, attr, dirType, ctx, fs);
      case FileExists(attr, fileType, _, onConfig) => FileCarries(meta, attr, fileType, onConfig, ctx, fs);
      case ParticipantExists(prefix) => ParticipantCarries(meta, prefix, ctx, fs);
      case OutputDirectoryExists(attr, outputType) => OutputDirectoryCarries(meta, attr, outputType, ctx, fs);
      case GlobFilesExist(attr, pattern, minCount, fileType, _, _, participantLevel) =>
        GlobCarries(meta, attr, pattern, minCount, fileType, participantLevel, ctx, fs);
      case ExpectedOutputsExist(_, _, _, _) => ScanningCarries(rule, ctx, fs);
      case HtmlReportExists => HtmlReportCarries(meta, ctx, fs);
      case WorkflowReportsExist => ScanningCarries(rule, ctx, fs);
      case WorkflowDirsExist => ScanningCarries(rule, ctx, fs);
    }
  }

  /** A result that returns names the rule, describes it and has its severity. */
  predicate Carries(meta: RuleMeta, r: Outcome<ValidationResult>)
  {
    r.Ok? ==> r.value.ruleName == meta.name && r.value.ruleDescription == meta.description && r.value.severity == meta.severity
  }

  lemma DirectoryCarries(meta: RuleMeta, attr: string, dirType: string, ctx: Context, fs: FileSystem)
    ensures Carries(meta, CheckDirectoryExists(meta, attr, dirType, ctx, fs))
  {
  }

  lemma FileCarries(meta: RuleMeta, attr: string, fileType: string, onConfig: bool, ctx: Context, fs: FileSystem)
    ensures Carries(meta, CheckFileExists(meta, attr, fileType, onConfig, ctx, fs))
  {
  }

  lemma ParticipantCarries(meta: RuleMeta, prefix: string, ctx: Context, fs: FileSystem)
    ensures Carries(meta, CheckParticipantExists(meta, prefix, ctx, fs))
  {
  }

  lemma OutputDirectoryCarries(meta: RuleMeta, attr: string, outputType: string, ctx: Context, fs: FileSystem)
    ensures Carries(meta, CheckOutputDirectoryExists(meta, attr, outputType, ctx, fs))
  {
  }

  lemma GlobCarries(meta: RuleMeta, attr: string, pattern: string, minCount: int, fileType: string,
                    participantLevel: bool, ctx: Context, fs: FileSystem)
    ensures Carries(meta, CheckGlobFilesExist(meta, attr, pattern, minCount, fileType, participantLevel, ctx, fs))
  {
  }

  lemma ScanningCarries(rule: Rule, ctx: Context, fs: FileSystem)
    requires rule.ExpectedOutputsExist? || rule.WorkflowReportsExist? || rule.WorkflowDirsExist?
    ensures Carries(Meta(rule), CheckScanning(rule, ctx, fs))
  {
  }

  lemma HtmlReportCarries(meta: RuleMeta, ctx: Context, fs: FileSystem)
    ensures Carries(meta, CheckHtmlReport(meta, ctx, fs))
  {
  }
}
