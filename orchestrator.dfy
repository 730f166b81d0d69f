/**
 * `run_procedure`: the registry lookup, then start, pre-validation, execution,
 * post-validation and completion, each step mirrored into the audit log; a
 * runner is seen only through whether it raised or what dictionary it returned.
 */
module Orchestrator {
  import opened Options
  import opened Paths
  import opened Values
  import opened Exceptions
  import opened ValidationBase
  import opened Context
  import opened ValidatorBase
  import opened ProcedureValidators
  import opened AuditRecords
  import opened Disk
  import opened AuditLogger
  import opened ProcedureResult
  import opened Serialize

  /** The names `VALIDATORS` and `RUNNERS` both know, in registry order. */
  const Registered: seq<string> := ["heudiconv", "qsiprep", "qsirecon", "qsiparc"]

  /** `VALIDATORS.get(procedure)`. */
  function ValidatorFor(procedure: string): (v: Option<Validator>)
    ensures v.Some? <==> procedure in Registered
    ensures v.Some? ==> v.value.procedureName == procedure
  {
    if procedure == "heudiconv" then Some(HeudiConv)
    else if procedure == "qsiprep" then Some(QSIPrep)
    else if procedure == "qsirecon" then Some(QSIRecon)
    else if procedure == "qsiparc" then Some(QSIParc)
    else None
  }

  /** What the runner did: raised an exception, or returned its result dictionary. */
  datatype RunnerOutcome = Raises(error: Exc) | Returns(result: seq<Entry>)

  /** The run's nondeterministic inputs: the two UUIDs, the working directory and the clock. */
  datatype Env = Env(runId: string, loggerRunId: string, cwd: Path, now: int, end: int)

  /** One call of `audit.log(event_type, data)`. */
  datatype LogCall = LogCall(eventType: EventType, data: Option<seq<Entry>>)

  /** The outcome of `run_procedure` and the log calls it made, in order. */
  datatype Run = Run(result: Outcome<Result>, calls: seq<LogCall>)

  /** `_get_default_log_dir(inputs)`: `<output_dir>/logs` when the inputs have a true `output_dir`, else `<cwd>/logs`. */
  function DefaultLogDir(inputs: Value, cwd: Path): (r: Outcome<Path>)
    ensures r.Ok? ==> Name(r.value) == "logs"
    ensures !(HasAttr(inputs, "output_dir") && Truthy(GetAttr(inputs, "output_dir").value)) ==> r == Ok(Child(cwd, "logs"))
    ensures forall out :: GetAttr(inputs, "output_dir") == Some(VPath(out)) ==> r == Ok(Child(out, "logs"))
  {
    if HasAttr(inputs, "output_dir") && Truthy(GetAttr(inputs, "output_dir").value) then
      var out :- ToPath(GetAttr(inputs, "output_dir").value);
      Ok(Child(out, "logs"))
    else Ok(Child(cwd, "logs"))
  }

  /** `_inputs_to_dict` / `_config_to_dict` for `None`, a dataclass instance, or anything else. */
  function ObjectToDict(v: Value, key: string): (r: seq<Entry>)
    ensures v.VNone? ==> r == []
    ensures v.VObj? ==> |r| == |v.fields|
    ensures v.VObj? ==> forall i :: 0 <= i < |v.fields| ==> r[i] == Entry(Some(v.fields[i].name), VStr(Str(v.fields[i].value)))
    ensures !v.VNone? && !v.VObj? ==> r == [Entry(Some(key), VStr(Str(v)))]
  {
    match v
    case VNone => []
    case VObj(_, fs) => seq(|fs|, i requires 0 <= i < |fs| => Entry(Some(fs[i].name), VStr(Str(fs[i].value))))
    case _ => [Entry(Some(key), VStr(Str(v)))]
  }

  /**
   * For a dataclass instance whose attributes have different names, the logged
   * dictionary maps each attribute's name to `str(getattr(obj, name))`.
   */
  lemma ObjectDictReadsAttributes(v: Value, key: string, k: nat)
    requires v.VObj? && k < |v.fields|
    requires forall i, j :: 0 <= i < j < |v.fields| ==> v.fields[i].name != v.fields[j].name
    ensures GetAttr(v, v.fields[k].name).Some?
    ensures DictGet(ObjectToDict(v, key), Some(v.fields[k].name)) == Some(VStr(Str(GetAttr(v, v.fields[k].name).value)))
  {
    FindFieldDistinct(v.fields);
    var r := ObjectToDict(v, key);
    assert forall j :: 0 <= j < k ==> r[j].key != r[k].key;
    DictGetAt(r, k);
  }

  /** The data of the `PROCEDURE_START` event. */
  function StartData(inputs: Value, config: Value, overrides: seq<Entry>): seq<Entry>
  {
    [Entry(Some("inputs"), VDict(ObjectToDict(inputs, "inputs"))),
     Entry(Some("config"), VDict(ObjectToDict(config, "config"))),
     Entry(Some("overrides"), SerializeForJson(VDict(overrides)))]
  }

  /** The data of the `EXECUTION_SUCCESS` event. */
  function SuccessData(result: seq<Entry>): seq<Entry>
  {
    [Entry(Some("duration_seconds"), DictGet(result, Some("duration_seconds")).GetOr(VNone)),
     Entry(Some("exit_code"), DictGet(result, Some("exit_code")).GetOr(VNone))]
  }

  /** The `execution` dictionary of a result whose runner raised. */
  function FailedExecution(error: Exc): seq<Entry>
  {
    [Entry(Some("error"), VStr(error.message)), Entry(Some("success"), VBool(false))]
  }

  /** The attributes the inputs schemas declare as `str` (and `session` as `str | None`). */
  predicate TypedInputs(inputs: Value)
  {
    && (GetAttr(inputs, "participant").Some? ==> GetAttr(inputs, "participant").value.VStr?)
    && (GetAttr(inputs, "session").Some? ==> GetAttr(inputs, "session").value.VStr? || GetAttr(inputs, "session").value.VNone?)
  }

  /** `getattr(inputs, "session", None)`. */
  function SessionOf(inputs: Value): Option<string>
  {
    match GetAttr(inputs, "session")
    case Some(VStr(s)) => Some(s)
    case _ => None
  }

  /** The validation context before execution. */
  function PreContext(procedure: string, participant: string, inputs: Value, config: Value): Context
  {
    Context(procedure, participant, SessionOf(inputs), inputs, config, VNone, VNone, VNone)
  }

  /** The context once the runner's result and its expected outputs are attached. */
  function PostContext(ctx: Context, result: seq<Entry>): Context
  {
    ctx.(executionResult := VDict(result), expectedOutputs := DictGet(result, Some("expected_outputs")).GetOr(VNone))
  }

  function LogCallFor(report: ValidationReport): LogCall
  {
    LogCall(ValidationEvent(report.phase, report.Passed()), Some(report.ToDict().entries))
  }

  /** `run_procedure(procedure, inputs, config, log_dir, skip_pre_validation, skip_post_validation, **overrides)`. */
  function RunSpec(procedure: string, inputs: Value, config: Value, logDir: Option<Path>, skipPre: bool, skipPost: bool,
                   overrides: seq<Entry>, env: Env, fs: FileSystem, runner: RunnerOutcome, fsAfter: FileSystem): Run
    requires TypedInputs(inputs)
  {
    var validator := ValidatorFor(procedure);
    if validator.None? then Run(Raised(Simple(ValueError, "Unknown procedure: " + procedure)), [])
    else if !HasAttr(inputs, "participant") then
      Run(Raised(Simple(AttributeError, "'" + TypeName(inputs) + "' object has no attribute 'participant'")), [])
    else
      var v := validator.value;
      var participant := GetAttr(inputs, "participant").value.s;
      var session := SessionOf(inputs);
      var dir := if logDir.Some? then Ok(logDir.value) else DefaultLogDir(inputs, env.cwd);
      if dir.Raised? then Run(Raised(dir.exc), [])
      else Stages(v, procedure, participant, session, inputs, config, dir.value, skipPre, skipPost, overrides, env, fs, runner, fsAfter)
  }

  /** `run_procedure` once the validator, the participant, the session and the log directory are known. */
  function Stages(v: Validator, procedure: string, participant: string, session: Option<string>, inputs: Value, config: Value,
                  dir: Path, skipPre: bool, skipPost: bool, overrides: seq<Entry>, env: Env, fs: FileSystem,
                  runner: RunnerOutcome, fsAfter: FileSystem): Run
  {
    var ctx := PreContext(procedure, participant, inputs, config);
    FromPre(v, ctx, BaseResult(procedure, participant, session, dir, env), StartCalls(inputs, config, overrides),
            PreOutcome(v, ctx, fs, skipPre), skipPost, runner, fsAfter)
  }

  /** The result under construction: successful so far, timed by `env`, pointing at the audit log. */
  function BaseResult(procedure: string, participant: string, session: Option<string>, dir: Path, env: Env): Result
  {
    var logFile := Some(PathString(Child(dir, LogFileName(participant, session, procedure, env.loggerRunId))));
    Result(procedure, participant, session, env.runId, Success, env.now, Some(env.end), None, None, None, logFile)
  }

  /** The first audit call: `PROCEDURE_START` with the inputs, the config and the overrides. */
  function StartCalls(inputs: Value, config: Value, overrides: seq<Entry>): seq<LogCall>
  {
    [LogCall(ProcedureStart, Some(StartData(inputs, config, overrides)))]
  }

  lemma StagesFromPre(v: Validator, procedure: string, participant: string, session: Option<string>, inputs: Value, config: Value,
                      dir: Path, skipPre: bool, skipPost: bool, overrides: seq<Entry>, env: Env, fs: FileSystem,
                      runner: RunnerOutcome, fsAfter: FileSystem)
    ensures Stages(v, procedure, participant, session, inputs, config, dir, skipPre, skipPost, overrides, env, fs, runner, fsAfter)
            == FromPre(v, PreContext(procedure, participant, inputs, config), BaseResult(procedure, participant, session, dir, env),
                       StartCalls(inputs, config, overrides), PreOutcome(v, PreContext(procedure, participant, inputs, config), fs, skipPre),
                       skipPost, runner, fsAfter)
  {
  }

  /** The pre-validation report, `None` when pre-validation is skipped. */
  function PreOutcome(v: Validator, ctx: Context, fs: FileSystem, skipPre: bool): Outcome<Option<ValidationReport>>
  {
    if skipPre then Ok(None) else
      (match PhaseReport(Pre, v, v.preRules, ctx, fs) case Ok(rep) => Ok(Some(rep)) case Raised(e) => Raised(e))
  }

  /** `run_procedure` from the outcome of pre-validation on. */
  function FromPre(v: Validator, ctx: Context, base: Result, start: seq<LogCall>, pre: Outcome<Option<ValidationReport>>,
                   skipPost: bool, runner: RunnerOutcome, fsAfter: FileSystem): Run
  {
    if pre.Raised? then Run(Raised(pre.exc), start)
    else
      var preCalls := start + (if pre.value.Some? then [LogCallFor(pre.value.value)] else []);
      if pre.value.Some? && !pre.value.value.Passed() then
        Run(Ok(base.(status := Status.PreValidationFailed, preValidation := pre.value)), preCalls)
      else
        AfterPre(v, ctx, base.(preValidation := pre.value), preCalls, skipPost, runner, fsAfter)
  }

  /** Execution and post-validation, once pre-validation passed or was skipped. */
  function AfterPre(v: Validator, ctx: Context, base: Result, calls: seq<LogCall>, skipPost: bool,
                    runner: RunnerOutcome, fsAfter: FileSystem): Run
  {
    var execCalls := calls + [LogCall(ExecutionStart, None)];
    match runner
    case Raises(e) =>
      Run(Ok(base.(status := Status.ExecutionFailed, execution := Some(FailedExecution(e)))),
          execCalls + [LogCall(EventType.ExecutionFailed, Some([Entry(Some("error"), VStr(e.message))]))])
    case Returns(res) =>
      var okCalls := execCalls + [LogCall(ExecutionSuccess, Some(SuccessData(res)))];
      var done := base.(execution := Some(res));
      if skipPost then Run(Ok(done), okCalls + [LogCall(ProcedureComplete, None)])
      else AfterPost(done, okCalls, PhaseReport(Post, v, v.postRules, PostContext(ctx, res), fsAfter))
  }

  /** The run once post-validation gave `post`: its exception, or the verdict on its report. */
  function AfterPost(done: Result, okCalls: seq<LogCall>, post: Outcome<ValidationReport>): Run
  {
    if post.Raised? then Run(Raised(post.exc), okCalls)
    else
      var postCalls := okCalls + [LogCallFor(post.value)];
      if !post.value.Passed() then
        Run(Ok(done.(status := Status.PostValidationFailed, postValidation := Some(post.value))), postCalls)
      else Run(Ok(done.(postValidation := Some(post.value))), postCalls + [LogCall(ProcedureComplete, None)])
  }

  /**
   * A post-validation that raises ends the run with its exception; a report
   * that passes keeps the status success and completes the procedure, one that
   * fails gives `post_validation_failed`; either way the report is kept and logged.
   */
  lemma AfterPostFacts(done: Result, okCalls: seq<LogCall>, post: Outcome<ValidationReport>)
    requires done.status == Success && (post.Ok? ==> post.value.phase == Post)
    ensures AfterPost(done, okCalls, post).result.Ok? <==> post.Ok?
    ensures post.Raised? ==> AfterPost(done, okCalls, post) == Run(Raised(post.exc), okCalls)
    ensures post.Ok? ==>
      var r := AfterPost(done, okCalls, post).result.value;
      && r.execution == done.execution && r.preValidation == done.preValidation
      && (r.status.Success? || r.status.PostValidationFailed?)
      && (r.status.Success? <==> post.value.Passed())
      && r.postValidation == Some(post.value)
    ensures post.Ok? ==>
      EventTypes(AfterPost(done, okCalls, post).calls)
      == EventTypes(okCalls) + [if post.value.Passed() then PostValidation else EventType.PostValidationFailed]
         + (if post.value.Passed() then [ProcedureComplete] else [])
  {
    if post.Ok? {
      var postCalls := okCalls + [LogCallFor(post.value)];
      EventTypesConcat(okCalls, [LogCallFor(post.value)]);
      EventTypesConcat(postCalls, [LogCall(ProcedureComplete, None)]);
    }
  }

  function EventTypes(calls: seq<LogCall>): (r: seq<EventType>)
    ensures |r| == |calls| && forall i :: 0 <= i < |calls| ==> r[i] == calls[i].eventType
  {
    seq(|calls|, i requires 0 <= i < |calls| => calls[i].eventType)
  }

  /** The records a logger holds after making `calls` at clock reading `now`. */
  function Stamped(calls: seq<LogCall>, procedure: string, participant: string, session: Option<string>, runId: string, now: int): (r: seq<AuditRecord>)
    ensures |r| == |calls|
    ensures forall i :: 0 <= i < |calls| ==>
      r[i] == AuditRecord(calls[i].eventType, procedure, participant, session, now, DataOr(calls[i].data), Some(runId))
  {
    seq(|calls|, i requires 0 <= i < |calls| =>
      AuditRecord(calls[i].eventType, procedure, participant, session, now, DataOr(calls[i].data), Some(runId)))
  }

  lemma StampedSnoc(calls: seq<LogCall>, c: LogCall, procedure: string, participant: string, session: Option<string>, runId: string, now: int)
    ensures Stamped(calls + [c], procedure, participant, session, runId, now)
            == Stamped(calls, procedure, participant, session, runId, now)
               + [AuditRecord(c.eventType, procedure, participant, session, now, DataOr(c.data), Some(runId))]
  {
  }

  /** `run_procedure`, driving a fresh `AuditLogger` over `disk`. */
  method RunProcedure(procedure: string, inputs: Value, config: Value, logDir: Option<Path>, skipPre: bool, skipPost: bool,
                      overrides: seq<Entry>, env: Env, fs: FileSystem, runner: RunnerOutcome, fsAfter: FileSystem, disk: Disk)
    returns (r: Outcome<Result>, audit: Logger?)
    requires TypedInputs(inputs)
    modifies disk
    ensures r == RunSpec(procedure, inputs, config, logDir, skipPre, skipPost, overrides, env, fs, runner, fsAfter).result
    ensures audit == null ==> RunSpec(procedure, inputs, config, logDir, skipPre, skipPost, overrides, env, fs, runner, fsAfter).calls == []
    ensures audit == null ==> unchanged(disk)
    ensures audit != null ==>
      && fresh(audit) && audit.disk == disk && audit.Valid()
      && audit.records == Stamped(RunSpec(procedure, inputs, config, logDir, skipPre, skipPost, overrides, env, fs, runner, fsAfter).calls,
                                  procedure, audit.participant, audit.session, env.loggerRunId, env.now)
    ensures audit != null ==> logDir.Some? ==> audit.logDir == logDir.value
    ensures audit != null ==> disk.dirs == old(disk.dirs) + Ancestors(audit.logDir)
    ensures audit != null ==> OthersUnchanged(old(disk.files), disk.files, audit.LogFile())
  {
    var validator := ValidatorFor(procedure);
    if validator.None? {
      return Raised(Simple(ValueError, "Unknown procedure: " + procedure)), null;
    }
    if !HasAttr(inputs, "participant") {
      return Raised(Simple(AttributeError, "'" + TypeName(inputs) + "' object has no attribute 'participant'")), null;
    }
    var v := validator.value;
    var participant := GetAttr(inputs, "participant").value.s;
    var session := SessionOf(inputs);
    var dir: Path;
    if logDir.Some? {
      dir := logDir.value;
    } else {
      var d := DefaultLogDir(inputs, env.cwd);
      if d.Raised? {
        return Raised(d.exc), null;
      }
      dir := d.value;
    }

    r, audit := RunStages(v, procedure, participant, session, inputs, config, dir, skipPre, skipPost, overrides, env, fs, runner, fsAfter, disk);
  }

  /** The body of `run_procedure` from the creation of the audit logger on. */
  method RunStages(v: Validator, procedure: string, participant: string, session: Option<string>, inputs: Value, config: Value,
                   dir: Path, skipPre: bool, skipPost: bool, overrides: seq<Entry>, env: Env, fs: FileSystem,
                   runner: RunnerOutcome, fsAfter: FileSystem, disk: Disk)
    returns (r: Outcome<Result>, audit: Logger)
    modifies disk
    ensures r == Stages(v, procedure, participant, session, inputs, config, dir, skipPre, skipPost, overrides, env, fs, runner, fsAfter).result
    ensures fresh(audit) && audit.disk == disk && audit.Valid()
    ensures audit.participant == participant && audit.session == session && audit.logDir == dir
    ensures disk.dirs == old(disk.dirs) + Ancestors(dir)
    ensures OthersUnchanged(old(disk.files), disk.files, audit.LogFile())
    ensures audit.records == Stamped(Stages(v, procedure, participant, session, inputs, config, dir, skipPre, skipPost, overrides, env, fs, runner, fsAfter).calls,
                                     procedure, participant, session, env.loggerRunId, env.now)
  {
    ghost var spec := Stages(v, procedure, participant, session, inputs, config, dir, skipPre, skipPost, overrides, env, fs, runner, fsAfter);
    audit := new Logger(dir, procedure, participant, session, env.loggerRunId, disk);
    ghost var calls: seq<LogCall> := [];
    var startCall := LogCall(ProcedureStart, Some(StartData(inputs, config, overrides)));
    audit.Log(startCall.eventType, startCall.data, env.now);
    ghost var files := disk.files;
    StampedSnoc(calls, startCall, procedure, participant, session, env.loggerRunId, env.now);
    calls := calls + [startCall];

    var base := BaseResult(procedure, participant, session, dir, env);
    var ctx := PreContext(procedure, participant, inputs, config);
    StagesFromPre(v, procedure, participant, session, inputs, config, dir, skipPre, skipPost, overrides, env, fs, runner, fsAfter);
    assert calls == StartCalls(inputs, config, overrides);
    var pre := PreStage(v, ctx, fs, skipPre, calls, audit, env.now);
    OthersUnchangedTrans(old(disk.files), files, disk.files, audit.LogFile());
    files := disk.files;
    if pre.Raised? {
      return Raised(pre.exc), audit;
    }
    calls := calls + PreCalls(pre.value);
    if pre.value.Some? && !pre.value.value.Passed() {
      return Ok(base.(status := Status.PreValidationFailed, preValidation := pre.value)), audit;
    }
    assert spec == AfterPre(v, ctx, base.(preValidation := pre.value), calls, skipPost, runner, fsAfter);
    r := ExecuteStages(v, ctx, base.(preValidation := pre.value), calls, skipPost, runner, fsAfter, audit, env.now);
    OthersUnchangedTrans(old(disk.files), files, disk.files, audit.LogFile());
  }

  /** The audit call a pre-validation outcome adds: one for a report, none when skipped. */
  function PreCalls(pre: Option<ValidationReport>): seq<LogCall>
  {
    if pre.Some? then [LogCallFor(pre.value)] else []
  }

  /** Pre-validation, unless skipped, logging its report through `audit`. */
  method PreStage(v: Validator, ctx: Context, fs: FileSystem, skipPre: bool, ghost calls: seq<LogCall>, audit: Logger, now: int)
    returns (pre: Outcome<Option<ValidationReport>>)
    requires audit.Valid()
    requires audit.records == Stamped(calls, audit.procedure, audit.participant, audit.session, audit.runId, now)
    modifies audit, audit.disk
    ensures pre == PreOutcome(v, ctx, fs, skipPre)
    ensures audit.Valid()
    ensures audit.disk.dirs == old(audit.disk.dirs)
    ensures OthersUnchanged(old(audit.disk.files), audit.disk.files, audit.LogFile())
    ensures pre.Raised? ==> audit.records == old(audit.records)
    ensures pre.Ok? ==>
      audit.records == Stamped(calls + PreCalls(pre.value), audit.procedure, audit.participant, audit.session, audit.runId, now)
  {
    if skipPre {
      assert calls + PreCalls(None) == calls;
      return Ok(None);
    }
    var report :- ValidatePre(v, ctx, fs);
    audit.LogValidationReport(report, now);
    StampedSnoc(calls, LogCallFor(report), audit.procedure, audit.participant, audit.session, audit.runId, now);
    return Ok(Some(report));
  }

  /** Execution and post-validation, logging each step through `audit`. */
  method ExecuteStages(v: Validator, ctx: Context, base: Result, ghost calls: seq<LogCall>, skipPost: bool,
                       runner: RunnerOutcome, fsAfter: FileSystem, audit: Logger, now: int)
    returns (r: Outcome<Result>)
    requires audit.Valid()
    requires audit.records == Stamped(calls, audit.procedure, audit.participant, audit.session, audit.runId, now)
    modifies audit, audit.disk
    ensures r == AfterPre(v, ctx, base, calls, skipPost, runner, fsAfter).result
    ensures audit.Valid()
    ensures audit.disk.dirs == old(audit.disk.dirs)
    ensures OthersUnchanged(old(audit.disk.files), audit.disk.files, audit.LogFile())
    ensures audit.records == Stamped(AfterPre(v, ctx, base, calls, skipPost, runner, fsAfter).calls,
                                     audit.procedure, audit.participant, audit.session, audit.runId, now)
  {
    ghost var calls := calls;
    ghost var procedure, participant, session, runId := audit.procedure, audit.participant, audit.session, audit.runId;
    ghost var files0, lf := audit.disk.files, audit.LogFile();
    audit.Log(ExecutionStart, None, now);
    ghost var files := audit.disk.files;
    StampedSnoc(calls, LogCall(ExecutionStart, None), procedure, participant, session, runId, now);
    calls := calls + [LogCall(ExecutionStart, None)];

    match runner {
      case Raises(e) =>
        var failCall := LogCall(EventType.ExecutionFailed, Some([Entry(Some("error"), VStr(e.message))]));
        audit.Log(failCall.eventType, failCall.data, now);
        OthersUnchangedTrans(files0, files, audit.disk.files, lf);
        StampedSnoc(calls, failCall, procedure, participant, session, runId, now);
        return Ok(base.(status := Status.ExecutionFailed, execution := Some(FailedExecution(e))));
      case Returns(res) =>
        var okCall := LogCall(ExecutionSuccess, Some(SuccessData(res)));
        audit.Log(okCall.eventType, okCall.data, now);
        OthersUnchangedTrans(files0, files, audit.disk.files, lf);
        files := audit.disk.files;
        StampedSnoc(calls, okCall, procedure, participant, session, runId, now);
        calls := calls + [okCall];
        var done := base.(execution := Some(res));
        if !skipPost {
          var post := ValidatePost(v, PostContext(ctx, res), fsAfter);
          if post.Raised? {
            return Raised(post.exc);
          }
          audit.LogValidationReport(post.value, now);
          OthersUnchangedTrans(files0, files, audit.disk.files, lf);
          files := audit.disk.files;
          StampedSnoc(calls, LogCallFor(post.value), procedure, participant, session, runId, now);
          calls := calls + [LogCallFor(post.value)];
          if !post.value.Passed() {
            return Ok(done.(status := Status.PostValidationFailed, postValidation := Some(post.value)));
          }
          done := done.(postValidation := Some(post.value));
        }
        audit.Log(ProcedureComplete, None, now);
        OthersUnchangedTrans(files0, files, audit.disk.files, lf);
        StampedSnoc(calls, LogCall(ProcedureComplete, None), procedure, participant, session, runId, now);
        return Ok(done);
    }
  }

  // Properties of the state machine.

  lemma EventTypesConcat(a: seq<LogCall>, b: seq<LogCall>)
    ensures EventTypes(a + b) == EventTypes(a) + EventTypes(b)
  {
  }

  /** The validation event a pre-validation outcome contributes. */
  function PreEvents(pre: Option<ValidationReport>): seq<EventType>
  {
    if pre.Some? then [ValidationEvent(pre.value.phase, pre.value.Passed())] else []
  }

  /** Pre-validation let the run go on: skipped, or a passing report. */
  predicate PreAllows(pre: Outcome<Option<ValidationReport>>)
  {
    pre.Ok? && (pre.value.None? || pre.value.value.Passed())
  }

  /** A pre-validation report is always a `pre` report; skipping gives no report. */
  lemma PreOutcomePhase(v: Validator, ctx: Context, fs: FileSystem, skipPre: bool)
    ensures skipPre ==> PreOutcome(v, ctx, fs, skipPre) == Ok(None)
    ensures !skipPre && PreOutcome(v, ctx, fs, skipPre).Ok? ==>
      PreOutcome(v, ctx, fs, skipPre).value.Some? && PreOutcome(v, ctx, fs, skipPre).value.value.phase == Pre
      && PreEvents(PreOutcome(v, ctx, fs, skipPre).value)
         == [if PreOutcome(v, ctx, fs, skipPre).value.value.Passed() then PreValidation else EventType.PreValidationFailed]
  {
  }

  /** A runner that raises: `EXECUTION_FAILED` with its message, and no post-validation. */
  lemma AfterPreRaises(v: Validator, ctx: Context, base: Result, calls: seq<LogCall>, skipPost: bool, e: Exc, fsAfter: FileSystem)
    ensures var run := AfterPre(v, ctx, base, calls, skipPost, Raises(e), fsAfter);
      && run.result.Ok?
      && run.result.value.status == Status.ExecutionFailed
      && run.result.value.execution == Some([Entry(Some("error"), VStr(e.message)), Entry(Some("success"), VBool(false))])
    ensures var run := AfterPre(v, ctx, base, calls, skipPost, Raises(e), fsAfter);
      run.result.Ok? ==> run.result.value.postValidation == base.postValidation && run.result.value.preValidation == base.preValidation
    ensures var run := AfterPre(v, ctx, base, calls, skipPost, Raises(e), fsAfter);
      run.calls[|run.calls| - 1] == LogCall(EventType.ExecutionFailed, Some([Entry(Some("error"), VStr(e.message))]))
    ensures var run := AfterPre(v, ctx, base, calls, skipPost, Raises(e), fsAfter);
      EventTypes(run.calls) == EventTypes(calls) + [ExecutionStart, EventType.ExecutionFailed]
  {
    var failed := LogCall(EventType.ExecutionFailed, Some([Entry(Some("error"), VStr(e.message))]));
    var tail := [LogCall(ExecutionStart, None), failed];
    assert AfterPre(v, ctx, base, calls, skipPost, Raises(e), fsAfter)
      == Run(Ok(base.(status := Status.ExecutionFailed, execution := Some(FailedExecution(e)))), calls + tail);
    EventTypesConcat(calls, tail);
  }

  /**
   * A runner that returns: `EXECUTION_SUCCESS`, then post-validation alone decides
   * between success and `post_validation_failed`; whatever the returned dictionary
   * says about its own success plays no part.
   */
  lemma AfterPreReturns(v: Validator, ctx: Context, base: Result, calls: seq<LogCall>, skipPost: bool, res: seq<Entry>, fsAfter: FileSystem)
    requires base.status == Success
    ensures var run := AfterPre(v, ctx, base, calls, skipPost, Returns(res), fsAfter);
      run.result.Ok? <==> skipPost || PhaseReport(Post, v, v.postRules, PostContext(ctx, res), fsAfter).Ok?
    ensures var run := AfterPre(v, ctx, base, calls, skipPost, Returns(res), fsAfter);
      run.result.Raised? ==> run.result == Raised(PhaseReport(Post, v, v.postRules, PostContext(ctx, res), fsAfter).exc)
    ensures var run := AfterPre(v, ctx, base, calls, skipPost, Returns(res), fsAfter);
      run.result.Ok? ==>
        && run.result.value.execution == Some(res)
        && run.result.value.preValidation == base.preValidation
        && (run.result.value.status.Success? || run.result.value.status.PostValidationFailed?)
    ensures var run := AfterPre(v, ctx, base, calls, skipPost, Returns(res), fsAfter);
      var post := PhaseReport(Post, v, v.postRules, PostContext(ctx, res), fsAfter);
      run.result.Ok? ==>
        && (run.result.value.status.Success? <==> skipPost || post.value.Passed())
        && run.result.value.postValidation == (if skipPost then base.postValidation else Some(post.value))
    ensures var run := AfterPre(v, ctx, base, calls, skipPost, Returns(res), fsAfter);
      run.result.Raised? ==> EventTypes(run.calls) == EventTypes(calls) + [ExecutionStart, ExecutionSuccess]
    ensures var run := AfterPre(v, ctx, base, calls, skipPost, Returns(res), fsAfter);
      var post := PhaseReport(Post, v, v.postRules, PostContext(ctx, res), fsAfter);
      run.result.Ok? ==>
        EventTypes(run.calls)
        == EventTypes(calls) + [ExecutionStart, ExecutionSuccess]
           + (if skipPost then [] else [if post.value.Passed() then PostValidation else EventType.PostValidationFailed])
           + (if run.result.value.status.Success? then [ProcedureComplete] else [])
  {
    AfterPreReturnsResult(v, ctx, base, calls, skipPost, res, fsAfter);
    AfterPreReturnsEvents(v, ctx, base, calls, skipPost, res, fsAfter);
  }

  lemma AfterPreReturnsResult(v: Validator, ctx: Context, base: Result, calls: seq<LogCall>, skipPost: bool, res: seq<Entry>, fsAfter: FileSystem)
    requires base.status == Success
    ensures var run := AfterPre(v, ctx, base, calls, skipPost, Returns(res), fsAfter);
      run.result.Ok? <==> skipPost || PhaseReport(Post, v, v.postRules, PostContext(ctx, res), fsAfter).Ok?
    ensures var run := AfterPre(v, ctx, base, calls, skipPost, Returns(res), fsAfter);
      run.result.Raised? ==> run.result == Raised(PhaseReport(Post, v, v.postRules, PostContext(ctx, res), fsAfter).exc)
    ensures var run := AfterPre(v, ctx, base, calls, skipPost, Returns(res), fsAfter);
      run.result.Ok? ==>
        && run.result.value.execution == Some(res)
        && run.result.value.preValidation == base.preValidation
        && (run.result.value.status.Success? || run.result.value.status.PostValidationFailed?)
    ensures var run := AfterPre(v, ctx, base, calls, skipPost, Returns(res), fsAfter);
      var post := PhaseReport(Post, v, v.postRules, PostContext(ctx, res), fsAfter);
      run.result.Ok? ==>
        && (run.result.value.status.Success? <==> skipPost || post.value.Passed())
        && run.result.value.postValidation == (if skipPost then base.postValidation else Some(post.value))
  {
    var run := AfterPre(v, ctx, base, calls, skipPost, Returns(res), fsAfter);
    var okCalls := calls + [LogCall(ExecutionStart, None)] + [LogCall(ExecutionSuccess, Some(SuccessData(res)))];
    var done := base.(execution := Some(res));
    if skipPost {
      assert run == Run(Ok(done), okCalls + [LogCall(ProcedureComplete, None)]);
    } else {
      var post := PhaseReport(Post, v, v.postRules, PostContext(ctx, res), fsAfter);
      assert run == AfterPost(done, okCalls, post);
      AfterPostFacts(done, okCalls, post);
    }
  }

  lemma AfterPreReturnsEvents(v: Validator, ctx: Context, base: Result, calls: seq<LogCall>, skipPost: bool, res: seq<Entry>, fsAfter: FileSystem)
    requires base.status == Success
    ensures var run := AfterPre(v, ctx, base, calls, skipPost, Returns(res), fsAfter);
      run.result.Raised? ==> EventTypes(run.calls) == EventTypes(calls) + [ExecutionStart, ExecutionSuccess]
    ensures var run := AfterPre(v, ctx, base, calls, skipPost, Returns(res), fsAfter);
      var post := PhaseReport(Post, v, v.postRules, PostContext(ctx, res), fsAfter);
      run.result.Ok? ==>
        EventTypes(run.calls)
        == EventTypes(calls) + [ExecutionStart, ExecutionSuccess]
           + (if skipPost then [] else [if post.value.Passed() then PostValidation else EventType.PostValidationFailed])
           + (if run.result.value.status.Success? then [ProcedureComplete] else [])
  {
    var run := AfterPre(v, ctx, base, calls, skipPost, Returns(res), fsAfter);
    var okCalls := calls + [LogCall(ExecutionStart, None)] + [LogCall(ExecutionSuccess, Some(SuccessData(res)))];
    var done := base.(execution := Some(res));
    EventTypesConcat(calls, [LogCall(ExecutionStart, None), LogCall(ExecutionSuccess, Some(SuccessData(res)))]);
    assert okCalls == calls + [LogCall(ExecutionStart, None), LogCall(ExecutionSuccess, Some(SuccessData(res)))];
    var ev := EventTypes(calls) + [ExecutionStart, ExecutionSuccess];
    assert EventTypes(okCalls) == ev;
    if skipPost {
      assert run == Run(Ok(done), okCalls + [LogCall(ProcedureComplete, None)]);
      EventTypesConcat(okCalls, [LogCall(ProcedureComplete, None)]);
      assert EventTypes(run.calls) == ev + [ProcedureComplete];
      assert ev + [] == ev;
    } else {
      var post := PhaseReport(Post, v, v.postRules, PostContext(ctx, res), fsAfter);
      assert run == AfterPost(done, okCalls, post);
      AfterPostFacts(done, okCalls, post);
    }
  }

  /** The post-validation context sees the runner's dictionary and its `expected_outputs`. */
  lemma PostContextAttaches(ctx: Context, res: seq<Entry>)
    ensures PostContext(ctx, res).executionResult == VDict(res)
    ensures DictGet(res, Some("expected_outputs")).None? ==> PostContext(ctx, res).expectedOutputs == VNone
    ensures forall o :: DictGet(res, Some("expected_outputs")) == Some(o) ==> PostContext(ctx, res).expectedOutputs == o
    ensures PostContext(ctx, res).(executionResult := ctx.executionResult, expectedOutputs := ctx.expectedOutputs) == ctx
  {
  }

  /** `run_procedure` reaches the audited stages exactly for a registered procedure, a participant and a usable log directory. */
  lemma RunSpecStages(procedure: string, inputs: Value, config: Value, logDir: Option<Path>, skipPre: bool, skipPost: bool,
                      overrides: seq<Entry>, env: Env, fs: FileSystem, runner: RunnerOutcome, fsAfter: FileSystem)
    requires TypedInputs(inputs)
    ensures var run := RunSpec(procedure, inputs, config, logDir, skipPre, skipPost, overrides, env, fs, runner, fsAfter);
      var dir := if logDir.Some? then Ok(logDir.value) else DefaultLogDir(inputs, env.cwd);
      && (procedure !in Registered ==>
            run == Run(Raised(Simple(ValueError, "Unknown procedure: " + procedure)), []))
      && (procedure in Registered && !HasAttr(inputs, "participant") ==> run.result.Raised? && run.result.exc.cls == AttributeError && run.calls == [])
      && (procedure in Registered && HasAttr(inputs, "participant") && dir.Raised? ==> run == Run(Raised(dir.exc), []))
      && (procedure in Registered && HasAttr(inputs, "participant") && dir.Ok? ==>
            run == Stages(ValidatorFor(procedure).value, procedure, GetAttr(inputs, "participant").value.s, SessionOf(inputs),
                          inputs, config, dir.value, skipPre, skipPost, overrides, env, fs, runner, fsAfter))
  {
    if procedure in Registered && HasAttr(inputs, "participant") {
      assert ValidatorFor(procedure).Some?;
    }
  }

  /** `freesurfer` has a validator class but no registry entry, so `run_procedure("freesurfer", …)` raises `ValueError`. */
  lemma FreeSurferUnregistered(inputs: Value, config: Value, logDir: Option<Path>, skipPre: bool, skipPost: bool,
                               overrides: seq<Entry>, env: Env, fs: FileSystem, runner: RunnerOutcome, fsAfter: FileSystem)
    requires TypedInputs(inputs)
    ensures RunSpec("freesurfer", inputs, config, logDir, skipPre, skipPost, overrides, env, fs, runner, fsAfter).result.Raised?
    ensures RunSpec("freesurfer", inputs, config, logDir, skipPre, skipPost, overrides, env, fs, runner, fsAfter).result.exc.cls == ValueError
  {
    assert "freesurfer" !in Registered;
    RunSpecStages("freesurfer", inputs, config, logDir, skipPre, skipPost, overrides, env, fs, runner, fsAfter);
  }

  /** The fields of `r` that `run_procedure` fills in before any stage and never changes. */
  predicate SameRunFields(r: Result, base: Result)
  {
    && r.procedure == base.procedure && r.participant == base.participant && r.session == base.session
    && r.runId == base.runId && r.startTime == base.startTime && r.endTime == base.endTime
    && r.auditLogFile == base.auditLogFile
  }

  lemma AfterPreTerminal(v: Validator, ctx: Context, base: Result, calls: seq<LogCall>, skipPost: bool,
                         runner: RunnerOutcome, fsAfter: FileSystem)
    requires base.status == Success && |calls| >= 1
    requires ProcedureFailed !in EventTypes(calls) && ProcedureComplete !in EventTypes(calls)
    ensures var run := AfterPre(v, ctx, base, calls, skipPost, runner, fsAfter);
      && |run.calls| >= 1 && run.calls[0] == calls[0]
      && ProcedureFailed !in EventTypes(run.calls)
      && (ProcedureComplete in EventTypes(run.calls) <==> run.result.Ok? && run.result.value.status.Success?)
      && (run.result.Ok? ==> SameRunFields(run.result.value, base))
  {
    match runner {
      case Raises(e) => AfterPreRaises(v, ctx, base, calls, skipPost, e, fsAfter);
      case Returns(res) => AfterPreReturns(v, ctx, base, calls, skipPost, res, fsAfter);
    }
  }

  lemma FromPreTerminal(v: Validator, ctx: Context, base: Result, start: seq<LogCall>, pre: Outcome<Option<ValidationReport>>,
                        skipPost: bool, runner: RunnerOutcome, fsAfter: FileSystem)
    requires base.status == Success && |start| == 1 && start[0].eventType == ProcedureStart
    requires pre.Ok? && pre.value.Some? ==> pre.value.value.phase == Pre
    ensures var run := FromPre(v, ctx, base, start, pre, skipPost, runner, fsAfter);
      && |run.calls| >= 1 && run.calls[0] == start[0]
      && ProcedureFailed !in EventTypes(run.calls)
      && (ProcedureComplete in EventTypes(run.calls) <==> run.result.Ok? && run.result.value.status.Success?)
      && (run.result.Ok? ==> SameRunFields(run.result.value, base))
  {
    if pre.Ok? {
      var calls := start + (if pre.value.Some? then [LogCallFor(pre.value.value)] else []);
      EventTypesConcat(start, calls[1..]);
      assert calls == start + calls[1..];
      assert EventTypes(calls) == [ProcedureStart] + PreEvents(pre.value);
      if PreAllows(pre) {
        AfterPreTerminal(v, ctx, base.(preValidation := pre.value), calls, skipPost, runner, fsAfter);
      }
    }
  }

  /**
   * Every run of the stages starts with `PROCEDURE_START`, never logs
   * `PROCEDURE_FAILED`, logs `PROCEDURE_COMPLETE` exactly on success, and every
   * result carries the start and end time, the run id and the audit log file.
   */
  lemma StagesTerminal(v: Validator, procedure: string, participant: string, session: Option<string>, inputs: Value, config: Value,
                       dir: Path, skipPre: bool, skipPost: bool, overrides: seq<Entry>, env: Env, fs: FileSystem,
                       runner: RunnerOutcome, fsAfter: FileSystem)
    ensures var run := Stages(v, procedure, participant, session, inputs, config, dir, skipPre, skipPost, overrides, env, fs, runner, fsAfter);
      && |run.calls| >= 1
      && run.calls[0] == LogCall(ProcedureStart, Some(StartData(inputs, config, overrides)))
      && ProcedureFailed !in EventTypes(run.calls)
      && (ProcedureComplete in EventTypes(run.calls) <==> run.result.Ok? && run.result.value.status.Success?)
      && (run.result.Ok? ==>
          && run.result.value.procedure == procedure && run.result.value.participant == participant
          && run.result.value.session == session && run.result.value.runId == env.runId
          && run.result.value.startTime == env.now && run.result.value.endTime == Some(env.end)
          && run.result.value.auditLogFile == Some(PathString(Child(dir, LogFileName(participant, session, procedure, env.loggerRunId)))))
  {
    var ctx := PreContext(procedure, participant, inputs, config);
    StagesFromPre(v, procedure, participant, session, inputs, config, dir, skipPre, skipPost, overrides, env, fs, runner, fsAfter);
    PreOutcomePhase(v, ctx, fs, skipPre);
    FromPreTerminal(v, ctx, BaseResult(procedure, participant, session, dir, env), StartCalls(inputs, config, overrides),
                    PreOutcome(v, ctx, fs, skipPre), skipPost, runner, fsAfter);
  }

  /**
   * `pre_validation_failed` happens exactly when a pre-validation report was made
   * and failed; the runner is then never consulted, nothing was executed or
   * post-validated, and the log holds `PROCEDURE_START, PRE_VALIDATION_FAILED`.
   */
  lemma StagesPreFailed(v: Validator, procedure: string, participant: string, session: Option<string>, inputs: Value, config: Value,
                        dir: Path, skipPre: bool, skipPost: bool, overrides: seq<Entry>, env: Env, fs: FileSystem,
                        runner: RunnerOutcome, fsAfter: FileSystem, otherRunner: RunnerOutcome, otherFsAfter: FileSystem)
    ensures var run := Stages(v, procedure, participant, session, inputs, config, dir, skipPre, skipPost, overrides, env, fs, runner, fsAfter);
      var pre := PreOutcome(v, PreContext(procedure, participant, inputs, config), fs, skipPre);
      && ((run.result.Ok? && run.result.value.status.PreValidationFailed?) <==> (pre.Ok? && !PreAllows(pre)))
      && (pre.Ok? && !PreAllows(pre) ==>
          && !skipPre
          && run.result.value.preValidation == pre.value
          && run.result.value.execution.None? && run.result.value.postValidation.None?
          && EventTypes(run.calls) == [ProcedureStart, EventType.PreValidationFailed]
          && run == Stages(v, procedure, participant, session, inputs, config, dir, skipPre, skipPost, overrides, env, fs, otherRunner, otherFsAfter))
  {
    var ctx := PreContext(procedure, participant, inputs, config);
    var base := BaseResult(procedure, participant, session, dir, env);
    var start := StartCalls(inputs, config, overrides);
    var pre := PreOutcome(v, ctx, fs, skipPre);
    StagesFromPre(v, procedure, participant, session, inputs, config, dir, skipPre, skipPost, overrides, env, fs, runner, fsAfter);
    StagesFromPre(v, procedure, participant, session, inputs, config, dir, skipPre, skipPost, overrides, env, fs, otherRunner, otherFsAfter);
    PreOutcomePhase(v, ctx, fs, skipPre);
    if PreAllows(pre) {
      var calls := start + (if pre.value.Some? then [LogCallFor(pre.value.value)] else []);
      match runner {
        case Raises(e) => AfterPreRaises(v, ctx, base.(preValidation := pre.value), calls, skipPost, e, fsAfter);
        case Returns(res) => AfterPreReturns(v, ctx, base.(preValidation := pre.value), calls, skipPost, res, fsAfter);
      }
    }
  }

  /**
   * With pre-validation skipped there is no pre report and no pre-validation
   * event, and the filesystem pre-validation would have inspected plays no part.
   */
  lemma StagesSkipPre(v: Validator, procedure: string, participant: string, session: Option<string>, inputs: Value, config: Value,
                      dir: Path, skipPost: bool, overrides: seq<Entry>, env: Env, fs: FileSystem,
                      runner: RunnerOutcome, fsAfter: FileSystem, otherFs: FileSystem)
    ensures var run := Stages(v, procedure, participant, session, inputs, config, dir, true, skipPost, overrides, env, fs, runner, fsAfter);
      run.result.Ok? ==> run.result.value.preValidation.None?
    ensures var run := Stages(v, procedure, participant, session, inputs, config, dir, true, skipPost, overrides, env, fs, runner, fsAfter);
      PreValidation !in EventTypes(run.calls) && EventType.PreValidationFailed !in EventTypes(run.calls)
    ensures Stages(v, procedure, participant, session, inputs, config, dir, true, skipPost, overrides, env, fs, runner, fsAfter)
      == Stages(v, procedure, participant, session, inputs, config, dir, true, skipPost, overrides, env, otherFs, runner, fsAfter)
  {
    var ctx := PreContext(procedure, participant, inputs, config);
    var base := BaseResult(procedure, participant, session, dir, env).(preValidation := None);
    var start := StartCalls(inputs, config, overrides);
    assert PreOutcome(v, ctx, fs, true) == Ok(None) && PreOutcome(v, ctx, otherFs, true) == Ok(None);
    StagesAllowed(v, procedure, participant, session, inputs, config, dir, true, skipPost, overrides, env, fs, runner, fsAfter);
    StagesAllowed(v, procedure, participant, session, inputs, config, dir, true, skipPost, overrides, env, otherFs, runner, fsAfter);
    assert start + PreCalls(None) == start;
    AfterPreNoPreEvents(v, ctx, base, start, skipPost, runner, fsAfter);
  }

  /** Execution and post-validation log no pre-validation event, and keep the pre report. */
  lemma AfterPreNoPreEvents(v: Validator, ctx: Context, base: Result, calls: seq<LogCall>, skipPost: bool,
                            runner: RunnerOutcome, fsAfter: FileSystem)
    requires base.status == Success
    requires PreValidation !in EventTypes(calls) && EventType.PreValidationFailed !in EventTypes(calls)
    ensures var run := AfterPre(v, ctx, base, calls, skipPost, runner, fsAfter);
      PreValidation !in EventTypes(run.calls) && EventType.PreValidationFailed !in EventTypes(run.calls)
    ensures var run := AfterPre(v, ctx, base, calls, skipPost, runner, fsAfter);
      run.result.Ok? ==> run.result.value.preValidation == base.preValidation
  {
    match runner {
      case Raises(e) => AfterPreRaises(v, ctx, base, calls, skipPost, e, fsAfter);
      case Returns(res) => AfterPreReturns(v, ctx, base, calls, skipPost, res, fsAfter);
    }
  }

  /** Once pre-validation allows the run, the stages go on from the start call and the pre report's call. */
  lemma StagesAllowed(v: Validator, procedure: string, participant: string, session: Option<string>, inputs: Value, config: Value,
                      dir: Path, skipPre: bool, skipPost: bool, overrides: seq<Entry>, env: Env, fs: FileSystem,
                      runner: RunnerOutcome, fsAfter: FileSystem)
    requires PreAllows(PreOutcome(v, PreContext(procedure, participant, inputs, config), fs, skipPre))
    ensures var ctx := PreContext(procedure, participant, inputs, config);
      var pre := PreOutcome(v, ctx, fs, skipPre);
      Stages(v, procedure, participant, session, inputs, config, dir, skipPre, skipPost, overrides, env, fs, runner, fsAfter)
      == AfterPre(v, ctx, BaseResult(procedure, participant, session, dir, env).(preValidation := pre.value),
                  StartCalls(inputs, config, overrides) + PreCalls(pre.value), skipPost, runner, fsAfter)
    ensures var pre := PreOutcome(v, PreContext(procedure, participant, inputs, config), fs, skipPre);
      EventTypes(StartCalls(inputs, config, overrides) + PreCalls(pre.value)) == [ProcedureStart] + PreEvents(pre.value)
  {
    var pre := PreOutcome(v, PreContext(procedure, participant, inputs, config), fs, skipPre);
    StagesFromPre(v, procedure, participant, session, inputs, config, dir, skipPre, skipPost, overrides, env, fs, runner, fsAfter);
    EventTypesConcat(StartCalls(inputs, config, overrides), PreCalls(pre.value));
  }

  /**
   * Once pre-validation allows the run, a runner that raises gives
   * `execution_failed` with the error recorded in `execution`, keeps the
   * pre report, never post-validates, and logs `EXECUTION_FAILED` with the message.
   */
  lemma StagesRunnerRaises(v: Validator, procedure: string, participant: string, session: Option<string>, inputs: Value, config: Value,
                           dir: Path, skipPre: bool, skipPost: bool, overrides: seq<Entry>, env: Env, fs: FileSystem,
                           e: Exc, fsAfter: FileSystem)
    requires PreAllows(PreOutcome(v, PreContext(procedure, participant, inputs, config), fs, skipPre))
    ensures var run := Stages(v, procedure, participant, session, inputs, config, dir, skipPre, skipPost, overrides, env, fs, Raises(e), fsAfter);
      var pre := PreOutcome(v, PreContext(procedure, participant, inputs, config), fs, skipPre);
      && run.result.Ok?
      && run.result.value.status == Status.ExecutionFailed
      && run.result.value.execution == Some([Entry(Some("error"), VStr(e.message)), Entry(Some("success"), VBool(false))])
      && run.result.value.preValidation == pre.value
      && run.result.value.postValidation.None?
      && run.calls[|run.calls| - 1] == LogCall(EventType.ExecutionFailed, Some([Entry(Some("error"), VStr(e.message))]))
      && EventTypes(run.calls) == [ProcedureStart] + PreEvents(pre.value) + [ExecutionStart, EventType.ExecutionFailed]
  {
    var ctx := PreContext(procedure, participant, inputs, config);
    var base := BaseResult(procedure, participant, session, dir, env);
    var pre := PreOutcome(v, ctx, fs, skipPre);
    StagesAllowed(v, procedure, participant, session, inputs, config, dir, skipPre, skipPost, overrides, env, fs, Raises(e), fsAfter);
    AfterPreRaises(v, ctx, base.(preValidation := pre.value), StartCalls(inputs, config, overrides) + PreCalls(pre.value), skipPost, e, fsAfter);
  }

  /**
   * Once pre-validation allows the run, a runner that returns `res` gives
   * `execution == res`; the status is success exactly when post-validation is
   * skipped or its report (made on a context holding `res` and its
   * `expected_outputs`) passes, and `post_validation_failed` otherwise. Nothing in
   * `res` other than what post-validation inspects decides the status.
   */
  lemma StagesRunnerReturns(v: Validator, procedure: string, participant: string, session: Option<string>, inputs: Value, config: Value,
                            dir: Path, skipPre: bool, skipPost: bool, overrides: seq<Entry>, env: Env, fs: FileSystem,
                            res: seq<Entry>, fsAfter: FileSystem)
    requires PreAllows(PreOutcome(v, PreContext(procedure, participant, inputs, config), fs, skipPre))
    ensures var run := Stages(v, procedure, participant, session, inputs, config, dir, skipPre, skipPost, overrides, env, fs, Returns(res), fsAfter);
      var ctx := PreContext(procedure, participant, inputs, config);
      var pre := PreOutcome(v, ctx, fs, skipPre);
      var post := PhaseReport(Post, v, v.postRules, PostContext(ctx, res), fsAfter);
      run.result.Ok? <==> skipPost || post.Ok?
    ensures var run := Stages(v, procedure, participant, session, inputs, config, dir, skipPre, skipPost, overrides, env, fs, Returns(res), fsAfter);
      var ctx := PreContext(procedure, participant, inputs, config);
      var pre := PreOutcome(v, ctx, fs, skipPre);
      var post := PhaseReport(Post, v, v.postRules, PostContext(ctx, res), fsAfter);
      run.result.Raised? ==> run.result == Raised(post.exc)
    ensures var run := Stages(v, procedure, participant, session, inputs, config, dir, skipPre, skipPost, overrides, env, fs, Returns(res), fsAfter);
      var ctx := PreContext(procedure, participant, inputs, config);
      var pre := PreOutcome(v, ctx, fs, skipPre);
      var post := PhaseReport(Post, v, v.postRules, PostContext(ctx, res), fsAfter);
      run.result.Ok? ==>
          && run.result.value.execution == Some(res)
          && run.result.value.preValidation == pre.value
          && (run.result.value.status.Success? || run.result.value.status.PostValidationFailed?)
    ensures var run := Stages(v, procedure, participant, session, inputs, config, dir, skipPre, skipPost, overrides, env, fs, Returns(res), fsAfter);
      var ctx := PreContext(procedure, participant, inputs, config);
      var pre := PreOutcome(v, ctx, fs, skipPre);
      var post := PhaseReport(Post, v, v.postRules, PostContext(ctx, res), fsAfter);
      run.result.Ok? ==>
          && (run.result.value.status.Success? <==> skipPost || post.value.Passed())
          && run.result.value.postValidation == (if skipPost then None else Some(post.value))
    ensures var run := Stages(v, procedure, participant, session, inputs, config, dir, skipPre, skipPost, overrides, env, fs, Returns(res), fsAfter);
      var ctx := PreContext(procedure, participant, inputs, config);
      var pre := PreOutcome(v, ctx, fs, skipPre);
      var post := PhaseReport(Post, v, v.postRules, PostContext(ctx, res), fsAfter);
      run.result.Ok? ==>
          EventTypes(run.calls)
          == [ProcedureStart] + PreEvents(pre.value) + [ExecutionStart, ExecutionSuccess]
             + (if skipPost then [] else [if post.value.Passed() then PostValidation else EventType.PostValidationFailed])
             + (if run.result.value.status.Success? then [ProcedureComplete] else [])
  {
    var ctx := PreContext(procedure, participant, inputs, config);
    var base := BaseResult(procedure, participant, session, dir, env);
    var pre := PreOutcome(v, ctx, fs, skipPre);
    StagesAllowed(v, procedure, participant, session, inputs, config, dir, skipPre, skipPost, overrides, env, fs, Returns(res), fsAfter);
    AfterPreReturns(v, ctx, base.(preValidation := pre.value), StartCalls(inputs, config, overrides) + PreCalls(pre.value), skipPost, res, fsAfter);
  }
}
