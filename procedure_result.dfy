/**
 * `ProcedureResult`: the outcome of one orchestrated run, with its status,
 * timing, the two validation reports, the runner's result and the audit log file.
 */
module ProcedureResult {
  import opened Options
  import opened Values
  import opened ValidationBase

  datatype Status = Success | PreValidationFailed | ExecutionFailed | PostValidationFailed

  function StatusName(s: Status): string
  {
    match s
    case Success => "success"
    case PreValidationFailed => "pre_validation_failed"
    case ExecutionFailed => "execution_failed"
    case PostValidationFailed => "post_validation_failed"
  }

  /** Times are clock readings in whole seconds. */
  datatype Result = Result(
    procedure: string,
    participant: string,
    session: Option<string>,
    runId: string,
    status: Status,
    startTime: int,
    endTime: Option<int>,
    preValidation: Option<ValidationReport>,
    postValidation: Option<ValidationReport>,
    execution: Option<seq<Entry>>,
    auditLogFile: Option<string>)
  {
    /** `duration_seconds`: the elapsed time once the run has ended. */
    function DurationSeconds(): (d: Option<int>)
      ensures d.Some? <==> endTime.Some?
      ensures d.Some? ==> startTime + d.value == endTime.value
    {
      if endTime.Some? then Some(endTime.value - startTime) else None
    }

    predicate Succeeded()
    {
      status == Success
    }

    /** `get_failure_reason()`. */
    function FailureReason(): (r: Option<string>)
      ensures r.None? <==> Succeeded()
    {
      if status == Success then None
      else if status == PreValidationFailed && preValidation.Some? && preValidation.value.Errors() != [] then
        Some("Pre-validation failed: " + preValidation.value.Errors()[0].message)
      else if status == ExecutionFailed && execution.Some? && execution.value != [] then
        Some("Execution failed: " + Str(DictGet(execution.value, Some("error")).GetOr(VStr("Unknown error"))))
      else if status == PostValidationFailed && postValidation.Some? && postValidation.value.Errors() != [] then
        Some("Post-validation failed: " + postValidation.value.Errors()[0].message)
      else Some("Failed with status: " + StatusName(status))
    }

    /** `to_dict()`. */
    function ToDict(): (d: Value)
      ensures d.VDict? && |d.entries| == |ResultKeys|
    {
      VDict(EntriesOf(ResultNames, DictValues()))
    }

    /** The values of `to_dict()`, in the order of its keys. */
    function DictValues(): (vs: seq<Value>)
      ensures |vs| == |ResultNames|
    {
      [VStr(procedure),
       VStr(participant),
       KeyValue(session),
       VStr(runId),
       VStr(StatusName(status)),
       VBool(Succeeded()),
       VInt(startTime),
       if endTime.Some? then VInt(endTime.value) else VNone,
       if DurationSeconds().Some? then VInt(DurationSeconds().value) else VNone,
       if preValidation.Some? then preValidation.value.ToDict() else VNone,
       if postValidation.Some? then postValidation.value.ToDict() else VNone,
       if execution.Some? then VDict(execution.value) else VNone,
       KeyValue(auditLogFile)]
    }
  }

  /** The names of the keys of `to_dict()`, in order. */
  const ResultNames: seq<string> := [
    "procedure", "participant", "session", "run_id", "status", "success",
    "start_time", "end_time", "duration_seconds", "pre_validation", "post_validation",
    "execution", "audit_log_file"]

  /** The keys of `to_dict()`, in order. */
  const ResultKeys: seq<Key> := SomeKeys(ResultNames)

  /** `to_dict` has its thirteen keys in order. */
  lemma ResultDictShape(r: Result)
    ensures Keys(r.ToDict().entries) == ResultKeys
  {
    EntriesOfKeys(ResultNames, r.DictValues());
  }

  /**
   * In `to_dict`, `success` agrees with the status, and the end time, the
   * duration and each report are `None` exactly when absent.
   */
  lemma ResultDictValues(r: Result)
    ensures r.ToDict().entries[4].val == VStr(StatusName(r.status))
    ensures r.ToDict().entries[5].val == VBool(r.status == Success)
    ensures r.ToDict().entries[7].val == VNone <==> r.endTime.None?
    ensures r.ToDict().entries[8].val == VNone <==> r.endTime.None?
    ensures r.ToDict().entries[9].val == VNone <==> r.preValidation.None?
    ensures r.ToDict().entries[10].val == VNone <==> r.postValidation.None?
  {
    var vs := r.DictValues();
    var es := r.ToDict().entries;
    assert es[4].val == vs[4] && es[5].val == vs[5] && es[7].val == vs[7];
    assert es[8].val == vs[8] && es[9].val == vs[9] && es[10].val == vs[10];
  }

  /** The reports are nested as their own `to_dict()`. */
  lemma ResultDictNestsReports(r: Result)
    ensures r.preValidation.Some? ==> r.ToDict().entries[9].val == r.preValidation.value.ToDict()
    ensures r.postValidation.Some? ==> r.ToDict().entries[10].val == r.postValidation.value.ToDict()
  {
  }

  /** Which message `get_failure_reason` picks for each failed status and the artifacts present. */
  lemma FailureReasonCases(r: Result)
    ensures r.status == PreValidationFailed && r.preValidation.Some? && r.preValidation.value.Errors() != [] ==>
      r.FailureReason() == Some("Pre-validation failed: " + r.preValidation.value.Errors()[0].message)
    ensures forall msg :: r.status == ExecutionFailed && r.execution.Some? && DictGet(r.execution.value, Some("error")) == Some(VStr(msg)) ==>
      r.FailureReason() == Some("Execution failed: " + msg)
    ensures r.status == ExecutionFailed && r.execution.Some? && r.execution.value != [] && Some("error") !in Keys(r.execution.value) ==>
      r.FailureReason() == Some("Execution failed: " + "Unknown error")
    ensures r.status == ExecutionFailed && r.execution == Some([]) ==>
      r.FailureReason() == Some("Failed with status: " + "execution_failed")
    ensures r.status == PostValidationFailed && r.postValidation.Some? && r.postValidation.value.Errors() != [] ==>
      r.FailureReason() == Some("Post-validation failed: " + r.postValidation.value.Errors()[0].message)
    ensures r.status != Success && r.preValidation.None? && r.postValidation.None? && r.execution.None? ==>
      r.FailureReason() == Some("Failed with status: " + StatusName(r.status))
  {
  }

  /** A failed status always has a reason that names the failure, whichever artifacts are attached. */
  lemma FailureReasonPrefix(r: Result)
    requires !r.Succeeded()
    ensures var reason := r.FailureReason().value;
      || (r.status == PreValidationFailed && reason[..23] == "Pre-validation failed: ")
      || (r.status == ExecutionFailed && reason[..18] == "Execution failed: ")
      || (r.status == PostValidationFailed && reason[..24] == "Post-validation failed: ")
      || reason == "Failed with status: " + StatusName(r.status)
  {
  }
}
