/**
 * The audit trail's vocabulary: the ten event types and the record of one
 * event, with its serialisation to a JSON-ready dictionary.
 */
module AuditRecords {
  import opened Options
  import opened Values

  datatype EventType =
    | ProcedureStart
    | PreValidation
    | PreValidationFailed
    | ExecutionStart
    | ExecutionSuccess
    | ExecutionFailed
    | PostValidation
    | PostValidationFailed
    | ProcedureComplete
    | ProcedureFailed

  /** The members of `AuditEventType` in declaration order. */
  const AllEventTypes: seq<EventType> := [
    ProcedureStart, PreValidation, PreValidationFailed, ExecutionStart, ExecutionSuccess,
    ExecutionFailed, PostValidation, PostValidationFailed, ProcedureComplete, ProcedureFailed]

  predicate IsLowerSnake(s: string)
  {
    s != [] && forall i :: 0 <= i < |s| ==> ('a' <= s[i] <= 'z' || s[i] == '_')
  }

  /** `event_type.value`. */
  function EventValue(e: EventType): (s: string)
    ensures IsLowerSnake(s)
  {
    match e
    case ProcedureStart => "procedure_start"
    case PreValidation => "pre_validation"
    case PreValidationFailed => "pre_validation_failed"
    case ExecutionStart => "execution_start"
    case ExecutionSuccess => "execution_success"
    case ExecutionFailed => "execution_failed"
    case PostValidation => "post_validation"
    case PostValidationFailed => "post_validation_failed"
    case ProcedureComplete => "procedure_complete"
    case ProcedureFailed => "procedure_failed"
  }

  /** `AuditEventType(s)`: the member with value `s`; `None` models the `ValueError` for any other string. */
  function EventFromValue(s: string): Option<EventType>
  {
    if s == "procedure_start" then Some(ProcedureStart)
    else if s == "pre_validation" then Some(PreValidation)
    else if s == "pre_validation_failed" then Some(PreValidationFailed)
    else if s == "execution_start" then Some(ExecutionStart)
    else if s == "execution_success" then Some(ExecutionSuccess)
    else if s == "execution_failed" then Some(ExecutionFailed)
    else if s == "post_validation" then Some(PostValidation)
    else if s == "post_validation_failed" then Some(PostValidationFailed)
    else if s == "procedure_complete" then Some(ProcedureComplete)
    else if s == "procedure_failed" then Some(ProcedureFailed)
    else None
  }

  /** Looking a member up by its value gives the member back. */
  lemma EventValueRoundTrip(e: EventType)
    ensures EventFromValue(EventValue(e)) == Some(e)
  {
  }

  /** A string that names a member is that member's value. */
  lemma EventFromValueSound(s: string)
    ensures EventFromValue(s).Some? ==> EventValue(EventFromValue(s).value) == s
  {
  }

  /** Exactly ten event types, listed once each, with pairwise distinct values. */
  lemma EventTypesEnumerated()
    ensures |AllEventTypes| == 10
    ensures forall e: EventType :: e in AllEventTypes
    ensures forall i, j :: 0 <= i < j < |AllEventTypes| ==> EventValue(AllEventTypes[i]) != EventValue(AllEventTypes[j])
  {
    forall e: EventType
      ensures e in AllEventTypes
    {
      match e
      case ProcedureStart => assert AllEventTypes[0] == e;
      case PreValidation => assert AllEventTypes[1] == e;
      case PreValidationFailed => assert AllEventTypes[2] == e;
      case ExecutionStart => assert AllEventTypes[3] == e;
      case ExecutionSuccess => assert AllEventTypes[4] == e;
      case ExecutionFailed => assert AllEventTypes[5] == e;
      case PostValidation => assert AllEventTypes[6] == e;
      case PostValidationFailed => assert AllEventTypes[7] == e;
      case ProcedureComplete => assert AllEventTypes[8] == e;
      case ProcedureFailed => assert AllEventTypes[9] == e;
    }
    forall i, j | 0 <= i < j < |AllEventTypes|
      ensures EventValue(AllEventTypes[i]) != EventValue(AllEventTypes[j])
    {
      EventValueRoundTrip(AllEventTypes[i]);
      EventValueRoundTrip(AllEventTypes[j]);
    }
  }

  /** One audit event; `timestamp` is the clock reading taken when the record is made. */
  datatype AuditRecord = AuditRecord(
    eventType: EventType,
    procedure: string,
    participant: string,
    session: Option<string>,
    timestamp: int,
    data: seq<Entry>,
    runId: Option<string>)

  /** `AuditRecord(event_type, procedure, participant, session)`: `data` defaults to `{}`, `run_id` to `None`. */
  function NewRecord(eventType: EventType, procedure: string, participant: string, session: Option<string>, now: int): (r: AuditRecord)
    ensures r.data == [] && r.runId == None
    ensures r.eventType == eventType && r.procedure == procedure && r.participant == participant
    ensures r.session == session && r.timestamp == now
  {
    AuditRecord(eventType, procedure, participant, session, now, [], None)
  }

  /** The seven keys of `to_dict`, in order. */
  const RecordKeys: seq<Key> := [Some("event_type"), Some("procedure"), Some("participant"), Some("session"),
                                 Some("timestamp"), Some("data"), Some("run_id")]

  /** `AuditRecord.to_dict()`. */
  function RecordToDict(r: AuditRecord): (d: Value)
    ensures d.VDict? && Keys(d.entries) == RecordKeys
  {
    VDict([Entry(Some("event_type"), VStr(EventValue(r.eventType))),
           Entry(Some("procedure"), VStr(r.procedure)),
           Entry(Some("participant"), VStr(r.participant)),
           Entry(Some("session"), KeyValue(r.session)),
           Entry(Some("timestamp"), VInt(r.timestamp)),
           Entry(Some("data"), VDict(r.data)),
           Entry(Some("run_id"), KeyValue(r.runId))])
  }

  function OptionalString(v: Value): Option<Option<string>>
  {
    match v
    case VNone => Some(None)
    case VStr(s) => Some(Some(s))
    case _ => None
  }

  /**
   * Reading a record back from a dictionary with exactly the seven keys of
   * `to_dict`, in order, as a consumer of the JSON log does.
   */
  function RecordFromDict(d: Value): Option<AuditRecord>
  {
    if !d.VDict? || Keys(d.entries) != RecordKeys then None
    else
      var es := d.entries;
      var ev := es[0].val;
      var ses := OptionalString(es[3].val);
      var run := OptionalString(es[6].val);
      if ev.VStr? && EventFromValue(ev.s).Some? && es[1].val.VStr? && es[2].val.VStr? && ses.Some?
         && es[4].val.VInt? && es[5].val.VDict? && run.Some? then
        Some(AuditRecord(EventFromValue(ev.s).value, es[1].val.s, es[2].val.s, ses.value,
                         es[4].val.i, es[5].val.entries, run.value))
      else None
  }

  /** `to_dict` loses nothing: every field is read back from the dictionary unchanged. */
  lemma RecordDictRoundTrip(r: AuditRecord)
    ensures RecordFromDict(RecordToDict(r)) == Some(r)
  {
    EventValueRoundTrip(r.eventType);
  }
}
