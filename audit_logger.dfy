/**
 * `AuditLogger`: the in-memory list of a run's audit records, mirrored line
 * for line into the run's JSONL file `sub-P[_ses-S]_<procedure>_<run_id>.jsonl`.
 */
module AuditLogger {
  import opened Options
  import opened Paths
  import opened Values
  import opened ValidationBase
  import opened Context
  import opened AuditRecords
  import opened Disk

  /** `data or {}`. */
  function DataOr(data: Option<seq<Entry>>): (r: seq<Entry>)
    ensures data.Some? ==> r == data.value
    ensures data.None? ==> r == []
  {
    if data.Some? then data.value else []
  }

  /** The log file's name for a run. */
  function LogFileName(participant: string, session: Option<string>, procedure: string, runId: string): string
  {
    "sub-" + participant + (if HasSession(session) then "_ses-" + session.value else "") + "_" + procedure + "_" + runId + ".jsonl"
  }

  /** Two runs of the same procedure for the same participant and session never share a log file. */
  lemma LogFileNamePerRun(participant: string, session: Option<string>, procedure: string, runId: string, runId': string)
    requires runId != runId'
    ensures LogFileName(participant, session, procedure, runId) != LogFileName(participant, session, procedure, runId')
  {
    var head := "sub-" + participant + (if HasSession(session) then "_ses-" + session.value else "") + "_" + procedure + "_";
    var a := LogFileName(participant, session, procedure, runId);
    var b := LogFileName(participant, session, procedure, runId');
    assert a == head + runId + ".jsonl";
    assert b == head + runId' + ".jsonl";
    assert a[|head|..|a| - 6] == runId;
    assert b[|head|..|b| - 6] == runId';
  }

  /** The name starts with the participant label, then the session label exactly when a session is set. */
  lemma LogFileNameShape(participant: string, session: Option<string>, procedure: string, runId: string)
    ensures var name := LogFileName(participant, session, procedure, runId);
      && name[..4 + |participant|] == "sub-" + participant
      && name[|name| - 6..] == ".jsonl"
      && (HasSession(session) ==> name[4 + |participant|..9 + |participant| + |session.value|] == "_ses-" + session.value)
      && (!HasSession(session) ==> name[4 + |participant|..5 + |participant| + |procedure|] == "_" + procedure)
  {
  }

  /** The event type `log_validation_report` logs for a report of `phase` that passed or failed. */
  function ValidationEvent(phase: Phase, passed: bool): (e: EventType)
    ensures (e.PreValidation? || e.PreValidationFailed?) <==> phase.Pre?
    ensures (e.PostValidation? || e.PostValidationFailed?) <==> phase.Post?
    ensures (e.PreValidation? || e.PostValidation?) <==> passed
  {
    if passed then (if phase == Pre then PreValidation else PostValidation)
    else (if phase == Pre then PreValidationFailed else PostValidationFailed)
  }

  /** The dictionaries of `records`, in order: what the run file's lines hold. */
  function RecordDicts(records: seq<AuditRecord>): (r: seq<Value>)
    ensures |r| == |records|
    ensures forall i :: 0 <= i < |records| ==> r[i] == RecordToDict(records[i])
  {
    seq(|records|, i requires 0 <= i < |records| => RecordToDict(records[i]))
  }

  /** The keys of `get_summary()`, in order. */
  const SummaryKeys: seq<Key> := [Some("run_id"), Some("procedure"), Some("participant"), Some("session"),
                                  Some("event_count"), Some("events"), Some("log_file")]

  class Logger {
    const logDir: Path
    const procedure: string
    const participant: string
    const session: Option<string>
    const runId: string
    const disk: Disk
    var records: seq<AuditRecord>
    /** What the run file held when the logger was made; UUID run ids make this empty in practice. */
    ghost const prior: seq<Value>

    /** The log directory exists and the run file is its earlier lines followed by one line per record. */
    ghost predicate Valid()
      reads this, disk
    {
      && Ancestors(logDir) <= disk.dirs
      && disk.Lines(LogFile()) == prior + RecordDicts(records)
    }

    /** `AuditLogger(log_dir, procedure, participant, session)`, with `run_id` the fresh UUID string. */
    constructor(logDir: Path, procedure: string, participant: string, session: Option<string>, runId: string, disk: Disk)
      modifies disk
      ensures this.logDir == logDir && this.procedure == procedure && this.participant == participant
      ensures this.session == session && this.runId == runId && this.disk == disk
      ensures records == []
      ensures disk.dirs == old(disk.dirs) + Ancestors(logDir) && disk.files == old(disk.files)
      ensures Valid()
    {
      this.logDir := logDir;
      this.procedure := procedure;
      this.participant := participant;
      this.session := session;
      this.runId := runId;
      this.disk := disk;
      this.records := [];
      this.prior := disk.Lines(Child(logDir, LogFileName(participant, session, procedure, runId)));
      new;
      disk.MakeDirs(logDir);
    }

    /** `_get_log_file()`. */
    function LogFile(): (p: Path)
      ensures Parent(p) == logDir && Name(p) == LogFileName(participant, session, procedure, runId)
    {
      Child(logDir, LogFileName(participant, session, procedure, runId))
    }

    /** The record `log(event_type, data)` makes at clock reading `now`. */
    function Stamp(eventType: EventType, data: Option<seq<Entry>>, now: int): (r: AuditRecord)
      ensures r == AuditRecord(eventType, procedure, participant, session, now, DataOr(data), Some(runId))
    {
      AuditRecord(eventType, procedure, participant, session, now, DataOr(data), Some(runId))
    }

    /** `log(event_type, data)`: one more record, and one more line in the run file. */
    method Log(eventType: EventType, data: Option<seq<Entry>>, now: int)
      requires Valid()
      modifies this, disk
      ensures records == old(records) + [Stamp(eventType, data, now)]
      ensures disk.files == old(disk.files)[LogFile() := old(disk.Lines(LogFile())) + [RecordToDict(Stamp(eventType, data, now))]]
      ensures OthersUnchanged(old(disk.files), disk.files, LogFile())
      ensures disk.dirs == old(disk.dirs)
      ensures Valid()
    {
      var record := Stamp(eventType, data, now);
      records := records + [record];
      disk.AppendLine(LogFile(), RecordToDict(record));
      assert RecordDicts(records) == RecordDicts(old(records)) + [RecordToDict(record)];
    }

    /** `log_validation_report(report)`: the report's dictionary under its phase-and-verdict event type. */
    method LogValidationReport(report: ValidationReport, now: int)
      requires Valid()
      modifies this, disk
      ensures records == old(records) + [Stamp(ValidationEvent(report.phase, report.Passed()), Some(report.ToDict().entries), now)]
      ensures disk.files == old(disk.files)[LogFile() := old(disk.Lines(LogFile())) + [RecordToDict(records[|records| - 1])]]
      ensures OthersUnchanged(old(disk.files), disk.files, LogFile())
      ensures disk.dirs == old(disk.dirs)
      ensures Valid()
    {
      var eventType := if report.phase == Pre then PreValidation else PostValidation;
      if !report.Passed() {
        eventType := if report.phase == Pre then PreValidationFailed else PostValidationFailed;
      }
      Log(eventType, Some(report.ToDict().entries), now);
    }

    /** `get_summary()`. */
    function Summary(): (d: Value)
      reads this
      ensures d.VDict? && Keys(d.entries) == SummaryKeys
      ensures d.entries[4].val == VInt(|records|)
      ensures d.entries[5].val == VList(RecordDicts(records))
    {
      VDict([Entry(Some("run_id"), VStr(runId)),
             Entry(Some("procedure"), VStr(procedure)),
             Entry(Some("participant"), VStr(participant)),
             Entry(Some("session"), KeyValue(session)),
             Entry(Some("event_count"), VInt(|records|)),
             Entry(Some("events"), VList(RecordDicts(records))),
             Entry(Some("log_file"), VStr(PathString(LogFile())))])
    }

    /** The summary's events are exactly the lines this logger wrote, in the order it wrote them. */
    lemma SummaryMatchesFile()
      requires Valid()
      ensures disk.Lines(LogFile()) == prior + Summary().entries[5].val.items
    {
    }
  }
}
