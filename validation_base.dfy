/**
 * The validation framework's values: the result of one rule, the report that
 * aggregates the results of one phase, and the attributes every rule carries.
 */
module ValidationBase {
  import opened Options
  import opened Values
  import Strings

  datatype Severity = Error | Warning | Info

  datatype Phase = Pre | Post

  function SeverityName(s: Severity): string
  {
    match s
    case Error => "error"
    case Warning => "warning"
    case Info => "info"
  }

  function PhaseName(p: Phase): string
  {
    match p
    case Pre => "pre"
    case Post => "post"
  }

  /** `phase.upper()`. */
  function PhaseUpper(p: Phase): string
  {
    match p
    case Pre => "PRE"
    case Post => "POST"
  }

  /** The outcome of one rule check. */
  datatype ValidationResult = ValidationResult(
    ruleName: string,
    ruleDescription: string,
    passed: bool,
    severity: Severity,
    message: string,
    details: seq<Entry>)

  /** `ValidationResult.to_dict()`. */
  function ResultToDict(r: ValidationResult): (d: Value)
    ensures d.VDict? && Keys(d.entries) == [Some("rule_name"), Some("rule_description"), Some("passed"),
                                             Some("severity"), Some("message"), Some("details")]
    ensures DictGet(d.entries, Some("passed")) == Some(VBool(r.passed))
  {
    var keys := ["rule_name", "rule_description", "passed", "severity", "message", "details"];
    var vals := [VStr(r.ruleName), VStr(r.ruleDescription), VBool(r.passed), VStr(SeverityName(r.severity)),
                 VStr(r.message), VDict(r.details)];
    var es := EntriesOf(keys, vals);
    assert es[0].key != es[2].key && es[1].key != es[2].key by {
      assert |keys[0]| == 9 && |keys[1]| == 16 && |keys[2]| == 6;
    }
    DictGetAt(es, 2);
    VDict(es)
  }

  /** The class attributes of a rule: `name`, `description`, `severity`, `phase`. */
  datatype RuleMeta = RuleMeta(name: string, description: string, severity: Severity, phase: Phase)

  /** The attributes a rule class has when a subclass sets none of its own. */
  const DefaultMeta := RuleMeta("unnamed_rule", "No description provided", Error, Pre)

  /** `rule._pass(message, details)`. */
  function PassResult(meta: RuleMeta, message: string, details: seq<Entry>): (r: ValidationResult)
    ensures r.passed && r.message == message && r.details == details
    ensures r.ruleName == meta.name && r.ruleDescription == meta.description && r.severity == meta.severity
  {
    ValidationResult(meta.name, meta.description, true, meta.severity, message, details)
  }

  /** `rule._fail(message, details)`. */
  function FailResult(meta: RuleMeta, message: string, details: seq<Entry>): (r: ValidationResult)
    ensures !r.passed && r.message == message && r.details == details
    ensures r.ruleName == meta.name && r.ruleDescription == meta.description && r.severity == meta.severity
  {
    ValidationResult(meta.name, meta.description, false, meta.severity, message, details)
  }

  /** `[x for x in s if f(x)]`. */
  function Filter<T>(s: seq<T>, f: T -> bool): (r: seq<T>)
    ensures |r| <= |s|
    ensures forall x :: x in r ==> x in s && f(x)
  {
    if s == [] then [] else (if f(s[0]) then [s[0]] else []) + Filter(s[1..], f)
  }

  predicate IsError(r: ValidationResult)
  {
    !r.passed && r.severity == Error
  }

  predicate IsWarning(r: ValidationResult)
  {
    !r.passed && r.severity == Warning
  }

  predicate IsPassed(r: ValidationResult)
  {
    r.passed
  }

  /** `all(r.passed or r.severity != "error" for r in results)`. */
  predicate NoBlockingFailure(results: seq<ValidationResult>)
  {
    results == [] || ((results[0].passed || results[0].severity != Error) && NoBlockingFailure(results[1..]))
  }

  /** The results of one validation phase for one participant (and session). */
  datatype ValidationReport = ValidationReport(
    phase: Phase,
    procedure: string,
    participant: string,
    session: Option<string>,
    results: seq<ValidationResult>)
  {
    /** True if no error-severity rule failed; failed warnings do not block. */
    predicate Passed()
    {
      NoBlockingFailure(results)
    }

    function Errors(): seq<ValidationResult>
    {
      Filter(results, IsError)
    }

    function Warnings(): seq<ValidationResult>
    {
      Filter(results, IsWarning)
    }

    function PassedChecks(): seq<ValidationResult>
    {
      Filter(results, IsPassed)
    }

    /** `ValidationReport.to_dict()`. */
    function ToDict(): (d: Value)
      ensures d.VDict? && |d.entries| == 10
    {
      VDict([Entry(Some("phase"), VStr(PhaseName(phase))),
             Entry(Some("procedure"), VStr(procedure)),
             Entry(Some("participant"), VStr(participant)),
             Entry(Some("session"), if session.Some? then VStr(session.value) else VNone),
             Entry(Some("passed"), VBool(Passed())),
             Entry(Some("total_checks"), VInt(|results|)),
             Entry(Some("error_count"), VInt(|Errors()|)),
             Entry(Some("warning_count"), VInt(|Warnings()|)),
             Entry(Some("passed_count"), VInt(|PassedChecks()|)),
             Entry(Some("results"), VList(seq(|results|, i requires 0 <= i < |results| => ResultToDict(results[i]))))])
    }

    /** `ValidationReport.summary()`. */
    function Summary(): string
    {
      PhaseUpper(phase) + " validation " + (if Passed() then "PASSED" else "FAILED") + ": "
      + Strings.NatToString(|PassedChecks()|) + " passed, "
      + Strings.NatToString(|Errors()|) + " errors, "
      + Strings.NatToString(|Warnings()|) + " warnings"
    }
  }

  /** A report passes exactly when no result is a failed error, i.e. when its error list is empty. */
  lemma {:induction false} PassedIffNoErrors(results: seq<ValidationResult>)
    ensures NoBlockingFailure(results) <==> Filter(results, IsError) == []
    ensures NoBlockingFailure(results) <==> forall i :: 0 <= i < |results| ==> !IsError(results[i])
  {
    if results != [] {
      PassedIffNoErrors(results[1..]);
      assert forall i :: 1 <= i < |results| ==> results[i] == results[1..][i - 1];
    }
  }

  /** A report passes with any number of failed warnings, as long as no error fails. */
  lemma PassedIgnoresWarnings(rep: ValidationReport, w: ValidationResult)
    requires !w.passed && w.severity != Error
    ensures rep.(results := rep.results + [w]).Passed() == rep.Passed()
  {
    var rs := rep.results + [w];
    PassedIffNoErrors(rep.results);
    PassedIffNoErrors(rs);
    assert forall i :: 0 <= i < |rep.results| ==> rs[i] == rep.results[i];
  }

  /**
   * The three counts of `to_dict` never exceed the number of checks; they add up
   * to it exactly when no result is a failed `info` check, which no list counts.
   */
  lemma {:induction false} CountsPartition(results: seq<ValidationResult>)
    ensures |Filter(results, IsError)| + |Filter(results, IsWarning)| + |Filter(results, IsPassed)|
            + |Filter(results, (r: ValidationResult) => !r.passed && r.severity == Info)| == |results|
  {
    if results != [] {
      CountsPartition(results[1..]);
    }
  }

  /** Every element that satisfies the test is kept. */
  lemma {:induction false} FilterKeeps<T>(s: seq<T>, f: T -> bool, i: nat)
    requires i < |s| && f(s[i])
    ensures s[i] in Filter(s, f)
  {
    if i > 0 {
      assert s[1..][i - 1] == s[i];
      FilterKeeps(s[1..], f, i - 1);
    }
  }

  /** Filtering keeps the order: filtering a concatenation concatenates the filtered parts. */
  lemma {:induction false} FilterAppend<T>(a: seq<T>, b: seq<T>, f: T -> bool)
    ensures Filter(a + b, f) == Filter(a, f) + Filter(b, f)
  {
    if a == [] {
      assert a + b == b;
    } else {
      assert (a + b)[0] == a[0] && (a + b)[1..] == a[1..] + b;
      FilterAppend(a[1..], b, f);
    }
  }

  /**
   * The counts of `to_dict`: `passed` is true exactly when `error_count` is zero,
   * and the three counts never add up to more than `total_checks`.
   */
  lemma ReportDictCounts(rep: ValidationReport)
    ensures rep.ToDict().VDict? && |rep.ToDict().entries| == 10
    ensures rep.ToDict().entries[5] == Entry(Some("total_checks"), VInt(|rep.results|))
    ensures rep.ToDict().entries[4] == Entry(Some("passed"), VBool(rep.ToDict().entries[6].val == VInt(0)))
    ensures var es := rep.ToDict().entries;
      es[6].val.VInt? && es[7].val.VInt? && es[8].val.VInt? && es[6].val.i + es[7].val.i + es[8].val.i <= |rep.results|
  {
    PassedIffNoErrors(rep.results);
    CountsPartition(rep.results);
  }

  /** The summary's status word agrees with `passed`. */
  lemma SummaryStatus(rep: ValidationReport)
    ensures Strings.StartsWith(rep.Summary(), PhaseUpper(rep.phase) + " validation PASSED") <==> rep.Passed()
  {
    var head := PhaseUpper(rep.phase) + " validation ";
    var s := rep.Summary();
    assert s[..|head|] == head;
    if rep.Passed() {
      assert s[..|head| + 6] == head + "PASSED";
    } else {
      assert s[|head|..|head| + 6] == "FAILED";
      assert "FAILED" != "PASSED";
    }
  }
}
