/**
 * The shared helpers of the command-line subcommands: the subject-code and
 * session-id sanitizers, and the summary that turns a batch of run results
 * into log lines and an exit code.
 */
module CliCommon {
  import opened Options
  import opened Exceptions
  import opened Values
  import opened Strings
  import Context

  // ---------------------------------------------------------------------------
  // Sanitizers
  // ---------------------------------------------------------------------------

  /** A sanitizer's argument: a `str` or an `int` (the float branch is not modelled). */
  datatype Code = CodeStr(s: string) | CodeInt(i: int)

  /** `str(code)`. */
  function Text(c: Code): string
  {
    match c
    case CodeStr(s) => s
    case CodeInt(i) => IntToString(i)
  }

  /** The characters of the class `[-_\s]`. */
  predicate Removed(c: char)
  {
    c == '-' || c == '_' || IsSpace(c)
  }

  /** `re.sub(r"[-_\s]", "", s)`: `s` with every removed character deleted, the rest in order. */
  function Clean(s: string): (r: string)
    ensures forall i :: 0 <= i < |r| ==> !Removed(r[i])
    ensures |r| <= |s|
    decreases |s|
  {
    if s == [] then []
    else (if Removed(s[0]) then [] else [s[0]]) + Clean(s[1..])
  }

  /** Deleting distributes over concatenation, so `Clean` keeps what it keeps in order. */
  lemma {:induction false} CleanAppend(a: string, b: string)
    ensures Clean(a + b) == Clean(a) + Clean(b)
    decreases |a|
  {
    if a != [] {
      var h := if Removed(a[0]) then [] else [a[0]];
      assert (a + b)[0] == a[0] && (a + b)[1..] == a[1..] + b;
      CleanAppend(a[1..], b);
      assert Clean(a + b) == h + (Clean(a[1..]) + Clean(b));
      assert h + (Clean(a[1..]) + Clean(b)) == (h + Clean(a[1..])) + Clean(b);
    } else {
      assert a + b == b;
    }
  }

  /** A string with nothing to delete is left as it is. */
  lemma {:induction false} CleanKeeps(s: string)
    requires forall i :: 0 <= i < |s| ==> !Removed(s[i])
    ensures Clean(s) == s
    decreases |s|
  {
    if s != [] {
      CleanKeeps(s[1..]);
    }
  }

  /**
   * Delete the removed characters, then `zfill(width)`: the cleaned text padded
   * on the left with '0' (after a leading '+') to at least `width` characters.
   */
  function Sanitize(text: string, width: nat): (r: string)
    ensures |r| == if |Clean(text)| >= width then |Clean(text)| else width
    ensures |Clean(text)| >= width ==> r == Clean(text)
    ensures |Clean(text)| < width && (Clean(text) == [] || Clean(text)[0] != '+') ==> r == Zeros(width - |Clean(text)|) + Clean(text)
    ensures forall i :: 0 <= i < |r| ==> !Removed(r[i])
  {
    var c := Clean(text);
    var r := ZFill(c, width);
    assert !Removed('0');
    r
  }

  /**
   * What sanitizing promises: every non-removed character kept in order behind
   * the padding, at least `width` characters and never a truncation, and a
   * second pass that changes nothing.
   */
  lemma SanitizeMeaning(text: string, width: nat)
    ensures var c, r := Clean(text), Sanitize(text, width);
      |r| == (if |c| >= width then |c| else width)
      && (c == [] || c[0] != '+' ==> r == Zeros(|r| - |c|) + c)
      && Sanitize(r, width) == r
  {
    var c, r := Clean(text), Sanitize(text, width);
    CleanKeeps(r);
    if |c| >= width {
      assert Zeros(0) + c == c;
    }
  }

  /** `sanitize_subject_code(code)`. */
  function SanitizeSubjectCode(code: Code): string
  {
    Sanitize(Text(code), 4)
  }

  /** `sanitize_session_id(session_id)` for a `str` or an `int`. */
  function SanitizeSessionId(id: Code): string
  {
    Sanitize(Text(id), 12)
  }

  /**
   * The subject-code sanitizer keeps every non-removed character in order,
   * pads to four characters and never truncates, and applying it again
   * changes nothing.
   */
  lemma SubjectCodeMeaning(code: Code)
    ensures |SanitizeSubjectCode(code)| == if |Clean(Text(code))| >= 4 then |Clean(Text(code))| else 4
    ensures Clean(Text(code)) == [] || Clean(Text(code))[0] != '+' ==>
      SanitizeSubjectCode(code) == Zeros(|SanitizeSubjectCode(code)| - |Clean(Text(code))|) + Clean(Text(code))
    ensures SanitizeSubjectCode(CodeStr(SanitizeSubjectCode(code))) == SanitizeSubjectCode(code)
  {
    var t := Text(code);
    var c, r := Clean(t), Sanitize(t, 4);
    SanitizeMeaning(t, 4);
    assert SanitizeSubjectCode(code) == r;
    if c == [] || c[0] != '+' {
      assert r == Zeros(|r| - |c|) + c;
    }
    assert SanitizeSubjectCode(CodeStr(r)) == Sanitize(r, 4);
  }


  /** The same for session ids, padded to twelve characters. */
  lemma SessionIdMeaning(id: Code)
    ensures |SanitizeSessionId(id)| == if |Clean(Text(id))| >= 12 then |Clean(Text(id))| else 12
    ensures Clean(Text(id)) == [] || Clean(Text(id))[0] != '+' ==>
      SanitizeSessionId(id) == Zeros(|SanitizeSessionId(id)| - |Clean(Text(id))|) + Clean(Text(id))
    ensures SanitizeSessionId(CodeStr(SanitizeSessionId(id))) == SanitizeSessionId(id)
  {
    var t := Text(id);
    var c, r := Clean(t), Sanitize(t, 12);
    SanitizeMeaning(t, 12);
    assert SanitizeSessionId(id) == r;
    if c == [] || c[0] != '+' {
      assert r == Zeros(|r| - |c|) + c;
    }
    assert SanitizeSessionId(CodeStr(r)) == Sanitize(r, 12);
  }


  /** The separators inside a code are taken out: `"AB-CD"` becomes `"ABCD"`. */
  lemma SubjectCodeDropsDash()
    ensures SanitizeSubjectCode(CodeStr("AB-CD")) == "ABCD"
  {
    var ab, dash, cd := "AB", "-", "CD";
    assert "AB-CD" == ab + dash + cd;
    CleanAppend(ab + dash, cd);
    CleanAppend(ab, dash);
    CleanKeeps(ab);
    CleanKeeps(cd);
    assert Clean(dash) == [];
    assert Clean("AB-CD") == ab + cd;
    assert |ab + cd| == 4;
  }

  /** An integer session id is padded to twelve digits: `1` becomes `"000000000001"`. */
  lemma SessionIdOfOne()
    ensures SanitizeSessionId(CodeInt(1)) == "000000000001"
  {
    var one := "1";
    assert NatToString(1) == one;
    CleanKeeps(one);
    assert Zeros(11) + one == "000000000001";
  }

  // ---------------------------------------------------------------------------
  // Result summary
  // ---------------------------------------------------------------------------

  /** A log line and its level. */
  datatype LogLine = Info(msg: string) | Warning(msg: string)

  /** What `print_result_summary` returns when it does not raise: the exit code and what it logged. */
  datatype Summary = Summary(code: int, log: seq<LogLine>)

  type Result = seq<Entry>

  /** `r["success"]`. */
  function SuccessOf(r: Result): Option<Value>
  {
    DictGet(r, Some("success"))
  }

  /**
   * What `r["success"]` adds to the running `sum`: `True` counts one and an
   * integer its value; a missing key raises `KeyError`, any other type
   * `TypeError`.
   */
  function SuccessTerm(r: Result): (o: Outcome<int>)
    ensures SuccessOf(r).None? ==> o == Raised(Simple(KeyError, "'success'"))
    ensures SuccessOf(r) == Some(VBool(true)) ==> o == Ok(1)
    ensures SuccessOf(r) == Some(VBool(false)) ==> o == Ok(0)
  {
    match SuccessOf(r)
    case None => Raised(Simple(KeyError, "'success'"))
    case Some(VBool(b)) => Ok(if b then 1 else 0)
    case Some(VInt(i)) => Ok(i)
    case Some(v) => Raised(Simple(TypeError, "unsupported operand type(s) for +: 'int' and '" + Context.TypeName(v) + "'"))
  }

  /** `sum(r["success"] for r in results)`: the first result that cannot be added raises. */
  function SuccessCount(results: seq<Result>): Outcome<int>
    decreases |results|
  {
    if results == [] then Ok(0)
    else
      var before :- SuccessCount(results[..|results| - 1]);
      var t :- SuccessTerm(results[|results| - 1]);
      Ok(before + t)
  }

  /** `r.get(k) is not None`. */
  predicate FieldSet(r: Result, k: string)
  {
    var v := DictGet(r, Some(k));
    v.Some? && v.value != VNone
  }

  /** The identifying fields that are set in `r`, in the order given. */
  function SetFields(r: Result, fields: seq<string>): (set_: seq<string>)
    ensures forall k :: k in set_ <==> k in fields && FieldSet(r, k)
    decreases |fields|
  {
    if fields == [] then []
    else (if FieldSet(r, fields[0]) then [fields[0]] else []) + SetFields(r, fields[1..])
  }

  /** `f"{k}={r.get(k)}"` for a field that is set. */
  function Part(r: Result, k: string): string
    requires FieldSet(r, k)
  {
    k + "=" + Str(DictGet(r, Some(k)).value)
  }

  /**
   * `label = " ".join(f"{k}={r.get(k)}" for k in id_fields if r.get(k) is not None)`,
   * as a list of parts: one `k=v` part for each field that is set, in the order
   * of the fields.
   */
  function LabelParts(r: Result, idFields: seq<string>): (parts: seq<string>)
    ensures |parts| <= |idFields|
    ensures |parts| == |SetFields(r, idFields)|
    ensures forall i :: 0 <= i < |parts| ==> parts[i] == Part(r, SetFields(r, idFields)[i])
    decreases |idFields|
  {
    if idFields == [] then []
    else
      (if FieldSet(r, idFields[0]) then [Part(r, idFields[0])] else []) + LabelParts(r, idFields[1..])
  }

  /** The warning for one failed run: its label and its `error` (`None` when it has none). */
  function FailureLine(r: Result, idFields: seq<string>): LogLine
  {
    var err := DictGet(r, Some("error"));
    Warning("  " + Join(LabelParts(r, idFields), " ") + ": " + Str(if err.Some? then err.value else VNone))
  }

  /** Whether the result counts as failed in the listing: `not r["success"]`. */
  predicate Failed(r: Result)
  {
    SuccessOf(r).Some? && !Truthy(SuccessOf(r).value)
  }

  /** The failed runs among the results, in order. */
  function FailedRuns(results: seq<Result>): (f: seq<Result>)
    ensures forall r :: r in f <==> r in results && Failed(r)
    decreases |results|
  {
    if results == [] then []
    else
      var last := results[|results| - 1];
      FailedRunsInit(results);
      FailedRuns(results[..|results| - 1]) + (if Failed(last) then [last] else [])
  }

  lemma FailedRunsInit(results: seq<Result>)
    requires results != []
    ensures forall r :: r in results <==> r in results[..|results| - 1] || r == results[|results| - 1]
  {
    assert results == results[..|results| - 1] + [results[|results| - 1]];
  }

  /** One warning per failed run, in the order of the results. */
  function FailureLines(results: seq<Result>, idFields: seq<string>): (lines: seq<LogLine>)
    ensures |lines| <= |results|
    ensures |lines| == |FailedRuns(results)|
    ensures forall i :: 0 <= i < |lines| ==> lines[i] == FailureLine(FailedRuns(results)[i], idFields)
    decreases |results|
  {
    if results == [] then []
    else
      var last := results[|results| - 1];
      FailureLines(results[..|results| - 1], idFields) + (if Failed(last) then [FailureLine(last, idFields)] else [])
  }

  /** `print_result_summary(results, id_fields)`. */
  function SummaryOf(results: seq<Result>, idFields: seq<string> := ["participant"]): (s: Outcome<Summary>)
    ensures s.Ok? ==> s.value.code == 0 || s.value.code == 1
  {
    var nOk :- SuccessCount(results);
    var nFail := |results| - nOk;
    var done := DoneLine(nOk, |results|);
    if nFail != 0 then Ok(Summary(1, [done, Warning("Failed runs:")] + FailureLines(results, idFields)))
    else Ok(Summary(0, [done]))
  }

  /** `success` is a `bool` in every result, as the runners produce them. */
  predicate BoolSuccesses(results: seq<Result>)
  {
    forall i :: 0 <= i < |results| ==> SuccessOf(results[i]).Some? && SuccessOf(results[i]).value.VBool?
  }

  predicate Succeeded(r: Result)
  {
    SuccessOf(r) == Some(VBool(true))
  }

  /**
   * With boolean successes the sum counts the successful runs: it lies between
   * zero and the number of results, reaches it exactly when every run
   * succeeded, and the listing has one line per failed run.
   */
  lemma CountSuccesses(results: seq<Result>, idFields: seq<string>)
    requires BoolSuccesses(results)
    ensures SuccessCount(results).Ok?
    ensures 0 <= SuccessCount(results).value <= |results|
    ensures SuccessCount(results).value == |results| <==> forall i :: 0 <= i < |results| ==> Succeeded(results[i])
    ensures |FailureLines(results, idFields)| == |results| - SuccessCount(results).value
  {
    AllSucceededCount(results);
    FailureLinesCount(results, idFields);
  }

  /** The induction behind `CountSuccesses`: the sum is a count of the successful runs. */
  lemma {:induction false} AllSucceededCount(results: seq<Result>)
    requires BoolSuccesses(results)
    ensures SuccessCount(results).Ok?
    ensures 0 <= SuccessCount(results).value <= |results|
    ensures SuccessCount(results).value == |results| <==> forall i :: 0 <= i < |results| ==> Succeeded(results[i])
    decreases |results|
  {
    if results != [] {
      var init := results[..|results| - 1];
      assert forall i :: 0 <= i < |init| ==> init[i] == results[i];
      AllSucceededCount(init);
      var last := results[|results| - 1];
      assert Succeeded(last) <==> !Failed(last);
      assert SuccessCount(results).value == SuccessCount(init).value + (if Failed(last) then 0 else 1);
      if SuccessCount(results).value == |results| {
        assert SuccessCount(init).value == |init| && Succeeded(last);
        assert forall i :: 0 <= i < |results| ==> Succeeded(results[i]);
      } else if SuccessCount(init).value < |init| {
        var j :| 0 <= j < |init| && !Succeeded(init[j]);
        assert !Succeeded(results[j]);
      } else {
        assert !Succeeded(results[|results| - 1]);
      }
    }
  }

  /** With boolean successes, one warning is listed for each run the sum did not count. */
  lemma {:induction false} FailureLinesCount(results: seq<Result>, idFields: seq<string>)
    requires BoolSuccesses(results)
    ensures SuccessCount(results).Ok?
    ensures |FailureLines(results, idFields)| == |results| - SuccessCount(results).value
    decreases |results|
  {
    if results != [] {
      var init := results[..|results| - 1];
      assert forall i :: 0 <= i < |init| ==> init[i] == results[i];
      FailureLinesCount(init, idFields);
      var last := results[|results| - 1];
      assert |FailureLines(results, idFields)| == |FailureLines(init, idFields)| + (if Failed(last) then 1 else 0);
      assert SuccessCount(results).value == SuccessCount(init).value + (if Failed(last) then 0 else 1);
    }
  }

  /**
   * The exit code is 0 exactly when every run succeeded (so the empty batch
   * gives 0) and 1 otherwise; the counts logged add up to the number of
   * results, and a non-zero code lists every failed run.
   */
  lemma ExitCodeMeaning(results: seq<Result>, idFields: seq<string>)
    requires BoolSuccesses(results)
    ensures SummaryOf(results, idFields).Ok?
    ensures SummaryOf(results, idFields).value.code == 0 <==> forall i :: 0 <= i < |results| ==> Succeeded(results[i])
    ensures SummaryOf(results, idFields).value.log[0] == DoneLine(SuccessCount(results).value, |results|)
    ensures SummaryOf(results, idFields).value.code == 1 ==>
      SummaryOf(results, idFields).value.log[2..] == FailureLines(results, idFields)
      && |FailureLines(results, idFields)| == |results| - SuccessCount(results).value
  {
    CountSuccesses(results, idFields);
    var n := SuccessCount(results).value;
    SummaryShape(results, idFields, DoneLine(n, |results|), FailureLines(results, idFields));
  }

  /** The line that reports the counts. */
  function DoneLine(nOk: int, n: int): LogLine
  {
    Info("Done: " + IntToString(nOk) + " succeeded, " + IntToString(n - nOk) + " failed")
  }

  /** Once the sum is known, the summary is the count line, then for failures a header and one line per failed run. */
  lemma SummaryShape(results: seq<Result>, idFields: seq<string>, done: LogLine, lines: seq<LogLine>)
    requires SuccessCount(results).Ok? && done == DoneLine(SuccessCount(results).value, |results|)
    requires lines == FailureLines(results, idFields)
    ensures SummaryOf(results, idFields).Ok?
    ensures SuccessCount(results).value == |results| ==> SummaryOf(results, idFields).value == Summary(0, [done])
    ensures SuccessCount(results).value != |results| ==>
      SummaryOf(results, idFields).value == Summary(1, [done, Warning("Failed runs:")] + lines)
    ensures SummaryOf(results, idFields).value.log[0] == done
    ensures SuccessCount(results).value != |results| ==> SummaryOf(results, idFields).value.log[2..] == lines
  {
    var log := [done, Warning("Failed runs:")] + lines;
    assert log[0] == done && log[2..] == lines;
  }

  /** A result without `success` raises `KeyError` once every result before it could be added. */
  lemma MissingSuccessRaises(results: seq<Result>, idFields: seq<string>, k: nat)
    requires k < |results| && SuccessOf(results[k]).None?
    requires SuccessCount(results[..k]).Ok?
    ensures SummaryOf(results, idFields) == Raised(Simple(KeyError, "'success'"))
  {
    assert results[..k + 1][..k] == results[..k];
    MissingOrBadPropagates(results, k + 1);
  }

  /** The first loop of `print_result_summary`: `sum(r["success"] for r in results)`. */
  method SumSuccesses(results: seq<Result>) returns (n: Outcome<int>)
    ensures n == SuccessCount(results)
  {
    var nOk := 0;
    for k := 0 to |results|
      invariant SuccessCount(results[..k]) == Ok(nOk)
    {
      assert results[..k + 1][..k] == results[..k];
      var t := SuccessTerm(results[k]);
      if t.Raised? {
        MissingOrBadPropagates(results, k + 1);
        return Raised(t.exc);
      }
      nOk := nOk + t.value;
    }
    assert results[..|results|] == results;
    return Ok(nOk);
  }

  /** The second loop of `print_result_summary`: a warning for each failed run. */
  method ListFailures(results: seq<Result>, idFields: seq<string>) returns (lines: seq<LogLine>)
    ensures lines == FailureLines(results, idFields)
  {
    lines := [];
    for k := 0 to |results|
      invariant lines == FailureLines(results[..k], idFields)
    {
      assert results[..k + 1][..k] == results[..k];
      var r := results[k];
      if Failed(r) {
        lines := lines + [FailureLine(r, idFields)];
      }
    }
    assert results[..|results|] == results;
  }

  /**
   * `print_result_summary`: sums the successes, then logs the counts and, when
   * something failed, lists the failed runs.
   */
  method PrintResultSummary(results: seq<Result>, idFields: seq<string> := ["participant"]) returns (s: Outcome<Summary>)
    ensures s == SummaryOf(results, idFields)
  {
    var n := SumSuccesses(results);
    if n.Raised? {
      return Raised(n.exc);
    }
    var nOk := n.value;
    var nFail := |results| - nOk;
    var done := DoneLine(nOk, |results|);
    if nFail != 0 {
      var lines := ListFailures(results, idFields);
      return Ok(Summary(1, [done, Warning("Failed runs:")] + lines));
    }
    return Ok(Summary(0, [done]));
  }

  /** An error in the sum over a prefix is the error of the whole sum. */
  lemma {:induction false} MissingOrBadPropagates(results: seq<Result>, k: nat)
    requires k <= |results| && SuccessCount(results[..k]).Raised?
    ensures SuccessCount(results) == SuccessCount(results[..k])
    decreases |results| - k
  {
    if k < |results| {
      assert results[..k + 1][..k] == results[..k];
      MissingOrBadPropagates(results, k + 1);
    } else {
      assert results[..k] == results;
    }
  }
}
