/**
 * `Validator`: a procedure's ordered lists of pre- and post-execution rules,
 * and the loops that run them into a `ValidationReport`.
 */
module ValidatorBase {
  import opened Paths
  import opened Exceptions
  import opened ValidationBase
  import opened Context
  import opened Rules

  datatype Validator = Validator(procedureName: string, preRules: seq<Rule>, postRules: seq<Rule>)

  /** The class attributes of `Validator` itself. */
  const BaseValidator: Validator := Validator("unknown", [], [])

  /** The rules whose `skip_condition` is false for `ctx`, in declaration order. */
  function Active(rules: seq<Rule>, ctx: Context): (r: seq<Rule>)
    ensures |r| <= |rules|
    ensures forall x :: x in r ==> x in rules && !Skip(x, ctx)
    decreases |rules|
  {
    if rules == [] then []
    else
      var last := rules[|rules| - 1];
      Active(rules[..|rules| - 1], ctx) + (if Skip(last, ctx) then [] else [last])
  }

  /**
   * What the loop `for rule in rules: if not rule.skip_condition(ctx):
   * results.append(rule.check(ctx))` collects, or the first exception a check lets escape.
   */
  function RunRules(rules: seq<Rule>, ctx: Context, fs: FileSystem): Outcome<seq<ValidationResult>>
    decreases |rules|
  {
    if rules == [] then Ok([])
    else
      var init :- RunRules(rules[..|rules| - 1], ctx, fs);
      var last := rules[|rules| - 1];
      if Skip(last, ctx) then Ok(init)
      else
        var r :- RuleCheck(last, ctx, fs);
        Ok(init + [r])
  }

  /** Once a prefix of the rules raises, running more rules raises the same exception. */
  lemma {:induction false} RunRulesRaisedExtends(rules: seq<Rule>, k: nat, ctx: Context, fs: FileSystem)
    requires k <= |rules| && RunRules(rules[..k], ctx, fs).Raised?
    ensures RunRules(rules, ctx, fs) == RunRules(rules[..k], ctx, fs)
    decreases |rules| - k
  {
    if k < |rules| {
      assert rules[..k + 1][..k] == rules[..k];
      RunRulesRaisedExtends(rules, k + 1, ctx, fs);
    } else {
      assert rules[..k] == rules;
    }
  }

  /** The loop body of `validate_pre` and `validate_post`. */
  method RunPhase(rules: seq<Rule>, ctx: Context, fs: FileSystem) returns (r: Outcome<seq<ValidationResult>>)
    ensures r == RunRules(rules, ctx, fs)
  {
    var results: seq<ValidationResult> := [];
    var i := 0;
    while i < |rules|
      invariant 0 <= i <= |rules|
      invariant RunRules(rules[..i], ctx, fs) == Ok(results)
    {
      assert rules[..i + 1][..i] == rules[..i];
      if !Skip(rules[i], ctx) {
        var res := CheckRule(rules[i], ctx, fs);
        if res.Raised? {
          RunRulesRaisedExtends(rules, i + 1, ctx, fs);
          return Raised(res.exc);
        }
        results := results + [res.value];
      }
      i := i + 1;
    }
    assert rules[..i] == rules;
    return Ok(results);
  }

  /** The report a run of `rules` makes for `phase`, or the exception a check let escape. */
  function PhaseReport(phase: Phase, v: Validator, rules: seq<Rule>, ctx: Context, fs: FileSystem): Outcome<ValidationReport>
  {
    var results :- RunRules(rules, ctx, fs);
    Ok(ValidationReport(phase, v.procedureName, ctx.participant, ctx.session, results))
  }

  /** `validate_pre(context)`. */
  method ValidatePre(v: Validator, ctx: Context, fs: FileSystem) returns (r: Outcome<ValidationReport>)
    ensures r == PhaseReport(Pre, v, v.preRules, ctx, fs)
    ensures r.Ok? <==> RunRules(v.preRules, ctx, fs).Ok?
    ensures r.Raised? ==> r.exc == RunRules(v.preRules, ctx, fs).exc
    ensures r.Ok? ==> r.value == ValidationReport(Pre, v.procedureName, ctx.participant, ctx.session,
                                                  RunRules(v.preRules, ctx, fs).value)
  {
    var results :- RunPhase(v.preRules, ctx, fs);
    return Ok(ValidationReport(Pre, v.procedureName, ctx.participant, ctx.session, results));
  }

  /** `validate_post(context)`: the same loop over the post rules. */
  method ValidatePost(v: Validator, ctx: Context, fs: FileSystem) returns (r: Outcome<ValidationReport>)
    ensures r == PhaseReport(Post, v, v.postRules, ctx, fs)
    ensures r.Ok? <==> RunRules(v.postRules, ctx, fs).Ok?
    ensures r.Raised? ==> r.exc == RunRules(v.postRules, ctx, fs).exc
    ensures r.Ok? ==> r.value == ValidationReport(Post, v.procedureName, ctx.participant, ctx.session,
                                                  RunRules(v.postRules, ctx, fs).value)
  {
    var results :- RunPhase(v.postRules, ctx, fs);
    return Ok(ValidationReport(Post, v.procedureName, ctx.participant, ctx.session, results));
  }

  /** `validate_all(context)`: the pre report, then the post report. */
  method ValidateAll(v: Validator, ctx: Context, fs: FileSystem) returns (r: Outcome<(ValidationReport, ValidationReport)>)
    ensures r.Ok? <==> RunRules(v.preRules, ctx, fs).Ok? && RunRules(v.postRules, ctx, fs).Ok?
    ensures r.Ok? ==>
      && r.value.0 == ValidationReport(Pre, v.procedureName, ctx.participant, ctx.session, RunRules(v.preRules, ctx, fs).value)
      && r.value.1 == ValidationReport(Post, v.procedureName, ctx.participant, ctx.session, RunRules(v.postRules, ctx, fs).value)
    ensures RunRules(v.preRules, ctx, fs).Raised? ==> r == Raised(RunRules(v.preRules, ctx, fs).exc)
    ensures RunRules(v.preRules, ctx, fs).Ok? && RunRules(v.postRules, ctx, fs).Raised? ==>
      r == Raised(RunRules(v.postRules, ctx, fs).exc)
  {
    var pre :- ValidatePre(v, ctx, fs);
    var post :- ValidatePost(v, ctx, fs);
    return Ok((pre, post));
  }

  /**
   * Each rule that is not skipped is checked exactly once, in declaration order:
   * the run succeeds exactly when every such check returns, and its i-th result
   * is the check of the i-th rule not skipped.
   */
  lemma {:induction false} RunRulesChecksActive(rules: seq<Rule>, ctx: Context, fs: FileSystem)
    ensures RunRules(rules, ctx, fs).Ok? <==> forall x :: x in Active(rules, ctx) ==> RuleCheck(x, ctx, fs).Ok?
    ensures RunRules(rules, ctx, fs).Ok? ==>
      var results := RunRules(rules, ctx, fs).value;
      var active := Active(rules, ctx);
      && |results| == |active|
      && forall i :: 0 <= i < |active| ==> Ok(results[i]) == RuleCheck(active[i], ctx, fs)
    decreases |rules|
  {
    if rules != [] {
      var init := rules[..|rules| - 1];
      var last := rules[|rules| - 1];
      RunRulesChecksActive(init, ctx, fs);
      if !Skip(last, ctx) {
        assert last in Active(rules, ctx);
      }
    }
  }

  /** No rule of the library overrides `skip_condition`, so a list of them runs every rule. */
  lemma {:induction false} LibraryRulesAllActive(rules: seq<Rule>, ctx: Context)
    requires forall i :: 0 <= i < |rules| ==> !rules[i].Custom?
    ensures Active(rules, ctx) == rules
    decreases |rules|
  {
    if rules != [] {
      LibraryRulesAllActive(rules[..|rules| - 1], ctx);
      assert rules[..|rules| - 1] + [rules[|rules| - 1]] == rules;
    }
  }

  /** The base validator's reports are empty and therefore pass. */
  lemma BaseValidatorReportsPass(ctx: Context, fs: FileSystem)
    ensures RunRules(BaseValidator.preRules, ctx, fs) == Ok([])
    ensures RunRules(BaseValidator.postRules, ctx, fs) == Ok([])
    ensures ValidationReport(Pre, "unknown", ctx.participant, ctx.session, []).Passed()
  {
  }

  /**
   * For library rules of error severity a run of them passes exactly when each
   * check passes: nothing is skipped and any failure blocks.
   */
  lemma LibraryRunPasses(rules: seq<Rule>, ctx: Context, fs: FileSystem)
    requires forall i :: 0 <= i < |rules| ==> !rules[i].Custom? && Meta(rules[i]).severity == Error
    requires forall i :: 0 <= i < |rules| ==> RuleCheck(rules[i], ctx, fs).Ok?
    ensures RunRules(rules, ctx, fs).Ok?
    ensures NoBlockingFailure(RunRules(rules, ctx, fs).value)
            <==> forall i :: 0 <= i < |rules| ==> RuleCheck(rules[i], ctx, fs).value.passed
  {
    LibraryRulesAllActive(rules, ctx);
    RunRulesChecksActive(rules, ctx, fs);
    var results := RunRules(rules, ctx, fs).value;
    PassedIffNoErrors(results);
    forall i | 0 <= i < |rules|
      ensures results[i] == RuleCheck(rules[i], ctx, fs).value && results[i].severity == Error
    {
      RuleCheckCarriesMeta(rules[i], ctx, fs);
    }
  }

  /** A failed result blocks a report exactly when its severity is "error". */
  lemma {:induction false} NoBlockingFailureSnoc(results: seq<ValidationResult>, r: ValidationResult)
    ensures NoBlockingFailure(results + [r]) <==> NoBlockingFailure(results) && (r.passed || r.severity != Error)
  {
    PassedIffNoErrors(results);
    PassedIffNoErrors(results + [r]);
    assert forall i :: 0 <= i < |results| ==> (results + [r])[i] == results[i];
    assert (results + [r])[|results|] == r;
  }

  /** Whether the report of a run of `rules` passes. */
  predicate RunPasses(rules: seq<Rule>, ctx: Context, fs: FileSystem)
  {
    RunRules(rules, ctx, fs).Ok? && NoBlockingFailure(RunRules(rules, ctx, fs).value)
  }

  /** Appending a library rule of error severity that returns: the run passes iff it passed before and the rule passes. */
  lemma RunPassesSnoc(init: seq<Rule>, last: Rule, ctx: Context, fs: FileSystem)
    requires !last.Custom? && Meta(last).severity == Error && RuleCheck(last, ctx, fs).Ok?
    ensures RunRules(init + [last], ctx, fs).Ok? <==> RunRules(init, ctx, fs).Ok?
    ensures RunPasses(init + [last], ctx, fs) <==> RunPasses(init, ctx, fs) && RuleCheck(last, ctx, fs).value.passed
  {
    assert (init + [last])[..|init|] == init;
    RuleCheckCarriesMeta(last, ctx, fs);
    if RunRules(init, ctx, fs).Ok? {
      NoBlockingFailureSnoc(RunRules(init, ctx, fs).value, RuleCheck(last, ctx, fs).value);
    }
  }

  /** When the first two checks return and the third, not skipped, raises, the run raises that exception. */
  lemma RunRaisesAtThird(a: Rule, b: Rule, c: Rule, ctx: Context, fs: FileSystem)
    requires RuleCheck(a, ctx, fs).Ok? && RuleCheck(b, ctx, fs).Ok?
    requires !Skip(c, ctx) && RuleCheck(c, ctx, fs).Raised?
    ensures RunRules([a, b, c], ctx, fs) == Raised(RuleCheck(c, ctx, fs).exc)
  {
    RunSnocReturns([], a, ctx, fs);
    assert [] + [a] == [a];
    RunSnocReturns([a], b, ctx, fs);
    assert [a] + [b] == [a, b];
    RunSnocRaises([a, b], c, ctx, fs);
    assert [a, b] + [c] == [a, b, c];
  }

  /** Appending a rule whose check returns: the run returns iff it returned before. */
  lemma RunSnocReturns(init: seq<Rule>, last: Rule, ctx: Context, fs: FileSystem)
    requires RuleCheck(last, ctx, fs).Ok?
    ensures RunRules(init + [last], ctx, fs).Ok? <==> RunRules(init, ctx, fs).Ok?
  {
    assert (init + [last])[..|init|] == init;
  }

  /** Appending an active rule whose check raises to a run that returns: the run raises that exception. */
  lemma RunSnocRaises(init: seq<Rule>, last: Rule, ctx: Context, fs: FileSystem)
    requires RunRules(init, ctx, fs).Ok? && !Skip(last, ctx) && RuleCheck(last, ctx, fs).Raised?
    ensures RunRules(init + [last], ctx, fs) == Raised(RuleCheck(last, ctx, fs).exc)
  {
    assert (init + [last])[..|init|] == init;
  }

  /** A library rule of error severity whose check returns, and passes exactly when `fact` holds. */
  predicate KnownVerdict(r: Rule, ctx: Context, fs: FileSystem, fact: bool)
  {
    !r.Custom? && Meta(r).severity == Error && RuleCheck(r, ctx, fs).Ok? && (RuleCheck(r, ctx, fs).value.passed <==> fact)
  }

  /** A run of 1 rule of known verdict returns, and passes exactly when every verdict's fact holds. */
  lemma RunKnown1(a: Rule, ctx: Context, fs: FileSystem, fa: bool)
    requires KnownVerdict(a, ctx, fs, fa)
    ensures RunRules([a], ctx, fs).Ok?
    ensures RunPasses([a], ctx, fs) <==> fa
  {
    RunPassesSnoc([], a, ctx, fs);
    assert [] + [a] == [a];
  }

  /** A run of 2 rules of known verdict returns, and passes exactly when every verdict's fact holds. */
  lemma RunKnown2(a: Rule, b: Rule, ctx: Context, fs: FileSystem, fa: bool, fb: bool)
    requires KnownVerdict(a, ctx, fs, fa)
    requires KnownVerdict(b, ctx, fs, fb)
    ensures RunRules([a, b], ctx, fs).Ok?
    ensures RunPasses([a, b], ctx, fs) <==> fa && fb
  {
    RunKnown1(a, ctx, fs, fa);
    RunPassesSnoc([a], b, ctx, fs);
    assert [a] + [b] == [a, b];
  }

  /** A run of 3 rules of known verdict returns, and passes exactly when every verdict's fact holds. */
  lemma RunKnown3(a: Rule, b: Rule, c: Rule, ctx: Context, fs: FileSystem, fa: bool, fb: bool, fc: bool)
    requires KnownVerdict(a, ctx, fs, fa)
    requires KnownVerdict(b, ctx, fs, fb)
    requires KnownVerdict(c, ctx, fs, fc)
    ensures RunRules([a, b, c], ctx, fs).Ok?
    ensures RunPasses([a, b, c], ctx, fs) <==> fa && fb && fc
  {
    RunKnown2(a, b, ctx, fs, fa, fb);
    RunPassesSnoc([a, b], c, ctx, fs);
    assert [a, b] + [c] == [a, b, c];
  }

  /** A run of 4 rules of known verdict returns, and passes exactly when every verdict's fact holds. */
  lemma RunKnown4(a: Rule, b: Rule, c: Rule, d: Rule, ctx: Context, fs: FileSystem, fa: bool, fb: bool, fc: bool, fd: bool)
    requires KnownVerdict(a, ctx, fs, fa)
    requires KnownVerdict(b, ctx, fs, fb)
    requires KnownVerdict(c, ctx, fs, fc)
    requires KnownVerdict(d, ctx, fs, fd)
    ensures RunRules([a, b, c, d], ctx, fs).Ok?
    ensures RunPasses([a, b, c, d], ctx, fs) <==> fa && fb && fc && fd
  {
    RunKnown3(a, b, c, ctx, fs, fa, fb, fc);
    RunPassesSnoc([a, b, c], d, ctx, fs);
    assert [a, b, c] + [d] == [a, b, c, d];
  }

  /** A run of 5 rules of known verdict returns, and passes exactly when every verdict's fact holds. */
  lemma RunKnown5(a: Rule, b: Rule, c: Rule, d: Rule, e: Rule, ctx: Context, fs: FileSystem, fa: bool, fb: bool, fc: bool, fd: bool, fe: bool)
    requires KnownVerdict(a, ctx, fs, fa)
    requires KnownVerdict(b, ctx, fs, fb)
    requires KnownVerdict(c, ctx, fs, fc)
    requires KnownVerdict(d, ctx, fs, fd)
    requires KnownVerdict(e, ctx, fs, fe)
    ensures RunRules([a, b, c, d, e], ctx, fs).Ok?
    ensures RunPasses([a, b, c, d, e], ctx, fs) <==> fa && fb && fc && fd && fe
  {
    RunKnown4(a, b, c, d, ctx, fs, fa, fb, fc, fd);
    RunPassesSnoc([a, b, c, d], e, ctx, fs);
    assert [a, b, c, d] + [e] == [a, b, c, d, e];
  }

  /** A run of 6 rules of known verdict returns, and passes exactly when every verdict's fact holds. */
  lemma RunKnown6(a: Rule, b: Rule, c: Rule, d: Rule, e: Rule, f: Rule, ctx: Context, fs: FileSystem, fa: bool, fb: bool, fc: bool, fd: bool, fe: bool, ff: bool)
    requires KnownVerdict(a, ctx, fs, fa)
    requires KnownVerdict(b, ctx, fs, fb)
    requires KnownVerdict(c, ctx, fs, fc)
    requires KnownVerdict(d, ctx, fs, fd)
    requires KnownVerdict(e, ctx, fs, fe)
    requires KnownVerdict(f, ctx, fs, ff)
    ensures RunRules([a, b, c, d, e, f], ctx, fs).Ok?
    ensures RunPasses([a, b, c, d, e, f], ctx, fs) <==> fa && fb && fc && fd && fe && ff
  {
    RunKnown5(a, b, c, d, e, ctx, fs, fa, fb, fc, fd, fe);
    RunPassesSnoc([a, b, c, d, e], f, ctx, fs);
    assert [a, b, c, d, e] + [f] == [a, b, c, d, e, f];
  }
}
