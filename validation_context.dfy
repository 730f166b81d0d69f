/**
 * `ValidationContext`: everything a rule may look at: the procedure, the
 * participant and session, the inputs, config and expected-outputs objects, the
 * runner's result and an optional brain-bank configuration dictionary.
 */
module Context {
  import opened Options
  import opened Paths
  import opened Values
  import opened Exceptions
  import Strings

  /** Python's name for the type of `v`, as it appears in `TypeError` messages. */
  function TypeName(v: Value): string
  {
    match v
    case VNone => "NoneType"
    case VBool(_) => "bool"
    case VInt(_) => "int"
    case VStr(_) => "str"
    case VPath(_) => "PosixPath"
    case VList(_) => "list"
    case VTuple(_) => "tuple"
    case VDict(_) => "dict"
    case VObj(cls, _) => cls
  }

  /** `Path(v)`, raising `TypeError` for anything but a `str` or a `Path`. */
  function ToPath(v: Value): (r: Outcome<Path>)
    ensures r.Ok? <==> AsPath(v).Some?
    ensures r.Ok? ==> r.value == AsPath(v).value
    ensures r.Raised? ==> r.exc.cls == TypeError
  {
    match AsPath(v)
    case Some(p) => Ok(p)
    case None => Raised(Simple(TypeError,
      "argument should be a str or an os.PathLike object where __fspath__ returns a str, not '" + TypeName(v) + "'"))
  }

  /** The attributes `input_dir` tries, in order. */
  const InputDirAttrs: seq<string> := ["bids_dir", "dicom_dir", "qsiprep_dir", "qsirecon_dir"]

  /** An attribute that is missing or holds `None` is passed over by `input_dir`. */
  predicate Unset(obj: Value, attr: string)
  {
    GetAttr(obj, attr).None? || GetAttr(obj, attr) == Some(VNone)
  }

  /** The position of the first attribute of `attrs` that `obj` has with a value other than `None`. */
  function FirstSet(obj: Value, attrs: seq<string>): (k: nat)
    ensures k <= |attrs|
    ensures forall j :: 0 <= j < k ==> Unset(obj, attrs[j])
    ensures k < |attrs| ==> !Unset(obj, attrs[k])
  {
    if attrs == [] || !Unset(obj, attrs[0]) then 0 else 1 + FirstSet(obj, attrs[1..])
  }

  /** The first attribute of `attrs` that `obj` has with a value other than `None`, as a path. */
  function FirstDirAttr(obj: Value, attrs: seq<string>): (r: Outcome<Option<Path>>)
    ensures var k := FirstSet(obj, attrs);
            if k == |attrs| then r == Ok(None)
            else
              var v := GetAttr(obj, attrs[k]).value;
              (r.Ok? <==> ToPath(v).Ok?) && (r.Ok? ==> r.value == Some(ToPath(v).value))
              && (r.Raised? ==> r == ToPath(v).PropagateFailure())
  {
    if attrs == [] then Ok(None)
    else if !Unset(obj, attrs[0]) then
      var p :- ToPath(GetAttr(obj, attrs[0]).value);
      Ok(Some(p))
    else
      FirstDirAttr(obj, attrs[1..])
  }

  /** Whether a session string counts (Python truthiness: neither `None` nor empty). */
  predicate HasSession(session: Option<string>)
  {
    session.Some? && session.value != ""
  }

  datatype Context = Context(
    procedureName: string,
    participant: string,
    session: Option<string>,
    inputs: Value,
    config: Value,
    expectedOutputs: Value,
    executionResult: Value,
    brainBankConfig: Value)
  {
    /** `input_dir`: the first set directory attribute of the inputs, as a path. */
    function InputDir(): Outcome<Option<Path>>
    {
      if inputs.VNone? then Ok(None) else FirstDirAttr(inputs, InputDirAttrs)
    }

    /** `output_dir`: the inputs' `output_dir` when it is set to a true value. */
    function OutputDir(): Outcome<Option<Path>>
    {
      if inputs.VNone? then Ok(None)
      else if HasAttr(inputs, "output_dir") && Truthy(GetAttr(inputs, "output_dir").value) then
        var p :- ToPath(GetAttr(inputs, "output_dir").value);
        Ok(Some(p))
      else Ok(None)
    }

    function ParticipantLabel(): string
    {
      "sub-" + participant
    }

    function SessionLabel(): Option<string>
    {
      if HasSession(session) then Some("ses-" + session.value) else None
    }

    /** `participant_dir`: `<input_dir>/sub-<participant>[/ses-<session>]`. */
    function ParticipantDir(): Outcome<Option<Path>>
    {
      var input :- InputDir();
      if input.None? then Ok(None)
      else
        var dir := Child(input.value, ParticipantLabel());
        Ok(Some(if HasSession(session) then Child(dir, SessionLabel().value) else dir))
    }

    /**
     * `get_config_value(key, default)`: the procedure's section of the brain-bank
     * configuration first, then its top level, then the config object, then the default.
     */
    function GetConfigValue(key: string, default: Value): Outcome<Value>
    {
      if Truthy(brainBankConfig) then
        if !brainBankConfig.VDict? then
          Raised(Simple(AttributeError, "'" + TypeName(brainBankConfig) + "' object has no attribute 'get'"))
        else
          var section := DictGet(brainBankConfig.entries, Some(procedureName)).GetOr(VDict([]));
          var inSection :- Membership(key, section);
          if inSection then Lookup(key, section)
          else if Some(key) in Keys(brainBankConfig.entries) then Ok(DictGet(brainBankConfig.entries, Some(key)).value)
          else Ok(FromConfig(key, default))
      else Ok(FromConfig(key, default))
    }

    function FromConfig(key: string, default: Value): Value
    {
      if Truthy(config) && HasAttr(config, key) then GetAttr(config, key).value else default
    }
  }

  /** `key in container` for the containers a configuration section can be. */
  function Membership(key: string, container: Value): Outcome<bool>
  {
    match container
    case VDict(es) => Ok(Some(key) in Keys(es))
    case VList(xs) => Ok(VStr(key) in xs)
    case VTuple(xs) => Ok(VStr(key) in xs)
    case VStr(s) => Ok(Strings.Contains(s, key))
    case _ => Raised(Simple(TypeError, "argument of type '" + TypeName(container) + "' is not iterable"))
  }

  /** `container[key]` once `key in container` held. */
  function Lookup(key: string, container: Value): Outcome<Value>
  {
    match container
    case VDict(es) =>
      if Some(key) in Keys(es) then Ok(DictGet(es, Some(key)).value)
      else Raised(Simple(KeyError, "'" + key + "'"))
    case _ => Raised(Simple(TypeError, TypeName(container) + " indices must be integers or slices, not str"))
  }

  /** `input_dir` follows the fixed attribute order: `bids_dir` wins over the others. */
  lemma InputDirPrefersBids(ctx: Context, p: Path)
    requires GetAttr(ctx.inputs, "bids_dir") == Some(VPath(p))
    ensures ctx.InputDir() == Ok(Some(p))
  {
  }

  /** `FirstDirAttr` passes over the unset attributes before the first set one. */
  lemma {:induction false} FirstDirAttrSkips(obj: Value, attrs: seq<string>, k: nat, p: Path)
    requires k < |attrs|
    requires forall j :: 0 <= j < k ==> Unset(obj, attrs[j])
    requires GetAttr(obj, attrs[k]) == Some(VPath(p))
    ensures FirstDirAttr(obj, attrs) == Ok(Some(p))
    decreases k
  {
    if k > 0 {
      assert Unset(obj, attrs[0]);
      FirstDirAttrSkips(obj, attrs[1..], k - 1, p);
    }
  }

  /** With the attributes before position `k` unset, `input_dir` is the path at position `k`. */
  lemma InputDirSkipsUnset(ctx: Context, k: nat, p: Path)
    requires k < |InputDirAttrs|
    requires forall j :: 0 <= j < k ==> Unset(ctx.inputs, InputDirAttrs[j])
    requires GetAttr(ctx.inputs, InputDirAttrs[k]) == Some(VPath(p))
    ensures ctx.InputDir() == Ok(Some(p))
  {
    FirstDirAttrSkips(ctx.inputs, InputDirAttrs, k, p);
  }

  /** `participant_dir` is `input_dir` extended by the participant and, when set, the session label. */
  lemma ParticipantDirShape(ctx: Context)
    requires ctx.InputDir().Ok?
    ensures ctx.ParticipantDir().Ok?
    ensures ctx.InputDir().value.None? <==> ctx.ParticipantDir().value.None?
    ensures ctx.InputDir().value.Some? ==>
      ctx.ParticipantDir().value.value
        == ctx.InputDir().value.value + ["sub-" + ctx.participant]
           + (if HasSession(ctx.session) then ["ses-" + ctx.session.value] else [])
  {
  }

  /**
   * The lookup order of `get_config_value`: a key in the procedure's section of
   * the brain-bank configuration shadows the same key at its top level and on the
   * config object.
   */
  lemma ConfigSectionWins(ctx: Context, key: string, default: Value, section: seq<Entry>, v: Value)
    requires ctx.brainBankConfig.VDict? && Truthy(ctx.brainBankConfig)
    requires DictGet(ctx.brainBankConfig.entries, Some(ctx.procedureName)) == Some(VDict(section))
    requires DictGet(section, Some(key)) == Some(v)
    ensures ctx.GetConfigValue(key, default) == Ok(v)
  {
  }

  /** Without a brain-bank configuration the config object's attribute, else the default, is returned. */
  lemma ConfigFallback(ctx: Context, key: string, default: Value)
    requires !Truthy(ctx.brainBankConfig)
    ensures ctx.GetConfigValue(key, default)
            == Ok(if Truthy(ctx.config) && HasAttr(ctx.config, key) then GetAttr(ctx.config, key).value else default)
  {
  }
  /**
   * `output_dir` is unset for absent inputs and for a missing or false
   * `output_dir` attribute, and is the attribute's path when it holds one.
   */
  lemma OutputDirCases(ctx: Context)
    ensures ctx.inputs.VNone? ==> ctx.OutputDir() == Ok(None)
    ensures !HasAttr(ctx.inputs, "output_dir") || !Truthy(GetAttr(ctx.inputs, "output_dir").value) ==> ctx.OutputDir() == Ok(None)
    ensures forall p :: GetAttr(ctx.inputs, "output_dir") == Some(VPath(p)) ==> ctx.OutputDir() == Ok(Some(p))
  {
  }

  /**
   * Without a section for the procedure, a key at the top level of the
   * brain-bank configuration is taken from there; a brain-bank configuration
   * that is not a dictionary raises `AttributeError`.
   */
  lemma ConfigTopLevel(ctx: Context, key: string, default: Value, v: Value)
    requires ctx.brainBankConfig.VDict? && Truthy(ctx.brainBankConfig)
    requires Some(ctx.procedureName) !in Keys(ctx.brainBankConfig.entries)
    requires DictGet(ctx.brainBankConfig.entries, Some(key)) == Some(v)
    ensures ctx.GetConfigValue(key, default) == Ok(v)
  {
  }
}
