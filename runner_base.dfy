/**
 * The runner helpers every procedure runner shares: the input-directory and
 * participant checks that raise `InputValidationError`, `_get_image`, the
 * scanner that finds the image name in a `docker run` argument list, and
 * `run_docker` with `ensure_docker_image` over a Docker daemon given as data.
 */
module RunnerBase {
  import opened Options
  import opened Paths
  import opened Values
  import opened Exceptions
  import opened ValidationBase
  import opened Context
  import opened Rules
  import Strings

  // ------------------------------------------------------ input validation

  /** `validate_input_dir(input_dir, dir_type)`: returns only for an existing directory. */
  function ValidateInputDir(fs: FileSystem, inputDir: Path, dirType: string := "Input"): (r: Outcome<()>)
    ensures r.Ok? <==> fs.IsDir(inputDir)
    ensures r.Raised? ==> r.exc.cls == InputValidationError && r.exc.info == NoInfo
    ensures !fs.Exists(inputDir) ==> r.Raised? && r.exc.message == dirType + " directory not found: " + PathString(inputDir)
    ensures fs.Exists(inputDir) && !fs.IsDir(inputDir) ==>
      r.Raised? && r.exc.message == dirType + " path is not a directory: " + PathString(inputDir)
  {
    if !fs.Exists(inputDir) then
      Raised(Simple(InputValidationError, dirType + " directory not found: " + PathString(inputDir)))
    else if !fs.IsDir(inputDir) then
      Raised(Simple(InputValidationError, dirType + " path is not a directory: " + PathString(inputDir)))
    else
      Ok(())
  }

  /** `validate_participant(input_dir, participant, prefix)`: returns only when `<input_dir>/<prefix><participant>` exists. */
  function ValidateParticipant(fs: FileSystem, inputDir: Path, participant: string, prefix: string := "sub-"): (r: Outcome<()>)
    ensures r.Ok? <==> fs.Exists(Child(inputDir, prefix + participant))
    ensures r.Raised? ==> r.exc == Simple(InputValidationError,
      "Participant " + prefix + participant + " not found in " + PathString(inputDir))
  {
    if !fs.Exists(Child(inputDir, prefix + participant)) then
      Raised(Simple(InputValidationError, "Participant " + prefix + participant + " not found in " + PathString(inputDir)))
    else
      Ok(())
  }

  /**
   * The runner's directory check and the pre-validation directory rule agree:
   * over inputs whose attribute is that path, the runner returns exactly when
   * the rule passes, and when it raises, its message is the one the rule records.
   */
  lemma InputDirAgreesWithRule(fs: FileSystem, attr: string, dirType: string, sev: Severity, ctx: Context, p: Path)
    requires GetAttr(ctx.inputs, attr) == Some(VPath(p))
    ensures var r := RuleCheck(DirectoryExists(attr, dirType, sev), ctx, fs);
      && r.Ok?
      && (ValidateInputDir(fs, p, dirType).Ok? <==> r.value.passed)
      && (ValidateInputDir(fs, p, dirType).Raised? ==> ValidateInputDir(fs, p, dirType).exc.message == r.value.message)
  {
    DirectoryExistsVerdict(attr, dirType, sev, ctx, fs);
  }

  /**
   * The runner's participant check and the participant rule agree once the
   * context's input directory is the directory the runner checks.
   */
  lemma ParticipantAgreesWithRule(fs: FileSystem, prefix: string, ctx: Context, inputDir: Path)
    requires ctx.InputDir() == Ok(Some(inputDir))
    ensures var r := RuleCheck(ParticipantExists(prefix), ctx, fs);
      r.Ok? && (ValidateParticipant(fs, inputDir, ctx.participant, prefix).Ok? <==> r.value.passed)
  {
    ParticipantExistsVerdict(prefix, ctx, fs);
  }

  // ------------------------------------------------------------ _get_image

  /** The `docker run` options that take the following argument as their value. */
  const FlagsWithArgs: set<string> := {
    "-e", "--env", "-m", "--memory", "-p", "--publish", "-u", "--user", "-v", "--volume", "-w", "--workdir",
    "--cpus", "--entrypoint", "--gpus", "--log-driver", "--log-opt", "--mount", "--name", "--network", "--pid",
    "--platform", "--shm-size", "--tmpfs"}

  function NotDockerRun(cmd: seq<string>): Exc
  {
    Simple(InputValidationError, "Not a valid docker run command: " + Strings.Join(cmd, " "))
  }

  function NoImage(cmd: seq<string>): Exc
  {
    Simple(InputValidationError, "Could not find Docker image in command: " + Strings.Join(cmd, " "))
  }

  /**
   * The scan of `_get_image` from position `i` of the command: the image is the
   * first token reached that is not an option, and running past the end raises.
   */
  function Scan(cmd: seq<string>, i: nat): (r: Outcome<string>)
    ensures r.Raised? ==> r.exc == NoImage(cmd)
    decreases |cmd| - i
  {
    if i >= |cmd| then Raised(NoImage(cmd))
    else if Strings.StartsWith(cmd[i], "--") && '=' in cmd[i] then Scan(cmd, i + 1)
    else if cmd[i] in FlagsWithArgs then Scan(cmd, i + 2)
    else if Strings.StartsWith(cmd[i], "-") then Scan(cmd, i + 1)
    else Ok(cmd[i])
  }

  /** What `_get_image(cmd)` returns or raises. */
  function ImageOf(cmd: seq<string>): (r: Outcome<string>)
    ensures "run" !in cmd ==> r == Raised(NotDockerRun(cmd))
    ensures "run" in cmd ==> r.Raised? ==> r.exc == NoImage(cmd)
    ensures r.Raised? ==> r.exc.cls == InputValidationError
  {
    var runIdx := Strings.IndexOf(cmd, "run");
    if runIdx == |cmd| then Raised(NotDockerRun(cmd)) else Scan(cmd, runIdx + 1)
  }

  /** The position of the token the scan from `i` finds: at or after `i`, and not an option. */
  lemma {:induction false} ScanPosition(cmd: seq<string>, i: nat) returns (k: nat)
    requires Scan(cmd, i).Ok?
    ensures i <= k < |cmd| && cmd[k] == Scan(cmd, i).value && !Strings.StartsWith(cmd[k], "-")
    decreases |cmd| - i
  {
    if Strings.StartsWith(cmd[i], "--") && '=' in cmd[i] {
      k := ScanPosition(cmd, i + 1);
    } else if cmd[i] in FlagsWithArgs {
      k := ScanPosition(cmd, i + 2);
    } else if Strings.StartsWith(cmd[i], "-") {
      k := ScanPosition(cmd, i + 1);
    } else {
      k := i;
    }
  }

  /** `_get_image(cmd)`: the scanning loop over the tokens after the first "run". */
  method GetImage(cmd: seq<string>) returns (r: Outcome<string>)
    ensures r == ImageOf(cmd)
  {
    var runIdx := Strings.IndexOf(cmd, "run");
    if runIdx == |cmd| {
      return Raised(NotDockerRun(cmd));
    }
    var i := runIdx + 1;
    while i < |cmd|
      invariant runIdx + 1 <= i <= |cmd| + 1
      invariant Scan(cmd, i) == ImageOf(cmd)
      decreases |cmd| + 1 - i
    {
      var arg := cmd[i];
      if Strings.StartsWith(arg, "--") && '=' in arg {
        i := i + 1;
      } else if arg in FlagsWithArgs {
        i := i + 2;
      } else if Strings.StartsWith(arg, "-") {
        i := i + 1;
      } else {
        return Ok(arg);
      }
    }
    return Raised(NoImage(cmd));
  }

  /** Every value-taking option is spelled as an option, so no image name is one of them. */
  lemma FlagsAreOptions()
    ensures forall f :: f in FlagsWithArgs ==> Strings.StartsWith(f, "-")
  {
  }

  /**
   * When no token from position `i` up to position `k` takes a value and all of
   * them are options, the scan returns the token at `k` if that one is not an option.
   */
  lemma {:induction false} ScanFindsFirstPositional(cmd: seq<string>, i: nat, k: nat)
    requires i <= k < |cmd| && !Strings.StartsWith(cmd[k], "-")
    requires forall j :: i <= j < k ==> Strings.StartsWith(cmd[j], "-") && cmd[j] !in FlagsWithArgs
    ensures Scan(cmd, i) == Ok(cmd[k])
    decreases k - i
  {
    FlagsAreOptions();
    if i < k {
      ScanFindsFirstPositional(cmd, i + 1, k);
    }
  }

  /** When every token from position `i` is an option that takes no value, the scan raises. */
  lemma {:induction false} ScanOnlyOptions(cmd: seq<string>, i: nat)
    requires forall j :: i <= j < |cmd| ==> Strings.StartsWith(cmd[j], "-") && cmd[j] !in FlagsWithArgs
    ensures Scan(cmd, i) == Raised(NoImage(cmd))
    decreases |cmd| - i
  {
    if i < |cmd| {
      ScanOnlyOptions(cmd, i + 1);
    }
  }

  /** A value-taking option as the last token leaves no image to find. */
  lemma TrailingValueFlag(cmd: seq<string>, i: nat)
    requires i == |cmd| - 1 && cmd[i] in FlagsWithArgs
    ensures Scan(cmd, i) == Raised(NoImage(cmd))
  {
  }

  /** An option without a value moves the scan one token on; a value-taking one (not in `--x=y` form), two. */
  lemma ScanSteps(cmd: seq<string>, i: nat)
    requires i < |cmd|
    ensures cmd[i] !in FlagsWithArgs && Strings.StartsWith(cmd[i], "-") ==> Scan(cmd, i) == Scan(cmd, i + 1)
    ensures cmd[i] in FlagsWithArgs && !Strings.StartsWith(cmd[i], "--") ==> Scan(cmd, i) == Scan(cmd, i + 2)
  {
  }

  /** A value-taking option not in `--x=y` form. */
  predicate ValueFlag(arg: string)
  {
    arg in FlagsWithArgs && !Strings.StartsWith(arg, "--")
  }

  /** A value-taking option not in `--x=y` form moves the scan two tokens on. */
  lemma ScanPair(cmd: seq<string>, i: nat)
    requires i < |cmd| && ValueFlag(cmd[i])
    ensures Scan(cmd, i) == Scan(cmd, i + 2)
  {
  }

  /** A run of value-taking options, each with its value, is stepped over as a whole. */
  lemma {:induction false} ScanSkipsValuePairs(cmd: seq<string>, i: nat, n: nat)
    requires i + 2 * n <= |cmd|
    requires forall j :: 0 <= j < n ==> ValueFlag(cmd[i + 2 * j])
    ensures Scan(cmd, i) == Scan(cmd, i + 2 * n)
    decreases n
  {
    if n > 0 {
      assert ValueFlag(cmd[i + 2 * 0]);
      ScanPair(cmd, i);
      PairsShift(cmd, i, n);
      ScanSkipsValuePairs(cmd, i + 2, n - 1);
      var e := i + 2 * n;
      assert i + 2 + 2 * (n - 1) == e;
      assert Scan(cmd, i + 2) == Scan(cmd, e);
    }
  }

  /** Past the first pair, the remaining pairs start two tokens later. */
  lemma PairsShift(cmd: seq<string>, i: nat, n: nat)
    requires n > 0 && i + 2 * n <= |cmd|
    requires forall j :: 0 <= j < n ==> ValueFlag(cmd[i + 2 * j])
    ensures forall j :: 0 <= j < n - 1 ==> ValueFlag(cmd[(i + 2) + 2 * j])
  {
    forall j | 0 <= j < n - 1
      ensures ValueFlag(cmd[(i + 2) + 2 * j])
    {
      var j' := j + 1;
      assert ValueFlag(cmd[i + 2 * j']);
      assert i + 2 * j' == (i + 2) + 2 * j;
    }
  }

  /** The options a runner's command uses before the image: `--rm` takes no value, `-e` and `-v` take one. */
  lemma DockerOptions()
    ensures "--rm" !in FlagsWithArgs && Strings.StartsWith("--rm", "-")
    ensures "-e" in FlagsWithArgs && !Strings.StartsWith("-e", "--")
    ensures "-v" in FlagsWithArgs && !Strings.StartsWith("-v", "--")
    ensures ValueFlag("-e") && ValueFlag("-v")
  {
    assert "-e"[1] == 'e';
    assert "-v"[1] == 'v';
  }

  /** A token whose first character is not '-' is not an option. */
  lemma NotAnOption(s: string)
    requires s != [] && s[0] != '-'
    ensures !Strings.StartsWith(s, "-")
  {
    assert s[..1][0] == s[0];
  }

  /** `cmd.index("run")` for a command whose first "run" is its second token. */
  lemma RunSecond(cmd: seq<string>)
    requires |cmd| >= 2 && cmd[0] != "run" && cmd[1] == "run"
    ensures Strings.IndexOf(cmd, "run") == 1
  {
    assert cmd[1..][0] == "run";
  }

  /** The documented example: the volume option's value is skipped and the image is found before the container's own arguments. */
  lemma ImageExample()
    ensures ImageOf(["docker", "run", "--rm", "-v", "/a:/b", "myimage:latest", "--arg1", "val"]) == Ok("myimage:latest")
  {
    var docker, run, rm, v, img := "docker", "run", "--rm", "-v", "myimage:latest";
    NotAnOption(img);
    assert docker[0] != run[0];
    var cmd := [docker, run, rm, v, "/a:/b", img, "--arg1", "val"];
    RunSecond(cmd);
    DockerOptions();
    ScanSteps(cmd, 2);
    ScanSteps(cmd, 3);
    ScanFindsFirstPositional(cmd, 5, 5);
  }

  /** The value of `--name` is not mistaken for the image, and a command without "run" is refused. */
  lemma NamedContainerExample()
    ensures ImageOf(["docker", "run", "--name", "job", "img"]) == Ok("img")
    ensures ImageOf(["docker", "ps"]) == Raised(NotDockerRun(["docker", "ps"]))
  {
    var docker, run := "docker", "run";
    assert docker[0] != run[0];
    assert run !in [docker, "ps"];
    var name, job, image := "--name", "job", "img";
    NotAnOption(image);
    var named := [docker, run, name, job, image];
    RunSecond(named);
    assert name in FlagsWithArgs && '=' !in name;
    assert Scan(named, 2) == Scan(named, 4);
    ScanFindsFirstPositional(named, 4, 4);
  }

  // ------------------------------------------------------------ the module's names

  /** The names `runners/_base.py` binds at module level: what it imports, then the functions it defines. */
  const ModuleNames: seq<string> := [
    "json", "subprocess", "datetime", "Path", "Any", "DependencyError", "InputValidationError",
    "ProcedureExecutionError", "validate_input_dir", "validate_participant", "_get_image",
    "ensure_docker_image", "validate_existing_image", "run_docker"]

  /**
   * `from voxelops.runners._base import name`: the name when the module binds
   * it, else `ImportError` (its message without the module's file path).
   */
  function ImportFromBase(name: string): (r: Outcome<()>)
    ensures r.Ok? <==> name in ModuleNames
    ensures r.Raised? ==> r.exc.cls == ImportError
  {
    if name in ModuleNames then Ok(())
    else Raised(Simple(ImportError, "cannot import name '" + name + "' from 'voxelops.runners._base'"))
  }

  // ------------------------------------------------------------ run_docker

  /** What `subprocess.run` reports for a process that ran to its end. */
  datatype Completed = Completed(returncode: int, stdout: string, stderr: string)

  /** How the container run ends: it completes, it times out, or another exception escapes `subprocess.run`. */
  datatype ProcessOutcome = Finished(result: Completed) | TimedOut(timeout: string) | Failed(error: Exc)

  /**
   * The Docker daemon and the clock as one call of `run_docker` sees them:
   * `docker image inspect`, `docker pull` and the container run itself, the
   * timestamp in the log file's name, the ISO start and end times, and the
   * duration in seconds and as `str(duration)`.
   */
  datatype DockerHost = DockerHost(
    inspect: string -> Outcome<Completed>,
    pull: string -> Outcome<Completed>,
    run: seq<string> -> ProcessOutcome,
    timestamp: string,
    startTime: string,
    endTime: string,
    durationSeconds: Value,
    durationHuman: string)

  /** A helper process that ran and exited with code 0. */
  predicate ExitsZero(o: Outcome<Completed>)
  {
    o.Ok? && o.value.returncode == 0
  }

  /** A helper process that ran and exited with a non-zero code. */
  predicate ExitsNonZero(o: Outcome<Completed>)
  {
    o.Ok? && o.value.returncode != 0
  }

  /** The `DependencyError` of a failed `docker pull`, with its stripped stderr. */
  function PullFailure(image: string, pulled: Completed): (e: Exc)
    ensures e.cls == DependencyError && e.info == DependencyInfo(image)
    ensures e.message == "Failed to pull Docker image '" + image + "'. Make sure the image name is correct and you have network access.\n"
                         + Strings.Strip(pulled.stderr)
  {
    NewDependencyError(image, Some("Failed to pull Docker image '" + image + "'. Make sure the image name is correct and you have network access.\n"
                                   + Strings.Strip(pulled.stderr)))
  }

  /**
   * `ensure_docker_image(cmd)`: the command's image, when `docker image inspect`
   * finds it or else `docker pull` fetches it. A failed pull raises
   * `DependencyError`; an exception of the helper processes escapes as it is.
   */
  function EnsureDockerImage(cmd: seq<string>, host: DockerHost): (r: Outcome<string>)
    ensures ImageOf(cmd).Raised? ==> r == Raised(ImageOf(cmd).exc)
    ensures r.Ok? ==> ImageOf(cmd) == Ok(r.value)
    ensures ImageOf(cmd).Ok? ==>
      var image := ImageOf(cmd).value;
      && (r.Ok? <==> ExitsZero(host.inspect(image)) || (ExitsNonZero(host.inspect(image)) && ExitsZero(host.pull(image))))
      && (ExitsNonZero(host.inspect(image)) && ExitsNonZero(host.pull(image)) ==> r == Raised(PullFailure(image, host.pull(image).value)))
  {
    var image :- ImageOf(cmd);
    var found :- host.inspect(image);
    if found.returncode == 0 then Ok(image)
    else
      var pulled :- host.pull(image);
      if pulled.returncode != 0 then Raised(PullFailure(image, pulled)) else Ok(image)
  }

  /** `s[-n:]` for `n >= 0`: the whole string when it is short, else its last `n` characters. */
  function LastChars(s: string, n: nat): (r: string)
    ensures |r| == if |s| <= n then |s| else n
    ensures s == s[..|s| - |r|] + r
  {
    if |s| <= n then s else s[|s| - n..]
  }

  /** The error message of a non-zero exit: the code, then the end of a captured, non-empty stderr. */
  function ExitFailureMessage(tool: string, res: Completed, capture: bool): string
  {
    tool + " failed with exit code " + Strings.IntToString(res.returncode)
    + (if capture && res.stderr != "" then "\n\nStderr (last 1000 chars):\n" + LastChars(res.stderr, 1000) else "")
  }

  /** `log_dir / f"{tool_name}_{participant}_{timestamp}.json"` when a log directory is given. */
  function ExecutionLogFile(logDir: Option<Path>, tool: string, participant: string, timestamp: string): (f: Option<Path>)
    ensures f.Some? <==> logDir.Some?
    ensures f.Some? ==> Parent(f.value) == logDir.value && Name(f.value) == tool + "_" + participant + "_" + timestamp + ".json"
  {
    if logDir.Some? then Some(Child(logDir.value, tool + "_" + participant + "_" + timestamp + ".json")) else None
  }

  /** The keys of the execution record's display, in the order `run_docker` writes them. */
  const RecordFields: seq<string> := ["tool", "participant", "command", "exit_code", "start_time", "end_time",
                                      "duration_seconds", "duration_human", "success"]

  /** The keys of a returned record: the display's, then `stdout` and `stderr` when captured, then `log_file` when logged. */
  function RecordKeysOf(capture: bool, logged: bool): seq<Key>
  {
    SomeKeys(RecordFields) + (if capture then [Some("stdout"), Some("stderr")] else []) + (if logged then [Some("log_file")] else [])
  }

  /** The keys of the execution record's display, pairwise different. */
  lemma RecordKeysDistinct(keys: seq<string>)
    requires keys == ["tool", "participant", "command", "exit_code", "start_time", "end_time",
                      "duration_seconds", "duration_human", "success"]
    ensures forall i, j :: 0 <= i < j < |keys| ==> keys[i] != keys[j]
  {
    assert keys[0][0] == 't' && keys[1][0] == 'p' && keys[2][0] == 'c' && keys[3][0] == 'e' && keys[4][0] == 's';
    assert keys[5][0] == 'e' && keys[6][0] == 'd' && keys[7][0] == 'd' && keys[8][0] == 's';
    assert keys[3][1] == 'x' && keys[5][1] == 'n' && keys[4][1] == 't' && keys[8][1] == 'u' && keys[6][9] == 's' && keys[7][9] == 'h';
  }

  /**
   * The display `{"tool": …, …, "success": …}` that `run_docker` builds once
   * the process has completed.
   */
  function RecordDisplay(cmd: seq<string>, tool: string, participant: string, res: Completed, host: DockerHost): (d: seq<Entry>)
    ensures DictGet(d, Some("tool")) == Some(VStr(tool))
    ensures DictGet(d, Some("participant")) == Some(VStr(participant))
    ensures DictGet(d, Some("exit_code")) == Some(VInt(res.returncode))
    ensures DictGet(d, Some("success")) == Some(VBool(res.returncode == 0))
    ensures DictGet(d, Some("command")) == Some(VList(Strs(cmd)))
    ensures DictGet(d, Some("start_time")) == Some(VStr(host.startTime))
    ensures DictGet(d, Some("end_time")) == Some(VStr(host.endTime))
    ensures DictGet(d, Some("duration_seconds")) == Some(host.durationSeconds)
    ensures DictGet(d, Some("duration_human")) == Some(VStr(host.durationHuman))
    ensures DictGet(d, Some("stdout")).None? && DictGet(d, Some("stderr")).None? && DictGet(d, Some("log_file")).None?
    ensures Keys(d) == SomeKeys(RecordFields)
  {
    var keys := RecordFields;
    var vals := [VStr(tool), VStr(participant), VList(Strs(cmd)), VInt(res.returncode), VStr(host.startTime),
                 VStr(host.endTime), host.durationSeconds, VStr(host.durationHuman), VBool(res.returncode == 0)];
    RecordKeysDistinct(keys);
    EntriesOfGet(keys, vals);
    RecordLacks(keys, vals);
    EntriesOfKeys(keys, vals);
    assert keys[0] == "tool" && keys[1] == "participant" && keys[3] == "exit_code" && keys[8] == "success";
    assert keys[2] == "command" && keys[4] == "start_time" && keys[5] == "end_time" && keys[6] == "duration_seconds" && keys[7] == "duration_human";
    EntriesOf(keys, vals)
  }

  /** The display has no `stdout`, `stderr` or `log_file` key. */
  lemma RecordLacks(keys: seq<string>, vals: seq<Value>)
    requires |keys| == |vals|
    requires keys == ["tool", "participant", "command", "exit_code", "start_time", "end_time",
                      "duration_seconds", "duration_human", "success"]
    ensures DictGet(EntriesOf(keys, vals), Some("stdout")).None?
    ensures DictGet(EntriesOf(keys, vals), Some("stderr")).None?
    ensures DictGet(EntriesOf(keys, vals), Some("log_file")).None?
  {
    EntriesOfKeys(keys, vals);
    forall i | 0 <= i < |keys|
      ensures keys[i] != "stdout" && keys[i] != "stderr" && keys[i] != "log_file"
    {
      assert |keys[i]| != 6;
      if |keys[i]| == 8 {
        assert keys[i][0] == 'e';
      }
    }
    assert Some("stdout") !in SomeKeys(keys);
    assert Some("stderr") !in SomeKeys(keys);
    assert Some("log_file") !in SomeKeys(keys);
  }

  /** `record["stdout"]`, `record["stderr"]` when output is captured, then `record["log_file"]` when a log file is kept. */
  function WithOutputs(d: seq<Entry>, capture: bool, res: Completed, logFile: Option<Path>): seq<Entry>
  {
    var captured := if capture then DictPut(DictPut(d, Some("stdout"), VStr(res.stdout)), Some("stderr"), VStr(res.stderr)) else d;
    if logFile.Some? then DictPut(captured, Some("log_file"), VStr(PathString(logFile.value))) else captured
  }

  /** What each key reads after the additions: the added value for an added key, the display's otherwise. */
  lemma WithOutputsGet(d: seq<Entry>, capture: bool, res: Completed, logFile: Option<Path>, k: Key)
    ensures DictGet(WithOutputs(d, capture, res, logFile), k) ==
      if k == Some("log_file") && logFile.Some? then Some(VStr(PathString(logFile.value)))
      else if k == Some("stderr") && capture then Some(VStr(res.stderr))
      else if k == Some("stdout") && capture then Some(VStr(res.stdout))
      else DictGet(d, k)
  {
    var ko, ke, kl := Some("stdout"), Some("stderr"), Some("log_file");
    assert ko != ke && ko != kl && ke != kl by {
      assert ko.value[3] == 'o' && ke.value[3] == 'e' && kl.value[0] == 'l';
    }
    var captured := if capture then DictPut(DictPut(d, ko, VStr(res.stdout)), ke, VStr(res.stderr)) else d;
    if capture {
      DictPutGet(d, ko, VStr(res.stdout), k);
      DictPutGet(DictPut(d, ko, VStr(res.stdout)), ke, VStr(res.stderr), k);
    }
    if logFile.Some? {
      DictPutGet(captured, kl, VStr(PathString(logFile.value)), k);
    }
  }

  /** None of the added keys is a key the display's contract reads. */
  lemma LaterKeys()
    ensures var added := [Some("stdout"), Some("stderr"), Some("log_file")];
      forall k :: k in added ==> k != Some("tool") && k != Some("participant") && k != Some("exit_code") && k != Some("success")
    ensures var added := [Some("stdout"), Some("stderr"), Some("log_file")];
      forall k :: k in added ==> k != Some("command") && k != Some("start_time") && k != Some("end_time")
                                 && k != Some("duration_seconds") && k != Some("duration_human")
  {
    assert "stdout"[1] == 't' && "stderr"[1] == 't' && "log_file"[0] == 'l' && "success"[1] == 'u' && "end_time"[0] == 'e';
  }

  /** Adding the outputs to a display that lacks them appends their keys, in the order they are written. */
  lemma WithOutputsKeys(d: seq<Entry>, capture: bool, res: Completed, logFile: Option<Path>)
    requires Some("stdout") !in Keys(d) && Some("stderr") !in Keys(d) && Some("log_file") !in Keys(d)
    ensures Keys(WithOutputs(d, capture, res, logFile)) ==
      Keys(d) + (if capture then [Some("stdout"), Some("stderr")] else []) + (if logFile.Some? then [Some("log_file")] else [])
  {
    var ko, ke, kl := Some("stdout"), Some("stderr"), Some("log_file");
    assert ko != ke && ko != kl && ke != kl by {
      assert ko.value[3] == 'o' && ke.value[3] == 'e' && kl.value[0] == 'l';
    }
    var added: seq<Key> := if capture then [ko, ke] else [];
    var captured := if capture then DictPut(DictPut(d, ko, VStr(res.stdout)), ke, VStr(res.stderr)) else d;
    assert Keys(captured) == Keys(d) + added;
    assert kl !in Keys(d) + added;
  }

  /** The execution record of a completed run: the display and the added outputs. */
  function ExecutionRecord(cmd: seq<string>, tool: string, participant: string, res: Completed, capture: bool,
                           logFile: Option<Path>, host: DockerHost): (r: seq<Entry>)
    ensures DictGet(r, Some("tool")) == Some(VStr(tool))
    ensures DictGet(r, Some("participant")) == Some(VStr(participant))
    ensures DictGet(r, Some("exit_code")) == Some(VInt(res.returncode))
    ensures DictGet(r, Some("success")) == Some(VBool(res.returncode == 0))
    ensures capture ==> DictGet(r, Some("stdout")) == Some(VStr(res.stdout)) && DictGet(r, Some("stderr")) == Some(VStr(res.stderr))
    ensures !capture ==> DictGet(r, Some("stdout")).None? && DictGet(r, Some("stderr")).None?
    ensures DictGet(r, Some("log_file")) == if logFile.Some? then Some(VStr(PathString(logFile.value))) else None
    ensures DictGet(r, Some("command")) == Some(VList(Strs(cmd)))
    ensures DictGet(r, Some("start_time")) == Some(VStr(host.startTime))
    ensures DictGet(r, Some("end_time")) == Some(VStr(host.endTime))
    ensures DictGet(r, Some("duration_seconds")) == Some(host.durationSeconds)
    ensures DictGet(r, Some("duration_human")) == Some(VStr(host.durationHuman))
    ensures Keys(r) == RecordKeysOf(capture, logFile.Some?)
  {
    var d := RecordDisplay(cmd, tool, participant, res, host);
    LaterKeys();
    WithOutputsKeys(d, capture, res, logFile);
    WithOutputsGet(d, capture, res, logFile, Some("command"));
    WithOutputsGet(d, capture, res, logFile, Some("start_time"));
    WithOutputsGet(d, capture, res, logFile, Some("end_time"));
    WithOutputsGet(d, capture, res, logFile, Some("duration_seconds"));
    WithOutputsGet(d, capture, res, logFile, Some("duration_human"));
    WithOutputsGet(d, capture, res, logFile, Some("tool"));
    WithOutputsGet(d, capture, res, logFile, Some("participant"));
    WithOutputsGet(d, capture, res, logFile, Some("exit_code"));
    WithOutputsGet(d, capture, res, logFile, Some("success"));
    WithOutputsGet(d, capture, res, logFile, Some("stdout"));
    WithOutputsGet(d, capture, res, logFile, Some("stderr"));
    WithOutputsGet(d, capture, res, logFile, Some("log_file"));
    WithOutputs(d, capture, res, logFile)
  }

  /**
   * `run_docker(cmd, tool_name, participant, log_dir, capture_output)`: the
   * image is made available first, then the container runs. A run that exits
   * with code 0 returns its execution record; a non-zero exit, a timeout and
   * any other exception of the run raise `ProcedureExecutionError`, and an
   * exception of the image check escapes unchanged.
   */
  function RunDocker(cmd: seq<string>, tool: string, participant: string, logDir: Option<Path>, capture: bool,
                     host: DockerHost): (r: Outcome<seq<Entry>>)
    ensures EnsureDockerImage(cmd, host).Raised? ==> r == Raised(EnsureDockerImage(cmd, host).exc)
    ensures EnsureDockerImage(cmd, host).Ok? ==>
      (r.Ok? <==> host.run(cmd).Finished? && host.run(cmd).result.returncode == 0)
    ensures EnsureDockerImage(cmd, host).Ok? && r.Raised? ==> IsInstance(r.exc, ProcedureExecutionError)
    ensures r.Ok? ==>
      && DictGet(r.value, Some("success")) == Some(VBool(true))
      && DictGet(r.value, Some("exit_code")) == Some(VInt(0))
      && DictGet(r.value, Some("tool")) == Some(VStr(tool))
      && DictGet(r.value, Some("participant")) == Some(VStr(participant))
      && DictGet(r.value, Some("log_file")) ==
           (var f := ExecutionLogFile(logDir, tool, participant, host.timestamp); if f.Some? then Some(VStr(PathString(f.value))) else None)
      && DictGet(r.value, Some("command")) == Some(VList(Strs(cmd)))
      && DictGet(r.value, Some("start_time")) == Some(VStr(host.startTime))
      && DictGet(r.value, Some("end_time")) == Some(VStr(host.endTime))
      && DictGet(r.value, Some("duration_seconds")) == Some(host.durationSeconds)
      && DictGet(r.value, Some("duration_human")) == Some(VStr(host.durationHuman))
      && Keys(r.value) == RecordKeysOf(capture, logDir.Some?)
    ensures EnsureDockerImage(cmd, host).Ok? && host.run(cmd).Finished? && host.run(cmd).result.returncode != 0 ==>
      r == Raised(NewProcedureExecutionError(tool, ExitFailureMessage(tool, host.run(cmd).result, capture), None))
    ensures EnsureDockerImage(cmd, host).Ok? && host.run(cmd).TimedOut? ==>
      r == Raised(NewProcedureExecutionError(tool, "Process timed out after " + host.run(cmd).timeout + " seconds", None))
    ensures EnsureDockerImage(cmd, host).Ok? && host.run(cmd).Failed? ==>
      var e := host.run(cmd).error;
      r == Raised(if IsInstance(e, ProcedureExecutionError) then e else NewProcedureExecutionError(tool, e.message, Some(e)))
  {
    var image :- EnsureDockerImage(cmd, host);
    match host.run(cmd)
    case TimedOut(t) => Raised(NewProcedureExecutionError(tool, "Process timed out after " + t + " seconds", None))
    case Failed(e) =>
      if IsInstance(e, ProcedureExecutionError) then Raised(e)
      else Raised(NewProcedureExecutionError(tool, e.message, Some(e)))
    case Finished(res) =>
      if res.returncode != 0 then Raised(NewProcedureExecutionError(tool, ExitFailureMessage(tool, res, capture), None))
      else Ok(ExecutionRecord(cmd, tool, participant, res, capture, ExecutionLogFile(logDir, tool, participant, host.timestamp), host))
  }
}
