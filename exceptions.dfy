/**
 * The package's exception hierarchy (rooted at `YALabProcedureError`), the
 * built-in exceptions the core raises, and `Outcome`, the result of an
 * operation that either returns or lets an exception escape.
 */
module Exceptions {
  import opened Options
  import Strings

  datatype ExcClass =
    // built-in classes raised by the core or by `argparse`
    | ValueError | TypeError | AttributeError | KeyError | ArgumentTypeError | NotADirectoryError | ImportError
    // the package's own hierarchy
    | ProcedureError
    | ProcedureExecutionError
    | ProcedureConfigurationError
    | InputValidationError
    | OutputCollectionError
    | DockerExecutionError
    | FreeSurferLicenseError
    | BIDSValidationError
    | DependencyError

  /** How far a class sits below `Exception`. */
  function Depth(c: ExcClass): nat
  {
    match c
    case ProcedureExecutionError | ProcedureConfigurationError | InputValidationError
      | OutputCollectionError | BIDSValidationError | DependencyError => 1
    case DockerExecutionError | FreeSurferLicenseError => 2
    case _ => 0
  }

  /** The direct base class, `None` for classes deriving directly from `Exception`. */
  function Base(c: ExcClass): (r: Option<ExcClass>)
    ensures r.Some? <==> Depth(c) > 0
    ensures r.Some? ==> Depth(r.value) == Depth(c) - 1
  {
    match c
    case ProcedureExecutionError | ProcedureConfigurationError | InputValidationError
      | OutputCollectionError | BIDSValidationError | DependencyError => Some(ProcedureError)
    case DockerExecutionError => Some(ProcedureExecutionError)
    case FreeSurferLicenseError => Some(ProcedureConfigurationError)
    case _ => None
  }

  /** `issubclass(c, d)`. */
  predicate IsSubclass(c: ExcClass, d: ExcClass)
    decreases Depth(c)
  {
    c == d || (Base(c).Some? && IsSubclass(Base(c).value, d))
  }

  /** The attributes a class adds beyond its message. */
  datatype ExcInfo =
    | NoInfo
    | ExecutionInfo(procedureName: string, originalError: Option<Exc>)
    | DockerInfo(dockerProcedure: string, container: string, exitCode: int, stderr: string)
    | DependencyInfo(dependency: string)

  /** A raised exception; `message` is `str(e)`. */
  datatype Exc = Exc(cls: ExcClass, message: string, info: ExcInfo)

  predicate IsInstance(e: Exc, c: ExcClass)
  {
    IsSubclass(e.cls, c)
  }

  /** The value of an operation, or the exception that escaped it. */
  datatype Outcome<T> = Ok(value: T) | Raised(exc: Exc)
  {
    predicate IsFailure()
    {
      Raised?
    }

    function PropagateFailure<U>(): Outcome<U>
      requires Raised?
    {
      Raised(exc)
    }

    function Extract(): T
      requires Ok?
    {
      value
    }
  }

  /** An exception of a class whose constructor takes only a message. */
  function Simple(c: ExcClass, message: string): Exc
  {
    Exc(c, message, NoInfo)
  }

  /** `ProcedureExecutionError(procedure_name, message, original_error)`. */
  function NewProcedureExecutionError(procedureName: string, message: string, originalError: Option<Exc>): (e: Exc)
    ensures IsInstance(e, ProcedureError) && IsInstance(e, ProcedureExecutionError)
    ensures e.message == procedureName + " failed: " + message
    ensures e.info == ExecutionInfo(procedureName, originalError)
  {
    Exc(ProcedureExecutionError, procedureName + " failed: " + message, ExecutionInfo(procedureName, originalError))
  }

  /** The stderr excerpt a Docker failure message carries: at most 500 characters, then "...". */
  function StderrPreview(stderr: string): (r: string)
    ensures |stderr| <= 500 ==> r == stderr
    ensures |stderr| > 500 ==> |r| == 503 && r == stderr[..500] + "..."
  {
    if |stderr| > 500 then stderr[..500] + "..." else stderr
  }

  /**
   * `DockerExecutionError(procedure_name, container, exit_code, stderr)`: a
   * `ProcedureExecutionError` whose message names the container and exit code
   * and, when stderr is non-empty, ends with its preview.
   */
  function NewDockerExecutionError(procedureName: string, container: string, exitCode: int, stderr: string): (e: Exc)
    ensures IsInstance(e, ProcedureExecutionError) && IsInstance(e, ProcedureError)
    ensures var head := procedureName + " failed: Docker container '" + container + "' exited with code "
                        + Strings.IntToString(exitCode);
            if stderr == [] then e.message == head else e.message == head + ": " + StderrPreview(stderr)
    ensures e.info == DockerInfo(procedureName, container, exitCode, stderr)
  {
    var head := procedureName + " failed: Docker container '" + container + "' exited with code "
                + Strings.IntToString(exitCode);
    Exc(DockerExecutionError, if stderr == [] then head else head + ": " + StderrPreview(stderr),
        DockerInfo(procedureName, container, exitCode, stderr))
  }

  const DefaultLicenseMessage: string :=
    "FreeSurfer license not found. Set FS_LICENSE or FREESURFER_HOME environment variable, "
    + "or provide fs_license_file parameter."

  /** `FreeSurferLicenseError(message)`: the default text only when no message is given at all. */
  function NewFreeSurferLicenseError(message: Option<string>): (e: Exc)
    ensures IsInstance(e, ProcedureConfigurationError) && IsInstance(e, ProcedureError)
    ensures e.message == if message.Some? then message.value else DefaultLicenseMessage
  {
    Simple(FreeSurferLicenseError, message.GetOr(DefaultLicenseMessage))
  }

  /** `DependencyError(dependency, message)`. */
  function NewDependencyError(dependency: string, message: Option<string>): (e: Exc)
    ensures IsInstance(e, ProcedureError)
    ensures e.info == DependencyInfo(dependency)
    ensures message.Some? ==> e.message == message.value
    ensures message.None? ==> e.message == "Required dependency '" + dependency + "' is not available"
  {
    Exc(DependencyError, message.GetOr("Required dependency '" + dependency + "' is not available"),
        DependencyInfo(dependency))
  }

  /** Every class of the package derives from `YALabProcedureError`; the built-in ones do not. */
  lemma PackageHierarchy(c: ExcClass)
    ensures IsSubclass(c, ProcedureError) <==> !(c in {ValueError, TypeError, AttributeError, KeyError, ArgumentTypeError, NotADirectoryError, ImportError})
  {
  }
}
