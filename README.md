# VoxelOps core, modelled in Dafny

VoxelOps runs neuroimaging procedures for a brain bank: DICOM-to-BIDS conversion (HeudiConv), diffusion preprocessing (QSIPrep), reconstruction (QSIRecon), parcellation (QSIParc) and FreeSurfer cortical reconstruction. Each procedure has an input schema, an output schema and a configuration schema. Each has a validator with pre- and post-execution rules and a runner that builds a `docker run` command. An orchestrator ties these together: it validates, executes, validates again, and writes an audit log as it goes.

This project models that core and proves properties of the model:

- the exception hierarchy and the messages of its constructors (`exceptions.dfy`);
- validation results, reports, rules, validators and the four procedure validators (`validation_*.dfy`, `validator_base.dfy`, `validators_procedures.dfy`);
- the validation context and its derived directories and configuration look-ups (`validation_context.dfy`);
- the audit records and the audit logger, which appends to a log file on a mutable disk (`audit_*.dfy`, `disk.dfy`);
- the procedure result and the orchestrator's `run_procedure` (`procedure_result.dfy`, `orchestrator.dfy`, `serialize.dfy`);
- the five schema modules (`schema_*.dfy`, with the shared nested dictionaries in `workflow_maps.dfy`);
- the shared runner helpers and the FreeSurfer runner (`runner_base.dfy`, `runner_freesurfer.dfy`);
- the command-line helpers `parse_key_value_pairs`, the sanitizers and `print_result_summary` (`cli_parsers.dfy`, `cli_common.dfy`).

Python's runtime is modelled in small shared modules:

- `Values` holds Python values: `None`, booleans, integers, strings, paths, lists, tuples, insertion-ordered dictionaries, and dataclass instances as named fields. It also has `getattr`, `hasattr`, truthiness, `str` and `repr`.
- `Exceptions.Outcome` is a value or a raised exception.
- `Paths` holds paths as lists of parts. Its filesystem is a value recording existing directories and files, `iterdir` listings and `glob` answers.
- `Strings`, `Sorting` and `Dicts` cover `str` methods, `sorted` and generic ordered dictionaries.

Code that loops or updates state is modelled as methods with loops or as a class. Each is proved equal to a function that specifies it, and the properties are proved about that function. Examples:

- the rule loops of a validator;
- the nested loops of `from_inputs` and `exist()`;
- the `_get_image` scanner;
- the FreeSurfer command builders;
- the override loop;
- the audit logger's appends.

## Model

| member | source | states |
|---|---|---|
| `Exceptions.Base` | src/voxelops/exceptions.py:10-136 | each class's direct base: the package's classes sit one level below `YALabProcedureError`, `DockerExecutionError` under `ProcedureExecutionError` and `FreeSurferLicenseError` under `ProcedureConfigurationError` |
| `Exceptions.PackageHierarchy` | src/voxelops/exceptions.py:10-159 | a class derives from `ProcedureError` (the alias of `YALabProcedureError`) exactly when it is one of the package's own classes |
| `Exceptions.NewProcedureExecutionError` | src/voxelops/exceptions.py:34-43 | the message is exactly "NAME failed: MESSAGE"; the procedure name and original error are kept; the exception is a `ProcedureError` |
| `Exceptions.StderrPreview` | src/voxelops/exceptions.py:101-104 | stderr of at most 500 characters is kept whole; a longer one is cut to its first 500 characters followed by "..." (503 in all) |
| `Exceptions.NewDockerExecutionError` | src/voxelops/exceptions.py:90-106 | a `ProcedureExecutionError` whose message names the container and the exit code, with ": " and the stderr preview appended only when stderr is non-empty |
| `Exceptions.NewFreeSurferLicenseError` | src/voxelops/exceptions.py:115-122 | a `ProcedureConfigurationError` whose message is the given one, or the default license text when none is given |
| `Exceptions.NewDependencyError` | src/voxelops/exceptions.py:150-154 | keeps the dependency name; the message is the given one, or "Required dependency 'X' is not available" when none is given |
| `ProcedureResult.Result.DurationSeconds` | src/voxelops/procedures/result.py:54-59 | a duration exists exactly when the end time does, and start plus duration is the end |
| `ProcedureResult.Result.FailureReason` | src/voxelops/procedures/result.py:88-112 | no reason exactly when the status is success |
| `ProcedureResult.FailureReasonCases` | src/voxelops/procedures/result.py:96-112 | the reason chosen for each failed status: the first pre- or post-validation error, the execution's `error` or "Unknown error", and "Failed with status: S" when the matching artifact is absent, empty or has no errors |
| `ProcedureResult.FailureReasonPrefix` | src/voxelops/procedures/result.py:96-112 | every failed result has a reason, and it is prefixed by the failed stage or is the status fallback |
| `ProcedureResult.Result.ToDict` | src/voxelops/procedures/result.py:66-86 | a dictionary with one entry per result key |
| `ProcedureResult.ResultDictShape` | src/voxelops/procedures/result.py:66-86 | the thirteen keys in order |
| `ProcedureResult.ResultDictValues` | src/voxelops/procedures/result.py:66-86 | `status` is the status name, `success` true exactly for success; end time, duration and the two reports are `None` exactly when absent |
| `ProcedureResult.ResultDictNestsReports` | src/voxelops/procedures/result.py:78-83 | present validation reports are nested as their own `to_dict()` |
| `ValidationBase.ResultToDict` | src/voxelops/validation/base.py:28-38 | the result's dictionary has the keys `rule_name` … `details` in order, and `passed` holds the result's flag |
| `ValidationBase.PassResult` | src/voxelops/validation/base.py:78-87 | a passed result carrying the rule's name, description and severity, the message and the details |
| `ValidationBase.FailResult` | src/voxelops/validation/base.py:89-98 | a failed result carrying the rule's name, description and severity, the message and the details |
| `ValidationBase.PassedIffNoErrors` | src/voxelops/validation/base.py:115-123 | a report passes exactly when its `errors` list is empty, i.e. when no result is a failed error (so an empty report passes) |
| `ValidationBase.PassedIgnoresWarnings` | src/voxelops/validation/base.py:115-118 | adding a failed warning or info result never changes whether a report passes |
| `ValidationBase.CountsPartition` | src/voxelops/validation/base.py:120-133 | errors, warnings, passed checks and failed infos split the results: their counts add up to the total |
| `ValidationBase.Filter` | src/voxelops/validation/base.py:120-133 | `errors`, `warnings` and `passed_checks` hold only results that satisfy their test, and no more results than there are |
| `ValidationBase.FilterKeeps` | src/voxelops/validation/base.py:120-133 | every result that satisfies the test is in the filtered list |
| `ValidationBase.FilterAppend` | src/voxelops/validation/base.py:120-133 | the filters keep the order of the results: filtering a concatenation concatenates the filtered parts |
| `ValidationBase.ReportDictCounts` | src/voxelops/validation/base.py:135-149 | `total_checks` is the number of results, `passed` is true exactly when `error_count` is zero, and the three counts add up to at most `total_checks` |
| `ValidationBase.SummaryStatus` | src/voxelops/validation/base.py:151-159 | the summary begins with "PHASE validation PASSED" exactly when the report passes |
| `Context.ToPath` | src/voxelops/validation/context.py:47 | `Path(value)` succeeds exactly for a string or a path, giving the path `Values.AsPath` makes of it, and raises `TypeError` otherwise |
| `Context.FirstSet` | src/voxelops/validation/context.py:43-46 | the first attribute in order that is present with a value other than `None`; every earlier one is missing or `None` |
| `Context.FirstDirAttr` | src/voxelops/validation/context.py:43-48 | no directory when every attribute is unset; otherwise the first set attribute converted with `Path`, or the exception `Path` raises |
| `Context.InputDirPrefersBids` | src/voxelops/validation/context.py:36-48 | a `bids_dir` path is the input directory whatever the other attributes hold |
| `Context.FirstDirAttrSkips` | src/voxelops/validation/context.py:43-47 | unset attributes before the first set one are passed over |
| `Context.InputDirSkipsUnset` | src/voxelops/validation/context.py:36-48 | with `bids_dir` … up to position k unset, the input directory is the path at position k of the fixed order |
| `Context.OutputDirCases` | src/voxelops/validation/context.py:50-58 | no output directory for absent inputs or a missing or false `output_dir`; the attribute's path otherwise |
| `Context.ParticipantDirShape` | src/voxelops/validation/context.py:60-79 | the participant directory exists exactly when the input directory does, and is it extended by `sub-P` and, for a non-empty session, `ses-S` |
| `Context.ConfigSectionWins` | src/voxelops/validation/context.py:81-88 | a key in the procedure's section of the brain-bank configuration is returned before anything else |
| `Context.ConfigTopLevel` | src/voxelops/validation/context.py:84-91 | without a procedure section, a key at the top level of the brain-bank configuration is returned |
| `Context.ConfigFallback` | src/voxelops/validation/context.py:93-97 | without a brain-bank configuration, the config object's attribute, else the default |
| `Rules.FileNames` | src/voxelops/validation/rules/common.py:467 | `found_files`: the name of each path found, as a string, in the order found |
| `Rules.Strs` | src/voxelops/validation/rules/common.py:632-640 | the missing labels as string values, each the label itself, in order |
| `Rules.ScanLeaves` | src/voxelops/validation/rules/common.py:625-631 | the loop over a `{key: path}` mapping adds to what was collected exactly the found and missing labels of the mapping, or lets the first non-path's exception escape |
| `Rules.LeafScanRaisedExtends` | src/voxelops/validation/rules/common.py:627-631 | an exception in the loop ends it: the whole scan raises what the prefix raised |
| `Rules.NestedScanRaisedExtends` | src/voxelops/validation/rules/common.py:614-624 | an exception in the nested loop ends it: the whole scan raises what the prefix raised |
| `Rules.ScanNested` | src/voxelops/validation/rules/common.py:614-624 | the nested loop over `{key1: {key2: path}}` collects the found and missing labels of every inner mapping in order |
| `Rules.CheckRule` | src/voxelops/validation/rules/common.py:585-645 | running a rule's check, loops included, gives the rule's result or the exception that escapes it |
| `Rules.DirectoryExistsVerdict` | src/voxelops/validation/rules/common.py:97-144 | fails without inputs or attribute, passes for a `None` attribute, otherwise passes exactly when the path is a directory; a non-path value raises `TypeError`; the rule is named `ATTR_exists` and keeps its severity |
| `Rules.FileExistsVerdict` | src/voxelops/validation/rules/common.py:149-215 | reads the inputs or the config; fails without source or attribute, passes for `None`, otherwise passes exactly when the path is a regular file |
| `Rules.ParticipantExistsVerdict` | src/voxelops/validation/rules/common.py:225-255 | passes exactly when there is an input directory and `<input_dir>/<prefix><participant>` exists |
| `Rules.OutputDirectoryVerdict` | src/voxelops/validation/rules/common.py:260-297 | fails without expected outputs or with an unset path, otherwise passes exactly when the path exists; always an error-severity rule |
| `Rules.GlobVerdict` | src/voxelops/validation/rules/common.py:419-479 | passes exactly when the base directory is known and exists, the participant (and session) directory exists for a participant-level search, and the glob finds at least `min_count` files |
| `Rules.BaseDirOfUnsetInput` | src/voxelops/validation/rules/common.py:404-408 | an inputs attribute that holds `None` is still taken as the base directory, and `Path(None)` raises `TypeError` |
| `Rules.GlobRuleName` | src/voxelops/validation/rules/common.py:399 | for every file type: the name is the file type with each character lower-cased and each space turned into `_`, followed by `_exist`; a character of the name is `_` exactly where the file type has a space or an underscore |
| `Rules.GlobRuleNameExample` | src/voxelops/validation/rules/common.py:399 | example: one concrete file type and its rule name |
| `Rules.LeafScanAccounts` | src/voxelops/validation/rules/common.py:625-645 | scanning a flat mapping succeeds exactly when every value is a path; then each entry is found or missing, and nothing is missing exactly when every path exists |
| `Rules.EntryValues` | src/voxelops/validation/rules/common.py:616-617 | the values of a mapping, in order |
| `Rules.LeavesOfNested` | src/voxelops/validation/rules/common.py:614-617 | the leaves of a mapping of mappings are exactly the values of its inner mappings |
| `Rules.NestedScanAccounts` | src/voxelops/validation/rules/common.py:614-645 | scanning a nested mapping succeeds exactly when it is a mapping of mappings of paths; then each leaf is found or missing, and nothing is missing exactly when every leaf exists |
| `Rules.ScanVerdictPasses` | src/voxelops/validation/rules/common.py:633-645 | a finished scan passes exactly when nothing is missing |
| `Rules.WorkflowRuleScans` | src/voxelops/validation/validators/qsirecon.py:21-52 | with expected outputs present, a workflow rule's result is the verdict on the nested scan of its mapping |
| `Rules.WorkflowReportsVerdict` | src/voxelops/validation/validators/qsirecon.py:14-52 | the workflow-report rule passes exactly when every expected report exists |
| `Rules.WorkflowDirsVerdict` | src/voxelops/validation/validators/qsiparc.py:14-52 | the workflow-directory rule passes exactly when every expected dwi directory exists |
| `Rules.ExpectedOutputsVerdict` | src/voxelops/validation/rules/common.py:585-645 | a single path passes exactly when it exists; a flat mapping of paths passes exactly when all of them exist |
| `Rules.RuleCheckCarriesMeta` | src/voxelops/validation/base.py:78-98 | every library rule's result carries the rule's own name, description and severity |
| `Rules.HtmlReportVerdict` | src/voxelops/validation/validators/qsiprep.py:21-37 | fails without expected outputs, raises `AttributeError` without a report attribute, otherwise passes exactly when the report exists |
| `ValidatorBase.Active` | src/voxelops/validation/validators/base.py:113-114 | the rules not skipped for the context, a sub-list of the declared rules |
| `ValidatorBase.RunRulesRaisedExtends` | src/voxelops/validation/validators/base.py:113-116 | a check that raises ends the loop: running more rules raises the same exception |
| `ValidatorBase.RunPhase` | src/voxelops/validation/validators/base.py:112-116 | the loop collects the results of the rules not skipped, or lets the first exception of a check escape |
| `ValidatorBase.ValidatePre` | src/voxelops/validation/validators/base.py:99-124 | a "pre" report for the validator's procedure, the context's participant and session, holding the collected results; raises exactly when a check raised |
| `ValidatorBase.ValidatePost` | src/voxelops/validation/validators/base.py:126-151 | the same for the post rules and a "post" report |
| `ValidatorBase.ValidateAll` | src/voxelops/validation/validators/base.py:153-163 | both reports when neither phase raises; an exception of the pre phase escapes first, and otherwise the post phase's exception escapes |
| `ValidatorBase.RunRulesChecksActive` | src/voxelops/validation/validators/base.py:112-116 | every rule not skipped is checked exactly once, in order, and the i-th result is the i-th such rule's check |
| `ValidatorBase.LibraryRulesAllActive` | src/voxelops/validation/base.py:70-76 | no library rule overrides `skip_condition`, so none is skipped |
| `ValidatorBase.BaseValidatorReportsPass` | src/voxelops/validation/validators/base.py:95-97 | the base validator has no rules, so both its reports are empty and pass |
| `ValidatorBase.LibraryRunPasses` | src/voxelops/validation/validators/base.py:112-124 | for error-severity library rules, the report passes exactly when every check passes |
| `ValidatorBase.NoBlockingFailureSnoc` | src/voxelops/validation/base.py:115-118 | one more result blocks the report exactly when it is a failed error |
| `ValidatorBase.RunPassesSnoc` | src/voxelops/validation/validators/base.py:112-124 | appending a returning error-severity library rule keeps the run returning, and it passes exactly when it passed before and the new rule passes |
| `ProcedureValidators.HeudiConvPrePasses` | src/voxelops/validation/validators/heudiconv.py:17-28 | HeudiConv's pre-validation returns, and passes exactly when the DICOM directory is a directory, a given heuristic is a file, and the participant's directory holds a `.dcm` file |
| `ProcedureValidators.HeudiConvPostPasses` | src/voxelops/validation/validators/heudiconv.py:30-34 | post-validation passes exactly when the BIDS and participant directories exist |
| `ProcedureValidators.QSIPrepPrePasses` | src/voxelops/validation/validators/qsiprep.py:45-80 | QSIPrep's pre-validation returns, and passes exactly when the BIDS directory is a directory holding the participant and all four DWI/bval/bvec/T1w globs find a file |
| `ProcedureValidators.QSIPrepPostPasses` | src/voxelops/validation/validators/qsiprep.py:82-87 | post-validation passes exactly when the output directory, the participant directory and the HTML report exist |
| `ProcedureValidators.QSIReconPrePasses` | src/voxelops/validation/validators/qsirecon.py:60-80 | with the QSIPrep directory as input directory, pre-validation passes exactly when it is a directory holding the participant and both globs find a file |
| `ProcedureValidators.QSIReconPostPasses` | src/voxelops/validation/validators/qsirecon.py:82-98 | only the output-directory rule is active after execution: it passes exactly when that directory exists |
| `ProcedureValidators.QSIParcPrePasses` | src/voxelops/validation/validators/qsiparc.py:60-71 | with the QSIRecon directory as input directory, pre-validation passes exactly when it holds the participant and a NIfTI file below it |
| `ProcedureValidators.QSIParcPostPasses` | src/voxelops/validation/validators/qsiparc.py:73-87 | post-validation passes exactly when the output directory and every workflow dwi directory exist and a TSV file is found below the output directory |
| `ProcedureValidators.QSIParcPostRaisesWithoutOutputDir` | src/voxelops/validation/validators/qsiparc.py:73-87 | inputs with `output_dir = None` make the TSV rule's `Path(None)` raise, so post-validation raises `TypeError` |
| `ProcedureValidators.FreeSurferPrePasses` | src/voxelops/validation/validators/freesurfer.py:18-28 | pre-validation passes exactly when the BIDS directory is a directory holding the participant and a T1w image |
| `ProcedureValidators.FreeSurferPostPasses` | src/voxelops/validation/validators/freesurfer.py:30-46 | post-validation passes exactly when the subject, mri and surf directories and the completion flag exist and `aparc+aseg.mgz` is in the mri directory |
| `ProcedureValidators.FreeSurferBasePrePasses` | src/voxelops/validation/validators/freesurfer.py:54-57 | the base template's pre-validation passes exactly when the subjects directory is a directory |
| `ProcedureValidators.FreeSurferBasePostPasses` | src/voxelops/validation/validators/freesurfer.py:59-68 | the base template's post-validation passes exactly when its directories and completion flag exist |
| `AuditRecords.EventValue` | src/voxelops/audit/records.py:9-21 | every event type's value is a lower-case snake-case string |
| `AuditRecords.EventValueRoundTrip` | src/voxelops/audit/records.py:9-21 | looking a member up by its value gives the member back |
| `AuditRecords.EventFromValueSound` | src/voxelops/audit/records.py:9-21 | a string that names a member is that member's value |
| `AuditRecords.EventTypesEnumerated` | src/voxelops/audit/records.py:9-21 | exactly ten event types, each listed once, with pairwise distinct values |
| `AuditRecords.NewRecord` | src/voxelops/audit/records.py:24-42 | a new record keeps its identification and clock reading; `data` defaults to an empty dictionary and `run_id` to `None` |
| `AuditRecords.RecordToDict` | src/voxelops/audit/records.py:44-54 | the dictionary has the seven keys `event_type` … `run_id` in order |
| `AuditRecords.RecordDictRoundTrip` | src/voxelops/audit/records.py:44-54 | `to_dict` loses nothing: every field is read back from the dictionary unchanged |
| `AuditLogger.DataOr` | src/voxelops/audit/logger.py:66 | `data or {}`: the given data, or an empty dictionary when none is given |
| `AuditLogger.LogFileNamePerRun` | src/voxelops/audit/logger.py:108-120 | two runs of one procedure for one participant and session never share a log file |
| `AuditLogger.LogFileNameShape` | src/voxelops/audit/logger.py:116-119 | the file name starts with `sub-P`, then `_ses-S` exactly when a session is set, then `_PROC`, and ends in `.jsonl` |
| `AuditLogger.ValidationEvent` | src/voxelops/audit/logger.py:80-92 | the event is a pre event exactly for the pre phase and a passing event exactly for a passed report |
| `AuditLogger.RecordDicts` | src/voxelops/audit/logger.py:136 | one dictionary per record, in order |
| `AuditLogger.Logger.constructor` | src/voxelops/audit/logger.py:21-49 | a logger with no records whose log directory and its ancestors now exist; files are untouched |
| `AuditLogger.Logger.LogFile` | src/voxelops/audit/logger.py:108-120 | the run file lies directly in the log directory under the run's file name |
| `AuditLogger.Logger.Stamp` | src/voxelops/audit/logger.py:61-68 | the record of an event carries the logger's procedure, participant, session and run id, and `data or {}` |
| `AuditLogger.Logger.Log` | src/voxelops/audit/logger.py:51-70 | one more record, and one more line, its dictionary, at the end of the run file; nothing else changes |
| `AuditLogger.Logger.LogValidationReport` | src/voxelops/audit/logger.py:72-94 | logs the report's dictionary under the event type of its phase and verdict |
| `AuditLogger.Logger.Summary` | src/voxelops/audit/logger.py:122-138 | the summary's keys in order; `event_count` is the number of records and `events` their dictionaries in order |
| `AuditLogger.Logger.SummaryMatchesFile` | src/voxelops/audit/logger.py:96-138 | the summary's events are exactly the lines this logger appended to its run file, in order |
| `Disk.Disk.MakeDirs` | src/voxelops/audit/logger.py:49 | `mkdir(parents=True, exist_ok=True)`: the directory and all its ancestors exist afterwards; files unchanged |
| `Disk.Disk.AppendLine` | src/voxelops/audit/logger.py:104-106 | appending writes one line at the end of one file and changes no other file |
| `Orchestrator.ValidatorFor` | src/voxelops/procedures/orchestrator.py:20-33 | a validator exactly for the four registered procedures, and it is the validator of that procedure |
| `Orchestrator.DefaultLogDir` | src/voxelops/procedures/orchestrator.py:241-257 | a directory named `logs`: below a true `output_dir` of the inputs, else below the working directory |
| `Orchestrator.ObjectToDict` | src/voxelops/procedures/orchestrator.py:260-301 | `None` gives an empty dictionary; a dataclass instance gives, in attribute order, one entry per attribute mapping its name to `str` of its value; any other value gives the single entry `{key: str(value)}` |
| `Orchestrator.ObjectDictReadsAttributes` | src/voxelops/procedures/orchestrator.py:277-278 | for an instance whose attributes have different names, looking an attribute's name up in the dictionary gives `str(getattr(obj, name))` |
| `Orchestrator.Stamped` | src/voxelops/audit/logger.py:61-69 | one record per log call, each carrying the call's event and `data or {}` with the logger's identification and run id |
| `Orchestrator.StampedSnoc` | src/voxelops/audit/logger.py:69 | one more log call appends exactly its record |
| `Orchestrator.RunProcedure` | src/voxelops/procedures/orchestrator.py:36-215 | the result is the run's specification; before a logger exists (unknown procedure, no participant, unusable log directory) nothing is logged and the disk is untouched; otherwise a fresh logger holds one record per specified log call, the disk gains only the log directory and its ancestors, and no file but the run's log file changes or appears |
| `Orchestrator.RunStages` | src/voxelops/procedures/orchestrator.py:105-215 | from the logger's creation on, the result and the records follow the specification of the stages; the log directory is made, and no file but the run's log file changes or appears |
| `Orchestrator.PreStage` | src/voxelops/procedures/orchestrator.py:129-133 | pre-validation unless skipped; a made report is logged, a raising check logs nothing; no directory is made and no file but the log file changes |
| `Orchestrator.ExecuteStages` | src/voxelops/procedures/orchestrator.py:148-215 | execution and post-validation with their log calls follow the specification; no directory is made and no file but the log file changes |
| `Orchestrator.EventTypesConcat` | src/voxelops/procedures/orchestrator.py:111-201 | the events of two call sequences in a row are the events of each, in order |
| `Orchestrator.PreOutcomePhase` | src/voxelops/procedures/orchestrator.py:129-135 | skipping gives no report; a made report logs `PRE_VALIDATION` or `PRE_VALIDATION_FAILED` as it passes |
| `Orchestrator.AfterPreRaises` | src/voxelops/procedures/orchestrator.py:151-173 | a raising runner gives `execution_failed` with `{"error": str(e), "success": False}`, no post report, and logs `EXECUTION_START`, `EXECUTION_FAILED` with the message |
| `Orchestrator.AfterPreReturns` | src/voxelops/procedures/orchestrator.py:151-215 | a returning runner logs `EXECUTION_SUCCESS`; post-validation alone decides between success and `post_validation_failed`, the returned dictionary is the execution, and the events follow |
| `Orchestrator.PostContextAttaches` | src/voxelops/procedures/orchestrator.py:177-180 | the post context holds the runner's dictionary and its `expected_outputs` (`None` when absent) and is otherwise the pre context |
| `Orchestrator.RunSpecStages` | src/voxelops/procedures/orchestrator.py:87-110 | an unknown procedure raises `ValueError("Unknown procedure: P")`, missing `participant` raises `AttributeError`, an unusable log directory raises, all before anything is logged; otherwise the stages run |
| `Orchestrator.FreeSurferUnregistered` | src/voxelops/procedures/orchestrator.py:20-33 | `run_procedure("freesurfer", …)` raises `ValueError`: the name is in neither registry |
| `Orchestrator.AfterPreNoPreEvents` | src/voxelops/procedures/orchestrator.py:148-215 | the stages after pre-validation log no pre-validation event themselves, and a finished run keeps the pre report it was given |
| `Orchestrator.AfterPreTerminal` | src/voxelops/procedures/orchestrator.py:148-215 | after pre-validation, `PROCEDURE_FAILED` is never logged and `PROCEDURE_COMPLETE` is logged exactly on success |
| `Orchestrator.FromPreTerminal` | src/voxelops/procedures/orchestrator.py:129-215 | the same from the pre-validation outcome on, keeping the run's fixed fields |
| `Orchestrator.StagesTerminal` | src/voxelops/procedures/orchestrator.py:105-215 | every run starts with `PROCEDURE_START`, never logs `PROCEDURE_FAILED`, logs `PROCEDURE_COMPLETE` exactly on success, and keeps start and end time, run id and log file |
| `Orchestrator.StagesPreFailed` | src/voxelops/procedures/orchestrator.py:129-146 | `pre_validation_failed` exactly when a pre report was made and failed; then nothing runs and the log is `PROCEDURE_START, PRE_VALIDATION_FAILED` |
| `Orchestrator.StagesSkipPre` | src/voxelops/procedures/orchestrator.py:130-133 | with pre-validation skipped there is no pre report or event, and the pre-execution filesystem plays no part |
| `Orchestrator.StagesRunnerRaises` | src/voxelops/procedures/orchestrator.py:151-173 | once pre-validation allows the run, a raising runner gives `execution_failed` with the error recorded, keeps the pre report and never post-validates |
| `Orchestrator.StagesRunnerReturns` | src/voxelops/procedures/orchestrator.py:151-215 | once pre-validation allows the run, a returning runner gives `execution` equal to its dictionary and success exactly when post-validation is skipped or passes |
| `Serialize.SerializeForJson` | src/voxelops/procedures/orchestrator.py:218-238 | dictionaries keep their keys in order and lists and tuples become lists |
| `Serialize.SerializeIsPlain` | src/voxelops/procedures/orchestrator.py:218-238 | the result holds no path and no tuple anywhere |
| `Serialize.SerializeKeepsPlain` | src/voxelops/procedures/orchestrator.py:231-238 | a value with no path or tuple inside comes back unchanged |
| `Serialize.SerializeIdempotent` | src/voxelops/procedures/orchestrator.py:218-238 | serialising twice is serialising once |
| `HeudiconvSchema.NoneIfNone` | src/voxelops/schemas/heudiconv.py:41-46 | a value becomes `None` exactly when it is absent or lower-cases to "none"; any other value is kept |
| `HeudiconvSchema.NewHeudiconvInputs` | src/voxelops/schemas/heudiconv.py:26-46 | `bids` and `grouping` are normalised and every other field is as given |
| `HeudiconvSchema.NormalisationCases` | src/voxelops/schemas/heudiconv.py:31-46 | the defaults `notop` and `all` survive, "None" in any case disables either option, and normalising twice changes nothing |
| `HeudiconvSchema.HeudiconvOutputs.ToObject` | src/voxelops/schemas/heudiconv.py:63-65 | the attributes post-validation reads are the three output paths |
| `HeudiconvSchema.HeudiconvOutputsFor` | src/voxelops/schemas/heudiconv.py:83-91 | the BIDS root is the output directory, `dataset_description.json` is in it, and the participant directory is `sub-<participant>` below it, then `ses-<session>` when a session is set |
| `HeudiconvSchema.OutputsMatchContext` | src/voxelops/schemas/heudiconv.py:83-85 | the derived participant directory is the validation context's participant directory over the same root |
| `HeudiconvSchema.PostValidationOfOutputs` | src/voxelops/validation/validators/heudiconv.py:30-34 | post-validation over derived outputs passes exactly when the BIDS root and the participant directory exist |
| `HeudiconvSchema.DefaultConfiguration` | src/voxelops/schemas/heudiconv.py:116-123 | the default configuration values |
| `QSIPrepSchema.QSIPrepOutputs.ToObject` | src/voxelops/schemas/qsiprep.py:63-67 | the attributes post-validation reads are the five output paths |
| `QSIPrepSchema.QSIPrepOutputsFor` | src/voxelops/schemas/qsiprep.py:87-96 | all outputs are in `<output_dir>/qsiprep`; the report `sub-<participant>.html` is there, the figures are in the participant directory, and the work directory is as given |
| `QSIPrepSchema.ReportBesideParticipant` | src/voxelops/schemas/qsiprep.py:88-95 | the HTML report is a sibling of the participant directory and not inside it |
| `QSIPrepSchema.PostValidationOfOutputs` | src/voxelops/validation/validators/qsiprep.py:82-87 | post-validation over derived outputs passes exactly when the QSIPrep directory, the participant directory and the HTML report exist |
| `QSIPrepSchema.DefaultConfiguration` | src/voxelops/schemas/qsiprep.py:125-135 | the default configuration values |
| `QSIReconSchema.DefaultInputs` | src/voxelops/schemas/qsirecon.py:34-58 | fourteen default atlases, the 4S family first, and no optional input set |
| `QSIReconSchema.Workflows` | src/voxelops/schemas/qsirecon.py:281-307 | never empty: `default` when no spec is given, the file is missing or it cannot be read; the suffixes it names otherwise, `default` when it names none |
| `QSIReconSchema.ReportPath` | src/voxelops/schemas/qsirecon.py:169-185 | a report lies in `<output_dir>/derivatives/qsirecon-<workflow>` and is named after the participant, plus the session when there is one |
| `QSIReconSchema.QSIReconOutputs.ToObject` | src/voxelops/schemas/qsirecon.py:73-92 | the attributes post-validation reads are the output paths and the report dictionary |
| `QSIReconSchema.DiscoverSessions` | src/voxelops/schemas/qsirecon.py:232-261 | no sessions without the participant's directory; `NotADirectoryError` when it is a file; otherwise a sorted list whose every entry is a `ses-*` subdirectory's name with the prefix removed, and which holds the label of every `ses-<s>` subdirectory (`s` without the prefix) |
| `QSIReconSchema.OutputsFor` | src/voxelops/schemas/qsirecon.py:133-192 | succeeds exactly when session discovery does (else the same error); the QSIRecon directory is the output directory and the participant directory is below it |
| `QSIReconSchema.FromInputs` | src/voxelops/schemas/qsirecon.py:150-192 | the nested loops build exactly `OutputsFor` |
| `QSIReconSchema.ReportsLayout` | src/voxelops/schemas/qsirecon.py:162-185 | the report dictionary has exactly the workflows as keys, each mapping every discovered session, or `None` without sessions, to its report and nothing else |
| `QSIReconSchema.Exist` | src/voxelops/schemas/qsirecon.py:94-112 | true exactly when the QSIRecon directory and every report exist |
| `QSIReconSchema.ExistMeansReports` | src/voxelops/schemas/qsirecon.py:94-112 | for derived outputs, existence means the output directory and every workflow's report for every session (or the dataset report) |
| `QSIReconSchema.ToDict` | src/voxelops/schemas/qsirecon.py:114-131 | the four entries in order, paths as strings, the report nesting kept |
| `QSIReconSchema.PostValidationOfOutputs` | src/voxelops/validation/validators/qsirecon.py:82-85 | post-validation over derived outputs passes exactly when the QSIRecon directory exists |
| `QSIReconSchema.DefaultConfiguration` | src/voxelops/schemas/qsirecon.py:217-222 | the default configuration values |
| `QSIParcSchema.DiscoverSessions` | src/voxelops/schemas/qsiparc.py:190-236 | no sessions without a `derivatives` directory or a `qsirecon-*` directory in it; otherwise the sorted stripped `ses-*` directories of the participant in the first workflow |
| `QSIParcSchema.DiscoverWorkflows` | src/voxelops/schemas/qsiparc.py:239-264 | no workflows without a `derivatives` directory; `NotADirectoryError` when it is a file; otherwise a sorted list whose every entry is a `qsirecon-*` subdirectory's name with the prefix removed, and which holds the suffix of every `qsirecon-<w>` subdirectory (`w` without the prefix) |
| `QSIParcSchema.SessionsFromFirstWorkflow` | src/voxelops/schemas/qsiparc.py:210-228 | the sessions come from the first `qsirecon-*` subdirectory in listing order |
| `QSIParcSchema.SelectSessions` | src/voxelops/schemas/qsiparc.py:120-122 | a requested session narrows the discovered ones to itself, or to none when it was not discovered |
| `QSIParcSchema.DwiPath` | src/voxelops/schemas/qsiparc.py:134-150 | the dwi directory of a workflow below `qsirecon-<workflow>/sub-<participant>`, through `ses-<session>` when there is one |
| `QSIParcSchema.QSIParcOutputs.ToObject` | src/voxelops/schemas/qsiparc.py:49-63 | the attributes post-validation reads are the output directory and the directory dictionary |
| `QSIParcSchema.OutputsFor` | src/voxelops/schemas/qsiparc.py:102-156 | succeeds exactly when both discoveries do; keeps the output directory and has at most one entry per discovered workflow |
| `QSIParcSchema.FromInputs` | src/voxelops/schemas/qsiparc.py:116-156 | the nested loops build exactly `OutputsFor` |
| `QSIParcSchema.DirsLayout` | src/voxelops/schemas/qsiparc.py:125-150 | the directory dictionary has exactly the discovered workflows as keys, each mapping every selected session, or `None` without sessions, to its dwi directory |
| `QSIParcSchema.Exist` | src/voxelops/schemas/qsiparc.py:65-83 | true exactly when the output directory and every dwi directory exist |
| `QSIParcSchema.ExistMeansDirs` | src/voxelops/schemas/qsiparc.py:65-83 | for derived outputs, existence means the output directory and every expected dwi directory; with no workflow, the output directory alone |
| `QSIParcSchema.ToDict` | src/voxelops/schemas/qsiparc.py:85-100 | the two entries in order, paths as strings, the nesting kept |
| `QSIParcSchema.PostValidationOfOutputs` | src/voxelops/validation/validators/qsiparc.py:73-87 | post-validation over derived outputs passes exactly when the output directory and every dwi directory exist and a TSV file lies below the output directory |
| `QSIParcSchema.DefaultConfiguration` | src/voxelops/schemas/qsiparc.py:181-187 | the default configuration values |
| `FreeSurferSchema.FreeSurferInputs.SubjectLabel` | src/voxelops/schemas/freesurfer.py:76-85 | `sub-<participant>`, whatever the session |
| `FreeSurferSchema.FreeSurferOutputs.ToObject` | src/voxelops/schemas/freesurfer.py:89-114 | the attributes post-validation reads are the six output paths |
| `FreeSurferSchema.OutputsFor` | src/voxelops/schemas/freesurfer.py:136-149 | the output directory is SUBJECTS_DIR, the subject directory is the subject label below it, and `mri`, `surf`, `stats` and `scripts/recon-all.done` are in it |
| `FreeSurferSchema.SessionsShareSubject` | src/voxelops/schemas/freesurfer.py:76-85 | two sessions of one participant expect the same outputs, so one session's completed run satisfies `exist()` for every other |
| `FreeSurferSchema.ExistMeansCompleted` | src/voxelops/schemas/freesurfer.py:116-122 | for derived outputs, `exist()` holds exactly when the completion flag and the `mri` directory exist |
| `FreeSurferSchema.ToDict` | src/voxelops/schemas/freesurfer.py:124-133 | six entries, each path as a string under its attribute name |
| `FreeSurferSchema.PostValidationOfOutputs` | src/voxelops/validation/validators/freesurfer.py:30-46 | post-validation passes exactly when the subject, `mri` and `surf` directories and the completion flag exist and `mri` holds `aparc+aseg.mgz`; passing implies `exist()` |
| `FreeSurferSchema.FreeSurferBaseInputs.OutputDir` | src/voxelops/schemas/freesurfer.py:187-190 | the output directory is the subjects directory |
| `FreeSurferSchema.FreeSurferBaseInputs.TimepointLabels` | src/voxelops/schemas/freesurfer.py:197-200 | one `sub-<participant>_ses-<session>` per session, in order |
| `FreeSurferSchema.LabelsDistinct` | src/voxelops/schemas/freesurfer.py:192-200 | the base label differs from every timepoint label and from the per-session subject label, and no timepoint label is that subject label |
| `FreeSurferSchema.FreeSurferBaseOutputs.ToObject` | src/voxelops/schemas/freesurfer.py:204-222 | the attributes post-validation reads are the four base output paths |
| `FreeSurferSchema.BaseOutputsFor` | src/voxelops/schemas/freesurfer.py:237-246 | the base subject directory `sub-<participant>_base` below the subjects directory, with `mri` and `scripts/recon-all.done` in it |
| `FreeSurferSchema.BaseToDict` | src/voxelops/schemas/freesurfer.py:228-235 | four entries, each path as a string under its attribute name |
| `FreeSurferSchema.BasePostValidationOfOutputs` | src/voxelops/validation/validators/freesurfer.py:59-68 | base post-validation passes exactly when the base subject directory, its `mri` directory and its flag exist; passing implies `exist()` |
| `FreeSurferSchema.DefaultConfiguration` | src/voxelops/schemas/freesurfer.py:285-291 | the default configuration values |
| `FreeSurferSchema.FreeSurferDefaults.Fields` | src/voxelops/schemas/freesurfer.py:285-291 | the seven attributes in declaration order, `getattr` of each giving its value |
| `FreeSurferSchema.FreeSurferDefaults.ToObject` | src/voxelops/schemas/freesurfer.py:249-291 | a `FreeSurferDefaults` object with exactly the seven attributes |
| `FreeSurferSchema.ConfigRoundTrip` | src/voxelops/schemas/freesurfer.py:249-291 | reading a configuration's object back gives that configuration |
| `FreeSurferSchema.FreeSurferInputs.ToObject` | src/voxelops/schemas/freesurfer.py:58-66 | an object whose eight attributes are the inputs' values, absent options as `None` |
| `FreeSurferSchema.FiltersObject` | src/voxelops/schemas/freesurfer.py:64-66 | absent filters are `None`; given ones a `dict` of the same entries, in order |
| `FreeSurferSchema.FreeSurferBaseInputs.ToObject` | src/voxelops/schemas/freesurfer.py:180-182 | an object whose attributes are the subjects directory, the participant and the list of sessions |
| `CliParsers.SplitEntry` | src/voxelops/cli/_parsers.py:131-132 | an entry with "=" is its head, "=", its tail with no "=" in the head; key and value are both stripped |
| `CliParsers.ParseFrom` | src/voxelops/cli/_parsers.py:126-133 | the loop succeeds exactly when every entry contains "=" |
| `CliParsers.ParseFromError` | src/voxelops/cli/_parsers.py:127-130 | the error is the `ArgumentTypeError` naming the flag and quoting the first entry without "=" |
| `CliParsers.ParseFromKeys` | src/voxelops/cli/_parsers.py:131-132 | the keys of the result are those already present and the stripped keys of the entries |
| `CliParsers.ParseFromUntouched` | src/voxelops/cli/_parsers.py:132 | a key no entry names keeps its value |
| `CliParsers.ParseFromLastWins` | src/voxelops/cli/_parsers.py:132 | an entry whose key no later entry repeats ends in the result with its value: later entries overwrite earlier ones |
| `CliParsers.KeyValuePairsOf` | src/voxelops/cli/_parsers.py:123-133 | an absent flag gives `None`, no entries an empty dictionary, and parsing succeeds exactly when every entry has "=" |
| `CliParsers.KeyValuePairsMeaning` | src/voxelops/cli/_parsers.py:123-133 | the first malformed entry is the one reported; otherwise the keys are exactly the entries' keys and each last occurrence's value is kept |
| `CliParsers.ParseKeyValuePairs` | src/voxelops/cli/_parsers.py:123-133 | the loop computes exactly `KeyValuePairsOf` |
| `CliParsers.ValueKeepsEquals` | src/voxelops/cli/_parsers.py:131 | example: `a=b=c` gives the key `a` and the value `b=c` |
| `CliCommon.Clean` | src/voxelops/cli/_common.py:27 | no `-`, `_` or whitespace is left and nothing is added |
| `CliCommon.CleanAppend` | src/voxelops/cli/_common.py:27 | deleting distributes over concatenation, so the kept characters stay in order |
| `CliCommon.CleanKeeps` | src/voxelops/cli/_common.py:27 | a string with nothing to delete is unchanged |
| `CliCommon.Sanitize` | src/voxelops/cli/_common.py:25-38 | the cleaned text, padded with zeros on the left up to the width and never truncated |
| `CliCommon.SanitizeMeaning` | src/voxelops/cli/_common.py:25-38 | the length is the larger of the cleaned length and the width, the cleaned text follows the zeros, and sanitizing again changes nothing |
| `CliCommon.SubjectCodeMeaning` | src/voxelops/cli/_common.py:25-27 | the subject code is padded to four characters, keeps its cleaned text, and is a fixed point |
| `CliCommon.SessionIdMeaning` | src/voxelops/cli/_common.py:30-38 | the session id, from a `str` or an `int`, is padded to twelve characters, keeps its cleaned text, and is a fixed point |
| `CliCommon.SubjectCodeDropsDash` | src/voxelops/cli/_common.py:27 | example: `"AB-CD"` becomes `"ABCD"` |
| `CliCommon.SessionIdOfOne` | src/voxelops/cli/_common.py:36-38 | example: the integer `1` becomes `"000000000001"` |
| `CliCommon.SuccessTerm` | src/voxelops/cli/_common.py:203 | a missing `success` raises `KeyError('success')`; `True` adds one and `False` zero |
| `CliCommon.SetFields` | src/voxelops/cli/_common.py:212 | a field is listed exactly when it is one of the identifying fields and `r.get(k)` is not `None` |
| `CliCommon.LabelParts` | src/voxelops/cli/_common.py:211-213 | one `k=v` part for each identifying field that is set, in the order of the fields, with `v` the field's `str` |
| `CliCommon.FailedRuns` | src/voxelops/cli/_common.py:208-209 | a result is listed exactly when it is one of the results and its `success` is falsy |
| `CliCommon.FailureLines` | src/voxelops/cli/_common.py:207-214 | one warning for each failed run, in the order of the results, each with that run's label and error |
| `CliCommon.FailureLinesCount` | src/voxelops/cli/_common.py:199-214 | with boolean successes, the listing has one warning for each run the sum did not count |
| `CliCommon.SummaryOf` | src/voxelops/cli/_common.py:203-216 | the exit code is 0 or 1 |
| `CliCommon.CountSuccesses` | src/voxelops/cli/_common.py:203-204 | with boolean successes the sum counts the successful runs, between zero and the number of results, all of them exactly when every run succeeded; one warning per failed run |
| `CliCommon.ExitCodeMeaning` | src/voxelops/cli/_common.py:203-216 | exit code 0 exactly when every run succeeded; the first line logs both counts; a non-zero code lists every failed run after the "Failed runs:" line |
| `CliCommon.MissingSuccessRaises` | src/voxelops/cli/_common.py:203 | a result without `success` makes the summary raise `KeyError` once the results before it were added |
| `CliCommon.MissingOrBadPropagates` | src/voxelops/cli/_common.py:203 | an error in the sum over a prefix is the error of the whole sum |
| `CliCommon.SumSuccesses` | src/voxelops/cli/_common.py:203 | the summing loop computes exactly `SuccessCount` |
| `CliCommon.ListFailures` | src/voxelops/cli/_common.py:207-214 | the listing loop computes exactly `FailureLines` |
| `CliCommon.PrintResultSummary` | src/voxelops/cli/_common.py:185-216 | the method computes exactly `SummaryOf` |
| `WorkflowMaps.StrippedSubdirs` | src/voxelops/schemas/qsiparc.py:222-236 | no names for a missing directory, `NotADirectoryError` for a file, otherwise a sorted permutation of the prefixed subdirectory names with the prefix removed |
| `WorkflowMaps.StrippedSubdirsContents` | src/voxelops/schemas/qsiparc.py:227-233 | every listed name comes from a prefixed subdirectory, and every prefixed subdirectory is listed |
| `WorkflowMaps.WorkflowsFoldLength` | src/voxelops/schemas/qsiparc.py:128-150 | at most one entry per workflow |
| `WorkflowMaps.Build` | src/voxelops/schemas/qsiparc.py:128-150 | the nested loops compute exactly `WorkflowsFold` |
| `WorkflowMaps.SessionsFoldGet` | src/voxelops/schemas/qsiparc.py:132-142 | the inner dictionary maps exactly the given sessions to their leaves |
| `WorkflowMaps.SessionsFoldItems` | src/voxelops/schemas/qsiparc.py:132-142 | every inner entry is a session's leaf |
| `WorkflowMaps.SessionMapContents` | src/voxelops/schemas/qsiparc.py:130-150 | without sessions the only key is `None`, with sessions the keys are exactly the sessions, and every entry is its leaf |
| `WorkflowMaps.WorkflowsFoldContents` | src/voxelops/schemas/qsiparc.py:128-150 | the outer dictionary holds exactly the workflows, each with its inner dictionary |
| `WorkflowMaps.LeavesExist` | src/voxelops/schemas/qsiparc.py:77-83 | the loops return exactly whether every leaf exists |
| `WorkflowMaps.AllExistGivesLeaves` | src/voxelops/schemas/qsiparc.py:77-83 | when every leaf exists, each workflow's path exists for every session, or `None` without sessions |
| `WorkflowMaps.LeavesGiveAllExist` | src/voxelops/schemas/qsiparc.py:77-83 | the converse |
| `WorkflowMaps.AllExistFold` | src/voxelops/schemas/qsiparc.py:77-83 | both directions together |
| `WorkflowMaps.ToValue` | src/voxelops/schemas/qsiparc.py:93-100 | the same nesting and keys, with every path as its string |
| `WorkflowMaps.PathDict` | src/voxelops/schemas/qsiparc.py:49-63 | the same nesting and keys, with every path kept as a path |
| `WorkflowMaps.PathDictLeaves` | src/voxelops/validation/validators/qsiparc.py:14-52 | a rule checking every leaf of the dictionary sees exactly the paths of the map |
| `Paths.Child` | src/voxelops/schemas/qsiparc.py:135-141 | `p / name` for a name that is a single part: `p` with that name as one more part |
| `Paths.Join` | src/voxelops/runners/freesurfer.py:57-60 | `p / name` in general: an absolute name replaces the path; otherwise only plain parts (no "/", "" or ".") are appended after `p`, and a normal path stays normal |
| `Paths.JoinPlainName` | src/voxelops/runners/freesurfer.py:57-60 | a name without "/" that is neither "" nor "." is joined as exactly one part, as `Child` does |
| `Paths.JoinNestedName` | src/voxelops/runners/freesurfer.py:57-60 | a name `a/b` of two plain parts adds two parts, `p / a / b` |
| `Paths.Parent` | src/voxelops/schemas/heudiconv.py:90 | the parent of any path but the empty path and the root, with its name, gives the path back; those two are their own parents |
| `Paths.Ancestors` | src/voxelops/audit/logger.py:49 | what `mkdir(parents=True)` makes exist: the path and its non-empty prefixes |
| `Paths.RelativeTo` | src/voxelops/runners/freesurfer.py:194-198 | defined exactly when the base is a prefix, and then the base followed by the result is the path |
| `Paths.Segments` | src/voxelops/validation/context.py:47 | the pieces between the `/` separators: none holds a `/`, and joined with `/` they give the string back |
| `Paths.Kept` | src/voxelops/validation/context.py:47 | the pieces without the empty ones and "." |
| `Paths.ParsePath` | src/voxelops/validation/context.py:47 | `Path(s)` is a normal path, absolute exactly when `s` starts with `/` |
| `Paths.SegmentsOfJoin` | src/voxelops/validation/context.py:47 | splitting pieces joined with `/` gives the pieces back |
| `Paths.ParsePathString` | src/voxelops/validation/context.py:47 | the string of a normal path, the root and the empty path included, parses back to that path |
| `Paths.ParsePathIdempotent` | src/voxelops/validation/context.py:47 | parsing the string of a parsed string gives the same path |
| `Paths.FileSystem.IterDir` | src/voxelops/schemas/qsiparc.py:213 | one child path per listed name, in order |
| `Paths.SubdirsWithPrefix` | src/voxelops/schemas/qsiparc.py:211-215 | exactly the listed names that are directories starting with the prefix, in order |
| `Paths.SubdirsFirst` | src/voxelops/schemas/qsiparc.py:211-220 | the first name kept is the first listed name that qualifies |
| `Paths.ListSubdirs` | src/voxelops/schemas/qsiparc.py:211-215 | listing succeeds exactly for a directory, with `NotADirectoryError` otherwise |
| `Values.DictGet` | src/voxelops/cli/_common.py:212 | `None` exactly when the key is absent; otherwise the value of an entry of that key |
| `Values.DictPut` | src/voxelops/procedures/orchestrator.py:178-180 | an existing key keeps its place, a new key is appended |
| `Values.DictGetAt` | src/voxelops/validation/context.py:86 | the first entry of a key is the one found |
| `Values.DictPutGet` | src/voxelops/procedures/orchestrator.py:178-180 | reading the key written gives the new value; every other key is untouched |
| `Values.FindFieldAt` | src/voxelops/validation/context.py:43-44 | the first field of a name is the one `getattr` finds |
| `Values.AsPath` | src/voxelops/validation/context.py:47 | `Path(v)` succeeds exactly for a `str` or a path; it keeps a path and parses a string into normal parts, so that `Path(str(Path(s))) == Path(s)` |
| `Dicts.Get` | src/voxelops/cli/_parsers.py:132 | `None` exactly when the key is absent |
| `Dicts.Put` | src/voxelops/cli/_parsers.py:132 | the key reads back as the new value, other keys are untouched, and a new key is appended |
| `Dicts.PutItems` | src/voxelops/cli/_parsers.py:132 | a write only adds its own item |
| `Strings.ContainsChar` | src/voxelops/cli/_parsers.py:127 | `"=" in item` holds exactly when the character occurs |
| `Strings.Lower` | src/voxelops/validation/rules/common.py:399 | `str.lower()` character by character: same length, each character its lower-case form |
| `Strings.ReplaceChar` | src/voxelops/validation/rules/common.py:399 | `replace(c, d)` for one character: same length, each `c` becomes `d` and every other character stays |
| `Strings.ReplaceCharIsReplaceAll` | src/voxelops/schemas/qsiparc.py:233 | a one-character `replace` is the character-wise substitution |
| `Strings.ReplaceAllAbsent` | src/voxelops/schemas/qsiparc.py:233 | a string without the pattern is unchanged by `replace` |
| `Strings.ReplaceAllPrefix` | src/voxelops/schemas/qsiparc.py:233 | removing a `ses-` prefix leaves the rest when it holds no further `ses-` |
| `Strings.ReplaceEach` | src/voxelops/schemas/qsiparc.py:233 | one replaced name per name, in order |
| `Strings.Strip` | src/voxelops/cli/_parsers.py:132 | exactly the part of the string between its leading and its trailing whitespace: everything removed is whitespace, and what is kept neither begins nor ends with it |
| `Strings.IndexOf` | src/voxelops/cli/_parsers.py:131 | the first occurrence of the item (a character of a string, a word of a command), or the length when there is none |
| `Strings.Partition` | src/voxelops/cli/_parsers.py:131 | head, found and tail: the head has no separator and head, separator and tail give the string back |
| `Strings.NatToString` | src/voxelops/cli/_common.py:36 | `str(n)`: decimal digits whose value is `n`, with no leading zero except for 0 itself |
| `Strings.ZFill` | src/voxelops/cli/_common.py:27 | left-padding with zeros up to the width, after a leading sign, never truncating |
| `Sorting.StrLtTrichotomy` | src/voxelops/schemas/qsiparc.py:233 | Python's string order is total |
| `Sorting.PathLtTrichotomy` | src/voxelops/runners/freesurfer.py:62 | the path order is total |
| `Sorting.Insert` | src/voxelops/schemas/qsiparc.py:233 | inserting into a sorted list keeps it sorted and adds exactly the element |
| `Sorting.SortBy` | src/voxelops/schemas/qsiparc.py:264 | `sorted` returns an ordered permutation |
| `Sorting.SortStrings` | src/voxelops/schemas/qsiparc.py:264 | sorted names are in order and a permutation |
| `Sorting.SortPaths` | src/voxelops/runners/freesurfer.py:62 | sorted paths are in order and a permutation |
| `RunnerBase.ValidateInputDir` | src/voxelops/runners/_base.py:16-35 | returns exactly for an existing directory; otherwise `InputValidationError` saying "not found" for a missing path and "not a directory" for a file |
| `RunnerBase.ValidateParticipant` | src/voxelops/runners/_base.py:38-61 | returns exactly when `<input_dir>/<prefix><participant>` exists, else `InputValidationError` naming it |
| `RunnerBase.InputDirAgreesWithRule` | src/voxelops/runners/_base.py:16-35 | the runner's directory check returns exactly when the pre-validation directory rule passes, with the same message |
| `RunnerBase.ParticipantAgreesWithRule` | src/voxelops/runners/_base.py:38-61 | the runner's participant check returns exactly when the participant rule passes |
| `RunnerBase.Scan` | src/voxelops/runners/_base.py:136-138 | running out of tokens raises "Could not find Docker image" with the joined command |
| `RunnerBase.ScanPosition` | src/voxelops/runners/_base.py:120-134 | the image the scan finds is a token at or after where it started that is not an option |
| `RunnerBase.ImageOf` | src/voxelops/runners/_base.py:64-138 | a command without `run` raises "Not a valid docker run command"; with a `run`, a failed scan raises "Could not find Docker image"; every error is an `InputValidationError` |
| `RunnerBase.GetImage` | src/voxelops/runners/_base.py:86-138 | the scanning loop computes exactly `ImageOf` |
| `RunnerBase.FlagsAreOptions` | src/voxelops/runners/_base.py:94-119 | every value-taking option starts with "-" |
| `RunnerBase.ScanFindsFirstPositional` | src/voxelops/runners/_base.py:120-134 | past a run of options without values, the first non-option token is the image |
| `RunnerBase.ScanOnlyOptions` | src/voxelops/runners/_base.py:120-138 | when only options without values remain, the scan raises |
| `RunnerBase.TrailingValueFlag` | src/voxelops/runners/_base.py:127-129 | a value-taking option as the last token leaves no image |
| `RunnerBase.ScanSteps` | src/voxelops/runners/_base.py:122-132 | an option without a value advances one token, a value-taking one two |
| `RunnerBase.ScanSkipsValuePairs` | src/voxelops/runners/_base.py:127-129 | a run of value-taking options with their values is skipped as a whole |
| `RunnerBase.DockerOptions` | src/voxelops/runners/_base.py:94-119 | `--rm` takes no value; `-e` and `-v` take one |
| `RunnerBase.RunSecond` | src/voxelops/runners/_base.py:87 | `run` as the second token is at index 1 |
| `RunnerBase.ImageExample` | src/voxelops/runners/_base.py:64-85 | example: the documented example finds `myimage:latest` |
| `RunnerBase.ImportFromBase` | src/voxelops/runners/_base.py:1-361 | `from voxelops.runners._base import name` succeeds exactly for the names the module binds (its imports and its functions), and raises `ImportError` for any other |
| `RunnerBase.PullFailure` | src/voxelops/runners/_base.py:189-198 | a `DependencyError` for the image whose message names the image and ends with the pull's stripped stderr |
| `RunnerBase.EnsureDockerImage` | src/voxelops/runners/_base.py:141-201 | an image that `_get_image` cannot find raises its error; otherwise the image is returned exactly when `docker image inspect` exits 0 or, failing that, `docker pull` exits 0; two non-zero exits raise the pull's `DependencyError` |
| `RunnerBase.LastChars` | src/voxelops/runners/_base.py:330 | `s[-n:]`: the whole string when it has at most `n` characters, else a suffix of length `n` |
| `RunnerBase.ExecutionLogFile` | src/voxelops/runners/_base.py:276-281 | a log file exactly when a log directory is given; it lies in that directory and is named `{tool}_{participant}_{timestamp}.json` |
| `RunnerBase.RecordDisplay` | src/voxelops/runners/_base.py:304-314 | the nine keys in the source's order (`tool`, `participant`, `command`, `exit_code`, `start_time`, `end_time`, `duration_seconds`, `duration_human`, `success`), each with its value: the tool, the participant, the command as a list of strings, the exit code, the host's start and end times and durations, and `success == (returncode == 0)`; no `stdout`, `stderr` or `log_file` yet |
| `RunnerBase.ExecutionRecord` | src/voxelops/runners/_base.py:304-321 | the record of a completed run: its keys are the nine display keys, then `stdout` and `stderr` exactly when output is captured, then `log_file` exactly when there is a log file; the tool, participant, command, exit code, times, durations and success are as in the display, and the added keys hold the captured output and the log file's path |
| `RunnerBase.RunDocker` | src/voxelops/runners/_base.py:230-361 | an error of the image check escapes unchanged; after it, the run returns exactly when the container exits with code 0, and the record says `success` true with exit code 0, the tool, the participant, the command, the host's times and durations and the log file, with the keys in the order the source writes them; a non-zero exit raises `ProcedureExecutionError` with the exit code and the end of the captured stderr, a timeout raises it with the timeout, and another exception is raised as it is when it is a `ProcedureExecutionError`, else wrapped in one |
| `RunnerBase.NamedContainerExample` | src/voxelops/runners/_base.py:86-134 | example: the value of `--name` is not taken for the image, and `docker ps` is refused |
| `FreeSurferRunner.KeepMatching` | src/voxelops/runners/freesurfer.py:65-69 | exactly the candidates whose name carries every `key-value` filter entity, in their order |
| `FreeSurferRunner.SearchRoot` | src/voxelops/runners/freesurfer.py:57-60 | `sub-<participant>` below the BIDS root, then `ses-<session>` for a session |
| `FreeSurferRunner.DiscoverWeightedFiles` | src/voxelops/runners/freesurfer.py:29-69 | the sorted glob matches, all of them without filters (absent or empty), otherwise exactly those that match every filter, in sorted order |
| `FreeSurferRunner.First` | src/voxelops/runners/freesurfer.py:378-380 | only the first discovered image is used, and none when there is none |
| `FreeSurferRunner.BaseDockerCmd` | src/voxelops/runners/freesurfer.py:117-133 | `docker run --rm`, followed by the licence variable and read-only mount exactly when the licence file exists |
| `FreeSurferRunner.FlagPairs` | src/voxelops/runners/freesurfer.py:193-195 | one `flag <item>` pair per item, in order: the `-i <image>` pairs here and the `-tp <label>` pairs of lines 262-263; position `2k` holds the flag and `2k + 1` the k-th item |
| `FreeSurferRunner.ReconAllRoundTrip` | src/voxelops/runners/freesurfer.py:174-210 | reading the `recon-all` argument list back gives exactly the request it was built from |
| `FreeSurferRunner.BaseRoundTrip` | src/voxelops/runners/freesurfer.py:249-273 | reading the base-template argument list back gives the base label, the timepoints in order and the thread count |
| `FreeSurferRunner.InContainer` | src/voxelops/runners/freesurfer.py:194-195 | `/data/` and the path relative to the BIDS root, defined exactly for paths below it; otherwise the `ValueError` of `relative_to` |
| `FreeSurferRunner.InContainerAll` | src/voxelops/runners/freesurfer.py:193-195 | every image's container path in order, or the error of an image outside the BIDS root |
| `FreeSurferRunner.InContainerAllFails` | src/voxelops/runners/freesurfer.py:193-195 | the first image outside the BIDS root decides the error |
| `FreeSurferRunner.RefinementFor` | src/voxelops/runners/freesurfer.py:197-207 | nothing without a file; with a file, its container path and the pial choice, or the `relative_to` error |
| `FreeSurferRunner.RequestFor` | src/voxelops/runners/freesurfer.py:173-210 | succeeds exactly when every chosen file is below the BIDS root; the request has the subject label, the thread count, every T1w image in order, T2w and FLAIR exactly when chosen with their pial flags, and `-hires` as configured |
| `FreeSurferRunner.RequestForSteps` | src/voxelops/runners/freesurfer.py:193-207 | the T1w images are converted first, then the T2w file, then the FLAIR file, and the first error wins |
| `FreeSurferRunner.CommandFor` | src/voxelops/runners/freesurfer.py:136-212 | `ValueError` without T1w images; otherwise the preamble, the mounts, the image and the `recon-all` arguments of the request |
| `FreeSurferRunner.ExtendInputs` | src/voxelops/runners/freesurfer.py:193-195 | the loop appends exactly the `-i` pairs, or stops with the first error |
| `FreeSurferRunner.ExtendRefinement` | src/voxelops/runners/freesurfer.py:197-207 | appends exactly the refinement options of a chosen file |
| `FreeSurferRunner.BuildCommand` | src/voxelops/runners/freesurfer.py:136-212 | the step-by-step construction computes exactly `CommandFor` |
| `FreeSurferRunner.ImageAfterMounts` | src/voxelops/runners/_base.py:120-134 | `_get_image` steps over the preamble and the mounts and returns the configured image |
| `FreeSurferRunner.CommandMeaning` | src/voxelops/runners/freesurfer.py:136-212 | `_get_image` reads the configured image back from the command, and the arguments after it read back as the request |
| `FreeSurferRunner.BaseCommandFor` | src/voxelops/runners/freesurfer.py:215-274 | `ValueError` exactly without sessions; otherwise the preamble, the mount, the image and the base-template arguments |
| `FreeSurferRunner.BuildBaseCommand` | src/voxelops/runners/freesurfer.py:243-274 | the step-by-step construction computes exactly `BaseCommandFor` |
| `FreeSurferRunner.BaseCommandMeaning` | src/voxelops/runners/freesurfer.py:215-274 | the image and the base label, every timepoint label in session order and the thread count read back from the command |
| `FreeSurferRunner.FieldNames` | src/voxelops/runners/freesurfer.py:333-335 | one name per field, in order |
| `FreeSurferRunner.SetExisting` | src/voxelops/runners/freesurfer.py:334-335 | an existing attribute takes the value, a missing one is not created, and the names stay the same |
| `FreeSurferRunner.LastOverride` | src/voxelops/runners/freesurfer.py:333-335 | the value of the last override naming an attribute, `None` when none does |
| `FreeSurferRunner.ApplyOverrides` | src/voxelops/runners/freesurfer.py:333-335 | the loop computes exactly `Overridden` |
| `FreeSurferRunner.OverridesSetOnlyExisting` | src/voxelops/runners/freesurfer.py:333-335 | the attribute names stay the same, and an existing attribute ends with its last override's value |
| `FreeSurferRunner.ConfigureValues` | src/voxelops/runners/freesurfer.py:331-335 | with the given configuration, or the defaults without one, the thread count, licence and image are each the last override naming it when that has the attribute's type, else the configuration's value |
| `FreeSurferRunner.ConfigureSwitches` | src/voxelops/runners/freesurfer.py:331-335 | likewise for `hires`, `use_t2pial`, `use_flairpial` and `force`: the last `bool` override naming each, else the configuration's value |
| `FreeSurferRunner.ConfigureWithoutOverrides` | src/voxelops/runners/freesurfer.py:331-335 | overrides naming no attribute leave the given configuration, or the defaults, as is |
| `FreeSurferRunner.AfterMkdirs` | src/voxelops/runners/freesurfer.py:343-344 | the output and work directories exist afterwards, and nothing else is removed or changed |
| `FreeSurferRunner.ChosenFile` | src/voxelops/runners/freesurfer.py:373-420 | no T2w or FLAIR file unless its filters are given; then the first discovered image, when there is one |
| `FreeSurferRunner.PlanRun` | src/voxelops/runners/freesurfer.py:336-438 | the BIDS directory and participant are checked first; existing outputs skip the run unless forced; otherwise the command, with its `ValueError` when no T1w image is found |
| `FreeSurferRunner.SkipRecord` | src/voxelops/runners/freesurfer.py:356-365 | the eight keys of a skipped run, with `skipped` and `success` true and reason `outputs_exist` |
| `FreeSurferRunner.ExecutedRecord` | src/voxelops/runners/freesurfer.py:433-436 | the container record with the inputs, the configuration, the expected outputs and `skipped` false added, every other key as the container reported |
| `FreeSurferRunner.PlanRecord` | src/voxelops/runners/freesurfer.py:356-436 | a skipped plan returns its record; an executed plan raises exactly when `run_docker` raises, with the same exception; a returned record has `success` true, the tool, the participant, `skipped`, and the given inputs, configuration and expected outputs |
| `FreeSurferRunner.RunRecord` | src/voxelops/runners/freesurfer.py:423-436 | `run_docker`'s exception, or its record with the inputs, the configuration, the expected outputs and `skipped` false added, keeping `success` true, the tool and the participant |
| `FreeSurferRunner.DefaultLogDirImportFails` | src/voxelops/runners/freesurfer.py:7-12 | as written, importing `_get_default_log_dir` from `runners._base` raises `ImportError`, while `run_docker`, `validate_input_dir` and `validate_participant` import |
| `FreeSurferRunner.RunLogDir` | src/voxelops/runners/freesurfer.py:330 | the given log directory, else the orchestrator's default for the same inputs: `logs` below the output directory, or below the working directory without one |
| `FreeSurferRunner.RunFreeSurfer` | src/voxelops/runners/freesurfer.py:282-438 | the run uses the configuration after the defaults and the overrides (`Configure`); it raises what the plan raises, and for an executed plan it raises exactly when `run_docker` (with captured output and `RunLogDir`) raises, with the same exception; a returned record has `success` true, `tool` `freesurfer`, the participant, `skipped`, the inputs object, that configuration's object and the expected outputs |
| `FreeSurferRunner.MissingTimepoints` | src/voxelops/runners/freesurfer.py:500-502 | exactly the timepoint labels whose directory is missing, in order, each as often as it occurs among the labels |
| `FreeSurferRunner.PlanBaseRun` | src/voxelops/runners/freesurfer.py:500-529 | missing timepoints raise first; then an existing template skips unless forced; otherwise the base command, raising exactly without sessions |
| `FreeSurferRunner.BaseRunLogDir` | src/voxelops/runners/freesurfer.py:492 | the given log directory, else `logs` beside the subjects directory |
| `FreeSurferRunner.RunFreeSurferBase` | src/voxelops/runners/freesurfer.py:441-543 | the run uses the configuration after the defaults and the overrides (`Configure`); it raises what the plan raises, and for an executed plan it raises exactly when `run_docker` (with captured output and `BaseRunLogDir`) raises, with the same exception; a returned record has `success` true, `tool` `freesurfer_base`, the participant, `skipped`, the inputs object, that configuration's object and the base outputs |

## Left out

- Running containers: the Docker daemon and the clock are a `RunnerBase.DockerHost` parameter. It gives the outcomes of `docker image inspect`, `docker pull` and the container run, the log file's timestamp, the start and end times, and the duration. `run_docker` is modelled on it, and so is `ensure_docker_image`. Three things are not modelled: the `mkdir` of the log directory, the JSON writes of the log file (with its `error` entry on failure), and the printed banners. `validate_existing_image` is not part of this model. No runner passes a timeout, so a `TimedOut` run stands for a `TimeoutExpired` that the source cannot reach. The orchestrator takes the runner's outcome (raise or return a record) as a parameter.
- `Paths.Child`: paths below a directory are built with `Child`, which appends the name as one part. pathlib's `/` splits a name at "/", drops "" and "." pieces, and restarts at an absolute name; `Paths.Join` models that, and `Paths.JoinPlainName` proves the two agree for a name without "/" that is neither "" nor ".". The model assumes such names for the identifiers it joins (participant, session, workflow and file-type labels). The sanitizers remove only `-`, `_` and whitespace, so an identifier such as `01/x` gives two parts in the source (`Paths.JoinNestedName`) and one in the model.
- `RunnerBase.RunDocker`: the message of a wrapped exception is its `message` field, which stands for `str(e)`.
- `Orchestrator.RunProcedure`, `Orchestrator.RunSpec`: the filesystems that the pre- and post-validation rules see (`fs`, `fsAfter`) are parameters independent of the disk where the audit logger makes its log directory. The rules therefore do not see that directory, even when it lies below a directory they inspect.
- The HeudiConv, QSIPrep, QSIRecon and QSIParc runners: these are command assembly interleaved with `mkdir` and container runs, and are not part of this model. Their schemas, validators and orchestration are modelled.
- Concurrency: `run_parallel` and its thread pool are not modelled. `print_result_summary` takes the list of result dictionaries as given.
- CLI wiring: the argparse registration helpers, the subcommand modules, `load_sessions_from_csv` (pandas) and `check_last_execution_log` (JSON and file modification times) are not part of this model.
- `CliCommon.SanitizeSessionId`: the `float` branch, which covers NaN and `int(session_id)`, is left out because floats are not modelled. Only `str` and `int` arguments are.
- `CliCommon.ExitCodeMeaning`: proved only when every `success` is a `bool`, as the runners produce it. For other values the model follows Python's `sum`: integers add their value, and anything else raises `TypeError`.
- The clock and identifiers: `datetime.now()` and `uuid.uuid4()` are parameters. The timestamp of a validation result or report, and the `timestamp` entry of `ValidationReport.to_dict`, are left out. Audit records carry an integer timestamp from a clock parameter, and durations are integer differences rather than floats.
- `Orchestrator.Stamped`: every record of one run carries the same clock reading `env.now`. The source calls `datetime.now()` once per logged record, so the timestamps of its records can differ.
- `Orchestrator.TypedInputs`: requires a `str` participant and a `str` or `None` session. The input schemas annotate `participant: str` and `session: str | None`, and `run_procedure` is called with schema instances, so no other value reaches the validators.
- JSON: `json.dumps` and `isoformat` are not modelled. The log file is the sequence of record dictionaries in the order they were appended.
- YAML: `_extract_workflows` reads a reconstruction spec with a YAML parser. The suffixes it would find are a parameter, `None` standing for a file that cannot be read. The model keeps the missing-file case, the empty-list case and the fallback to `["default"]`.
- Dataclass instances: inputs, configurations and expected outputs are objects with named fields. `hasattr` sees only those fields, not methods or dunder attributes. The `model_dump` branch of `_inputs_to_dict` and `_config_to_dict` is left out, because no schema here defines it.
- `FreeSurferRunner.ApplyOverrides`: models `setattr` on the configuration's field list. It does not model Python's attribute lookup in general.
- `FreeSurferRunner.ConfigureValues`, `FreeSurferRunner.ConfigureSwitches`: an override whose value does not have the attribute's type leaves that attribute as it was. Python stores any value, and a later use then fails or converts it (for example a non-empty `str` licence makes `fs_license.exists()` raise `AttributeError`).
- `FreeSurferRunner.RunFreeSurfer`, `FreeSurferRunner.RunFreeSurferBase`: `setattr` changes the caller's configuration object in place. The model computes a new configuration value and does not capture that the caller's object changes.
- Logging: `logging` and `print` calls are returned as data (`CliCommon.LogLine`) or left out. The warnings of `run_freesurfer` about several or no T2w/FLAIR images are left out.
- `Strings.Lower`: lower-cases ASCII letters only. Python's full Unicode case mapping is not modelled; it matters only for comparing with "none".
- `Strings.IsSpace`: covers the characters of `str.isspace()`, which are the `\s` class of `re` on `str`. It is used by `strip` and the sanitizers.
- `Paths.FileSystem`: the order of `iterdir` and the results of `glob` are uninterpreted data of the filesystem value. The sessions `QSIParcSchema.DiscoverSessions` reads therefore come from whichever `qsirecon-*` directory is listed first.
- `Paths.ParsePath`: a string that starts with exactly two slashes is read as the root `/`. POSIX `pathlib` keeps such a prefix as `//`.
- `Paths.RelativeTo`: the message of the `ValueError` follows Python 3.12's wording. Only the exception class matters to callers.
- `Values.Repr`: strings always use single quotes. Python switches to double quotes when the string contains a single quote.
- `FreeSurferSchema.FreeSurferInputs.SubjectLabel`: the label ignores the session. This is what the code does; its docstring describes a `_ses-` variant that is commented out.
- `Orchestrator.FreeSurferUnregistered`: `run_procedure("freesurfer")` always raises `ValueError`, because neither registry has a FreeSurfer entry. The CLI's call to it is not modelled.
- QSIRecon post-validation: only the one active rule is modelled. The `WorkflowReportsExistRule` class is modelled, but the validator does not use it, since the other post rules are commented out.
- Directory creation errors: `mkdir(parents=True, exist_ok=True)` is modelled as always succeeding. A permission error, or an existing file in the way, is not modelled.

## Findings

| source | as written | input that shows it | evidently intended | confidence | as-written member | corrected member |
|---|---|---|---|---|---|---|
| src/voxelops/runners/freesurfer.py:7-12 | imports `_get_default_log_dir` from `voxelops.runners._base`, which defines no such name (it is defined only in `procedures/orchestrator.py:241-257`); `cli/_common.py:15` does the same | any import of `voxelops.runners.freesurfer`, which raises `ImportError` before `run_freesurfer` can be called | the orchestrator's `_get_default_log_dir`: `logs` below the inputs' `output_dir`, else below the working directory | not executed | `FreeSurferRunner.DefaultLogDirImportFails` | `FreeSurferRunner.RunLogDir` |
