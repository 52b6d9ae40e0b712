# xcalclient scan orchestration, modelled in Dafny

This project models the core of the xcalscan client (`xcalclient`). The
client prepares a source tree for a static-analysis scan. It runs the scan
steps one by one, records their states, and decides the next CI/CD state.
It also keeps the project's task records and task folders, validates
identifiers, and cancels scans. A handful of Python helpers around the
scan are modelled as well: the trigger's SSE status handling, the SCM
health checks, the build-task helpers, the upload-result list and the file
information collector. So is the release versioning script.

The model takes the source's own form:

- **Step runner.** `SubPhase`, `Phase` and `State` are classes whose
  methods update their fields. `Phase.run` is a `while` loop. It is proved
  against `RunFrom`, a fail-fast specification of the loop.
- **Scan.** `Scan.start` is a method over the scan, its phases and its
  project. It is proved against `ScanStatus`, the status that follows from
  the step outcomes through the `catch` as written. `IntendedScanStatus`
  follows them through the corrected `catch` (see Findings).
- **CI/CD state machine.** `CicdFsm` is a class whose state map `addState`
  updates. The closures of `CICDStart` are data: a chosen transition, or a
  process exit.
- **Project.** `Project` holds its task records, its state folder (a list
  of entries), its cancel records and its CI/CD data as fields.
- **Pure helpers.** Validators, the message catalogue, the flow line, the
  version grammar and the path rules are functions.
- **Python loops.** The trigger's SSE listener, the upload-result list and
  the build-task loops are classes or methods with loops.

JavaScript objects are ordered key/value lists (`Json.Fields`), so that
`{...a, ...b}` and `Object.assign` are modelled with their real
key-override behaviour. `undefined`, `null` and JavaScript truthiness are
modelled explicitly. Python dictionaries use the same representation.

The environment is passed in as parameters or fields:

- **Clock.** Every timestamp is a parameter: a `now`, or for one run of
  `Scan.start` a `ScanClock` holding its start reading, the start and end
  readings of each step, and its finish reading.
- **Randomness.** Random bytes are a parameter.
- **Files.** The state folder is a list of entries. The `ver` file and
  the contents of files are parameters.
- **Child processes.** A step's `run()` is given by what it does: the
  policy it sets, the summary it sets, and how it ends. A step's `finish`
  callback is given by the summary it sets. The client's exit code is a
  parameter.
- **Process exit.** An exit becomes a result value.
- **Settings.** The client setting ENABLE_CICD_CONTROL is a boolean
  parameter, `cicdControl`: the truthiness of the setting's value.

`system.exit(undefined)` is the exit code `None`.

The two versions of `update` in `scripts/versioning.js` are treated as one.
`setVersion` checks the command-line `update` at line 57 but switches on
`options.update` at line 78. Every caller passes the former as the latter.

## Model

| member | source | states |
|---|---|---|
| `FlowPolicy.LoadPolicy` | model/FlowPolicy.js:20-30 | with no override file the policy is exactly the default document |
| `FlowPolicy.OverrideIsShallow` | model/FlowPolicy.js:25-28 | a top-level key of the override replaces the default value wholesale; every other key keeps its default |
| `FlowPolicy.PartialPhaseOverrideDropsDefaults` | model/FlowPolicy.js:25-28 | an override restating one PHASE step loses every other default step of PHASE |
| `FlowPolicy.DefaultTimeoutsFit` | flowPolicy.js:1-83 | every default phase and step timeout is below the JavaScript timer maximum 2^31-2 |
| `FlowPolicy.DefaultMandatoryFlags` | flowPolicy.js:3-81 | the defaults have phases SETUP and PREPROC; SETUP steps are optional; a PREPROC step is mandatory iff it is not CLEAN_UP |
| `FlowPolicy.DefaultNextChain` | flowPolicy.js:13-79 | the NEXT links chain all default steps in order, across phases, and the chain ends at CLEAN_UP with no next |
| `States.State.constructor` | model/State.js:14-24 | a new state is PENDING with an empty reason, started at `now`, not ended, with no other info |
| `States.ElapsedText` | model/State.js:54 | the elapsed text is the number of milliseconds between start and end, in decimal, followed by ` ms` |
| `States.State.UpdateStatus` | model/State.js:43-47 | sets status and reason, and always closes the state: end time `now` and elapsed text; start time and other info are kept |
| `States.State.SetEnd` | model/State.js:52-55 | records the end time and the elapsed text; status, reason and other info are kept |
| `States.State.SetOtherInfo` | model/State.js:62-64 | only the given key of the other info changes, to the given value |
| `States.State.JsonRecord` | model/State.js:70-83 | the `json` record carries the step name, status, reason, step type, resource monitor, times, elapsed text and other info of the state |
| `States.RecordJson` | model/State.js:70-83 | the written record never has a `nextStep` key |
| `Messages.Placeholder` | model/Message.js:23-25 | the placeholder of `k` is `{{k}}`, four characters longer than `k` |
| `Messages.Interpolated` | model/Message.js:23-25 | with no interpolation pairs the message is unchanged; the replacements themselves are stated by `FirstOccurrenceOnly`, `NoPlaceholdersUnchanged` and `SecondOccurrenceKept` |
| `Strs.Substitution` | model/Message.js:24 | the replacement text `String.prototype.replace` inserts: a value without `$` is inserted as it is |
| `Strs.ReplaceFirst` | model/Message.js:24 | `replace` with a string pattern changes only the first occurrence, to the expanded replacement; without an occurrence the text is unchanged |
| `Messages.Interpolate` | model/Message.js:23-25 | the replacement loop computes the interpolated text: each key's placeholder replaced at its first occurrence, in key order |
| `Messages.GetMsgObj` | model/Message.js:16-34 | an unknown key gives the key alone; a known key gives its code and key; a missing locale text with interpolation is a TypeError |
| `Messages.Print` | model/Message.js:43-50 | an unknown key prints as itself; a known key prints `[key] ` and its interpolated text in the process-wide locale |
| `Messages.PrintPlain` | model/Message.js:43-50 | printing without interpolation never fails and agrees with `Print` |
| `Messages.PrintValue` | model/Message.js:43-50 | a string key prints as `PrintPlain`; printing fails exactly for an unknown `undefined` or `null` key |
| `Messages.Lookup` | model/Message.js:59-66 | an unknown key gives the key; a known key gives its code and interpolated text, with `key` and `msg` removed |
| `Messages.FirstOccurrenceOnly` | model/Message.js:24 | a placeholder is replaced at its first occurrence only, by the value with its `$$`, `$&`, `` $` `` and `$'` patterns expanded; the text around it is kept |
| `Messages.DollarPatternsExpand` | model/Message.js:24 | the value `$&` puts the placeholder back, and `$$` gives a single `$` |
| `Messages.NoPlaceholdersUnchanged` | model/Message.js:23-25 | a message holding none of the placeholders is left unchanged |
| `Messages.SecondOccurrenceKept` | model/Message.js:24 | a second occurrence of the same placeholder survives interpolation; the first becomes the expanded value |
| `Tools.ValidateScanMode` | utils/tools.js:170-203 | a missing local mode gives `Scan mode invalid`; a local mode that differs from the online one gives the not-allowed-to-modify message; an unsupported mode gives `Passed in scan mode "<mode>" cannot be found in [<the scan-mode table as JSON>]`; valid iff present, equal to any online mode, and one of the scan modes |
| `Tools.ProjectNameExamples` | __test__/utils/tools.spec.js:85-92 | the test suite's three names: the first is valid, the one with `&` and the one starting with `-` are not |
| `Tools.ValidProjectNameShape` | utils/tools.js:251-256 | a valid project name has 2..50 characters, starts with a word character and does not end with a space |
| `Tools.ValidateProjectName` | utils/tools.js:251-256 | the name pattern and the 50-character limit; its shape is stated by `ValidProjectNameShape` and the test names by `ProjectNameExamples` |
| `Tools.GenerateProjectId` | utils/tools.js:263-268 | the id is at most eight characters longer than the name |
| `Tools.GeneratedProjectIdShape` | utils/tools.js:263-268 | from a clock reading of 13 or more digits, the id is the name's alphanumerics lower-cased followed by an 8-digit suffix |
| `Tools.GeneratedProjectIdTestCase` | __test__/utils/tools.spec.js:98-99 | the name `Test` gives a 12-character id |
| `Tools.GenerateId` | utils/tools.js:21-27 | a task id is 8 lower-case hexadecimal characters |
| `Tools.EveryHexStringIsAnId` | utils/tools.js:21-27 | every 8-character hexadecimal string is the id of some random bytes, so the id space is exactly `[0-9a-f]{8}` |
| `Tools.FlowLine` | utils/tools.js:34-45 | a flow line starts with `[FLOW]`, ends with a newline, and holds no other line break or carriage return |
| `Json.EscapeChar` | utils/tools.js:36 | `JSON.stringify` writes `"` and `\` behind a backslash, the five short control escapes, `\u00xx` for every other control character, and leaves every other character as it is |
| `Json.Escape` | utils/tools.js:36 | an escaped string holds no control character, and plain text is unchanged |
| `Json.Quote` | utils/tools.js:36 | a quoted string holds no control character, and its body reads back as the string |
| `Json.UnescapeEscape` | utils/tools.js:36 | reading back what `Escape` writes, as `JSON.parse` reads a string body, gives the string |
| `Json.Stringify` | utils/tools.js:36 | `JSON.stringify` without indentation writes no control character, so one line |
| `Tools.FlowObjectAction` | utils/tools.js:34-45 | `action` is SCAN unless the supplements give one, and every supplement is carried |
| `SubPhases.ClampTimeout` | model/SubPhase.js:47-54 | a timeout above 2^31-2 becomes exactly 2^31-2; any other timeout is kept |
| `SubPhases.SubPhase.constructor` | model/SubPhase.js:23-41 | a step keeps its name, type, run and `finish` callback, clamps its policy timeout, takes its next step from the policy and keeps only a present command |
| `SubPhases.Clamped` | model/SubPhase.js:47-54 | the kept policy's timeout is at most 2^31 - 2, and only the timeout changes |
| `SubPhases.SubPhase.SetPolicy` | model/SubPhase.js:47-54 | the policy is replaced with its timeout clamped; nothing else changes |
| `SubPhases.FlowLogs` | model/SubPhase.js:61-68 | flow-log extraction yields at most one entry per line |
| `SubPhases.FlowLogsAppend` | model/SubPhase.js:61-68 | extraction works line by line: it distributes over concatenation |
| `SubPhases.FlowLogsIgnoreOtherLines` | model/SubPhase.js:61-68 | lines without `[FLOW]` contribute nothing |
| `SubPhases.FlowLogsOfMarkedLine` | model/SubPhase.js:61-68 | a line starting with `[FLOW]` comes back without it |
| `SubPhases.FlowLineRoundTrip` | model/SubPhase.js:63-66 | a line written by the flow reporter is extracted as its JSON text, so report and extraction are inverse |
| `SubPhases.SubPhase.ExtractFlowLogs` | model/SubPhase.js:61-68 | the flow logs become those of the stdout lines when there is stdout, and are kept otherwise |
| `SubPhases.SubPhase.Execute` | model/SubPhase.js:175-208 | `execute()` lets the run set the policy and the summary, yields the outcome the run and the flag in force after it decide, extracts the flow logs, and always finishes the state, after the `finish` callback |
| `SubPhases.OptionalStepAbsorbs` | model/SubPhase.js:175-208 | a step optional after its run resolves with `{status: 0}` unless the run rejects with `undefined` or `null`, which rejects with a TypeError |
| `SubPhases.PromotedStepRejects` | model/SubPhase.js:182-204 | a step its run makes mandatory passes a thrown failure on, where its starting flag would have absorbed it |
| `SubPhases.PolicyAfterSettles` | model/SubPhase.js:182-201 | the policy after the run is settled, and a run that sets no policy is judged by the step's own flag |
| `SubPhases.MandatoryStepPropagates` | model/SubPhase.js:175-208 | a mandatory step resolves iff its run resolves with status 0; a thrown error and a non-zero result are rejected unchanged, and a nullish result or rejection gives a TypeError |
| `SubPhases.ResolvesWithStatusZero` | model/SubPhase.js:175-208 | a step that resolves always resolves with `{status: 0}` |
| `SubPhases.SubPhase.Finish` | model/SubPhase.js:230-252 | `_finish` first lets the `finish` callback set the summary, then writes the finished state with it |
| `SubPhases.FinishedStateKeys` | model/SubPhase.js:230-252 | `executeCommand` is added iff one is set, `flowLogs` iff there are any, `summary` iff it is truthy |
| `SubPhases.FinishedStateKeepsOthers` | model/SubPhase.js:230-252 | every other key of the state keeps its value |
| `ScanTask.Phase.constructor` | model/Phase.js:19-22 | a new phase has its name, no policy, no current state and empty stacks |
| `ScanTask.Phase.SetPolicy` | model/Phase.js:29-33 | sets the policy and returns the phase itself |
| `ScanTask.Phase.AddSubPhase` | model/Phase.js:48-51 | appends the step at the end and returns the phase itself |
| `ScanTask.Phase.SetState` | model/Phase.js:89-92 | the state setter makes the state current and pushes it on the stack |
| `ScanTask.Verdict` | model/Phase.js:118-159 | a step passes iff it resolves with status 0 and is then closed as SUCCESS; otherwise it is FAILED, or stays PENDING on a TypeError |
| `ScanTask.ReportedError` | model/Phase.js:145 | the reason is `logs.error` when truthy, else the last stderr entry; missing logs are a TypeError |
| `ScanTask.StepRecord` | model/Phase.js:118-159 | a step's record carries its name, its verdict's status, its start reading, an end reading and elapsed text iff closed, and the step's state |
| `ScanTask.Phase.Record` | model/Phase.js:118-159 | the State of a step is created at its start reading and, when closed, updated at its end reading; the record is `StepRecord` |
| `ScanTask.RunFrom` | model/Phase.js:118-159 | the fail-fast loop executes at most the steps of the plan |
| `ScanTask.RunFromFailFast` | model/Phase.js:118-159 | a phase resolves iff every step passes, and then runs them all; otherwise it stops at the first failing step and rejects with its rejection |
| `ScanTask.PushedAreResolved` | model/Phase.js:118-159 | only resolved steps push a state, each under its own name |
| `ScanTask.ResolvedArePushed` | model/Phase.js:118-159 | every resolved executed step pushes its state |
| `ScanTask.RunFromAt` | model/Phase.js:118-159 | the loop goes on past a passing step and stops at a failing one |
| `ScanTask.Plans` | model/Phase.js:118-159 | each step's outcome is decided by its run and the mandatory flag in force after it |
| `ScanTask.Phase.ExecuteStep` | model/Phase.js:118-159 | executes a step and pushes its report iff it resolves |
| `ScanTask.Phase.RunStep` | model/Phase.js:118-159 | one pass of the loop: executes the step and appends exactly one record to the scan's activity log, whatever the outcome |
| `ScanTask.Phase.Step` | model/Phase.js:118-159 | one pass keeps the loop invariant: records and pushed states so far match the plan's first steps, and each record carries its own step's clock readings |
| `ScanTask.Phase.Run` | model/Phase.js:118-159 | `run` executes the steps in order until one fails; it appends one record per executed step, stamped with that step's readings, and pushes the resolved ones; its result is `RunFrom` of the plan |
| `ScanTask.Scan.constructor` | model/Scan.js:131-154 | a new scan is PENDING with no online id and an empty log, and is registered (upserted) in the project's task records |
| `ScanTask.Scan.PushState` | model/Scan.js:160-163 | appends the record to the activity log and re-saves the scan in the project's records |
| `ScanTask.Scan.Begin` | model/Scan.js:357-360 | records the next CI/CD state, with `undefined` turned into `null` by the parameter default, starts the clock and saves the scan |
| `ScanTask.Scan.RunSteps` | model/Scan.js:364-366 | a phase runs with the result its plan gives, and the activity log only grows |
| `ScanTask.Scan.RunPhase` | model/Scan.js:364-388 | a resolved phase sets SUCCESS; a rejected one goes to the catch as written, which keeps the status when the rejection has no logs |
| `ScanTask.Scan.Catch` | model/Scan.js:378-388 | the catch as written: with logs it sets FAILED, the printed reason and the finishing data; without logs it changes nothing |
| `ScanTask.Scan.RunPhases` | model/Scan.js:363-388 | the phase loop leaves the status (`ScanStatus`), the reason and the finishing data that the step outcomes decide, each phase on its own clock readings |
| `ScanTask.Scan.RunAndFinish` | model/Scan.js:362-391 | after the loop `_finish` always runs, at the finishing clock reading; the exit is 0 iff the status is SUCCESS |
| `ScanTask.Scan.Start` | model/Scan.js:357-392 | `start` records the next CI/CD state (`null` for `undefined`) at the starting reading, runs the phases and finishes; status, reason and exit follow from the step outcomes as written; the printed data has `cicd` exactly when CI/CD control is on |
| `ScanTask.ScanSucceedsIffAllStepsSucceed` | model/Scan.js:357-392 | with the intended catch, a scan ends in SUCCESS iff every step of every phase passes (and there is at least one phase, or it already was SUCCESS) |
| `ScanTask.StatusFromFirstRejection` | model/Scan.js:357-392 | as written: FAILED after a rejection with logs; after one without logs, SUCCESS if the first phase resolved and the starting status otherwise; SUCCESS when phases ran and all resolved; unchanged with no phases |
| `ScanTask.ScanStatus` | model/Scan.js:357-392 | the status `start` leaves is the starting status, SUCCESS or FAILED |
| `ScanTask.IntendedStatusFromFirstRejection` | model/Scan.js:357-392 | with the intended catch: FAILED after any rejection, SUCCESS when phases ran and all resolved, unchanged otherwise |
| `ScanTask.WrittenAgreesWithIntended` | model/Scan.js:378-388 | the written and the intended scan status agree unless the first rejection has no logs |
| `ScanTask.PhaseLoopStep` | model/Scan.js:364-388 | a resolved phase passes on with SUCCESS; a rejected phase decides the status |
| `ScanTask.CaughtError` | model/Scan.js:381-387 | once the error is known the catch always sets FAILED |
| `ScanTask.CaughtAsWritten` | model/Scan.js:378-388 | without logs the catch throws before changing anything: status kept, no reason, no finishing data; with logs it is the intended catch |
| `ScanTask.CaughtCorrected` | model/Scan.js:380 | the intended catch fails the scan even for a rejection without logs, and agrees with the written catch when logs exist |
| `ScanTask.RejectionWithoutLogsKeepsSuccess` | model/Scan.js:380 | as written, a rejection without logs after a successful phase leaves the scan in SUCCESS |
| `ScanTask.CatchDecides` | model/Scan.js:378-388 | after the first rejection, the reason and the finishing data are those of the catch as written on it |
| `ScanTask.CicdInfo` | model/Scan.js:406-413 | the CI/CD info defaults `pipelineType` to TRIAL and never leaves the commit ids undefined |
| `ScanTask.InfoOf` | model/Scan.js:398-421 | the info object has its ten properties and the scan task id as `id` |
| `ScanTask.LogJson` | model/Scan.js:398-421 | the activity log is serialised record by record, one JSON record each |
| `ScanTask.Scan.Info` | model/Scan.js:398-421 | the info of the scan is identified by its task id |
| `ScanTask.Scan.GetInfo` | model/Scan.js:398-421 | `getInfo` stamps the end time and returns the info |
| `ScanTask.Scan.ZipStateFolder` | model/Scan.js:459-464 | the state folder gains `<taskId>.zip` |
| `ScanTask.Zipped` | model/Scan.js:459-464 | after zipping the folder holds the archive and every earlier entry |
| `ScanTask.Scan.Save` | model/Scan.js:501 | the scan is upserted into the project's records |
| `ScanTask.Scan.Archive` | model/Scan.js:502-507 | a successful scan is zipped, then the scan task folders are cleaned up; otherwise the folder is untouched |
| `ScanTask.Scan.SaveAndArchive` | model/Scan.js:501-507 | saves the scan, then archives and cleans up iff it succeeded |
| `ScanTask.Scan.Finish` | model/Scan.js:485-529 | `_finish` exits 0 with the flow data iff the scan succeeded, else 1; the flow data gains `cicd` only when ENABLE_CICD_CONTROL is on |
| `ScanTask.FlowDataCarries` | model/Scan.js:487-500 | the printed data carries the project id, the online scan id or `null`, `cicd` with the pipeline type and the current and next states when CI/CD control is on (the data's own `cicd` otherwise), and every other key of the data unchanged |
| `ScanTask.ZipSurvivesCleanup` | model/Scan.js:505-507 | housekeeping deletes only directories, so the archive survives it |
| `Projects.IPv4ShapedIsPattern` | model/Project.js:117-137 | the computed dotted-quad test recognises exactly the IPv4 pattern |
| `Projects.ValidateProjectId` | model/Project.js:117-137 | valid iff 3..63 characters of `[a-z0-9.-]`, alphanumeric first, not IPv4-shaped, not starting with `xn--` |
| `Projects.TrailingHyphenAccepted` | model/Project.js:117-137 | the last character is not checked: `abc-` is accepted |
| `Projects.DottedQuadRefused` | model/Project.js:117-137 | `192.168.5.4` is refused |
| `Projects.PrefixesRefused` | model/Project.js:117-137 | `xn--abc`, `-abc` and `ab` are refused |
| `Projects.ValidateConfigByCicdState` | model/Project.js:270-293 | invalid iff a DSR state has no local action, or an online CI/CD action differs from a present local one |
| `Projects.UpdateLocalProjectConfValues` | model/Project.js:262-268 | the update's keys win and the other local keys are kept |
| `Projects.FindIndex` | model/Project.js:682-697 | the index of the first record with the id, or -1 when none has it |
| `Projects.UpsertShape` | model/Project.js:682-697 | a new id is appended; an existing one is merged at the same index; other records are unchanged and the list grows by at most one |
| `Projects.UpsertedRecordCarriesTask` | model/Project.js:682-697 | the merged record holds every value of the scan task and keeps its other values |
| `Projects.Project.UpdateScanTaskToProjectScanRecords` | model/Project.js:682-697 | the scan task records become the upsert of the scan task |
| `Projects.KeepSetIsLastRecords` | model/Project.js:598 | the keep-set is the ids of the last `maxTaskFolders` records; with 0, `slice(-0)` keeps them all |
| `Projects.SurvivingMembers` | model/Project.js:592-609 | an entry survives iff it is not a directory or its name is a kept id |
| `Projects.Surviving` | model/Project.js:592-609 | housekeeping only removes entries |
| `Projects.NoRecordsDeletesEveryDirectory` | model/Project.js:592-609 | with no records every task directory is deleted and other entries stay |
| `Projects.Project.CleanupTaskFolders` | model/Project.js:592-609 | the state folder keeps exactly the surviving entries |
| `Projects.Project.WriteCancelRecord` | model/Project.js:724-740 | the cancel records grow by the defaults overridden by the argument |
| `Projects.FindSubmitLog` | model/Project.js:778-779 | a found log is in the activity log and is the SUBMIT_SCAN_TASK step |
| `Projects.RefusedCancel` | model/Project.js:749-776 | a refused cancel records FAILED, the printed no-scan-record message as its reason, and its exit code |
| `Projects.AcceptedCancel` | model/Project.js:778-811 | an accepted cancel records the scan id, SUCCESS and exit code 0; it is marked submitted, with the reason, iff the API is called |
| `Projects.SubmittedCancel` | model/Project.js:782-788 | the submitted record's scan id, `submitted`, SUCCESS, reason and exit code 0 |
| `Projects.UnsubmittedCancel` | model/Project.js:797-801 | the unsubmitted record's scan id, SUCCESS and exit code 0, with no reason and no `submitted` |
| `Projects.CancelResultFollowsExitCode` | model/Project.js:749-811 | every decided cancel records SUCCESS iff it exits with 0, else FAILED |
| `Projects.CancelWithoutRecords` | model/Project.js:749-760 | no records: the cancel fails with exit 1 and calls no API |
| `Projects.CancelWithoutOnlineScanId` | model/Project.js:765-776 | no online scan id: the cancel fails with exit 10 and calls no API |
| `Projects.CancelDecision` | model/Project.js:748-811 | every recorded decision ends with the exit code the process exits with |
| `Projects.CancelSucceedsOnlyWithScanId` | model/Project.js:749-779 | a cancel exits with 0 only when there is a task record and the last one has an online scan id |
| `Projects.CancelApiTarget` | model/Project.js:778-811 | the cancel API is called only for the last record's online scan id, with exit 0 and a submitted record |
| `Projects.CancelApiIffSubmitted` | model/Project.js:778-811 | the cancel API is called iff the last record's SUBMIT_SCAN_TASK step succeeded |
| `Projects.Project.CancelScanByProjectId` | model/Project.js:748-811 | decides the cancel, appends exactly one cancel record for the decision, and exits with its code |
| `Projects.Project.SetCicdState` | model/Project.js:968-970 | records the next CI/CD state under `nextState` |
| `Projects.Project.constructor` | model/Project.js:45 | a project starts with its given records, folder and CI/CD data, and no cancel records |
| `Fsm.Transit` | controller/fsm/fsmController.js:66-74 | a transition is returned iff it validates; otherwise its error is thrown; an exit inside `transit` ends the process |
| `Fsm.StateMapLastWins` | controller/fsm/fsmController.js:99-102 | the map has exactly the listed names, and a later state with a name replaces an earlier one |
| `Fsm.StateMap` | controller/fsm/fsmController.js:99-102 | every listed state is in the map, each entry under its own name |
| `Fsm.CicdFsm.constructor` | controller/fsm/fsmController.js:86-97 | the machine resumes from the stored state when it is truthy, from START otherwise, and adds the states in order |
| `Fsm.CicdFsm.AddState` | controller/fsm/fsmController.js:99-102 | sets the state under its name, replacing any state of that name |
| `Fsm.CicdFsm.TransitFrom` | controller/fsm/fsmController.js:108-125 | a state not in the map throws the not-found message; otherwise that state transits |
| `Fsm.CicdFsm.Start` | controller/fsm/fsmController.js:128-140 | `start` makes one transition; it gives the next state, or `undefined` when the transition throws |
| `CicdStart.NeedsCommit` | index.js:57-113 | the clean and DSR transitions lead to their state and validate iff there is a commit id |
| `CicdStart.DecisionTable` | index.js:115-129 | CI goes to CI_DSR_SCAN_DONE, CD to CD_DSR_SCAN_DONE, any other action exits GENERAL_ERROR |
| `CicdStart.StatesByName` | index.js:131-192 | the five states are found under their own distinct names |
| `CicdStart.States` | index.js:131-192 | five states: START and TRIAL_SCAN_DONE share the first-scan choice, the clean and DSR states share the DSR choice |
| `CicdStart.NextCicdState` | index.js:46-194 | a next state is `undefined` or one of the four scan states, never START; an exit happens only from a stored state |
| `CicdStart.UnknownStateOutcome` | index.js:131-194 | from a stored state that is none of the five the transition throws, and the next state is `undefined` |
| `CicdStart.MachineFollowsTable` | index.js:131-194 | the machine built over these states decides as the CI/CD decision table |
| `CicdStart.FirstScanChoiceOutcome` | index.js:132-155 | from START or TRIAL_SCAN_DONE: CLEAN_SCAN_DONE with a commit id and CD, TRIAL_SCAN_DONE otherwise |
| `CicdStart.DsrChoiceOutcome` | index.js:157-192 | from a clean or DSR state: an exit with an undefined code without a commit id, else the decision table |
| `CicdStart.OneTransition` | index.js:46-194 | one invocation makes one transition: a defined next state is a successor of the resumed state |
| `CicdStart.CommitNeededBeyondTrial` | index.js:46-194 | clean and DSR states are reached only with a commit id, and the CI or CD state only with that action |
| `CicdStart.Start` | index.js:46-194 | `CICDStart` gives the table's next state or exit |
| `CicdStart.StartScan` | index.js:329-336 | with CI/CD control on, the computed state is passed to the scan, which records it (`null` for `undefined`); an exit in the transition ends the process before any scan; with control off the scan starts with `null` and no transition is made; the recorded next state is never `undefined` |
| `CicdStart.RecordedNextState` | index.js:329-333 | the state a controlled scan records is `null` exactly when the stored state is set but none of the five known ones (the transition threw), otherwise one of the scan states |
| `Trigger.CalcScanTaskStatus` | modules/trigger/xcal-trigger.py:364-377 | FAILED iff PROC or POSTPROC with FAILED/FATAL; TERMINATED iff either with CANCEL; COMPLETED iff POSTPROC with SUCC; PROCESSING otherwise |
| `Trigger.ReplayStopsAtFirstDecision` | modules/trigger/xcal-trigger.py:353-356 | the replay ends with the status of the first deciding event, PROCESSING when none decides, and unchanged with no events |
| `Trigger.Replay` | modules/trigger/xcal-trigger.py:353-356 | replaying no events keeps the status; replaying some leaves PROCESSING, FAILED, TERMINATED or COMPLETED |
| `Trigger.Sse.constructor` | modules/trigger/xcal-trigger.py:314-319 | a listener starts with no id, PROCESSING and nothing buffered |
| `Trigger.Sse.Receive` | modules/trigger/xcal-trigger.py:327-343 | before the id is known events are buffered per task; after it, only this task's events update the status, stopping when it is decided |
| `Trigger.Sse.SetScanTaskId` | modules/trigger/xcal-trigger.py:348-358 | only the first call sets the id and replays its buffered history; later calls change nothing |
| `Trigger.PathJoin` | modules/trigger/xcal-trigger.py:559 | a join ends with its second part and starts with its first unless the second is absolute |
| `Trigger.ProjectConfigPath` | modules/trigger/xcal-trigger.py:555-562 | `-c` wins, made absolute as `normpath(join(cwd, path))`, else `xcalscan.conf` under `-s`, else it raises the either-or message |
| `Trigger.ClientExit` | modules/trigger/xcal-trigger.py:641-654 | a timeout or an exit code outside the ignored codes fails; 12, 4 and 5 end the trigger with 0; 0 and 10 go on |
| `ScmErrorRecover.PhaseNumbers` | modules/scm/scmErrorRecover.py:46-54 | PREPROC_SCM is 17 and the sub-sub-phases are 273, 274 and 275 |
| `ScmErrorRecover.ErrorCodeLayout` | modules/scm/scmErrorRecover.py:58-69 | error code n is `0x10011100 + n`: user-visible bit set, the COMMIT sub-sub-phase in bits 8-19, n in the low byte |
| `ScmErrorRecover.FirstFailure` | modules/scm/scmErrorRecover.py:91-116 | the checks run in order; the answer is `(0, '')` iff none fails, else the report of the first failing check |
| `ScmErrorRecover.UnfoldAll` | modules/scm/scmErrorRecover.py:91-116 | for up to six checks the first-failure search is the chain of `if` statements the source writes |
| `ScmErrorRecover.HealthCheck` | modules/scm/scmErrorRecover.py:201-202 | a phase without a registered check answers `(0, '')` |
| `ScmErrorRecover.HealthCheckAsWritten` | modules/scm/scmErrorRecover.py:91-144 | as written, the commit check raises AttributeError exactly when the work dir is missing; a phase without a check passes |
| `ScmErrorRecover.ErrorMessage` | modules/scm/scmErrorRecover.py:73-85 | the message table answers `unknown` exactly for 0 and codes past the last known one |
| `ScmErrorRecover.CommitCheckOrder` | modules/scm/scmErrorRecover.py:91-116 | the commit check passes iff all six checks pass, and reports work dir, API host, project id, token and repo path in that order |
| `ScmErrorRecover.DiffAndSourceChecks` | modules/scm/scmErrorRecover.py:119-144 | the diff and source checks pass iff their paths are non-empty and exist |
| `ScmErrorRecover.MisspeltMemberRaises` | modules/scm/scmErrorRecover.py:94-95 | as written a missing work dir raises AttributeError; as intended it reports code `0x10011101` |
| `ScmErrorRecover.MissingRepoPathPasses` | modules/scm/scmErrorRecover.py:124-127 | as written a missing repo path passes the diff check; as intended it reports code `0x10011108` |
| `ScmErrorRecover.AsWrittenTestsOnlyEmptiness` | modules/scm/scmErrorRecover.py:109 | with the work dir present, the written path checks test only emptiness |
| `ScmErrorRecover.Fini` | modules/scm/scmErrorRecover.py:224-226 | `fini` exits iff the status is non-zero, with that status |
| `BuildTask.ScanAllPrebuildCommand` | modules/buildtask/xcal_build_task.py:250-259 | empty for an unknown build command; otherwise the clean command, followed by ` && ` and the prebuild command when given |
| `BuildTask.KeptFilesSpec` | modules/buildtask/xcal_build_task.py:243-247 | every kept file starts with the project path, every such normalised path is kept, and the order is the listed order |
| `BuildTask.KeptFiles` | modules/buildtask/xcal_build_task.py:243-247 | the filter keeps at most the listed files |
| `BuildTask.SourceCodeFileList` | modules/buildtask/xcal_build_task.py:227-248 | a non-list or empty list gives no files; a non-string entry raises; otherwise the kept normalised files |
| `BuildTask.PreprocessedCountSpec` | modules/buildtask/xcal_build_task.py:155-160 | the count is at most the number of names, and zero iff no name ends in `.i` or `.ii` |
| `BuildTask.CountPreprocessed` | modules/buildtask/xcal_build_task.py:155-160 | the loop counts the preprocessed names |
| `BuildTask.CheckArchiveNames` | modules/buildtask/xcal_build_task.py:150-163 | an empty archive or one without `xcalibyte.properties` fails an assertion; otherwise ENoIFileGenerated iff no `.i`/`.ii` name |
| `Connect.EntryKeys` | modules/common/XcalConnect.py:299-314 | the entry carries the step's file name, the file id when built from it, and every other key of an upload result |
| `Connect.FindByFilenameSpec` | modules/common/XcalConnect.py:318-324 | the search finds nothing iff no result has the file name, else the first that has it |
| `Connect.FindAfterAppend` | modules/common/XcalConnect.py:299-324 | appending under a new file name makes it found; earlier matches still shadow it; other names are unaffected |
| `Connect.JobConfig.constructor` | modules/common/XcalConnect.py:299-314 | a job configuration holds the given upload-result list |
| `Connect.JobConfig.Append` | modules/common/XcalConnect.py:299-314 | raises and changes nothing without a result and a file id; otherwise creates the list if absent and appends exactly the tagged entry |
| `Connect.JobConfig.Extract` | modules/common/XcalConnect.py:318-324 | nothing without a list, else the first result with the file name |
| `Connect.AppendThenExtract` | modules/common/XcalConnect.py:299-324 | after appending for a step with no earlier result of its file name, extraction returns that entry |
| `Versioning.FormatValid` | scripts/versioning.js:9-17 | every well-formed version formats to a valid version string, and parsing gives it back |
| `Versioning.ValidateVersion` | scripts/versioning.js:9-17 | the version grammar; `ValidateVersionExact` proves it accepts exactly the well-formed versions |
| `Versioning.ParseFormats` | scripts/versioning.js:9-17 | every valid version string is the format of the well-formed version it parses to |
| `Versioning.ValidateVersionExact` | scripts/versioning.js:9-17 | `validateVersion` accepts exactly the formats of well-formed Semantic Versioning 2.0.0 versions |
| `Versioning.InjectPreReleaseVersion` | scripts/versioning.js:19-30 | empty for an unknown type; otherwise the type's name and the number as two pre-release identifiers |
| `Versioning.InjectedVersionValid` | scripts/versioning.js:19-30 | the injected suffix appended to a release version is a valid version |
| `Versioning.SetVersion` | scripts/versioning.js:43-103 | refuses an invalid direct value; writes a direct value or creates a missing file; refuses unsupported updates and invalid stored versions; otherwise writes and returns the bumped text |
| `Versioning.Bump` | scripts/versioning.js:76-93 | build metadata is dropped; major, minor and patch keep the pre-release part; meta changes only the second pre-release identifier |
| `Versioning.BumpWellFormed` | scripts/versioning.js:76-93 | a bump of a well-formed version is well formed, and meta adds one to the identifier's value |
| `Versioning.BlocksOfFormat` | scripts/versioning.js:67-74 | without build metadata or `-` inside identifiers, the blocks are the three numbers and the pre-release identifiers |
| `Versioning.MajorBranch` | scripts/versioning.js:79-83 | the major bump increments the first block and resets the two after it |
| `Versioning.MinorBranch` | scripts/versioning.js:84-87 | the minor bump increments the second block and resets the third |
| `Versioning.PatchBranch` | scripts/versioning.js:88-90 | the patch bump increments only the third block |
| `Versioning.MetaBranch` | scripts/versioning.js:91-93 | the meta bump throws without meta blocks and otherwise increments the second of them |
| `Versioning.Name` | scripts/versioning.js:127 | every block's update name is one of the supported `verBlocks` |
| `Versioning.ToNumber` | scripts/versioning.js:80-92 | `Number()`: a missing element is NaN, the empty string 0, a decimal numeric block its value |
| `Versioning.Incremented` | scripts/versioning.js:80-92 | `++`: `NaN` exactly for a non-number, `Infinity` for `Infinity`, otherwise the decimal digits of the number plus one |
| `Versioning.HexLiterals` | scripts/versioning.js:92 | `Number()` reads `0x1` as 1 and `0X1f` as 31, and `0x` and `+0x1` as NaN |
| `Versioning.OctalBinaryLiterals` | scripts/versioning.js:92 | `Number()` reads `0o17` as 15 and `0b101` as 5 |
| `Versioning.ExponentLiterals` | scripts/versioning.js:92 | `Number()` reads `1e3` as 1000 and `2E+2` as 200, and `1e` as NaN |
| `Versioning.SignedLiterals` | scripts/versioning.js:92 | `Number()` reads `Infinity`, `+7` as 7 and `alpha` as NaN |
| `Versioning.MetaBumpReadsLiterals` | scripts/versioning.js:68-97 | the meta bump writes one more than `Number()` of the second pre-release identifier, also where it is alphanumeric and the bump of versions is undefined |
| `Versioning.HexMetaBump` | scripts/versioning.js:68-97 | `1.0.0-alpha.0x1` is valid, and its meta bump writes `1.0.0-alpha.2` |
| `Versioning.ExponentMetaBump` | scripts/versioning.js:68-97 | `1.0.0-alpha.1e3` is valid, and its meta bump writes `1.0.0-alpha.1001` |
| `Versioning.LiteralVersion` | scripts/versioning.js:68-97 | `1.0.0-alpha.<id>` is valid for an alphanumeric `id`, and its meta bump writes one more than `Number(id)` |
| `Versioning.SetAt` | scripts/versioning.js:80-92 | an element assignment changes exactly that element, growing the array past its end |
| `Versioning.BumpedFormats` | scripts/versioning.js:67-97 | for such a version the written bump is the formatted bumped version: M+1.0.0, M.m+1.0, M.m.p+1, or meta+1, pre-release kept |
| `Versioning.Bumped` | scripts/versioning.js:67-97 | no update writes the empty string; the bump throws exactly for meta without meta blocks; an unsupported update writes the blocks back unchanged |
| `Versioning.FormatAsOutput` | scripts/versioning.js:97 | the output line is the format of the version with the same pre-release part |
| `Versioning.BumpVersion` | scripts/versioning.js:67-97 | the intended bump yields a valid version that parses to the bumped version; only meta can be undefined |
| `Versioning.BumpedAgrees` | scripts/versioning.js:67-97 | where the written bump is meant to apply it agrees with the intended one |
| `Versioning.BumpVersionOfFormat` | scripts/versioning.js:67-97 | the intended bump of a formatted version is the formatted bumped version |
| `Versioning.PatchedVersionOfFormat` | scripts/versioning.js:88-90 | the intended patch bump gives the next patch number |
| `Versioning.BuildMetadataPatchedAsWritten` | scripts/versioning.js:68-89 | as written, the patch bump of `M.m.p+b` writes `M.m.NaN` |
| `Versioning.BuildMetadataBreaksPatch` | scripts/versioning.js:68-89 | `1.2.3+build` patches to `1.2.NaN` as written and to `1.2.4` as intended |
| `Versioning.PatchedAsWritten` | scripts/versioning.js:88-89 | as written, a patch block that is not a number is written as `NaN` |
| `Versioning.NotANumber` | scripts/versioning.js:89 | `++` on a block of digits followed by `+` and more writes `NaN` |
| `Versioning.PatchedNumberAsWritten` | scripts/versioning.js:88-97 | as written, the patch bump of blocks `a.b.c` with meta block `x` writes `a.b.c+1-x` when `c` is a number |
| `Versioning.HyphenatedPreReleaseAsWritten` | scripts/versioning.js:68-89 | as written, the patch bump of `M.m.p-x-y` writes `M.m.p+1-x`, losing `-y` |
| `Versioning.HyphenatedBlocks` | scripts/versioning.js:68-73 | the written split of `M.m.p-x-y` yields the three numbers and `x` alone as the meta block |
| `Versioning.HyphenatedPreReleaseTruncated` | scripts/versioning.js:68-89 | `1.0.0-alpha-1` patches to `1.0.1-alpha` as written and to `1.0.1-alpha-1` as intended |
| `FileInfo.ParentPath` | modules/common/XcalFileInfoCollector.py:135-147 | no parent iff depth 0; `/` at depth 1; otherwise a prefix of the relative path |
| `FileInfo.ParentOfDeeper` | modules/common/XcalFileInfoCollector.py:144-147 | a deeper entry's parent is the directory name of its relative path, empty without `/` |
| `FileInfo.DepthText` | modules/common/XcalFileInfoCollector.py:160-168 | the depth text is `None` iff the depth is missing from the map |
| `FileInfo.DirectoryRelativePath` | modules/common/XcalFileInfoCollector.py:161-164 | never empty, and `/` iff the directory is the project root |
| `FileInfo.RelPathNotRoot` | modules/common/XcalFileInfoCollector.py:162 | a relative path is never `/` |
| `Paths.NormPath` | modules/common/XcalFileInfoCollector.py:97 | `normpath` never gives the empty string, and keeps an absolute path absolute |
| `Paths.DirName` | modules/common/XcalFileInfoCollector.py:147 | `dirname` is a prefix of the path, and empty for a path without a separator |
| `Paths.BaseName` | modules/common/XcalFileInfoCollector.py:166 | `basename` is a suffix of the path holding no separator |
| `Paths.RelPath` | modules/common/XcalFileInfoCollector.py:162 | `relpath` never gives the empty string |
| `Paths.RelPathSelf` | modules/common/XcalFileInfoCollector.py:162 | a path relative to itself is `.` |
| `FileInfo.DirectoryFileInfo` | modules/common/XcalFileInfoCollector.py:150-177 | a DIRECTORY entry with checksum, size and lines `0`, id from the number, base name, `/` iff root, `None` depth iff unmapped, no parent iff depth 0 |
| `FileInfo.DirectoryParents` | modules/common/XcalFileInfoCollector.py:150-177 | the root at depth 0 has no parent and relative path `/`; a depth-1 directory hangs under `/` |
| `FileInfo.LineCountSpec` | modules/common/XcalFileInfoCollector.py:35-40 | the line count is the newline count, plus one for an unterminated last line, and zero iff the file is empty |
| `FileInfo.FileLines` | modules/common/XcalFileInfoCollector.py:22-40 | 0 for a missing or unreadable file, otherwise the line count |
| `FileInfo.Dirs` | modules/common/XcalFileInfoCollector.py:409 | the directory entries are a selection of DIRECTORY entries |
| `FileInfo.DirsAndFiles` | modules/common/XcalFileInfoCollector.py:409-415 | directories and files together are all the entries |
| `FileInfo.Counts` | modules/common/XcalFileInfoCollector.py:409-417 | `numberOfFiles` is the count of FILE entries and `numberOfDirs` that of DIRECTORY entries |

## Left out

- Timers and watchdogs (`setTimeout` in SubPhase and Phase), `system.osResource` snapshots, and the trigger's SSE thread and lock: timers, OS state and concurrency. SSE events arrive one `Receive` call at a time.
- HTTP calls (`updateScanStatus`, post actions, the cancel API, the server API): they are network I/O. Their effect on the modelled state is not modelled; the cancel API call is a result field.
- Spawned processes, git and file I/O: a step's `run()` is given by what it does to the step (the policy it sets, the summary it sets) and how it ends, and its `finish` callback by the summary it sets, and the client's exit code is a parameter. Writing the scan records, the cancel records and the state file is not modelled; the lists they write are fields. `ensureFileSync` and the write of `ver` are the `Outcome` `SetVersion` returns.
- Console and log output, except the `[FLOW]` line format and the error messages that reach a result.
- `State.load` (model/State.js:30-36): it rebuilds a state from a file and is not used by the scan flow.
- `Scan.start`'s `!result` branch: `Phase.run` resolves only with `true`, so the branch is dead and not modelled.
- `Versioning.ToNumber`: models `Number()` on the integer forms only: decimal digits with an optional exponent, `0x`/`0o`/`0b` integers, `Infinity`, an optional `+`, the empty string and a missing element. A `-` sign, a decimal point and white space are read as NaN; none of them can occur in a block, because the blocks are split at `-` and `.` and a valid version holds no white space. Values are exact naturals: the float64 rounding above 2^53 and the overflow to `Infinity` above about 1.8e308 are not modelled.
- `Versioning.Incremented`: writes the successor as decimal digits. The float64 rounding above 2^53 and the exponent notation `String()` uses for results of 1e21 and more are not modelled.
- `Versioning.InjectPreReleaseVersion`: a non-numeric `ver` argument is not modelled; the number is a natural.
- `Versioning.Bump`: the intended bump drops build metadata, as Semantic Versioning 2.0.0 section 10 allows. The written script (`Versioning.Bumped`) does not always drop it. After a pre-release part, the metadata stays in the last block: `1.2.3-alpha.1+build` patches to `1.2.4-alpha.1+build`, and major and minor keep it the same way; only a meta bump of the identifier that carries it gives `1.2.3-alpha.NaN`. Without a pre-release part, major and minor drop it (`1.2.3+build` gives `2.0.0` or `1.3.0`), patch gives `1.2.NaN` (see Findings), and meta throws.
- `Json.Escape`: `JSON.stringify` writes a lone surrogate code unit as a `\u` escape; the model's strings are sequences of Unicode scalar values, so they hold none, and `Unescape` refuses `\u` escapes of surrogates.
- `os.path.abspath` is modelled as `normpath(join(cwd, path))`, with the working directory a parameter. `realpath` and symbolic links are not modelled, and `relpath` takes both its paths as already absolute.
- `Paths.NormPath`, `Paths.DirName`, `Paths.BaseName`, `Paths.RelPath`: their contracts state shape properties (non-empty, prefix, suffix, no separator, rootedness), not the whole result; the functions compute it in full.
- `Connect.JobConfig.Append`: the entry is appended as a value. In the source the caller's `upload_result` dict is tagged with `filename` in place and that same object is appended, so later changes to it show in the list; this aliasing is not modelled. A job configuration holding `uploadResults: None` is not modelled either: there the source tags the caller's dict and then raises AttributeError on `None.append`.
- The file information collector's traversal (`_get_filename_depth_map`, `generate_file_info_by_*`), `_get_source_code_zip_file_id`, `sourceType`, modification times and CRC32 checksums: these are filesystem walks and foreign libraries. The depth map and the entry list are inputs.
- `FileInfo.FileLines`: it reads the file's content as a byte sequence, not from a path.
- The FSM transitions' `action` callbacks: every callback in index.js is empty.
- `Messages.Print`: a missing locale text with interpolation is a TypeError, modelled as `None`; it is not stated separately.
- How ENABLE_CICD_CONTROL gets its value: its default `true` (policy/data/configs.js:66) and the override from the environment (policy/index.js:129-145) are configuration loading; the model takes the resulting truthiness as the `cicdControl` parameter.
- `ScanTask.CaughtError`: the message `ErrorCodes.print` builds is stated by `Messages.PrintValue`, not repeated here.

## Findings

| source | as written | input that shows it | evidently intended | confidence | as-written member | corrected member |
|---|---|---|---|---|---|---|
| modules/scm/scmErrorRecover.py:94-95 | the commit check names `PREPROC_SCM_COMMIT_INVALUD_WORK_DIR`, which the enum does not have | an empty `work_dir` | report `PREPROC_SCM_COMMIT_INVALID_WORK_DIR` (`0x10011101`) | not executed | `ScmErrorRecover.MisspeltMemberRaises` | `ScmErrorRecover.HealthCheck` |
| modules/scm/scmErrorRecover.py:109 | the repo-path, source-list and host-path checks test `os.path.exists(work_dir)` instead of the path itself (also lines 125, 137, 141) | `work_dir="/work"` existing, `repo_path="/no/such/repo"` in the diff check | report `..._INVALID_REPO_PATH` (`0x10011108`) | not executed | `ScmErrorRecover.MissingRepoPathPasses` | `ScmErrorRecover.DiffAndSourceChecks` |
| model/Scan.js:380 | the `catch` reads `e.logs.stderr` even when `e.logs` is missing, so it throws before setting FAILED | a phase resolves, then a later step's `run()` resolves with `undefined` in a mandatory step | the scan fails with an undefined reason | not executed | `ScanTask.RejectionWithoutLogsKeepsSuccess` | `ScanTask.ScanSucceedsIffAllStepsSucceed` |
| scripts/versioning.js:68-89 | a version with build metadata keeps `+build` in the patch block, and `++` on it gives `NaN` | `1.2.3+build`, update `patch` | `1.2.4` | not executed | `Versioning.BuildMetadataBreaksPatch` | `Versioning.BumpVersion` |
| scripts/versioning.js:68-73 | splitting at every `-` keeps only the first part of a hyphenated pre-release identifier | `1.0.0-alpha-1`, update `patch` | `1.0.1-alpha-1` | not executed | `Versioning.HyphenatedPreReleaseTruncated` | `Versioning.BumpVersion` |
