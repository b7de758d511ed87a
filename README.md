# openclaw-lxd automations, modelled in Dafny

The repository automates one person's work through cron jobs and small daemons:

- a markdown task queue for development work (backlog, in progress, blocked, done);
- an agent scheduler that spawns one coding agent per task at night and watches them;
- a multi-step orchestration pipeline: preflight, implementation, verification, commit;
- adapters that mirror Signal, Telegram and WhatsApp chats into per-chat Obsidian notes, plus a Telegram history backfill;
- a watcher that wakes the main assistant session when a note in the vault changes.

This project models the logic of those programs and proves what they promise.

- Files are values. A queue file or a note is a `string` in a `map` from queue, or from path, to contents.
- Each program's persisted state (the JSON state files) is a class whose methods update its fields in place.
- Each method is specified by a pure step function. The lemmas are stated about those functions.
- The clock, fresh ids, git, the chat services and the `openclaw` CLI become parameters.
  - A `Draw` stands for the fresh ids that one read of a queue file hands out.
  - `now` stands for `datetime.now().isoformat()`.
  - `instant` maps a stamp to a number.
  - `success` is the exit status of a subprocess.

The modules follow the source files:

| module | file | models |
|---|---|---|
| `Text` | text.dfy | `str.strip`, `split`, `join` and lexicographic order on strings (helpers) |
| `FileNames` | file_names.dfy | the `sanitize_filename` helpers of the chat adapters |
| `TaskFormat` | task_format.dfy | the markdown task format of `task_manager.py`: parse, extract a field, format, write |
| `TaskQueues` | task_queues.dfy | the queue operations of `task_manager.py`: top of backlog, move, add, init |
| `Pipeline` | pipeline.dfy | `dev_orchestrator.py` |
| `Agents` | agents.dfy | `agent_monitor.py`, `nightly_dev_run.py` and the agent state of `task_manager.py` |
| `SignalSync` | signal.dfy | `signal/sync_to_obsidian.py` |
| `Telegram` | telegram.dfy | `telegram/telegram-sync.py` |
| `TelegramBackfill` | backfill.dfy | `telegram/telegram-backfill.py` |
| `WhatsAppSync` | whatsapp.dfy | `whatsapp/sync_to_obsidian.py` |
| `ObsidianWatcher` | obsidian_watcher.dfy | `obsidian/obsidian-watcher.py` |

The central results are these:

- A queue file written by `write_tasks` parses back to the same tasks: `TaskFormat.ParseWriteRoundTrip`.
- `move_task` moves the last task with the id, applies only the known attributes, and puts the task on top of the target queue: `TaskQueues.MoveReadBack`.
- The stable priority sort is sorted, a permutation and stable: `TaskQueues.SortIs*`.
- Every pipeline step keeps the pipeline's invariant, and verification gives up after three attempts: `Pipeline.*Sane`, `Pipeline.VerificationGivesUp`.
- The nightly run never pushes the count of running agents above two: `Agents.NightlyCap`.
- The per-chat mark of the Signal, Telegram and WhatsApp syncs only moves forward.
- Signal and WhatsApp write a message once: processing the same input again writes nothing (`SignalSync.ProcessTwice`, `WhatsAppSync.SyncStepTwice`).
- Telegram gives no such guarantee for the live handler. It appends every new message without consulting its mark (automations/telegram/telegram-sync.py:337-340), so a message delivered twice is written twice.
- The backfill's key comparison misses a media message with text that is already in the note (`TelegramBackfill.MediaDuplicateKeyDiffers`). The oldest-timestamp test keeps such a message out whenever its line is among the note's message lines and its stamp reads back (`TelegramBackfill.MediaDupKeptOut`). A repeat write can therefore happen only when the line sits above the `---` separator, or when its stamp cannot be read.

## Model

| member | source | states |
|---|---|---|
| FileNames.Sanitize | automations/signal/sync_to_obsidian.py:138-144 | the file name is non-empty and at most 80 characters, and an empty name becomes "Unknown" |
| FileNames.SanitizeSafe | automations/telegram/telegram-sync.py:131-137 | the result holds no character of the unsafe class and does not start with a dot |
| FileNames.SanitizeFixed | automations/signal/sync_to_obsidian.py:138-144 | a name is left unchanged exactly when it is already safe: non-empty, at most 80 characters, no unsafe character, trimmed, and no dot at either end |
| FileNames.SafeFixed | automations/signal/sync_to_obsidian.py:138-144 | every safe name is a fixed point of the sanitiser |
| FileNames.FixedParts | automations/signal/sync_to_obsidian.py:138-144 | a fixed point other than the fallback is a safe name |
| FileNames.ReplaceSafe | automations/signal/sync_to_obsidian.py:142 | after the substitution no unsafe character is left |
| FileNames.TrimmedPiece | automations/signal/sync_to_obsidian.py:143 | stripping whitespace and then dots leaves a contiguous slice of the input |
| FileNames.Collapse | automations/whatsapp/sync_to_obsidian.py:165 | collapsing whitespace never lengthens the name, keeps it non-empty, and keeps whether it starts with whitespace |
| FileNames.CollapseSpec | automations/whatsapp/sync_to_obsidian.py:165 | after collapsing, the only whitespace is single spaces, and every other character comes from the input |
| FileNames.SanitizeCollapsing | automations/whatsapp/sync_to_obsidian.py:161-166 | the WhatsApp file name is non-empty and at most 80 characters, and an empty name becomes "Unknown" |
| FileNames.SanitizeCollapsingSafe | automations/whatsapp/sync_to_obsidian.py:161-166 | the WhatsApp file name has no unsafe character, no leading dot and no double spaces |
| TaskFormat.PriorityOfDigit | automations/dev-tasks/task_manager.py:102 | the priority read from the digit after `P` prints back as the same two characters |
| TaskFormat.ExtractField | automations/dev-tasks/task_manager.py:142-151 | _extract_field; what a value it returns looks like is stated by `ExtractFieldValue`, `FindFieldValue` and `NamesDistinct` |
| TaskFormat.ExtractFieldValue | automations/dev-tasks/task_manager.py:142-151 | an extracted field value is one line and carries no trailing whitespace |
| TaskFormat.MatchAtValue | automations/dev-tasks/task_manager.py:144-150 | a regex match at one line start yields a one-line, trimmed value |
| TaskFormat.FindFieldValue | automations/dev-tasks/task_manager.py:144-150 | the first match of the field pattern anywhere in the body yields a one-line, trimmed value |
| TaskFormat.NamesDistinct | automations/dev-tasks/task_manager.py:144 | the case-insensitive field labels name distinct fields, so no label matches another field's line |
| TaskFormat.HeadingAtText | automations/dev-tasks/task_manager.py:102 | a recognised heading is the text `## [Pn] title` ending at a line end, with a non-empty one-line title |
| TaskFormat.HeadingAtComplete | automations/dev-tasks/task_manager.py:102 | every `## [Pn] title` line at a line start is recognised as a heading, so recognition is exact |
| TaskFormat.ScanLossless | automations/dev-tasks/task_manager.py:103 | the split into preamble and heading blocks loses no character of the file |
| TaskFormat.ScanTitles | automations/dev-tasks/task_manager.py:103 | every block found has a non-empty one-line title |
| TaskFormat.ParseBlocksAt | automations/dev-tasks/task_manager.py:107-137 | the k-th task read is the k-th block, with the default id, project "unknown", today's date and the stripped body as context when a field is missing |
| TaskFormat.ParseSpec | automations/dev-tasks/task_manager.py:93-139 | a missing file reads as no tasks, and otherwise there is exactly one task per heading block |
| TaskFormat.ParseTasks | automations/dev-tasks/task_manager.py:93-139 | the parsing loop computes the specification of parsing |
| TaskFormat.FormatTask | automations/dev-tasks/task_manager.py:154-174 | format_task; its layout is stated by `FormatTaskShape`, `EntriesShape`, `FormatTaskOrder` and `EntriesLookup` |
| TaskFormat.FormatTaskShape | automations/dev-tasks/task_manager.py:154-174 | a formatted task is its heading, a newline, and its field lines |
| TaskFormat.EntriesShape | automations/dev-tasks/task_manager.py:156-173 | the field lines are ID, Project and Created, then the optional fields that are set in source order, then Context |
| TaskFormat.FormatTaskOrder | automations/dev-tasks/task_manager.py:156-173 | there are at least four field lines: the first three are `- ID:`, `- Project:` and `- Created:` with the task's values, and the last is `- Context:` |
| TaskFormat.EntriesLookup | automations/dev-tasks/task_manager.py:154-174 | looking a field up among the written lines gives exactly the value the task holds for it |
| TaskFormat.WellFormedEntries | automations/dev-tasks/task_manager.py:154-174 | a well-formed task writes a non-empty list of field lines, each under its own field's label with a non-empty, one-line, trimmed value |
| TaskFormat.WriteTasks | automations/dev-tasks/task_manager.py:177-182 | write_tasks' file content; that it parses back to the tasks is stated by `ScanWritten` and `ParseWriteRoundTrip` |
| TaskFormat.ScanWritten | automations/dev-tasks/task_manager.py:177-182 | scanning a written file finds exactly one block per written task, in order |
| TaskFormat.ParseWriteRoundTrip | automations/dev-tasks/task_manager.py:177-182 | parsing a file that `write_tasks` wrote with a heading-free header returns the same well-formed tasks |
| TaskQueues.HeadersOk | automations/dev-tasks/task_manager.py:225-233 | every queue's header is non-empty and contains no task heading, so it never parses as a task |
| TaskQueues.ReadWritten | automations/dev-tasks/task_manager.py:177-182 | reading a queue file that holds the written tasks gives those tasks back |
| TaskQueues.PriorityStringOrder | automations/dev-tasks/task_manager.py:191 | sorting on the strings "P0".."P3" orders the priorities by rank, and equal strings mean equal priorities |
| TaskQueues.SortByPriority | automations/dev-tasks/task_manager.py:191 | the stable sort by priority; `SortIsSorted`, `SortIsPermutation`, `SortIsStable` and `SortUnique` state that it is Python's stable sort |
| TaskQueues.SortIsSorted | automations/dev-tasks/task_manager.py:191 | the priority sort yields a sequence ordered by rank |
| TaskQueues.SortIsPermutation | automations/dev-tasks/task_manager.py:191 | the priority sort is a permutation of its input |
| TaskQueues.SortIsStable | automations/dev-tasks/task_manager.py:191 | the sort keeps the input order among tasks of equal priority |
| TaskQueues.SortUnique | automations/dev-tasks/task_manager.py:191 | any sorted arrangement that keeps each priority's tasks in input order is the sort's result |
| TaskQueues.SortIdempotent | automations/dev-tasks/task_manager.py:250 | sorting a sorted queue leaves it as it is |
| TaskQueues.Top | automations/dev-tasks/task_manager.py:185-192 | get_top_backlog_task on the parsed backlog; what it picks is stated by `TopSpec` |
| TaskQueues.TopSpec | automations/dev-tasks/task_manager.py:185-192 | the top task is absent exactly for an empty backlog; otherwise it has the least rank and is the first task of that rank |
| TaskQueues.Partition | automations/dev-tasks/task_manager.py:200-206 | the partition loop returns the last task with the id and the rest in order |
| TaskQueues.WithoutMembers | automations/dev-tasks/task_manager.py:202-206 | the remaining tasks are exactly the tasks whose id differs |
| TaskQueues.PartitionConserves | automations/dev-tasks/task_manager.py:202-206 | the remaining tasks and the matching tasks together are a permutation of the queue |
| TaskQueues.WithoutInOrder | automations/dev-tasks/task_manager.py:202-206 | the remaining tasks keep their relative order |
| TaskQueues.LastWithNone | automations/dev-tasks/task_manager.py:208-209 | no task is found exactly when no task carries the id |
| TaskQueues.LastWithIndex | automations/dev-tasks/task_manager.py:202-204 | the task found is the last task with the id |
| TaskQueues.AttrOfName | automations/dev-tasks/task_manager.py:214 | every task attribute is recognised by its own name |
| TaskQueues.SetAttributes | automations/dev-tasks/task_manager.py:212-215 | the update loop applies the updates in order, as specified |
| TaskQueues.ApplyUpdate | automations/dev-tasks/task_manager.py:213-215 | one `setattr` of move_task; what it changes is stated by `ApplyUpdateGet` and `ApplyUpdatesGet` |
| TaskQueues.ApplyUpdateGet | automations/dev-tasks/task_manager.py:213-215 | one update changes only the attribute it names, and only when that is an attribute of the task |
| TaskQueues.ApplyUpdatesGet | automations/dev-tasks/task_manager.py:212-215 | after all updates, each attribute holds the last value set for it, or its old value |
| TaskQueues.ForeignUpdates | automations/dev-tasks/task_manager.py:214 | updates naming no attribute of a task leave the task unchanged |
| TaskQueues.Move | automations/dev-tasks/task_manager.py:195-222 | move_task on the queue files; its failure case and result are stated by `MoveFails`, `MoveReadTarget`, `MoveReadBack` and `MoveFiles` |
| TaskQueues.MoveFails | automations/dev-tasks/task_manager.py:208-209 | the move raises exactly when no task in the source queue has the id |
| TaskQueues.MoveReadTarget | automations/dev-tasks/task_manager.py:217-220 | after a move, the target queue reads as the moved task on top of its old contents |
| TaskQueues.MoveReadBack | automations/dev-tasks/task_manager.py:195-222 | after a move, the target holds the task on top, the source (when different) holds the other tasks, and every other queue is unchanged |
| TaskQueues.MoveFiles | automations/dev-tasks/task_manager.py:195-222 | a failed move changes no file; a successful one returns the moved task and the rewritten files |
| TaskQueues.TaskStore.constructor | automations/dev-tasks/task_manager.py:256-260 | the store starts with the given queue files |
| TaskQueues.TaskStore.GetTopBacklogTask | automations/dev-tasks/task_manager.py:185-192 | returns the top task of the parsed backlog |
| TaskQueues.TaskStore.MoveTask | automations/dev-tasks/task_manager.py:195-222 | the store's files become the rewritten files, or stay as they were when the move fails |
| TaskQueues.TaskStore.AddTask | automations/dev-tasks/task_manager.py:236-253 | the new task has the fresh id and today's date with no optional field set, and the backlog is rewritten sorted with it added |
| TaskQueues.TaskStore.InitFiles | automations/dev-tasks/task_manager.py:256-260 | every missing queue file is created empty with its header, and existing files are untouched |
| TaskQueues.InsertSorted | automations/dev-tasks/task_manager.py:248-250 | inserting a task after the tasks of equal or higher priority keeps a sorted queue sorted |
| TaskQueues.InsertFilter | automations/dev-tasks/task_manager.py:248-250 | such an insertion places the new task last among its priority |
| TaskQueues.InsertPlacement | automations/dev-tasks/task_manager.py:248-250 | the new task lands after every task of rank at most its own and before every task of greater rank |
| TaskQueues.AddSortsIn | automations/dev-tasks/task_manager.py:248-250 | appending then sorting equals inserting into the sorted queue after its equals |
| Pipeline.ConfigOf | automations/dev-tasks/dev_orchestrator.py:90-92 | a project has a repository path exactly when it is one of the two configured projects |
| Pipeline.ApprovedMembers | automations/dev-tasks/dev_orchestrator.py:95-100 | the approved tasks are exactly the backlog tasks that carry the approval mark |
| Pipeline.ApprovedFirst | automations/dev-tasks/dev_orchestrator.py:95-100 | the first approved task is the earliest approved task in the backlog |
| Pipeline.FirstWithNone | automations/dev-tasks/dev_orchestrator.py:354 | the lookup of the current task fails exactly when no task carries its id |
| Pipeline.FirstWithIndex | automations/dev-tasks/dev_orchestrator.py:354 | the lookup returns the first task with the current id |
| Pipeline.CommitMessage | automations/dev-tasks/dev_orchestrator.py:183-197 | build_commit_message; its subject line and type are stated by `CommitSubject`, its shell quoting by `QuoteRoundTrip` |
| Pipeline.CommitSubject | automations/dev-tasks/dev_orchestrator.py:183-197 | the commit subject line is the type and the title; the type is fix for P0, chore for P3 and feat otherwise |
| Pipeline.EscapeInQuotes | automations/dev-tasks/dev_orchestrator.py:408 | a shell reading the escaped text inside single quotes recovers the original text |
| Pipeline.QuoteRoundTrip | automations/dev-tasks/dev_orchestrator.py:408 | the quoted and escaped commit message is read by the shell as exactly one word equal to the message |
| Pipeline.StartedAtSets | automations/dev-tasks/dev_orchestrator.py:301-302 | the preflight move sets only the start time |
| Pipeline.BlockedForSets | automations/dev-tasks/dev_orchestrator.py:338-339 | blocking a task sets only its blocked reason |
| Pipeline.FinishedSets | automations/dev-tasks/dev_orchestrator.py:477-487 | finishing a task sets only its completion time and its fixed result text |
| Pipeline.BlockStepKeeps | automations/dev-tasks/dev_orchestrator.py:331-345 | moving the task to Blocked after a failure leaves the saved pipeline state as it was |
| Pipeline.ThreeAttempts | automations/dev-tasks/dev_orchestrator.py:414-417 | the give-up message names three attempts |
| Pipeline.UnexpectedStateChangesNothing | automations/dev-tasks/dev_orchestrator.py:328-329 | each callback called in the wrong status replies with an error and changes neither state nor files |
| Pipeline.StartBatchStep | automations/dev-tasks/dev_orchestrator.py:230-278 | start_batch as a step on the state and the queue files; what it does is stated by `StartBatchPicks` and `StartBatchSane` |
| Pipeline.StartBatchPicks | automations/dev-tasks/dev_orchestrator.py:230-278 | a batch starts exactly from Idle, Done or Failed with an approved task; the state then names the first approved task, in preflight with fresh counters; otherwise nothing changes, and no file moves either way |
| Pipeline.MovedId | automations/dev-tasks/task_manager.py:212-215 | a move whose updates do not name `id` returns a task with the requested id |
| Pipeline.PreflightFails | automations/dev-tasks/dev_orchestrator.py:288-298 | a failed preflight fails the batch with the error, or "Preflight failed", names the current task as the failed one, replies stop with that reason and task, and moves nothing, so the task stays in the backlog |
| Pipeline.PreflightFindsTask | automations/dev-tasks/dev_orchestrator.py:281-321 | a successful preflight moves the current task to in-progress with its start time and asks for its implementation in the project's repository |
| Pipeline.StartBatchSane | automations/dev-tasks/dev_orchestrator.py:230-278 | starting a batch keeps the pipeline invariant, and the initial state meets it |
| Pipeline.AfterPreflightStep | automations/dev-tasks/dev_orchestrator.py:281-321 | after_preflight as a step; what it does is stated by `PreflightFails`, `PreflightFindsTask`, `UnexpectedStateChangesNothing` and `AfterPreflightSane` |
| Pipeline.AfterPreflightSane | automations/dev-tasks/dev_orchestrator.py:281-321 | the preflight step keeps the pipeline invariant |
| Pipeline.AfterImplementationStep | automations/dev-tasks/dev_orchestrator.py:324-371 | after_implementation as a step; what it does is stated by `ImplementationOutcome` and `AfterImplementationSane` |
| Pipeline.AfterImplementationSane | automations/dev-tasks/dev_orchestrator.py:324-371 | the implementation step keeps the pipeline invariant |
| Pipeline.AfterVerificationStep | automations/dev-tasks/dev_orchestrator.py:374-457 | after_verification as a step; what it does is stated by `VerdictOutcome`, `VerdictProceeds`, `VerdictFails`, `VerificationRetries`, `VerificationGivesUp` and `AfterVerificationSane` |
| Pipeline.AfterVerificationSane | automations/dev-tasks/dev_orchestrator.py:374-457 | the verification step keeps the pipeline invariant, so attempts stay between 1 and 3 |
| Pipeline.VerdictOutcome | automations/dev-tasks/dev_orchestrator.py:382-393 | a current task missing from In-Progress is reported as not found with nothing saved; otherwise the session key is recorded and the verdict acts on the first in-progress task with the current id |
| Pipeline.VerdictProceeds | automations/dev-tasks/dev_orchestrator.py:395-442 | "clean" moves to committing and asks for the commit of the task with its message and commands; "changes made" under the limit asks for one more verification, numbered one higher; neither moves a file |
| Pipeline.VerdictFails | automations/dev-tasks/dev_orchestrator.py:412-457 | "changes made" at the limit, or any verdict other than "clean", fails the batch with its reason ("Verification failed after N attempts" or "Verification found blocking issues"), then moves the current task to Blocked with that reason and replies stop; when that move raises, no file changes |
| Pipeline.AfterCommitStep | automations/dev-tasks/dev_orchestrator.py:460-525 | after_commit as a step; what it does is stated by `CommitOutcome`, `NextTaskOutcome` and `AfterCommitSane` |
| Pipeline.AfterCommitSane | automations/dev-tasks/dev_orchestrator.py:460-525 | the commit step keeps the pipeline invariant |
| Pipeline.NextTaskSane | automations/dev-tasks/dev_orchestrator.py:489-525 | picking the next task keeps the pipeline invariant |
| Pipeline.VerificationRetries | automations/dev-tasks/dev_orchestrator.py:412-442 | under three attempts, "changes made" asks for one more verification, numbered one higher, and moves nothing |
| Pipeline.VerificationGivesUp | automations/dev-tasks/dev_orchestrator.py:412-428 | at three attempts, "changes made" fails the batch on the current task with the give-up message and moves the task to Blocked with that message as its reason, or raises when the move fails |
| Pipeline.ImplementationOutcome | automations/dev-tasks/dev_orchestrator.py:324-371 | success enters verification at attempt 1 with the session key; failure saves the failed state with the error (or "Implementation failed") and moves the task to Blocked with that reason, or raises when it is gone |
| Pipeline.CommitOutcome | automations/dev-tasks/dev_orchestrator.py:460-525 | a failed commit fails the batch; a successful one moves the task to Done with its completion time and result, records it as completed, then picks the next task, or raises when the task is gone |
| Pipeline.FinishedMove | automations/dev-tasks/dev_orchestrator.py:477-487 | the task moved to Done keeps its id and carries the completion time and the fixed result |
| Pipeline.NextTaskOutcome | automations/dev-tasks/dev_orchestrator.py:489-525 | the batch is complete exactly when no approved task remains; otherwise the first approved task moves to in-progress and is implemented with fresh counters |
| Pipeline.ResumeFrom | automations/dev-tasks/dev_orchestrator.py:612-675 | the decision of resume from the state and the tasks read; what it decides is stated by `ResumeSpec` |
| Pipeline.ResumeSpec | automations/dev-tasks/dev_orchestrator.py:612-675 | resume reports nothing from Idle or Done or without a current task, and resets exactly when the current task is in no queue; otherwise it looks in In-Progress first and then the backlog, reports nothing without a repository or without changes, and resumes the task found with its changed files when git reports changes |
| Pipeline.Orchestrator.constructor | automations/dev-tasks/dev_orchestrator.py:55-73 | the orchestrator starts from the loaded state and the task files |
| Pipeline.Orchestrator.StartBatch | automations/dev-tasks/dev_orchestrator.py:230-278 | the state becomes the start-batch step's state and the reply is its reply |
| Pipeline.Orchestrator.MoveCurrentTask | automations/dev-tasks/dev_orchestrator.py:338-339 | moves the task with the current id, when there is one, as the move specifies |
| Pipeline.Orchestrator.AfterPreflight | automations/dev-tasks/dev_orchestrator.py:281-321 | state, files and reply become those of the preflight step |
| Pipeline.Orchestrator.BlockCurrent | automations/dev-tasks/dev_orchestrator.py:337-345 | the files become those of moving the current task to Blocked; the state stays |
| Pipeline.Orchestrator.AfterImplementation | automations/dev-tasks/dev_orchestrator.py:324-371 | state, files and reply become those of the implementation step |
| Pipeline.Orchestrator.AfterVerification | automations/dev-tasks/dev_orchestrator.py:374-457 | state, files and reply become those of the verification step |
| Pipeline.Orchestrator.ApplyVerdict | automations/dev-tasks/dev_orchestrator.py:393-457 | state, files and reply become those of handling the verdict |
| Pipeline.Orchestrator.AfterCommit | automations/dev-tasks/dev_orchestrator.py:460-525 | state, files and reply become those of the commit step |
| Pipeline.Orchestrator.StartNext | automations/dev-tasks/dev_orchestrator.py:489-525 | state, files and reply become those of picking the next task |
| Pipeline.Orchestrator.Reset | automations/dev-tasks/dev_orchestrator.py:534-538 | the state returns to the initial idle state |
| Pipeline.Orchestrator.Resume | automations/dev-tasks/dev_orchestrator.py:612-675 | the reply is the resume decision for the current state and queues, and nothing changes |
| Agents.Drop | automations/dev-tasks/agent_monitor.py:97-99 | dropping an id keeps exactly the other ids and keeps them distinct |
| Agents.Remove | automations/dev-tasks/agent_monitor.py:97-99 | deleting an agent removes only that id and keeps the registry valid |
| Agents.Put | automations/dev-tasks/nightly_dev_run.py:71-76 | registering an agent sets that entry and keeps the registry valid |
| Agents.RemovePut | automations/dev-tasks/agent_monitor.py:97-99 | deleting an agent just registered restores the registry |
| Agents.RunningCard | automations/dev-tasks/nightly_dev_run.py:23 | the count over the insertion-ordered ids equals the number of running agents |
| Agents.RunningCountIsCard | automations/dev-tasks/nightly_dev_run.py:23 | the count of running agents is the size of the set of ids whose status is running |
| Agents.CountRunning | automations/dev-tasks/nightly_dev_run.py:23 | the counting loop computes the count of running agents |
| Agents.RunningPut | automations/dev-tasks/nightly_dev_run.py:71-76 | registering a new running agent raises the running count by one |
| Agents.RunningRemove | automations/dev-tasks/agent_monitor.py:97-99 | deleting an agent lowers the running count by one exactly when it was running |
| Agents.ReportsAt | automations/dev-tasks/agent_monitor.py:39-64 | each report copies its agent's id, session, status and spawn time, gives the runtime since spawn, and flags it stuck exactly when it is running and silent for more than four hours |
| Agents.AlertsSpec | automations/dev-tasks/agent_monitor.py:53-64 | an alert is raised exactly for each stuck agent, with its silence |
| Agents.AlertsNone | automations/dev-tasks/agent_monitor.py:53-64 | with no stuck agent there is no alert |
| Agents.MonitorStep | automations/dev-tasks/agent_monitor.py:21-73 | the monitor run on the agent state; what it reports and keeps is stated by `MonitorKeeps`, `AlertsSpec` and `MonitorQuiet` |
| Agents.MonitorKeeps | automations/dev-tasks/agent_monitor.py:21-73 | with no agent the monitor reports nothing and changes nothing; otherwise every agent is kept with only its check time updated, and the run time is recorded |
| Agents.MonitorQuiet | automations/dev-tasks/agent_monitor.py:53-67 | a second run within four hours of the first raises no alert |
| Agents.Survey | automations/dev-tasks/agent_monitor.py:39-68 | the loop over the agents produces the reports and alerts specified and stamps every agent as checked now |
| Agents.Inspect | automations/dev-tasks/agent_monitor.py:40-67 | one agent's report, and an alert exactly when it is stuck |
| Agents.TouchedAll | automations/dev-tasks/agent_monitor.py:66-67 | stamping every listed agent equals stamping the whole registry |
| Agents.CompletionSets | automations/dev-tasks/agent_monitor.py:87-90 | completion sets only the completion time and the result |
| Agents.FailureSets | automations/dev-tasks/agent_monitor.py:137-142 | failure sets the failed context and clears the start time and the agent session |
| Agents.MarkStep | automations/dev-tasks/agent_monitor.py:76-150 | the shared move-and-forget shape of the mark_* functions; stated by `MarkRemoves` and the three `Mark*Moves` lemmas |
| Agents.MarkRemoves | automations/dev-tasks/agent_monitor.py:76-124 | marking a task removes its agent alone, lowers the running count accordingly, and fails with an unbound result, moving nothing, exactly when the task is not in progress |
| Agents.MarkCompleteMoves | automations/dev-tasks/agent_monitor.py:76-102 | the completed task goes on top of Done with its time and result and leaves the in-progress queue |
| Agents.MarkBlockedMoves | automations/dev-tasks/agent_monitor.py:105-124 | the blocked task goes on top of Blocked with its reason and leaves the in-progress queue |
| Agents.MarkFailedMoves | automations/dev-tasks/agent_monitor.py:127-150 | the failed task returns to the top of the backlog with a context built from the first in-progress task's context, and with its start time and session cleared |
| Agents.SpawnStepShape | automations/dev-tasks/nightly_dev_run.py:48-78 | a spawn moves the task with its start time and registers a pending running agent; a failed move changes nothing |
| Agents.NightlyStep | automations/dev-tasks/nightly_dev_run.py:18-80 | the nightly run on the agent state and the queues; stated by `NightlyCap`, `NightlySpawns` and `SpawnStepShape` |
| Agents.NightlyCap | automations/dev-tasks/nightly_dev_run.py:18-80 | a spawn happens only below two running agents and adds exactly one, so the count never rises past two; every skip changes nothing |
| Agents.NightlySpawns | automations/dev-tasks/nightly_dev_run.py:32-78 | the spawned task is the top backlog task, had no agent, and now sits on top of the in-progress queue with its agent registered last |
| Agents.SpawnThenComplete | automations/dev-tasks/agent_monitor.py:76-102 | completing the task just spawned restores the agent registry |
| Agents.Scheduler.constructor | automations/dev-tasks/task_manager.py:60-64 | the scheduler starts from the loaded state and the task files |
| Agents.Scheduler.Monitor | automations/dev-tasks/agent_monitor.py:21-73 | state and report become those of the monitor step |
| Agents.Scheduler.Forget | automations/dev-tasks/agent_monitor.py:97-99 | the state loses exactly that agent |
| Agents.Scheduler.MarkTaskComplete | automations/dev-tasks/agent_monitor.py:76-102 | state, files and outcome become those of the completion step |
| Agents.Scheduler.MarkTaskBlocked | automations/dev-tasks/agent_monitor.py:105-124 | state, files and outcome become those of the blocking step |
| Agents.Scheduler.MarkTaskFailed | automations/dev-tasks/agent_monitor.py:127-150 | state and files become those of the failure step |
| Agents.Scheduler.NightlyRun | automations/dev-tasks/nightly_dev_run.py:18-80 | state, files and reply become those of the nightly step |
| SignalSync.ChatId | automations/signal/sync_to_obsidian.py:62-66 | a group message's chat is its group id, a direct message's is the sender's number, with fixed fallbacks; never empty |
| SignalSync.ChatIdSeparates | automations/signal/sync_to_obsidian.py:62-66 | direct messages share a chat exactly when they share a sender number |
| SignalSync.DisplaySender | automations/signal/sync_to_obsidian.py:68-70 | the sender shown is "Me" for outgoing messages and the sender's name otherwise; never empty |
| SignalSync.NameOf | automations/signal/sync_to_obsidian.py:94-97 | an empty number is "Unknown" and an unknown number is shown as itself |
| SignalSync.LearnNamed | automations/signal/sync_to_obsidian.py:99-101 | learning a contact keeps every cached name non-empty, so a lookup is never empty |
| SignalSync.LearnThenName | automations/signal/sync_to_obsidian.py:94-101 | a learnt name is returned afterwards, an empty or self name is ignored, and other numbers are unaffected |
| SignalSync.ContactsCache.constructor | automations/signal/sync_to_obsidian.py:75-92 | the cache starts with the loaded names |
| SignalSync.ContactsCache.GetName | automations/signal/sync_to_obsidian.py:94-97 | returns the lookup's name, never empty for a cache of non-empty names |
| SignalSync.ContactsCache.Update | automations/signal/sync_to_obsidian.py:99-101 | the names become those after learning the contact, and stay non-empty |
| SignalSync.Kinds | automations/signal/sync_to_obsidian.py:229 | one attachment kind per attachment |
| SignalSync.Decode | automations/signal/sync_to_obsidian.py:205-268 | the message parse_envelope returns; stated by `DecodeSpec` and `DecodeRejectsOld` |
| SignalSync.DecodeSpec | automations/signal/sync_to_obsidian.py:205-268 | a line without an envelope, or without a data message or a sent sync message, gives no message; a decoded message is not older than the cut-off, names its sender through the cache, and is outgoing exactly when it is from the account or is a sent sync message |
| SignalSync.DecodeRejectsOld | automations/signal/sync_to_obsidian.py:220-223 | a data message stamped before the cut-off is dropped |
| SignalSync.ParseEnvelope | automations/signal/sync_to_obsidian.py:205-268 | the cache learns the envelope's contact and the message decoded is the specified one |
| SignalSync.Bracketed | automations/signal/sync_to_obsidian.py:179-181 | one bracketed label per attachment kind |
| SignalSync.Content | automations/signal/sync_to_obsidian.py:175-186 | the content of the note line; stated by `ContentSpec` |
| SignalSync.ContentSpec | automations/signal/sync_to_obsidian.py:175-186 | the content is empty exactly without text and attachments, is the text without attachments, and starts with the first attachment label otherwise; a line is written exactly for non-empty content |
| SignalSync.SyncState.constructor | automations/signal/sync_to_obsidian.py:106-119 | the state starts with the loaded chat marks |
| SignalSync.SyncState.Update | automations/signal/sync_to_obsidian.py:129-133 | the chat's mark and name are replaced, the others kept |
| SignalSync.Process | automations/signal/sync_to_obsidian.py:273-294 | process_line on the chat marks; stated by `ProcessAdvances` and `ProcessTwice` |
| SignalSync.ProcessAdvances | automations/signal/sync_to_obsidian.py:273-294 | no chat's mark goes down; a written message has text, is newer than its chat's mark, raises that mark to its own timestamp and leaves the other chats alone; nothing changes when nothing is written |
| SignalSync.LearnFromTwice | automations/signal/sync_to_obsidian.py:215-216 | learning the same line's contact twice changes nothing more |
| SignalSync.ProcessTwice | automations/signal/sync_to_obsidian.py:278-284 | a line processed a second time writes nothing and changes no mark |
| SignalSync.ProcessLine | automations/signal/sync_to_obsidian.py:273-294 | the cache, the marks, the written flag and the line become those of processing the line |
| Telegram.EntityName | automations/telegram/telegram-sync.py:140-148 | an entity's name is never empty |
| Telegram.EntityNameSpec | automations/telegram/telegram-sync.py:140-148 | a user is named by the stripped join of the first and last names that are set; when that is empty, by the username or `User_<id>`; a group by its title or `Group_<id>`; anything else `Unknown_...` |
| Telegram.FirstFileName | automations/telegram/telegram-sync.py:166-168 | the file name found is one of the attributes' names, and none is found only when no attribute has one |
| Telegram.MediaDescription | automations/telegram/telegram-sync.py:156-178 | get_media_description; stated by `MediaDescriptionSpec` and `AudioBeforeVoice` |
| Telegram.MediaDescriptionSpec | automations/telegram/telegram-sync.py:156-178 | there is a description exactly for a message with media, and it is bracketed |
| Telegram.AudioBeforeVoice | automations/telegram/telegram-sync.py:169-176 | an unnamed audio document that is not a video is described as audio |
| Telegram.MessageContentSpec | automations/telegram/telegram-sync.py:186-199 | the content is empty exactly without media and text; it is the text without media, and the description without text |
| Telegram.FormatMessage | automations/telegram/telegram-sync.py:181-201 | format_message; stated by `FormatMessageSpec` |
| Telegram.FormatMessageSpec | automations/telegram/telegram-sync.py:181-201 | a formatted message is empty exactly when there is nothing to say; otherwise it is the stamp and the sender (or "Me"), the content, then a Markdown line break |
| Telegram.SanitizedNoSlash | automations/telegram/telegram-sync.py:131-137 | a sanitised chat name has no slash |
| Telegram.ChatFileSpec | automations/telegram/telegram-sync.py:204-208 | a chat's note is a `.md` file directly inside the group or direct-message folder |
| Telegram.ChatFilesApart | automations/telegram/telegram-sync.py:204-208 | a group's note and a direct chat's note are never the same file |
| Telegram.AppendMessage | automations/telegram/telegram-sync.py:211-229 | write_message_to_file on the note's content; stated by `AppendMessageSpec` and `AppendTwice` |
| Telegram.AppendMessageSpec | automations/telegram/telegram-sync.py:211-229 | an empty message changes nothing; otherwise the note ends with the message and keeps its old text, or starts with the banner when new |
| Telegram.AppendTwice | automations/telegram/telegram-sync.py:211-229 | appending two messages leaves them in order, one per line, after the old text |
| Telegram.LastMsgId | automations/telegram/telegram-sync.py:101-103 | a chat has no mark exactly when it was never recorded |
| Telegram.Advance | automations/telegram/telegram-sync.py:105-117 | SyncState.update on the marks; stated by `AdvanceSpec` and `AdvanceOrder` |
| Telegram.AdvanceSpec | automations/telegram/telegram-sync.py:105-117 | a chat's mark becomes the larger of its old mark and the message id, changing only when it grows; other chats are unaffected |
| Telegram.AdvanceOrder | automations/telegram/telegram-sync.py:105-117 | the final mark does not depend on the order in which two messages are recorded |
| Telegram.SyncState.constructor | automations/telegram/telegram-sync.py:80-94 | the state starts with the loaded marks and flag |
| Telegram.SyncState.GetLastMsgId | automations/telegram/telegram-sync.py:101-103 | returns the chat's mark when there is one |
| Telegram.SyncState.Update | automations/telegram/telegram-sync.py:105-117 | the marks advance as specified and the flag stays |
| Telegram.SyncState.SetInitialSyncDone | automations/telegram/telegram-sync.py:123-126 | the flag is set and the marks stay |
| TelegramBackfill.ProgressSpec | automations/telegram/telegram-backfill.py:97-132 | after an update, a chat's done flag and offset are the ones recorded; after a reset the chat is not done and restarts from offset 0; other chats are unaffected by either |
| TelegramBackfill.BackfillProgress.constructor | automations/telegram/telegram-backfill.py:76-90 | the progress starts with the loaded chats and no start or completion time |
| TelegramBackfill.BackfillProgress.UpdateChat | automations/telegram/telegram-backfill.py:105-117 | the chat's record is replaced, the times kept |
| TelegramBackfill.BackfillProgress.ResetChat | automations/telegram/telegram-backfill.py:127-132 | the chat's record is removed, the times kept |
| TelegramBackfill.BackfillProgress.MarkStarted | automations/telegram/telegram-backfill.py:119-121 | only the start time is set |
| TelegramBackfill.BackfillProgress.MarkCompleted | automations/telegram/telegram-backfill.py:123-125 | only the completion time is set |
| TelegramBackfill.HeaderLength | automations/telegram/telegram-backfill.py:228-241 | the header never takes more lines than the note has |
| TelegramBackfill.HeaderLengthSpec | automations/telegram/telegram-backfill.py:228-241 | the header ends at the first `---` line, inclusive, and no earlier line is a separator; without one the whole note is header |
| TelegramBackfill.HeaderLengthAt | automations/telegram/telegram-backfill.py:228-241 | the header length is one past the first separator, or the whole note |
| TelegramBackfill.SplitHeader | automations/telegram/telegram-backfill.py:228-241 | the splitting loop returns the header lines and the message lines as specified |
| TelegramBackfill.ParsedNoteSplits | automations/telegram/telegram-backfill.py:217-241 | the header lines and the message lines together are the note's lines |
| TelegramBackfill.SplitJoin | automations/telegram/telegram-backfill.py:226 | splitting joined one-line pieces on newlines gives the pieces back |
| TelegramBackfill.LeadingStamp | automations/telegram/telegram-backfill.py:245-249 | a stamp read at the start of a line has the `YYYY-MM-DD HH:MM:SS` shape |
| TelegramBackfill.OldestSpec | automations/telegram/telegram-backfill.py:243-256 | the oldest time is absent exactly when no line carries a readable stamp; otherwise it is one line's time and no line's time is earlier |
| TelegramBackfill.CollectOldest | automations/telegram/telegram-backfill.py:247-256 | the loop computes the oldest time as specified |
| TelegramBackfill.ParseExisting | automations/telegram/telegram-backfill.py:217-258 | returns the header, the message lines and the oldest time of the note |
| TelegramBackfill.Preview | automations/telegram/telegram-backfill.py:276 | the preview is the first at most 50 characters of the content |
| TelegramBackfill.ExistingIds | automations/telegram/telegram-backfill.py:261-277 | get_existing_message_ids, line by line; the key of a line is stated by `KeyOfLine`, `RestKeyOf` and `FormattedKey` |
| TelegramBackfill.KeyOfLine | automations/telegram/telegram-backfill.py:271-277 | a line `[stamp] sender: content` with its two trailing spaces yields the key of the stamp and the content's preview |
| TelegramBackfill.KeyOfFrame | automations/telegram/telegram-backfill.py:271-277 | after a well-shaped stamp, the key depends only on the rest of the line |
| TelegramBackfill.RestKeyOf | automations/telegram/telegram-backfill.py:271-277 | the rest `sender: content` yields the content's preview |
| TelegramBackfill.FormattedKey | automations/telegram/telegram-backfill.py:271-277 | a line written by the formatter reads back as the key of its stamp and the preview of its content |
| TelegramBackfill.Selected | automations/telegram/telegram-backfill.py:355-368 | the messages backfill_chat keeps; stated by `SelectedSpec` |
| TelegramBackfill.SelectedSpec | automations/telegram/telegram-backfill.py:355-368 | the messages kept are exactly the fetched messages that are real messages with text or media, whose stamp-and-preview key is not in the note, and that are not at or after the note's oldest stamp |
| TelegramBackfill.Select | automations/telegram/telegram-backfill.py:355-368 | the filtering loop keeps the specified messages |
| TelegramBackfill.TextDuplicateSkipped | automations/telegram/telegram-backfill.py:360-364 | a text message whose formatted line is already in the note is skipped |
| TelegramBackfill.MediaDuplicateKeyDiffers | automations/telegram/telegram-backfill.py:360-364 | a media message with text is keyed on its bare text, while its written line reads back with the media label, so an already-written one is not recognised |
| TelegramBackfill.StampedLine | automations/telegram/telegram-backfill.py:244-247 | a line opening with a bracketed timestamp of the expected shape matches the stamp pattern after stripping, and yields that timestamp |
| TelegramBackfill.FormattedStamp | automations/telegram/telegram-backfill.py:244-247 | a line the formatter wrote reads back, through the stamp pattern on the stripped line, with the message's own stamp |
| TelegramBackfill.MediaDupKeptOut | automations/telegram/telegram-backfill.py:365-366 | a message whose formatted line is already among the note's message lines, with a readable stamp, is not selected: the note has an oldest time and the message is not older than it |
| TelegramBackfill.SenderName | automations/telegram/telegram-backfill.py:300-308 | the sender name is never empty |
| TelegramBackfill.FormatAllCount | automations/telegram/telegram-backfill.py:398-415 | one formatted line per kept message |
| TelegramBackfill.Assemble | automations/telegram/telegram-backfill.py:420-435 | the rewritten note; stated by `AssembleSpec` |
| TelegramBackfill.AssembleSpec | automations/telegram/telegram-backfill.py:420-435 | the rewritten note starts with the header (or a fresh banner) and the new lines, and ends with the old message lines |
| TelegramBackfill.BackfillStep | automations/telegram/telegram-backfill.py:310-448 | backfill_chat on the progress and the note; stated by `BackfillRecords` and `BackfillWrites` |
| TelegramBackfill.BackfillRecords | automations/telegram/telegram-backfill.py:310-448 | skipped or already-done chats leave the progress as it was; a processed chat is recorded done at offset 0; a done chat without force is untouched; nothing new means nothing was selected |
| TelegramBackfill.BackfillWrites | automations/telegram/telegram-backfill.py:355-448 | a write reports the number of kept messages, all new and all older than the note's oldest, and keeps the old message lines at the end |
| TelegramBackfill.Backfill.constructor | automations/telegram/telegram-backfill.py:284-291 | the backfill starts with the loaded progress and the force flag |
| TelegramBackfill.Backfill.BackfillChat | automations/telegram/telegram-backfill.py:310-448 | the progress becomes that of the backfill step, and the batch times stay |
| WhatsAppSync.Lookup | automations/whatsapp/sync_to_obsidian.py:113-114 | a jid has a contact name exactly when it is in the contact list |
| WhatsAppSync.FirstPrefixed | automations/whatsapp/sync_to_obsidian.py:117-120 | the match found is the first contact whose jid starts with the phone number, and none is found only when no jid does |
| WhatsAppSync.NameOf | automations/whatsapp/sync_to_obsidian.py:104-127 | get_name; its order of lookups is stated by `NameOfOrder` and `FallbackPhone` |
| WhatsAppSync.NameOfOrder | automations/whatsapp/sync_to_obsidian.py:104-127 | a known group's name wins, then the exact contact, then the first contact by phone prefix, then the fallback |
| WhatsAppSync.FallbackPhone | automations/whatsapp/sync_to_obsidian.py:123-124 | a personal jid falls back to `+` and its number when longer than eight digits, and to the bare number otherwise |
| WhatsAppSync.ContactsCache.constructor | automations/whatsapp/sync_to_obsidian.py:79-102 | the cache starts with the loaded contacts and groups |
| WhatsAppSync.ContactsCache.GetName | automations/whatsapp/sync_to_obsidian.py:104-127 | returns the specified name |
| WhatsAppSync.Insert | automations/whatsapp/sync_to_obsidian.py:225 | inserting adds one message and leaves either it or the old first message in front |
| WhatsAppSync.SortByStamp | automations/whatsapp/sync_to_obsidian.py:225 | sorting keeps the number of messages |
| WhatsAppSync.InsertSorted | automations/whatsapp/sync_to_obsidian.py:225 | insertion keeps a sorted list sorted and adds exactly the one message |
| WhatsAppSync.InsertStable | automations/whatsapp/sync_to_obsidian.py:225 | insertion puts the message before the others with the same timestamp and keeps their order |
| WhatsAppSync.SortByStampSpec | automations/whatsapp/sync_to_obsidian.py:225 | the sort by timestamp is sorted, a permutation, and keeps the order of equal timestamps |
| WhatsAppSync.EmittedMembers | automations/whatsapp/sync_to_obsidian.py:233-240 | the messages written are exactly those newer than the chat's mark |
| WhatsAppSync.EmittedLast | automations/whatsapp/sync_to_obsidian.py:242 | the last message written is the last new message in the list |
| WhatsAppSync.EmittedMax | automations/whatsapp/sync_to_obsidian.py:242 | in a sorted list, the last message written carries the largest new timestamp |
| WhatsAppSync.Content | automations/whatsapp/sync_to_obsidian.py:257-266 | the content line of a message; stated by `ContentSpec` |
| WhatsAppSync.ContentSpec | automations/whatsapp/sync_to_obsidian.py:257-266 | the content is never empty: it leads with the media label when there is media, and is `*(empty)*` when there is neither media nor text |
| WhatsAppSync.RenderSize | automations/whatsapp/sync_to_obsidian.py:251-273 | each message writes three lines, or four when it opens a new day |
| WhatsAppSync.SameDayNoHeading | automations/whatsapp/sync_to_obsidian.py:251-255 | a message on the same day as the one before writes no date heading |
| WhatsAppSync.SyncState.constructor | automations/whatsapp/sync_to_obsidian.py:132-144 | the state starts with the loaded chats |
| WhatsAppSync.SyncState.Update | automations/whatsapp/sync_to_obsidian.py:154-156 | the chat's mark and name are replaced, the others kept |
| WhatsAppSync.NotePathSpec | automations/whatsapp/sync_to_obsidian.py:277-280 | a chat's note is a `.md` file directly inside its folder, with no leading dot |
| WhatsAppSync.WriteMessagesSpec | automations/whatsapp/sync_to_obsidian.py:185-208 | the note keeps its old text, or starts with a fresh header, and ends with the new lines |
| WhatsAppSync.WriteTwice | automations/whatsapp/sync_to_obsidian.py:185-208 | writing twice appends the second batch after the first |
| WhatsAppSync.Vault.constructor | automations/whatsapp/sync_to_obsidian.py:185-199 | the vault starts with the given notes |
| WhatsAppSync.Vault.Write | automations/whatsapp/sync_to_obsidian.py:185-208 | only the written note changes, as specified |
| WhatsAppSync.SyncStep | automations/whatsapp/sync_to_obsidian.py:213-286 | sync_chat after fetching; stated by `SyncStepCount`, `SyncStepMark` and `SyncStepTwice` |
| WhatsAppSync.SyncStepCount | automations/whatsapp/sync_to_obsidian.py:213-286 | the count is the number of new messages, is zero exactly when none is new, in which case nothing changes, and at least three lines are written per message |
| WhatsAppSync.SyncStepMark | automations/whatsapp/sync_to_obsidian.py:275-283 | after a write the chat's mark rises above the old one and is at least every new timestamp; other chats are untouched |
| WhatsAppSync.SyncStepTwice | automations/whatsapp/sync_to_obsidian.py:238-283 | syncing the same messages again writes nothing and changes neither the marks nor the notes |
| WhatsAppSync.RenderNew | automations/whatsapp/sync_to_obsidian.py:233-273 | the loop renders the new messages of the sorted list and tracks the newest timestamp |
| WhatsAppSync.RenderStep | automations/whatsapp/sync_to_obsidian.py:233-273 | one iteration extends the rendering to one more message |
| WhatsAppSync.RenderOne | automations/whatsapp/sync_to_obsidian.py:244-273 | rendering one more message appends its block and moves the current date to its day |
| WhatsAppSync.SyncChat | automations/whatsapp/sync_to_obsidian.py:213-286 | count, lines, state and notes become those of the sync step |
| WhatsAppSync.ChatKind | automations/whatsapp/sync_to_obsidian.py:318-322 | empty, broadcast and lid jids are skipped; the rest are groups exactly when they contain `@g.us`, and direct chats otherwise |
| WhatsAppSync.ChatName | automations/whatsapp/sync_to_obsidian.py:323 | the listed name is used when non-empty, otherwise the contacts' name |
| ObsidianWatcher.Components | automations/obsidian/obsidian-watcher.py:44 | the path components are the non-empty pieces other than `.` |
| ObsidianWatcher.PartsSpec | automations/obsidian/obsidian-watcher.py:44-57 | each path part is the root or a slash-free component, and the file name is the last part |
| ObsidianWatcher.LastDot | automations/obsidian/obsidian-watcher.py:47 | the last dot found is a dot with none after it, and none is found only when there is no dot |
| ObsidianWatcher.SuffixMd | automations/obsidian/obsidian-watcher.py:46-48 | the suffix is `.md` in any case exactly when the name is longer than three characters and ends in `.md` |
| ObsidianWatcher.AnySkipDir | automations/obsidian/obsidian-watcher.py:50-54 | true exactly when some part is a skipped directory |
| ObsidianWatcher.AnyPattern | automations/obsidian/obsidian-watcher.py:56-61 | true exactly when the file name contains one of the patterns |
| ObsidianWatcher.ShouldSkip | automations/obsidian/obsidian-watcher.py:42-63 | should_skip_path; stated by `ShouldSkipSpec` |
| ObsidianWatcher.ShouldSkipSpec | automations/obsidian/obsidian-watcher.py:42-63 | a path is watched exactly when it is a markdown file, in no skipped directory, and whose lowered name contains no skipped pattern |
| ObsidianWatcher.DsStorePatternUnused | automations/obsidian/obsidian-watcher.py:31 | a lowered name never contains `.DS_Store`, so that pattern never matches |
| ObsidianWatcher.Prune | automations/obsidian/obsidian-watcher.py:76-78 | the cleanup of the wake log; stated by `PruneSpec` and `PruneLater` |
| ObsidianWatcher.PruneSpec | automations/obsidian/obsidian-watcher.py:76-78 | pruning keeps exactly the entries woken within the cooldown, with their times |
| ObsidianWatcher.PruneLater | automations/obsidian/obsidian-watcher.py:76-78 | pruning now and again later equals pruning later |
| ObsidianWatcher.CooldownWindow | automations/obsidian/obsidian-watcher.py:68 | a file woken at t counts as recent exactly until 60 seconds after t |
| ObsidianWatcher.WakeLog.constructor | automations/obsidian/obsidian-watcher.py:67 | the log starts empty |
| ObsidianWatcher.WakeLog.WasRecentlyWoken | automations/obsidian/obsidian-watcher.py:71-84 | the log is pruned, and the answer is whether the file was woken within the cooldown |
| ObsidianWatcher.WakeLog.MarkAsWoken | automations/obsidian/obsidian-watcher.py:87-89 | the file's wake time is set |
| ObsidianWatcher.LeadingSlashes | automations/obsidian/obsidian-watcher.py:98 | the count of leading slashes stops at the first character that is not a slash |
| ObsidianWatcher.RelativePath | automations/obsidian/obsidian-watcher.py:96-98 | the path shown in the wake message; stated by `RelativePathSpec` and `RelativeInside` |
| ObsidianWatcher.RelativePathSpec | automations/obsidian/obsidian-watcher.py:96-98 | a path outside the vault is shown whole; inside it, the shown path is its tail after the vault prefix and the slashes that follow, with no leading slash |
| ObsidianWatcher.RelativeInside | automations/obsidian/obsidian-watcher.py:96-98 | a note at `vault/rest` is shown as `rest` |
| ObsidianWatcher.WakeMainSession | automations/obsidian/obsidian-watcher.py:92-130 | the message names the note; the file is marked woken exactly when the call succeeds |
| ObsidianWatcher.Latest | automations/obsidian/obsidian-watcher.py:163-164 | the latest file is one of the pending files |
| ObsidianWatcher.LatestSpec | automations/obsidian/obsidian-watcher.py:163-164 | the latest file has the greatest event time, and is the first such in insertion order |
| ObsidianWatcher.Handler.constructor | automations/obsidian/obsidian-watcher.py:141-145 | the handler starts with nothing pending |
| ObsidianWatcher.Handler.HandleEvent | automations/obsidian/obsidian-watcher.py:173-193 | a file is queued with the event time exactly when it is not a directory, not skipped and not recently woken; the wake log is pruned once the path passes the filters |
| ObsidianWatcher.Handler.PickLatest | automations/obsidian/obsidian-watcher.py:163-164 | the loop picks the latest pending file |
| ObsidianWatcher.Handler.TriggerWake | automations/obsidian/obsidian-watcher.py:155-171 | with nothing pending nothing happens; otherwise the latest file is reported with the count of pending files, the pending set is cleared, and the file is marked woken when the wake succeeds |

## Left out

- Persistence: JSON loading and saving (`load_state`, `save_state`, the adapters' `_load` and `save`) is not modelled. States live in memory, and files are strings in a map.
- The clock, fresh ids and random values are parameters:
  - `datetime.now()` and `time.time()` become `now`;
  - `uuid.uuid4()` becomes a `Draw` or a `newId`;
  - stamps become numbers through an `instant` function.
- Timezones, ISO-8601 parsing and `strftime` are not modelled. Dates and times of day come from the `dateOf` and `timeOf` parameters.
- Floating point: the runtime and silence hours in `agent_monitor.py` are reported as whole time differences. The `round(..., 1)` to hours is not modelled.
- Floating point: Signal's conversion of the float timestamp to milliseconds is not modelled.
- Lowercasing is ASCII-only.
- Prompt builders are not modelled: `build_agent_prompt`, the orchestrator's preflight, implementation and verification prompts, and the agents' prompts. They only produce text handed to an agent.
- `get_status` in `dev_orchestrator.py` is not modelled; it only returns the state as JSON.
- External programs are parameters:
  - `check_uncommitted_work` is the `git` function;
  - the `wacli` calls are the contact and message lists;
  - the `openclaw` subprocess is the `succeeded` flag.
- Telethon, asyncio, FloodWait handling and shutdown signals are left out. The backfill takes the fetched messages and a sender lookup as inputs.
- Signal's stdin loop is left out.
- `find_chat_file` in the Signal adapter is left out. It searches the vault directory for an existing note.
- Concurrency is left out: `fcntl` locking, the watcher's threads, the debounce `Timer` and the `Observer`. So are overlapping cron runs of the dev-task scripts.
- The Google Calendar scripts, the OAuth flow, the `add_task.py` command line and every `__main__` dispatch are not part of this model.
- Agents.MarkTaskComplete: when the move raises `ValueError`, the source ends in `return task` with `task` unbound, which raises `UnboundLocalError`. This is modelled as the outcome `Unbound`, after the state has been saved. The same holds for MarkTaskBlocked.
- TaskFormat.ParseWriteRoundTrip: the round trip is proved only for well-formed tasks. A value that spans several lines reads back differently; `mark_task_failed` writes such a context. So does an optional field set to the empty string.
- ObsidianWatcher.RelativePathSpec: the vault prefix test has no path-boundary check, so `/projects/NotesX/a.md` is shown as `X/a.md`. The model keeps this behaviour of the source.
- TelegramBackfill.KeyOfLine: the key parser reads the note line by line, but the sender part `[^:]+` of the source's multi-line regex can run across a newline. So a stamp line followed by a line `x: y  ` yields a key in the source and none in the model. `ExistingIds` inherits this.
- TelegramBackfill.LeadingStamp: the stamp's digits are the ASCII digits `0`-`9`. Python's `\d` also matches other Unicode decimal digits. The same holds for `KeyOfLine`.
- TaskQueues.TaskStore.AddTask: the priority is one of P0-P3. The source takes any string; its only caller, the `add_task.py` command line, restricts the choice to those four.
- TaskQueues.ApplyUpdate: an update that sets a required field to None, or the priority to a string other than P0-P3, is ignored. Python's `setattr` would store it. No caller in the source passes such an update.
- SignalSync.Kinds: an attachment whose `contentType` is present but JSON `null` counts as "file". The source raises `AttributeError` on it, since `.get` returns None and None has no `split`.
- WhatsAppSync.Lookup: the contacts are a list and the lookup takes the first entry with the jid. The source's dict keeps the last name loaded for a jid, so the two differ only when the contact list repeats a jid.
- SignalSync.Decode: an absent and a JSON `null` account are both the empty account. In the source a `null` account never equals the sender number, so such a message is not outgoing; in the model it is outgoing when the sender number is empty too.
