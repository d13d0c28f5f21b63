# Construction plan pipeline — a verified model

This project models the deterministic core of a pipeline that turns a
questionnaire about a construction project into a task plan and a
spreadsheet. A language model writes the raw work packages and tasks; the
code modelled here checks the answers, builds the prompts, reads the
model's replies, collects the workers' results, merges them into one plan,
numbers and links the tasks, schedules them day by day, and lays the plan
out as worksheet cells.

The modules follow the nodes of the pipeline:

- `Values` (values.dfy): Python values as the nodes see them — `None`,
  booleans, integers, strings, lists, dicts as ordered entries, and dates as
  day numbers counted from 1970-01-01. It also gives their truthiness,
  `dict.get`, `str()`, iteration and `len()`.
- `Text` (text.dfy): the string operations the nodes use (`strip`, `find`,
  `rfind`, `split`, `join`, `replace`, `lower`, `title`, zero padding,
  `sorted` order on strings).
- `Config` (config.dfy) and `State` (state.dfy): the constant lists and the
  graph state. `GraphState` is a class whose fields the node methods update.
- `DurationText` (durations.dfy) and `Schedule` (schedule.dfy):
  `parse_duration` and `calculate_sequential_dates`. The scheduler is a
  method over an array of task records, proved against the function
  `Scheduled`.
- `Identifiers` (identifiers.dfy): `add_task_identifiers`. It is a method
  that numbers the tasks in place, builds the `phase_groups` map and links
  each group, proved against the function `WithIdentifiers`.
- `Aggregator` (aggregator.dfy): `aggregator_node`.
- `Prompt` (prompt.dfy): start-date resolution, the scale-detail lines and
  `prompt_node`.
- `Extract` (extract.dfy): `extract_json_from_response`. The JSON parser is
  a parameter, a partial function from text to value.
- `Orchestrator` (orchestrator.dfy): `format_project_context`, the worker
  sizing, `create_worker_prompt`, the `worker_prompts` loop and
  `orchestrator_node`.
- `Workers` (workers.dfy): `process_single_worker` and the
  result collection of `category_worker_node`.
- `Validation` (validation.dfy): the four validators and `validation_node`.
- `ExcelGenerator` (excel_generator.dfy): `get_task_value`,
  `write_tasks_to_sheet` over a worksheet class whose cells are a map from
  (row, column) to value, and the column choice, early exit and file name
  of `excel_generator_node`.

The clock, the language-model replies, the JSON parser, `strptime`, the
output directory and the file timestamp are all parameters of the members
that use them.

The docstring of `orchestrator_node` speaks of 3 and 10 workers. The code
asks for 8 and 32, and the model follows the code.

## Model

| member | source | states |
|---|---|---|
| DurationText.RunEnd | nodes/aggregator.py:18 | the end of a run of digits starting at `a`: everything between is a digit and the next character is not |
| DurationText.FirstNumber | nodes/aggregator.py:18-22 | `re.findall(r'\d+')[0]`: no match exactly when the text has no digit; otherwise a maximal run of digits with no digit before it |
| DurationText.DurationWithoutNumber | nodes/aggregator.py:14-20 | a duration text without a digit (the empty text included) is 5 days |
| DurationText.FirstNumberOfNumeral | nodes/aggregator.py:18-22 | the first number of "<n><unit>" is exactly the numeral of n when the unit starts with a non-digit |
| DurationText.ContainsAfterNumeral | nodes/aggregator.py:24-27 | "week"/"month" occur after a leading numeral exactly when they occur in the rest of the text |
| DurationText.DurationOfNumeral | nodes/aggregator.py:17-29 | "<n><unit>" is n*7 when the unit says "week", otherwise n*30 when it says "month", otherwise max(1, n); "week" wins over "month" |
| DurationText.DurationInWeeks | nodes/aggregator.py:24-25 | "2 weeks" is 14 days |
| DurationText.DurationInMonths | nodes/aggregator.py:26-27 | "3 months" is 90 days |
| DurationText.DurationInDays | nodes/aggregator.py:28-29 | "4 days" is 4 days |
| DurationText.DurationAtLeastOneDay | nodes/aggregator.py:29 | "0 days" still lasts 1 day |
| DurationText.DefaultDuration | nodes/aggregator.py:45-46 | the default text "5 days" is 5 days, and it is what `f"{5} days"` writes |
| DurationText.ParseDurationText | nodes/aggregator.py:17-29 | only a zero count of weeks or months lasts zero days; `DurationOfNumeral` and `DurationWithoutNumber` give every other value |
| DurationText.ParseDuration | nodes/aggregator.py:12-29 | a string is read as its own text; a missing or empty duration never lasts zero days (it is the 5-day default) |
| Schedule.Scheduled | nodes/aggregator.py:41-65 | scheduling returns a list of the same length |
| Schedule.DatedAll | nodes/aggregator.py:41-65 | dating every task with its phase and duration keeps the list length |
| Schedule.Dated | nodes/aggregator.py:54-59 | a dated task starts on its start day, ends its duration later and always has a truthy `task_duration`; `DatedFields` says nothing else changes |
| Schedule.AdvanceNotBefore | nodes/aggregator.py:54-63 | one task never moves the global cursor back, and the cursor ends at or after the task's end |
| Schedule.CursorNotBefore | nodes/aggregator.py:35-63 | after any number of tasks neither the global cursor nor a phase end lies before the start date |
| Schedule.CursorMonotone | nodes/aggregator.py:62-63 | the global cursor never decreases from one task to a later one |
| Schedule.CursorCurrent | nodes/aggregator.py:49-63 | the cursor is at or after the start date, every phase end is too, and every earlier task ends no later than the cursor |
| Schedule.CursorPhases | nodes/aggregator.py:49-61 | `phase_dates` holds exactly the phases seen so far, each mapped to the end of that phase's last task |
| Schedule.SchedulePhaseChain | nodes/aggregator.py:49-63 | a task of a phase already seen starts at that phase's previous end; the first task of a new phase starts no earlier than the start date and no earlier than the end of every earlier task; task 0 starts on the start date |
| Schedule.DatedAllDates | nodes/aggregator.py:54-57 | task i gets start date = its computed start and end date = start + its duration |
| Schedule.ScheduleDates | nodes/aggregator.py:45-63 | each task's end is its start plus `parse_duration` of its duration text; starts are not before the start date; the first task starts on it; a repeated phase starts at its previous task's end; a new phase starts after every earlier end |
| Schedule.ScheduledStarts | nodes/aggregator.py:35-56 | the first scheduled task starts on the start day and no task starts before it |
| Schedule.DurationWhenMissing | nodes/aggregator.py:45-46 | a task without a truthy duration lasts 5 days |
| Schedule.DatedFields | nodes/aggregator.py:56-59 | dating one task writes only the two dates, and `task_duration` only when it was falsy ("<d> days") |
| Schedule.ScheduleKeepsFields | nodes/aggregator.py:56-59 | scheduling changes no other field of any task; a truthy duration is kept; a falsy one becomes "5 days" |
| Schedule.DurationStable | nodes/aggregator.py:45-59 | a dated task has the same phase and the same duration it had |
| Schedule.DatedTwice | nodes/aggregator.py:54-59 | dating a task a second time with the same start and duration changes nothing |
| Schedule.ScheduleIdempotent | nodes/aggregator.py:41-63 | scheduling an already scheduled list from the same start gives the same list |
| Schedule.CalculateSequentialDates | nodes/aggregator.py:32-65 | the array afterwards is `Scheduled` of the array before, from the parsed start date or today |
| Schedule.ScheduleFrom | nodes/aggregator.py:39-63 | the loop leaves the array equal to every task dated with its phase and duration from the given start |
| Schedule.ScheduleTask | nodes/aggregator.py:42-63 | one iteration dates task i, touches no other task and advances `phase_dates` and `current_date` to the cursor after i+1 tasks |
| Schedule.CursorStep | nodes/aggregator.py:49-63 | the cursor after task i is the previous cursor with the task's phase end recorded and the global cursor raised to it when later |
| Schedule.WriteDates | nodes/aggregator.py:56-59 | writes the dated record into slot i and nothing else |
| Identifiers.TaskIdInjective | nodes/aggregator.py:73 | `f"T{i+1:04d}"` gives different ids to different indices |
| Identifiers.GroupKeys | nodes/aggregator.py:76 | one group key (phase name and activity name joined by a bar) per task |
| Identifiers.GroupKey | nodes/aggregator.py:76 | the key always holds the bar; a task with neither name is keyed "|" |
| Identifiers.LastInGroup | nodes/aggregator.py:83-86 | the last earlier index with the same key, or none exactly when no earlier task shares the key |
| Identifiers.FirstInGroup | nodes/aggregator.py:83-88 | the first later index with the same key, or none exactly when no later task shares the key |
| Identifiers.TaskIds | nodes/aggregator.py:72-73 | one id per task |
| Identifiers.WithIdentifiers | nodes/aggregator.py:68-90 | identifying keeps the number of tasks |
| Identifiers.Identified | nodes/aggregator.py:72-88 | task i gets `task_id` = its own id, overwriting any earlier one; `IdentifiedKeeps`, `LinksChain` and `LinksFormChain` state the rest |
| Identifiers.IdentifiersUnique | nodes/aggregator.py:72-74 | task i's id is "T" + i+1 padded to four digits, and distinct tasks get distinct ids |
| Identifiers.IdentifiedKeeps | nodes/aggregator.py:72-88 | no field other than the id (and, when linked, the three link fields) is added, removed or changed |
| Identifiers.IdentifiersKeepFields | nodes/aggregator.py:72-88 | in both plan types every other field is kept; a high-level plan changes only `task_id` |
| Identifiers.LinksChain | nodes/aggregator.py:81-88 | a task with a previous group member gets that member's id as predecessor, "FS" as dependency type, and the member gets this task as successor; a group's first member has no earlier member and keeps its own `predecessor` and `dependency_type` (present or absent, same value); the last member's successor is left as it was |
| Identifiers.LinksFormChain | nodes/aggregator.py:81-88 | the same chain stated on the detailed-mode result with ids `T0001…`, the first member of a group keeping its own `predecessor` and `dependency_type` |
| Identifiers.IdsStep | nodes/aggregator.py:73-79 | every `phase_groups` entry carries the id of its own index |
| Identifiers.GroupAppend | nodes/aggregator.py:77-79 | appending index i to its key's group keeps the group the ordered list of that key's indices |
| Identifiers.GroupUntouched | nodes/aggregator.py:77-79 | other keys' groups stay the ordered lists of their indices |
| Identifiers.GroupsStep | nodes/aggregator.py:76-79 | after task i, `phase_groups` lists, for every key seen, its indices in order |
| Identifiers.GroupNeighbours | nodes/aggregator.py:82-88 | the group neighbours of member p are the previous and next tasks with the same key |
| Identifiers.GroupPrevious | nodes/aggregator.py:84-86 | member p-1 of a group is the last earlier task with that key |
| Identifiers.GroupNext | nodes/aggregator.py:87-88 | member p+1 of a group is the first later task with that key |
| Identifiers.AddTaskIdentifiers | nodes/aggregator.py:68-90 | the array afterwards is `WithIdentifiers` of the array before, linked exactly when the plan type is "detailed" |
| Identifiers.NumberTasks | nodes/aggregator.py:70-79 | each task gets its id and `phase_groups` maps every key to the ordered indices and ids of its tasks |
| Identifiers.Grouped | nodes/aggregator.py:77-79 | appending to a key's group creates it when missing and leaves the other groups alone |
| Identifiers.NumberTask | nodes/aggregator.py:73-76 | writes task i's id and returns the id and the task's group key |
| Identifiers.KeyIgnoresId | nodes/aggregator.py:74-76 | writing the id does not change the group key |
| Identifiers.LinkedFromNumbered | nodes/aggregator.py:84-88 | a linked task is the numbered task with predecessor, "FS" and successor written for its group neighbours |
| Identifiers.GroupAllLinked | nodes/aggregator.py:82-88 | once every member of a group is linked, every task with that key is |
| Identifiers.WriteLinks | nodes/aggregator.py:84-88 | writes predecessor and "FS" when there is a previous member and successor when there is a next one, into slot i only |
| Identifiers.LinkGroup | nodes/aggregator.py:82-88 | the inner loop links every member of one group and leaves every other task as it was |
| Text.SortedKeys | nodes/aggregator.py:113 | `sorted(keys)`: strictly increasing in code-point order, holding exactly the keys |
| Text.SortedUnique | nodes/aggregator.py:113 | there is only one sorted list of a set of keys |
| Text.Least | nodes/aggregator.py:113 | the least key of a non-empty set precedes every other |
| Text.LexTransitive | nodes/aggregator.py:113 | the string order is transitive |
| Text.LexTotal | nodes/aggregator.py:113 | any two different strings are ordered one way |
| Aggregator.Backfilled | nodes/aggregator.py:119-121 | backfilling phase names keeps the task count |
| Aggregator.WithPhaseFields | nodes/aggregator.py:119-121 | `WithPhase`: a truthy package name leaves the task with a truthy phase name; a truthy phase name is kept; no other field changes |
| Aggregator.ConcatLength | nodes/aggregator.py:111-123 | `extend` block after block gives the sum of the block lengths |
| Aggregator.ConcatLayout | nodes/aggregator.py:111-123 | item j of block i sits after all items of the earlier blocks |
| Aggregator.ConcatItems | nodes/aggregator.py:111-123 | every item of the merged list comes from some block |
| Aggregator.Blocks | nodes/aggregator.py:113-123 | one block of tasks per worker key |
| Aggregator.BlocksTotal | nodes/aggregator.py:113-125 | the blocks hold as many tasks as the outputs together |
| Aggregator.MergedLayout | nodes/aggregator.py:113-123 | task j of the i-th key in sorted order sits right after the tasks of the earlier keys, with its phase name backfilled from that output's package name |
| Aggregator.MergedLength | nodes/aggregator.py:113-125 | the merged list is as long as all task lists together; `MergedLayout` places every task and `MergedPhasesSet` gives each a phase name |
| Aggregator.MergedPhasesSet | nodes/aggregator.py:119-121 | when every package name is truthy, every merged task has a truthy phase name |
| Aggregator.MergeOutputs | nodes/aggregator.py:111-123 | the collection loop returns the outputs' tasks in the given key order, phase names backfilled |
| Aggregator.MergedStep | nodes/aggregator.py:113-123 | one more worker key appends its backfilled block to the merged list |
| Aggregator.BackfillPhases | nodes/aggregator.py:119-121 | the inner loop gives each task with a falsy phase name the package name |
| Aggregator.FinalTasks | nodes/aggregator.py:128-149 | `total_tasks` equals the sum of the outputs' task-list lengths, after identifying and scheduling; `DetailedSchedule` gives the dates of a detailed plan |
| Aggregator.AggregateTasks | nodes/aggregator.py:111-135 | the collected tasks are `FinalTasks`: merged in sorted key order, identified, and for a detailed plan scheduled from its start date |
| Aggregator.DetailedSchedule | nodes/aggregator.py:128-135 | when `strptime` reads the written "YYYY-MM-DD" back as the same day, a detailed plan is the merged, linked tasks scheduled from exactly the day `calculate_project_start_date` resolved |
| Aggregator.AggregatorNode | nodes/aggregator.py:93-152 | without worker outputs only `error_message` is set; otherwise `aggregated_json` is set, with the project info, plan type, final tasks and their count, and no other state field is reassigned; the in-place updates to the worker outputs' task dicts are left out |
| Prompt.Weekday | nodes/prompt.py:25 | `weekday()` is between 0 and 6 |
| Prompt.DaysUntilMonday | nodes/prompt.py:25-32 | `(7 - weekday) % 7` reaches a Monday, and no earlier day in between is one |
| Prompt.NextMonday | nodes/prompt.py:25-28 | a Monday strictly after today and at most 7 days later, the first such (today+7 when today is a Monday) |
| Prompt.StartImmediate | nodes/prompt.py:23-28 | "Immediate" resolves to the first Monday strictly after today |
| Prompt.StartWithinMonth | nodes/prompt.py:29-33 | "Within 1 Month" resolves to the first Monday on or after today+30, within [today+30, today+36] |
| Prompt.StartCustom | nodes/prompt.py:34-43 | any other text resolves to the date it parses to, and to the "Immediate" day when it does not parse |
| Prompt.StartDay | nodes/prompt.py:21-43 | a day that is not the parsed preference is a Monday after today; `StartImmediate`, `StartWithinMonth` and `StartCustom` fix which one |
| Prompt.CalculateProjectStartDate | nodes/prompt.py:45 | the "YYYY-MM-DD" text has at least ten characters |
| Prompt.ScaleLinesShape | nodes/prompt.py:59-85 | 4 lines for Highrise, 3 for each other known type, none for any other type; line i is "- Label: value" with the field's label, `str()` of its answer and its unit, and "N/A" in place of a missing answer |
| Prompt.ScaleLines | nodes/prompt.py:59-85 | at most four lines, each starting "- "; `ScaleLinesShape` gives their number and each line's "- Label: value" text |
| Prompt.ScaleDetailsRoundTrip | nodes/prompt.py:87 | splitting the result at "\n" gives back the lines; an unknown type gives "" |
| Prompt.FormatProjectScaleDetails | nodes/prompt.py:87 | empty exactly when there are no lines; otherwise it starts with "- " |
| Prompt.PromptNode | nodes/prompt.py:248-288 | with empty responses only `error_message` is set; otherwise only `enriched_prompt` is set, from the scale details and the resolved start date |
| Extract.FirstParse | nodes/workers.py:17-22 | the parse of the first candidate that parses; none exactly when no candidate parses |
| Extract.NoFenceNoBlock | nodes/workers.py:15-16 | `FencedBlocks`: no fence gives no block; `OneBlock` and `WrappedBlock` give a block's text |
| Extract.ExtractJson | nodes/workers.py:13-33 | a reply with no fenced block and no "{" gives the default; `FromFirstBlock`, `FromBraces` and `ToDefault` give the result in every case |
| Extract.BraceSpan | nodes/workers.py:25-28 | the slice from the first "{" to the last "}" exactly when both occur, empty when the "}" comes first |
| Extract.FromFirstBlock | nodes/workers.py:15-22 | when fenced block i is the first that parses, the reply is its parse |
| Extract.FirstParseAt | nodes/workers.py:18-22 | blocks are tried left to right and the first success wins |
| Extract.FromBraces | nodes/workers.py:24-28 | when no block parses and both braces occur in order, the reply is the parse of the brace span, or the default |
| Extract.ToDefault | nodes/workers.py:24-33 | when nothing parses (no brace, or "}" before "{"), the default comes back and nothing is raised |
| Extract.OneBlock | nodes/workers.py:15-16 | a fence and the next fence enclose exactly one block |
| Extract.WrappedBlock | nodes/workers.py:15-16 | a backtick-free document in a "json"-tagged fence is read as one block, its stripped text |
| Extract.WrappedRoundTrip | nodes/orchestrator.py:12-22 | a wrapped document that parses is what the extraction returns |
| Orchestrator.FormatProjectContext | nodes/orchestrator.py:35-56 | the loop builds the header followed by one line per truthy scale entry, in order |
| Orchestrator.ProjectContext | nodes/orchestrator.py:35-56 | a scale without a truthy value gives the header alone; `ScaleContextAppend` and `ScaleContextSingle` give the lines otherwise |
| Orchestrator.ContextStep | nodes/orchestrator.py:51-54 | one iteration appends the entry's line exactly when its value is truthy |
| Orchestrator.ScaleContextAppend | nodes/orchestrator.py:51-54 | the lines of two runs of entries are the lines of each, in order |
| Orchestrator.ScaleContextSingle | nodes/orchestrator.py:52-54 | one entry gives "- Key: value\n" when its value is truthy and nothing otherwise |
| Orchestrator.ScaleContextFalsy | nodes/orchestrator.py:51-52 | falsy entries add nothing |
| Text.LabelOfKey | nodes/orchestrator.py:53 | the key label is the key with "_" swapped for " ", then title-cased |
| Text.ReplaceOneChar | nodes/orchestrator.py:53 | replacing one character by another swaps it at every position |
| Orchestrator.WorkerSizing | nodes/orchestrator.py:79-86 | 32 workers, 13 tasks each and a minimum of 400 for "detailed"; 8 workers, 13 tasks and a minimum of 100 otherwise; workers × tasks per worker reach the minimum |
| Orchestrator.DeliverableLines | nodes/orchestrator.py:197 | one "- d" line per deliverable |
| Orchestrator.CreateWorkerPrompt | nodes/orchestrator.py:174-216 | succeeds exactly when the package name is a string and the deliverables iterate |
| Orchestrator.WorkerPromptSplice | nodes/orchestrator.py:183-216 | the prompt is the base with every "{phase_assignment}" replaced by the package name, followed by the package section |
| Orchestrator.BaseKept | nodes/orchestrator.py:188-216 | a base without the placeholder is a prefix of the prompt |
| Orchestrator.DeliverablesListed | nodes/orchestrator.py:197 | splitting the deliverable block at "\n" gives back one line per deliverable |
| Text.ReplaceIsJoinOfSplit | nodes/orchestrator.py:188 | `replace` is split at the pattern, then join with the replacement |
| Text.SplitJoinRoundTrip | nodes/orchestrator.py:188 | joining the pieces of a split with the separator gives back the text |
| Text.SplitJoin | nodes/orchestrator.py:197 | splitting a join whose parts hold no separator gives back the parts |
| Orchestrator.WorkerInfos | nodes/orchestrator.py:139-153 | one prompt result per package |
| Orchestrator.WorkerPrompts | nodes/orchestrator.py:138-153 | on success there are no more workers than packages, and every package's prompt was built |
| Orchestrator.FirstPromptError | nodes/orchestrator.py:139-169 | the first package whose prompt raises makes the whole loop raise its message |
| Orchestrator.PromptsRaise | nodes/orchestrator.py:138-153 | the loop succeeds when every prompt does |
| Orchestrator.KeysStable | nodes/orchestrator.py:138-153 | with keys that do not depend on the map size, the map holds exactly the packages' keys, each with the info of the last package carrying it |
| Orchestrator.KeysStep | nodes/orchestrator.py:140-153 | one more package keeps that invariant: a repeated key is overwritten |
| Orchestrator.IdKey | nodes/orchestrator.py:140 | a package with an id gets the key "worker_<id>" |
| Orchestrator.WorkerKey | nodes/orchestrator.py:140 | the key starts "worker_"; a package without an id takes the number of keys so far plus one |
| Orchestrator.KeysFromIds | nodes/orchestrator.py:138-159 | when every package has an id, the map holds exactly the keys "worker_<id>", each with the info of the last package carrying that id |
| Orchestrator.MissingIdCollides | nodes/orchestrator.py:140-148 | a package without an id at size 0 takes "worker_1", and a later package with id 1 overwrites it |
| Orchestrator.BuildWorkerPrompts | nodes/orchestrator.py:138-153 | the loop's result is the specification `WorkerPrompts` of the packages' prompt results |
| Orchestrator.PromptStep | nodes/orchestrator.py:139-153 | one iteration either raises the package's error or inserts its info under its key |
| Orchestrator.FirstNonDict | nodes/orchestrator.py:134-135 | the first work package that is not a dict, none exactly when all are dicts |
| Orchestrator.PackageDicts | nodes/orchestrator.py:134-141 | one entry list per package |
| Orchestrator.WorkPackages | nodes/orchestrator.py:126-131 | a successful read yields a non-empty package list |
| Orchestrator.TruthyItems | nodes/orchestrator.py:128-131 | a truthy iterable `work_packages` has at least one item |
| Orchestrator.Orchestration | nodes/orchestrator.py:123-169 | a plan has `num_workers` = the number of worker prompts, at least one; it keeps the plan type, 13 tasks per worker and a minimum of 400 for "detailed", 100 otherwise |
| Orchestrator.NonEmptyPrompts | nodes/orchestrator.py:138-159 | a non-empty package list gives at least one worker |
| Orchestrator.UnreadablePlanFails | nodes/orchestrator.py:126-169 | a reply that does not parse fails with "No work packages received" |
| Orchestrator.EmptyPlanFails | nodes/orchestrator.py:128-131 | an empty plan fails with "No work packages received" |
| Orchestrator.OrchestratorNode | nodes/orchestrator.py:59-171 | without an enriched prompt only `error_message` is set; otherwise the plan is stored, or "Orchestration failed: <message>" and no plan |
| Workers.ReplyTasks | nodes/workers.py:50-54 | a read reply's `tasks` has a length |
| Workers.ProcessSingleWorker | nodes/workers.py:36-71 | success exactly when the reply was read; on success `task_count` = `len(tasks)`; on failure empty tasks, count 0 and an error of at most 50 characters; the package name defaults to the key |
| Workers.CallFailure | nodes/workers.py:63-71 | a raised call gives success false, no tasks and the first 50 characters of the message |
| Workers.UnreadableReply | nodes/workers.py:29-62 | a reply that does not parse is a success with no tasks |
| Workers.ListReply | nodes/workers.py:53-62 | a reply with a task list gives those tasks and their count |
| Text.Take | nodes/workers.py:70 | `s[:n]` is a prefix of at most n characters, all of `s` when it is short enough |
| Workers.CollectedOver | nodes/workers.py:96-111 | one output per collected key |
| Workers.Collected | nodes/workers.py:96-111 | one output per worker key, whatever the completion order |
| Workers.CountSumRemove | nodes/workers.py:113 | the task total over keys is one key's count plus the total over the others |
| Workers.RemoveDistinct | nodes/workers.py:102-113 | removing one key from a repetition-free order leaves the other keys, still without repetition |
| Workers.CountSumOrder | nodes/workers.py:102-113 | the task total is the same in every completion order |
| Workers.CollectResults | nodes/workers.py:89-113 | the loop collects exactly `Collected`, `total_tasks` is the sum of the counts and `completed` is the number of workers |
| Workers.CollectStep | nodes/workers.py:103-113 | one result adds its key and its count |
| Workers.CollectedEntries | nodes/workers.py:107-111 | a map with each worker's entry under its key is `Collected` |
| Workers.CountSumFrame | nodes/workers.py:113 | storing a key outside the counted keys leaves the total alone |
| Workers.DistinctCount | nodes/workers.py:91-103 | a repetition-free order of the keys has as many entries as there are keys |
| Workers.CategoryWorkerNode | nodes/workers.py:74-121 | without a plan only `error_message` is set; with no workers the pool raises; otherwise only `worker_outputs` is set, to `Collected` |
| Validation.RequiredFieldErrors | nodes/validation.py:9-30 | no errors exactly when the location is truthy and the type is a known one; each of the three messages appears exactly in its case |
| Validation.OneTypeError | nodes/validation.py:25-28 | never both "required" and "invalid" for the project type |
| Validation.ScaleErrors | nodes/validation.py:33-76 | at most two errors; an empty scale gives exactly the one "required for <type> projects" error |
| Validation.MissingMessages | nodes/validation.py:50-74 | at most one message per required field |
| Validation.MissingMessagesEmpty | nodes/validation.py:50-74 | no message exactly when every required field is truthy (0 counts as missing) |
| Validation.ScaleErrorsMatchTable | nodes/validation.py:50-76 | a non-empty scale is checked against its type's required fields only; an unknown type gives none |
| Validation.OneRequirement | nodes/validation.py:62-64 | a one-field type gives that field's message when it is missing |
| Validation.TwoRequirements | nodes/validation.py:50-54 | a two-field type gives the first field's message, then the second's |
| Validation.ParseInt | nodes/validation.py:103 | `int()` of a string needs a non-blank string |
| Validation.IntOf | nodes/validation.py:103 | an integer converts to itself; only integers, booleans and non-blank strings convert |
| Validation.ParseNumeral | nodes/validation.py:103 | a numeral is never empty |
| Validation.ParseIntOfNumeral | nodes/validation.py:103 | `int(str(i)) == i` for every integer |
| Validation.UnsignedNumeral | nodes/validation.py:103 | a run of digits reads as its value |
| Validation.SignedNumeral | nodes/validation.py:103 | "-" and a run of digits reads as the negated value |
| Validation.NumericError | nodes/validation.py:100-107 | at most one message per field, and none exactly when the value is `None` or a whole number above zero |
| Validation.FieldValues | nodes/validation.py:100 | one value per field |
| Validation.FieldMessagesStep | nodes/validation.py:99-107 | one more field adds its messages at the end |
| Validation.FieldMessagesEmpty | nodes/validation.py:99-107 | no messages exactly when every field passes its check |
| Validation.NumericErrorsEmpty | nodes/validation.py:99-109 | no numeric messages exactly when every value is absent or positive |
| Validation.ValidateNumericFields | nodes/validation.py:79-109 | the loop gives each field's message, in field order |
| Validation.NumbersValid | nodes/validation.py:91-109 | no numeric messages exactly when each of the five fields is absent, `None` or positive |
| Validation.PlanLevelErrors | nodes/validation.py:112-127 | a falsy or known plan level passes; any other gives exactly one error |
| Validation.ScaleComplete | nodes/validation.py:46-76 | no scale error exactly when the scale is non-empty and has every required field |
| Validation.ValidIff | nodes/validation.py:150-168 | the answers are valid exactly when every check passes |
| Validation.Validate | nodes/validation.py:150-165 | a missing location always reports "Location is required (Question 1)", and an unknown project type always fails; `ValidIff` gives the exact condition |
| Validation.ErrorMessageSplits | nodes/validation.py:176 | the joined error message splits back at "; " into the errors |
| Validation.ValidationNode | nodes/validation.py:130-183 | empty responses give invalid with one error; otherwise `is_valid` holds exactly when the concatenated errors are empty, and `error_message` is their "; " join, set only when invalid |
| ExcelGenerator.SnakeChars | nodes/excel_generator.py:49 | the fallback key has one character per header character |
| ExcelGenerator.SnakeKeyChars | nodes/excel_generator.py:49 | `lower().replace(" ", "_")` is a per-character map |
| ExcelGenerator.SnakeTableKey | nodes/excel_generator.py:31-49 | a table whose keys are the headers' snake forms gives the snake form for every header |
| ExcelGenerator.ColumnKeyTableIsSnake | nodes/excel_generator.py:31-47 | each of the 15 known headers maps to its snake_case key |
| ExcelGenerator.KnownKeysFirst | nodes/excel_generator.py:32-36 | headers 1–5 map to their snake_case keys |
| ExcelGenerator.KnownKeysSecond | nodes/excel_generator.py:37-41 | headers 6–10 map to their snake_case keys |
| ExcelGenerator.KnownKeysThird | nodes/excel_generator.py:42-46 | headers 11–15 map to their snake_case keys |
| ExcelGenerator.ColumnKey | nodes/excel_generator.py:31-49 | every header, known or not, maps to its lower-cased, "_"-joined form |
| ExcelGenerator.GetTaskValue | nodes/excel_generator.py:19-56 | a cell value is never `None` |
| ExcelGenerator.TaskValueOfField | nodes/excel_generator.py:49-56 | the task's field under the header's key; "" when it is missing or `None`; any other value (0 and false too) unchanged |
| ExcelGenerator.ColumnsOfPlanType | nodes/excel_generator.py:101-102 | "Task Duration" is a column exactly when the plan is not "detailed" |
| ExcelGenerator.Worksheet.constructor | nodes/excel_generator.py:116 | a new sheet has no cells |
| ExcelGenerator.Worksheet.Cell | nodes/excel_generator.py:76 | `ws.cell(row, column, value)` sets that one cell |
| ExcelGenerator.NextCell | nodes/excel_generator.py:74-76 | writing the next cell of a row keeps the sheet written up to it |
| ExcelGenerator.NextRow | nodes/excel_generator.py:77 | a finished row moves on to the next |
| ExcelGenerator.FilledStep | nodes/excel_generator.py:74-76 | one more cell of the grid is one more map update |
| ExcelGenerator.FilledRow | nodes/excel_generator.py:77 | the start of a row is the end of the previous one |
| ExcelGenerator.FilledWritten | nodes/excel_generator.py:71-79 | the filled sheet holds cell (2+i, 1+j) = value of task i in column j, keeps every other cell and adds none outside the grid |
| ExcelGenerator.WriteTasksToSheet | nodes/excel_generator.py:59-79 | returns the number of tasks, and the sheet becomes the filled grid over the sheet before |
| ExcelGenerator.WrittenUnique | nodes/excel_generator.py:71-79 | the written sheet is determined by the tasks, columns and the sheet before |
| ExcelGenerator.WrittenCells | nodes/excel_generator.py:71-79 | every grid cell holds its task value; rows before 2 (the header) and after the tasks are kept; no new cell lies outside the grid |
| ExcelGenerator.PathJoin | nodes/excel_generator.py:140 | the joined path ends with the file name |
| ExcelGenerator.PlanFileNameShape | nodes/excel_generator.py:137-139 | "project_plan_<type with spaces as _>_<timestamp>.xlsx", with no space in the type part |
| ExcelGenerator.PlanFileName | nodes/excel_generator.py:138-139 | the name starts "project_plan_" and ends ".xlsx" |
| ExcelGenerator.ExcelGeneratorNode | nodes/excel_generator.py:82-149 | without an aggregated plan only `error_message` is set and no cell is written; otherwise the sheet is the filled grid of the plan's tasks in its plan type's columns and `excel_path` is set |
| Text.NatToStringRoundTrip | nodes/aggregator.py:59 | reading back `str(n)` gives n |
| Text.ZeroPadValue | nodes/aggregator.py:73 | zero padding keeps a numeral's value |
| Text.Strip | nodes/workers.py:21 | `strip()` drops white space from both ends only |
| Text.FindChar | nodes/workers.py:26 | `find(c)` is the first index of c, none when absent |
| Text.RFindChar | nodes/workers.py:27 | `rfind(c)` is the last index of c, none when absent |
| Text.NatToString | nodes/aggregator.py:59 | `str(n)` of a natural is a non-empty run of digits with no leading zero unless n is 0 |
| Text.ZeroPad | nodes/aggregator.py:73 | `:04d` padding: the text is kept as a suffix, preceded by only "0"s up to the width, never cut |
| Text.StripLeft | nodes/workers.py:21 | the result is a suffix; everything dropped is white space and the result does not start with white space |
| Text.StripRight | nodes/workers.py:21 | the result is a prefix; everything dropped is white space and the result does not end with white space |
| Text.FindFrom | nodes/workers.py:15-16 | the first occurrence of the pattern at or after `from`, none exactly when there is none |
| Text.Split | nodes/validation.py:176 | `split(sep)` gives at least one piece and no piece contains the separator |
| Text.ReplaceAbsent | nodes/orchestrator.py:188 | replacing a pattern that does not occur leaves the text unchanged |
| Text.LexIrreflexive | nodes/aggregator.py:113 | no string sorts before itself |
| Text.LexAsymmetric | nodes/aggregator.py:113 | two strings never sort before each other both ways |
| Text.LeastExists | nodes/aggregator.py:113 | every non-empty set of keys has a least element |
| Validation.NegativeNumeral | nodes/validation.py:103 | `int(str(i))` gives back a negative i |
| Validation.ParseUnsigned | nodes/validation.py:103 | a bare run of digits reads as its value |
| Validation.ParseSigned | nodes/validation.py:103 | "-" before a run of digits reads as the negated value |
| Values.Lookup | nodes/excel_generator.py:50 | a dict lookup finds a value exactly when some entry has the key, and the value is that of such an entry |
| Values.TruthyLen | nodes/aggregator.py:58 | `Truthy` agrees with Python: a value with a length is truthy exactly when its length is not zero |
| Values.DisplayShape | nodes/aggregator.py:17 | `Display`, Python `str()`: a string shows as itself, and only the empty string shows as nothing |
| Values.ReprShape | nodes/orchestrator.py:54 | `Repr`, Python `repr()`: never empty, and strings and dates show between single quotes |
| Values.IsoDateLength | nodes/aggregator.py:56-57 | `IsoDate`, `strftime("%Y-%m-%d")`: at least ten characters |
| Values.IterateLen | nodes/workers.py:60 | `Iterate` and `Len`: only `None`, booleans and integers cannot be iterated; `len()` succeeds exactly when iteration does and counts the items iterated; a dict yields its keys in order |
| Values.ToMap | nodes/aggregator.py:116-119 | the dict's map holds exactly the keys the lookup finds, each with the value found |
| Values.DictItems | nodes/aggregator.py:116-119 | one task record per item of the task list |
| State.GraphState.constructor | state.py:124-136 | every field of a new state is unset |

## Left out

- Language-model calls, the JSON parser, `strptime`, `datetime.now()` and the regular-expression engine are not modelled. Replies, parse results, the day number of today and the file timestamp are parameters.
- The thread pool of `category_worker_node`: results are collected in a given completion order, and the proofs show the outcome does not depend on it.
- `print` output, including the `min_tasks` report of `aggregator_node` and the progress lines of the workers.
- The `generated_at` timestamp of the aggregated plan: it depends on the clock.
- The prompt template file, `get_output_format_instructions` and `str.format`. `Prompt.PromptNode` takes the rendering as a function parameter, so its contract covers the scale details and start date fed into it, not the text.
- The literal request text `orchestrator_node` sends to the language model: it is only a model input.
- openpyxl styling, workbook creation and saving, the Project Info sheet, the header row (written by `format_excel_sheet` in utils/excel_helper.py), `apply_data_formatting` and `os.makedirs`. The model writes only the task cells.
- The questionnaire, the HTTP layer and the graph wiring: they are outside the core.
- Text handling is ASCII only: `lower()`, `title()` and white space follow the ASCII rules, and `repr` does not escape quotes.
- Floats are not among the values. `int()` of a string accepts no "_" digit separators. `strftime("%Y")` of years before 1000 is not zero-padded to four digits.
- Date values are compared in membership tests as their "YYYY-MM-DD" strings would be. They never equal the constant names, so the outcome is the same.
- The orchestrator's `extract_json_from_response` is the same `Extract.ExtractJson` as the workers', with `{}` in place of `{"tasks": []}` as the default.
- The fallback to `datetime.now()` when the start date does not parse (nodes/aggregator.py:36-37) is modelled as falling back to today. `Aggregator.DetailedSchedule` covers the plan `aggregator_node` builds: its start text is the one `calculate_project_start_date` wrote, which `strptime` reads back.
- Dicts with a repeated key: `json.loads` keeps only the last value of a repeated key, so a decoded dict never has one. The model's `Obj` values are taken to have distinct keys. On a list of entries that repeats a key, `Values.Lookup` takes the last entry while `Values.Iterate`, `Values.Len`, `Values.Repr` and `Orchestrator.ScaleContext` see every entry; such a value does not arise from JSON.
- The graph state is modelled as the graph leaves it, not as `create_initial_state` does. That function stores `None` under every key (state.py:124-136), and `state.get(key, default)` then returns `None`, not the default. The model reads an entry that is still `None` as absent, so it takes the default. So it does not model three crashes. `aggregator_node` calls `.get` on a `None` `orchestrator_plan` (nodes/aggregator.py:106). It also calls `.get` on a `None` `questionnaire_responses` (nodes/aggregator.py:133-140). `orchestrator_node` has a prompt but `None` responses (`format_project_context(None)`, nodes/orchestrator.py:74). Each node runs after the node that writes those entries.
- State.PlanTypeOf: reads an unset `plan_type` as "high_level". In `create_initial_state` it is `None`, but the questionnaire always sets it to "detailed" or "high_level" (nodes/questionnaire.py:169) before any node of the model runs.
- Schedule phases are compared as model values. Two Python behaviours are not modelled. A list or dict `phase_name` raises TypeError in `phase in phase_dates` (nodes/aggregator.py:49), because it is unhashable. Python also treats `1` and `True` as the same dict key, but the model keeps them apart.
- Day numbers are unbounded. The OverflowError that `task_start + timedelta(...)` raises past 9999-12-31 (nodes/aggregator.py:54) is not modelled, and neither is the one `today + timedelta(...)` raises in `calculate_project_start_date`.
- ExcelGenerator.Worksheet.Cell: accepts any value. openpyxl raises ValueError for a list or dict cell value (nodes/excel_generator.py:76), and that error is not modelled.
- Validation.ValidationNode: requires `project_scale` to be a dict when responses are present. The source crashes on other values (`.get` on a non-dict).
- Orchestrator.OrchestratorNode: requires `project_scale` to be a dict when there is an enriched prompt. `format_project_context` calls `.items()` on it outside the `try`.
- Prompt.PromptNode: requires the responses to be readable the way the source reads them (a dict scale, a string start preference). Other values crash before any state is written.
- Aggregator.AggregatorNode: requires every output's `tasks` to be a list of dicts, and the start preference to be a string in a detailed plan. Other values crash in the source. The source also backfills, numbers, links and dates the task dicts in place (nodes/aggregator.py:119-121 and 128-135), and those dicts are the same objects `worker_outputs` still holds, so after the node `worker_outputs` shows the same updates as the plan's tasks. The model works on task values and leaves `worker_outputs` as it was: it does not capture this aliasing.
- ExcelGenerator.ExcelGeneratorNode: requires the project type to be a string. `.replace` on any other value raises.
- ExcelGenerator.WrittenCells, ExcelGenerator.FilledWritten and ExcelGenerator.WrittenUnique: stated for any cell function. `WriteTasksToSheet` instantiates them with `GetTaskValue`.
