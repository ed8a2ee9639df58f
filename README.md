# ashi_os safety-gated tool execution, in Dafny

This project models the part of the ashi_os assistant that decides whether a request may act on the machine, and what it then does. It also models four small parsers of the older aashi desktop assistant.

- **Brain.** The strategic planner splits an objective into at most eight numbered steps. The risk evaluator scores the request against two fixed term lists and says whether explicit confirmation is needed. The confirmation manager issues one token per session and consumes it once. The chat orchestrator puts every message through the confirmation step, the destructive-command gate and the risk gate before a responder sees it.
- **Tools.** The tool executor applies two policy gates: a delete needs `confirm`, and so does a destructive command. It then dispatches to the capability, turns every exception into an `ok = false` result, writes one audit record per dispatched call, and replays due scheduled jobs. The capabilities are:
  - the filesystem, confined to the workspace root and never deleting a directory, over a map from paths to nodes;
  - the code runner's blocked-token and allow-list checks;
  - the dry-run e-mail queue;
  - the scheduler's job table, as a sequence of rows.
- **Agents.** The coordinator restores a confirmed objective, plans it, gates it on risk (reusing a pending token), turns steps into tool calls, runs them when asked, validates the results, stores a reflection and summarises.
- **Parsers.** Wake-phrase detection, intent routing by prefix, the normal shape of the JSON memory store, and `.env` loading with `setdefault`.

Each source file is one module. Objects whose fields change in place are classes: the confirmation manager, the scheduler store, the filesystem and e-mail modules, the audit log, the tool executor, the execution agent, the coordinator, the orchestrator, the memory store and the process environment. Their methods are proved against specification functions, and the properties are lemmas about those functions.

Everything outside the process enters as a parameter:
- the clock's reading;
- the random token, of the shape `token_hex(4)` yields;
- `shlex.split` and the process launcher;
- the system-control and browser wrappers;
- the context builder with the language-model router, as one responder function;
- the memory service's search hits and new ids;
- the contents of the files read.

## Model

| member | source | states |
|---|---|---|
| Security.IsDestructiveCommand | ashi_os/core/security.py:18-21 | true exactly when one of the five markers occurs in the lower-cased text |
| Security.DestructiveIgnoresCase | ashi_os/core/security.py:19 | a text and its lower-cased form are judged alike |
| Security.DestructiveWhenMarkerInside | ashi_os/core/security.py:18-21 | any text holding a marker anywhere is destructive |
| Security.RunLength | ashi_os/core/security.py:5-7 | the greedy run of class characters: all in the class, stopped by the first that is not |
| Security.MatchAt | ashi_os/core/security.py:5-7 | a match starts with the pattern's prefix and covers at least the minimum run |
| Security.SubstituteFreeUnchanged | ashi_os/core/security.py:13-14 | where a pattern never matches, substitution leaves the text unchanged |
| Security.RedactSecrets | ashi_os/core/security.py:11-15 | `redact_secrets`: a text shorter than the shortest possible secret is never changed |
| Security.RedactFreeUnchanged | ashi_os/core/security.py:11-15 | a text free of all three patterns passes redaction unchanged |
| Security.ShortTextKept | ashi_os/core/security.py:5-14 | no pattern fits in a text shorter than 13 characters, so each substitution leaves it unchanged |
| Security.SkKeyReplacedWhole | ashi_os/core/security.py:5-14 | `sk-` followed by a run of ten or more key characters is replaced whole by `[REDACTED]` and the rest is still scanned |
| Security.RunOfKey | ashi_os/core/security.py:5-7 | the run length of a key made of class characters, followed by a non-class character, is the key's length |
| Security.SubstituteKeepsUnmatched | ashi_os/core/security.py:14 | substitution copies the text up to the first offset where a match starts |
| Security.SkShortRunKept | ashi_os/core/security.py:5 | an `sk-` run of fewer than ten class characters is not a secret: its `sk-` is kept |
| Security.MatchWindow | ashi_os/core/security.py:5-7 | a match depends only on its window: the prefix and then `minRun` class characters |
| Security.FirstMatchAt | ashi_os/core/security.py:14 | the leftmost offset where the pattern matches, or the text's length when it matches nowhere |
| Security.SubstituteLeavesNoMatch | ashi_os/core/security.py:14 | after `pattern.sub("[REDACTED]", …)`, that pattern matches nowhere in the result |
| Security.SubstituteKeepsFree | ashi_os/core/security.py:14 | a later substitution never brings back a match of a secret pattern that the text was free of |
| Security.RedactedIsFree | ashi_os/core/security.py:11-15 | `redact_secrets` output holds no `sk-`, `ghp_` or `AIza` secret |
| Planning.FirstConjunction | ashi_os/brain/planning.py:70 | a conjunction match found at a position has a positive length and lies inside the text |
| Planning.ConjunctionAt | ashi_os/brain/planning.py:70 | a word-bounded conjunction match at a position lies inside the text |
| Planning.SplitFrom | ashi_os/brain/planning.py:70 | the conjunction split always yields at least one chunk |
| Planning.NoConjunctionOneChunk | ashi_os/brain/planning.py:70 | with no conjunction after a position, the rest of the text is one chunk |
| Planning.ConjunctionSplits | ashi_os/brain/planning.py:70 | a conjunction in the text splits it into at least two chunks |
| Planning.CleanChunks | ashi_os/brain/planning.py:71 | the cleaned chunks are non-empty and no more than the raw chunks |
| Planning.StripNonBlank | ashi_os/brain/planning.py:73 | the comma fallback keeps only non-blank stripped parts |
| Planning.SplitSteps | ashi_os/brain/planning.py:69-74 | at most eight chunks, none of them empty |
| Planning.CommaFallback | ashi_os/brain/planning.py:72-74 | with at most one conjunction chunk and a comma in the text, the chunks are the first eight non-blank stripped pieces of the comma split, none holding a comma |
| Planning.ConjunctionChunksKept | ashi_os/brain/planning.py:70-74 | otherwise the chunks are the first eight the conjunction split leaves |
| Planning.StripIsInfix | ashi_os/brain/planning.py:73 | what `strip` leaves is a slice of the text |
| Planning.NoCommaStripped | ashi_os/brain/planning.py:73 | stripping comma-free pieces leaves comma-free pieces |
| Planning.Tasks | ashi_os/brain/planning.py:54 | one task per chunk |
| Planning.StepsOf | ashi_os/brain/planning.py:53-62 | each chunk contributes at most one step |
| Planning.StepsOfShape | ashi_os/brain/planning.py:53-62 | steps keep the 1-based positions of chunks with a non-empty task, in increasing order, each with that chunk's task and the rationale its position calls for |
| Planning.NumberedAppend | ashi_os/brain/planning.py:55-62 | appending the step of the next non-empty chunk keeps ids increasing and tasks and rationales matched to positions |
| Planning.BuildPlan | ashi_os/brain/planning.py:48-67 | the plan built step by step equals the plan function |
| Planning.NumberSteps | ashi_os/brain/planning.py:53-62 | the numbering loop builds exactly the specified steps |
| Planning.StepsOfHas | ashi_os/brain/planning.py:53-62 | every chunk with a non-empty task has a step with its position as id |
| Planning.StepsOfEmptyIff | ashi_os/brain/planning.py:53-65 | no step is numbered exactly when every chunk's task is empty |
| Planning.PlanShape | ashi_os/brain/planning.py:53-74 | a plan has one to eight steps, ids strictly increasing between 1 and 8, tasks non-empty |
| Planning.PlanClarifyIff | ashi_os/brain/planning.py:64-65 | the plan is the single "Clarify intent" step exactly when no chunk keeps a task |
| Planning.TwoTasksTwoSteps | ashi_os/brain/planning.py:48-74 | two of the first eight conjunction chunks keeping a non-empty task give at least two steps, carrying those chunks' positions in order |
| Planning.TwoTasksStepsOf | ashi_os/brain/planning.py:53-62 | two non-empty tasks give two steps, in task order |
| Planning.PlanObjective | ashi_os/brain/planning.py:49 | the objective is the stripped message, or "Handle request" when it is blank |
| Planning.Hits | ashi_os/brain/planning.py:113-122 | no more hits than terms |
| Planning.HitsMembers | ashi_os/brain/planning.py:113-122 | a term is a hit exactly when it is listed and occurs in the lower-cased text |
| Planning.Indicators | ashi_os/brain/planning.py:116-122 | one reason per hit, in hit order, naming the term |
| Planning.AddIndicators | ashi_os/brain/planning.py:113-122 | one pass adds the weight per hit to the score and one reason per hit, and reports whether any term hit |
| Planning.TallyStep | ashi_os/brain/planning.py:113-122 | one more term adds its weight and its reason exactly when it occurs in the text, and changes nothing otherwise |
| Planning.Evaluate | ashi_os/brain/planning.py:107-139 | the evaluator's loops compute exactly the specified assessment |
| Planning.ConfirmationIffHigh | ashi_os/brain/planning.py:128-137 | confirmation is required exactly when the level is high, i.e. on a high-risk hit or a score of at least four; medium exactly when not high and the score is at least two |
| Planning.HighTermForcesConfirmation | ashi_os/brain/planning.py:113-128 | a message holding any high-risk term is high risk and needs confirmation, whatever else it holds |
| Planning.QuietRequestIsLow | ashi_os/brain/planning.py:124-133 | no term hit and fewer than four steps give level low, score 0 and no confirmation |
| Planning.NoHits | ashi_os/brain/planning.py:113-122 | when no term occurs there are no hits |
| Planning.ExplicitReasonLast | ashi_os/brain/planning.py:135-137 | when confirmation is required the explicit-confirmation reason is last, and otherwise it is absent |
| Confirmation.ConfirmationManager.constructor | ashi_os/brain/confirmation.py:14-15 | starts with no pending entry |
| Confirmation.ConfirmationManager.Create | ashi_os/brain/confirmation.py:17-24 | records the message under the new token for the session, replacing any earlier entry, and returns the token |
| Confirmation.ConfirmationManager.ConsumeIfValid | ashi_os/brain/confirmation.py:26-40 | answers and updates the table as specified: removal only on an exact `confirm <token>` match |
| Confirmation.ConfirmationManager.HasPending | ashi_os/brain/confirmation.py:42-43 | true exactly when the session has an entry |
| Confirmation.ConfirmationManager.PendingToken | ashi_os/brain/confirmation.py:45-47 | the session's token, or nothing exactly when it has no entry |
| Confirmation.ConfirmationManager.ConsumeToken | ashi_os/brain/confirmation.py:49-56 | accepts only the stripped token equal to the stored one, removing the entry and handing back the message |
| Confirmation.TokenIsLower | ashi_os/brain/confirmation.py:18-31 | a `token_hex` token is already lower case |
| Confirmation.ConfirmRoundTrip | ashi_os/brain/confirmation.py:17-35 | after `create`, the reply `confirm <token>` in any letter case returns the original message and removes exactly that entry |
| Confirmation.ConsumedOnce | ashi_os/brain/confirmation.py:33-35 | an entry is consumed at most once: the same reply is refused afterwards |
| Confirmation.MismatchKeepsEntry | ashi_os/brain/confirmation.py:37-40 | a wrong token leaves the entry; a `confirm …` reply is reported as `(True, "")`, anything else refused |
| Confirmation.NoEntryRefused | ashi_os/brain/confirmation.py:27-52 | without a pending entry both consume operations refuse and change nothing |
| Confirmation.OtherSessionsUntouched | ashi_os/brain/confirmation.py:34-54 | consuming for one session never touches another session's entry |
| Confirmation.ConsumeTokenRoundTrip | ashi_os/brain/confirmation.py:49-55 | `consume_token` accepts the issued token padded by any whitespace on either side, and removes the entry |
| Values.Get | ashi_os/tools/executor.py:39 | `params.get(key, default)` is the value of an entry with that key, or the default when no entry has it |
| Values.PyStr | ashi_os/tools/executor.py:39 | `str(v)` of a string is the string itself |
| Values.ToInt | ashi_os/tools/executor.py:96-115 | `int(v)` of an int is itself; of `None`, a list or a dict it raises `TypeError` |
| Values.ToIntRoundTrip | ashi_os/tools/executor.py:96-115 | `int(str(i)) == i` for every integer |
| Values.SignedParse | ashi_os/tools/executor.py:96-115 | `int` of a sign followed by a digit run is the run's value, negated for `-` |
| Values.ToDict | ashi_os/tools/executor.py:73-135 | `dict(v)` copies a dictionary and raises `TypeError` on `None`, booleans and integers |
| Values.Put | aashi/memory.py:47 | assigning a key keeps the dictionary's size or grows it by one |
| Values.GetAfterPut | aashi/memory.py:47 | after `d[k] = v`, `d.get(k)` is `v` |
| Values.GetOtherAfterPut | aashi/memory.py:47 | `d[k] = v` leaves every other key's value as it was |
| Values.PutFresh | aashi/memory.py:47 | assigning an absent key appends it |
| Values.JsonRoundTripShaped | ashi_os/tools/scheduler.py:41-65 | a payload whose dictionaries have distinct string keys comes back from the stored JSON unchanged |
| Scheduler.Matching | ashi_os/tools/scheduler.py:48-56 | the filtered rows are no more than the table's |
| Scheduler.Reversed | ashi_os/tools/scheduler.py:50-55 | `ORDER BY id DESC` over increasing ids is the table reversed |
| Scheduler.ReversedMembers | ashi_os/tools/scheduler.py:50-55 | reversing keeps exactly the same rows |
| Scheduler.DueRows | ashi_os/tools/scheduler.py:80 | the due rows are no more than the table's |
| Scheduler.InsertDue | ashi_os/tools/scheduler.py:81 | inserting into the due order adds exactly one row |
| Scheduler.SortDue | ashi_os/tools/scheduler.py:81 | sorting keeps the number of rows |
| Scheduler.MarkRows | ashi_os/tools/scheduler.py:103 | the update keeps the number of rows |
| Scheduler.SchedulerStore.constructor | ashi_os/tools/scheduler.py:8-31 | opening keeps an existing table's rows and id counter (a new database: no rows, counter 0) |
| Scheduler.SchedulerStore.AddJob | ashi_os/tools/scheduler.py:33-44 | appends one pending row with the next id, larger than every earlier id, the payload as JSON gives it back, and created and updated times both `now` |
| Scheduler.SchedulerStore.ListJobs | ashi_os/tools/scheduler.py:46-71 | exactly the rows with the requested status, or all rows when none is requested, newest id first |
| Scheduler.SchedulerStore.DueJobs | ashi_os/tools/scheduler.py:73-97 | exactly the pending rows with `run_at <= now`, ordered by `(run_at, id)` |
| Scheduler.SchedulerStore.MarkJob | ashi_os/tools/scheduler.py:99-106 | the row with that id takes the status and update time; nothing else changes |
| Scheduler.MatchingMembers | ashi_os/tools/scheduler.py:48-56 | a row is listed exactly when it is in the table and matches the filter |
| Scheduler.MatchingIncreasing | ashi_os/tools/scheduler.py:48-56 | filtering keeps ids increasing |
| Scheduler.DueRowsMembers | ashi_os/tools/scheduler.py:80 | a row is due exactly when it is pending and its time has come |
| Scheduler.DueRowsIncreasing | ashi_os/tools/scheduler.py:80 | the due rows keep ids increasing |
| Scheduler.DueBeforeTotal | ashi_os/tools/scheduler.py:81 | of two rows with different ids one comes first in the due order |
| Scheduler.DueBeforeTransitive | ashi_os/tools/scheduler.py:81 | the due order is transitive |
| Scheduler.InsertDueMembers | ashi_os/tools/scheduler.py:81 | insertion keeps the rows and adds the new one |
| Scheduler.InsertDueSorted | ashi_os/tools/scheduler.py:81 | inserting into a sorted sequence keeps it sorted |
| Scheduler.SortDueFacts | ashi_os/tools/scheduler.py:81 | the due sort is sorted by `(run_at, id)` and holds exactly the input rows |
| Scheduler.DueSortedPrefix | ashi_os/tools/scheduler.py:81 | earlier due rows have an earlier or equal time, and on equal times a smaller id |
| Scheduler.MarkUnknownUnchanged | ashi_os/tools/scheduler.py:102-105 | marking an id no row has changes nothing |
| Scheduler.MarkOnlyThatRow | ashi_os/tools/scheduler.py:103 | only the row with that id changes, and only in status and update time, whatever its old status |
| Scheduler.MarkKeepsIds | ashi_os/tools/scheduler.py:103 | marking keeps ids increasing |
| FileSystem.Resolve | ashi_os/tools/filesystem.py:63-67 | a resolved path always lies at or below the workspace root, and a refusal is `PermissionError("Path escapes workspace root.")` |
| FileSystem.EntriesFor | ashi_os/tools/filesystem.py:14-21 | one entry per child name |
| FileSystem.LeastExists | ashi_os/tools/filesystem.py:14 | every non-empty set of names has a least name |
| FileSystem.SortedNames | ashi_os/tools/filesystem.py:14 | `sorted(iterdir())` starts with the least name and continues with the rest, sorted |
| FileSystem.SortedNamesFirst | ashi_os/tools/filesystem.py:14 | the least name comes first |
| FileSystem.SortedStep | ashi_os/tools/filesystem.py:14 | taking the least name moves it from the remaining names to the listed ones |
| FileSystem.EntriesForSnoc | ashi_os/tools/filesystem.py:14-21 | one more name adds its entry at the end |
| FileSystem.SortedNamesFacts | ashi_os/tools/filesystem.py:14 | the sorted names are exactly the set's, in strictly increasing order |
| FileSystem.FileSystemModule.constructor | ashi_os/tools/filesystem.py:5-6 | the module works on the given disk below the given root |
| FileSystem.FileSystemModule.ListDir | ashi_os/tools/filesystem.py:8-22 | answers as `list_dir`: a confinement error, "Directory not found." for a missing path or a file, else the entries in name order |
| FileSystem.FileSystemModule.SortedEntries | ashi_os/tools/filesystem.py:14-21 | the selection loop lists the entries of the children in name order |
| FileSystem.FileSystemModule.ReadFile | ashi_os/tools/filesystem.py:24-39 | answers as `read_file`: "File not found." for a missing path or a directory, else the first `max_chars` characters of the text read in universal-newlines mode and whether more existed |
| FileSystem.FileSystemModule.WriteFile | ashi_os/tools/filesystem.py:41-47 | creates the missing parent directories, then replaces the file's text or appends to it; a parent that is a file, or a target that is a directory, fails as the operating system does |
| FileSystem.FileSystemModule.Mkdir | ashi_os/tools/filesystem.py:49-52 | creates every missing directory down to the path, or fails as `mkdir(parents=True, exist_ok=True)` does |
| FileSystem.FileSystemModule.DeletePath | ashi_os/tools/filesystem.py:54-61 | "Path not found." for a missing path, "Directory deletion is disabled." for a directory, else the file is removed |
| FileSystem.AncestorsAreDirs | ashi_os/tools/filesystem.py:43-51 | every ancestor of a node on a well-formed disk is a directory |
| FileSystem.MakeDirsFacts | ashi_os/tools/filesystem.py:43-51 | `mkdir(parents=True, exist_ok=True)` fails exactly when the path or an ancestor is a file; on success the path is a directory and only its ancestors were added |
| FileSystem.NewPathInside | ashi_os/tools/filesystem.py:63-67 | a path created on the way to a confined target lies below the root |
| FileSystem.WriteKeepsMounted | ashi_os/tools/filesystem.py:41-47 | a write keeps the root a directory and changes nothing outside the workspace |
| FileSystem.MkdirKeepsMounted | ashi_os/tools/filesystem.py:49-52 | a mkdir keeps the root a directory and changes nothing outside the workspace |
| FileSystem.DeleteKeepsMounted | ashi_os/tools/filesystem.py:54-61 | a delete keeps the root a directory and changes nothing outside the workspace |
| FileSystem.EntryNames | ashi_os/tools/filesystem.py:17 | one name per entry |
| FileSystem.ListingSorted | ashi_os/tools/filesystem.py:14-22 | a listing holds each child of the directory exactly once, in strictly increasing name order |
| FileSystem.NormalizeDescends | ashi_os/tools/filesystem.py:64 | without `..`, resolving only descends, dropping empty and `.` components |
| FileSystem.ResolveDescending | ashi_os/tools/filesystem.py:63-67 | a relative path without `..` resolves below the root |
| FileSystem.ResolveParentRefused | ashi_os/tools/filesystem.py:65-66 | `..` from the root is refused with `PermissionError` |
| FileSystem.ResolveAbsoluteOutsideRefused | ashi_os/tools/filesystem.py:64-66 | an absolute path outside the root is refused |
| FileSystem.UniversalNewlines | ashi_os/tools/filesystem.py:30 | `read_text` translates line breaks: the text read is never longer than the stored text |
| FileSystem.NoCarriageReadsBack | ashi_os/tools/filesystem.py:30 | text without a carriage return reads back unchanged |
| FileSystem.NewlinesTranslated | ashi_os/tools/filesystem.py:30 | the text read holds no carriage return, and translating it again changes nothing |
| FileSystem.CarriageReturnsTranslated | ashi_os/tools/filesystem.py:30 | "\r\n" and a lone "\r" each read as one "\n" |
| FileSystem.WriteThenRead | ashi_os/tools/filesystem.py:24-47 | reading back after a write gives the text written (after the earlier text when appending) with its line breaks translated to "\n", untruncated |
| FileSystem.MakeDirsKeepsLonger | ashi_os/tools/filesystem.py:43 | creating directories leaves every longer path as it was |
| FileSystem.MkdirIdempotent | ashi_os/tools/filesystem.py:49-52 | creating a directory twice is the same as creating it once |
| FileSystem.DeleteThenRead | ashi_os/tools/filesystem.py:24-61 | a successful delete removes exactly that file, which then reads as "File not found." |
| FileSystem.DeleteKeepsDirectories | ashi_os/tools/filesystem.py:58-59 | no delete ever removes or changes a directory |
| FileSystem.DeleteRefusedUnchanged | ashi_os/tools/filesystem.py:56-59 | a refused delete leaves the disk as it was |
| FileSystem.ReadTruncation | ashi_os/tools/filesystem.py:34-39 | the content read is the prefix of length `min(max_chars, length)` of the newline-translated text, and `truncated` says exactly whether something was cut off |
| CodeRunner.Screen | ashi_os/tools/code_runner.py:25-41 | what gets through is a non-empty token list with an allowed first program and no blocked token; the only exception raised is `shlex`'s `ValueError` |
| CodeRunner.Run | ashi_os/tools/code_runner.py:24-60 | an `ok` result only comes from a command the checks let through whose process ran to completion with return code 0 |
| CodeRunner.SplitFailureRaised | ashi_os/tools/code_runner.py:29 | a command `shlex.split` cannot split raises its `ValueError` with `shlex`'s own message |
| CodeRunner.LaunchFailureRaised | ashi_os/tools/code_runner.py:43-53 | a process that cannot be started raises its exception, kind and text unchanged |
| CodeRunner.ScreenPermits | ashi_os/tools/code_runner.py:25-41 | a command reaches the launcher exactly when it is not blank, splits into at least one token, holds no blocked token and starts with an allowed program; the launcher then receives the split tokens |
| CodeRunner.RejectionIgnoresLauncher | ashi_os/tools/code_runner.py:25-41 | a command refused by the checks never starts a process: its result does not depend on the launcher |
| CodeRunner.BlankRefused | ashi_os/tools/code_runner.py:25-27 | a blank command answers "command is required." |
| CodeRunner.BlockedBeforePrefix | ashi_os/tools/code_runner.py:33-36 | a blocked token anywhere answers "Command blocked by safety policy.", before the prefix check |
| CodeRunner.RmdirNotBlocked | ashi_os/tools/code_runner.py:19-41 | blocking compares whole tokens: `rmdir x` is refused only as a prefix that is not allowed, with the allow-list attached |
| CodeRunner.AllowedListExact | ashi_os/tools/code_runner.py:7-40 | the list attached to a refused prefix holds exactly the allowed programs, each once |
| CodeRunner.AllowedListAscending | ashi_os/tools/code_runner.py:40 | that list is in ascending order, as `sorted` returns it |
| CodeRunner.TailIsSuffix | ashi_os/tools/code_runner.py:58-59 | `s[-12000:]` is the suffix of length `min(len(s), 12000)` |
| CodeRunner.FinishedResult | ashi_os/tools/code_runner.py:43-60 | a finished process is `ok` exactly when its return code is 0, and each stream keeps at most its last 12000 characters |
| EmailQueue.EmailModule.constructor | ashi_os/tools/email_module.py:16-18 | the module starts on the queue file as found |
| EmailQueue.EmailModule.QueueEmail | ashi_os/tools/email_module.py:20-33 | answers and rewrites the queue file as `queue_email` does, keeping the file a JSON value |
| EmailQueue.EmailModule.ListQueue | ashi_os/tools/email_module.py:35-37 | answers `ok` with every stored item, in order |
| EmailQueue.QueuedItemsShaped | ashi_os/tools/email_module.py:30-32 | the list rewritten after an append holds only JSON values |
| EmailQueue.RecordShaped | ashi_os/tools/email_module.py:24-29 | a new record is a JSON object of four string fields |
| EmailQueue.LoadFallbacks | ashi_os/tools/email_module.py:39-48 | a missing file, invalid JSON or a non-list reads as the empty queue |
| EmailQueue.InvalidRecipientUnchanged | ashi_os/tools/email_module.py:21-22 | a recipient without `@` is refused with "Invalid recipient email." and the file is not touched |
| EmailQueue.QueueAppends | ashi_os/tools/email_module.py:24-33 | a queued email appends exactly one record after the earlier ones and reports the new length |
| EmailQueue.RecordFields | ashi_os/tools/email_module.py:24-29 | the stored recipient and subject are stripped, the body is verbatim and the timestamp is the clock's reading |
| Audit.AuditLog.constructor | ashi_os/logging/audit_log.py:10-11 | the log starts empty |
| Audit.AuditLog.Write | ashi_os/logging/audit_log.py:13-20 | appends one record with the time, the event and the redacted payload; earlier lines are untouched |
| Audit.Logged | ashi_os/logging/audit_log.py:17 | the logged payload has every key in its place, each with its value's `str` text redacted |
| Audit.LoggedHoldsNoSecret | ashi_os/logging/audit_log.py:17 | no logged payload value holds an `sk-`, `ghp_` or `AIza` secret, whatever the payload held |
| Executor.ToolExecutor.constructor | ashi_os/tools/executor.py:15-23 | the executor drives the given file, e-mail, scheduler and audit modules |
| Executor.ToolExecutor.Execute | ashi_os/tools/executor.py:35-60 | answers and changes the modules as `execute` does, given the splitter's, launcher's and wrappers' outcomes: the two gates, the dispatch with exceptions captured, then one `tool.executed` record |
| Executor.ToolExecutor.RunDueJobs | ashi_os/tools/executor.py:62-83 | replays the due jobs in order, marking each and sorting it into `ran` or `failed`, as `run_due_jobs` does |
| Executor.ToolExecutor.RunJob | ashi_os/tools/executor.py:68-81 | runs one job's stored call and marks the job `done` or `failed` by its answer |
| Executor.ToolExecutor.ExecuteInner | ashi_os/tools/executor.py:85-147 | dispatches every tool/action pair as `_execute_inner`, unknown pairs answered as unsupported |
| Executor.ToolExecutor.FilesystemAction | ashi_os/tools/executor.py:92-106 | the filesystem branch: each action reads its parameters with their defaults and calls the matching operation |
| Executor.ToolExecutor.EmailAction | ashi_os/tools/executor.py:117-125 | the e-mail branch: `queue` with its three parameters, `list` |
| Executor.ToolExecutor.SchedulerAction | ashi_os/tools/executor.py:127-143 | the scheduler branch: `create` stores the call read from the parameters, `list` filters by a truthy status |
| ExecutorProperties.DeleteNeedsConfirm | ashi_os/tools/executor.py:36-37 | an unconfirmed delete is refused as elevated and nothing changes, not even the audit log |
| ExecutorProperties.DestructiveNeedsConfirm | ashi_os/tools/executor.py:38-41 | an unconfirmed destructive command is refused as elevated and nothing changes |
| ExecutorProperties.GateOnlyUnconfirmed | ashi_os/tools/executor.py:36-41 | the gates stop a call exactly when it is unconfirmed and is a delete or a destructive command |
| ExecutorProperties.InnerKeepsLog | ashi_os/tools/executor.py:85-147 | dispatch writes no audit record itself, except through the replay of due jobs |
| ExecutorProperties.DispatchedCallAudited | ashi_os/tools/executor.py:43-60 | a call past the gates is always answered, an exception as `ok = false`, and its `tool.executed` record carrying the answer's `ok` is the last one logged |
| ExecutorProperties.AuditedOk | ashi_os/tools/executor.py:50-59 | the `ok` entry of the `tool.executed` record is logged as `True` exactly when the answer was ok |
| ExecutorProperties.CatalogMatchesDispatch | ashi_os/tools/executor.py:25-147 | the catalog lists exactly the pairs that dispatch serves |
| ExecutorProperties.UnsupportedAnswered | ashi_os/tools/executor.py:147 | a pair not in the catalog answers "Unsupported tool/action: tool/action" and adds only its audit record |
| ExecutorProperties.EscapingPathRefused | ashi_os/tools/executor.py:45-106 | a filesystem path outside the workspace is refused with the `PermissionError`'s text and only the audit record is added |
| ExecutorProperties.FilesystemEscapeFails | ashi_os/tools/executor.py:92-106 | every filesystem action on a path outside the workspace raises the `PermissionError` and leaves the state unchanged |
| ExecutorProperties.CreateStoresJob | ashi_os/tools/executor.py:128-139 | `scheduler`/`create` stores one pending job with the next id, its payload the call read from the parameters; a blank `run_at` makes it due at once |
| ExecutorProperties.CreateAppends | ashi_os/tools/executor.py:128-139 | `create` appends exactly one job and changes nothing else |
| ExecutorProperties.PayloadShaped | ashi_os/tools/executor.py:132-137 | the stored payload is a JSON value when its parameters are |
| ExecutorProperties.StoredCallReplayed | ashi_os/tools/executor.py:68-138 | a stored payload is read back by the replay as the very call that was stored |
| ExecutorProperties.PayloadFields | ashi_os/tools/executor.py:132-137 | the payload's four keys give back the four arguments |
| ExecutorProperties.SplitOutcomesSnoc | ashi_os/tools/executor.py:76-81 | the next job's outcome is appended to `ran` when its result is ok and to `failed` otherwise, and to nothing else |
| ExecutorProperties.OkOutcomesOk | ashi_os/tools/executor.py:76-78 | every outcome in `ran` has an ok result |
| ExecutorProperties.FailedOutcomesFailed | ashi_os/tools/executor.py:79-81 | every outcome in `failed` has a result that is not ok |
| ExecutorProperties.SplitOutcomesExact | ashi_os/tools/executor.py:76-81 | every outcome lands in exactly one of `ran` and `failed` (as multisets they add up to all outcomes) |
| ExecutorProperties.RunDueFromSorts | ashi_os/tools/executor.py:67-83 | the replay loop produces one outcome per job, in job order, and reports `processed` as the job count with `ran` and `failed` the ok and not-ok outcomes in that order |
| ExecutorProperties.RunDueReport | ashi_os/tools/executor.py:62-83 | a completed `run_due_jobs` replays the due jobs (exactly the pending rows whose time has come, in `(run_at, id)` order) once each, in that order, and reports them split by `ok` into `ran` and `failed`, each outcome in exactly one list |
| ExecutorProperties.RunDueExhausted | ashi_os/tools/executor.py:47-145 | when the nesting bound is exhausted the replay fails and the executor answers with the captured error |
| ExecutorProperties.JobStepMarks | ashi_os/tools/executor.py:76-81 | a replayed job is marked `done` when its call answered `ok`, `failed` otherwise, stamped with the current time |
| ExecutorProperties.WriteDispatched | ashi_os/tools/executor.py:97-100 | `write` and `append` change the disk exactly as `write_file` does and answer with its result |
| ExecutorProperties.WriteCall | ashi_os/tools/executor.py:97-100 | the filesystem branch of `write`/`append` is `write_file` with the `path` and `content` parameters |
| ExecutorProperties.ReadDispatched | ashi_os/tools/executor.py:95-96 | `read` answers with `read_file`'s result and leaves the disk as it was |
| ExecutorProperties.CodeDispatched | ashi_os/tools/executor.py:114-115 | `code`/`run` with a command the gate lets through answers with the runner's result, an exception captured, and leaves the disk as it was |
| ExecutorProperties.RunFailuresAnswered | ashi_os/tools/executor.py:43-48 | a launch `PermissionError` is answered with its own text, any other launch failure and a `shlex` `ValueError` as an unhandled tool failure |
| ExecutionAgent.StepActions | ashi_os/agents/execution_agent.py:10-37 | each plan step yields at most one call, read from its stripped task text |
| ExecutionAgent.ExecutionAgent.constructor | ashi_os/agents/execution_agent.py:5-6 | the agent drives the given tool executor |
| ExecutionAgent.ExecutionAgent.ProposeActions | ashi_os/agents/execution_agent.py:8-39 | the loop returns the calls of the steps that yield one, in step order |
| ExecutionAgent.ExecutionAgent.Execute | ashi_os/agents/execution_agent.py:41-52 | runs every call through the executor in order with the shared `confirm`, leaving the state that running them one after another leaves |
| ExecutionAgent.ProposedFollowsSteps | ashi_os/agents/execution_agent.py:8-39 | the `k`-th proposed call is the call of the `k`-th step that yields one; positions increase and no step with a call is skipped |
| ExecutionAgent.ActionForSome | ashi_os/agents/execution_agent.py:14-37 | a task yields a call exactly when its lower-cased text starts with one of the eight prefixes, and a `write file` task also holds `::` |
| ExecutionAgent.WriteSplitsAtFirstSeparator | ashi_os/agents/execution_agent.py:26-35 | a write splits at the first `::`: the path is the stripped text before it and the content everything after it, verbatim |
| ExecutionAgent.ListTasksListRoot | ashi_os/agents/execution_agent.py:20-21 | `list files` and `list dir` tasks list `.` whatever follows |
| ExecutionAgent.ExecutedAllNumbered | ashi_os/agents/execution_agent.py:43-52 | one record per call, numbered from 1 in order, each carrying its own call |
| ValidationAgent.Run | ashi_os/agents/validation_agent.py:3-31 | the counting loop gives the dry-run verdict, or the success and failure counts, the failure messages and the summary of the records |
| ValidationAgent.DryRunIgnoresRecords | ashi_os/agents/validation_agent.py:4-10 | in dry-run mode the verdict is `ok` with zero counts, whatever the records |
| ValidationAgent.CountsPartition | ashi_os/agents/validation_agent.py:16-21 | every record is counted once, as a success or as a failure |
| ValidationAgent.FailedRecordsExact | ashi_os/agents/validation_agent.py:18-22 | the failures counted are exactly the records whose `ok` is false |
| ValidationAgent.ErrorsFollowFailures | ashi_os/agents/validation_agent.py:22 | the errors are the failed records' messages in order, "Unknown failure" where none was given |
| ValidationAgent.OkIffAllSucceeded | ashi_os/agents/validation_agent.py:26 | with auto-execution the verdict is `ok` exactly when every call succeeded |
| ValidationAgent.SummaryCounts | ashi_os/agents/validation_agent.py:24 | the summary gives the number of records, then the successes and the failures |
| SupervisorAgent.Summarize | ashi_os/agents/supervisor_agent.py:4-15 | the summary opens with "Objective analyzed. Plan has " exactly when no confirmation is required, so a report is never mistaken for the paused notice |
| SupervisorAgent.PausedNamesObjective | ashi_os/agents/supervisor_agent.py:4-8 | a paused summary names the objective between the fixed lead and tail, whatever the plan, risk and validation |
| SupervisorAgent.ReportEndsWithValidation | ashi_os/agents/supervisor_agent.py:10-15 | a report gives the step count, then the risk level, and ends with the validation summary |
| SupervisorAgent.MissingKeysDefault | ashi_os/agents/supervisor_agent.py:10-14 | missing keys read as no steps, level "unknown" and an empty validation summary |
| SupervisorAgent.ReportDistinguishesCounts | ashi_os/agents/supervisor_agent.py:10-13 | reports of plans with different step counts differ |
| Coordinator.AgentCoordinator.constructor | ashi_os/agents/coordinator.py:12-32 | the coordinator starts with the given confirmation manager and execution agent and no reflections |
| Coordinator.AgentCoordinator.Status | ashi_os/agents/coordinator.py:138-142 | names the five agents and the `token_challenge` confirmation model |
| Coordinator.AgentCoordinator.Run | ashi_os/agents/coordinator.py:34-136 | reports the restored objective with its plan and risk, and answers and changes every module as `run` does |
| Coordinator.AgentCoordinator.Respond | ashi_os/agents/coordinator.py:51-136 | from the objective, plan and risk, either stops at the gate or proceeds |
| Coordinator.AgentCoordinator.Prepare | ashi_os/agents/coordinator.py:41-49 | the confirmation step, then the plan and risk of the objective it leaves |
| Coordinator.AgentCoordinator.RestoreObjective | ashi_os/agents/coordinator.py:41-46 | a non-empty token is consumed and, when it matches, brings back the stored objective |
| Coordinator.AgentCoordinator.Pause | ashi_os/agents/coordinator.py:51-82 | reuses the session's pending token or issues a fresh one, writes the gate event and reports the paused run |
| Coordinator.AgentCoordinator.Proceed | ashi_os/agents/coordinator.py:84-136 | researches, proposes, runs when asked, validates, stores a reflection, summarises and writes the completion event |
| Coordinator.AgentCoordinator.RunProposed | ashi_os/agents/coordinator.py:87-93 | the proposed calls run only with auto-execution and only when there are any |
| CoordinatorProperties.RestoredIff | ashi_os/agents/coordinator.py:41-46 | a token confirms exactly when it is non-empty and, stripped, equals the session's pending token; then the stored objective returns and the entry is dropped, otherwise nothing changes |
| CoordinatorProperties.TokenStripsToItself | ashi_os/brain/confirmation.py:18 | a token of the random source's shape is unchanged by stripping |
| CoordinatorProperties.GateThenConfirm | ashi_os/agents/coordinator.py:41-53 | the token the gate hands out, given back to the same session, confirms it with the stored objective and consumes the entry |
| CoordinatorProperties.PausedOutcomeFacts | ashi_os/agents/coordinator.py:51-82 | a paused run reports a token and runs nothing; an existing token is reused and its objective kept; only the gate event is logged |
| CoordinatorProperties.ConfirmedNeverGated | ashi_os/agents/coordinator.py:51 | a confirmed run is never stopped at the gate, whatever its risk |
| CoordinatorProperties.HighRiskObjectivePauses | ashi_os/agents/coordinator.py:48-51 | an unconfirmed objective holding a high-risk term is rated high and stopped at the gate |
| CoordinatorProperties.PausedRunResumes | ashi_os/agents/coordinator.py:41-82 | the next run of a paused session, given the reported token, is confirmed with the stored objective and passes the gate |
| CoordinatorProperties.ProceededRunsProposed | ashi_os/agents/coordinator.py:84-136 | past the gate the report proposes the plan's calls; with auto-execution each runs once in order and is counted once; without it nothing runs |
| CoordinatorProperties.ProceededAutoRuns | ashi_os/agents/coordinator.py:85-95 | with auto-execution every proposed call gets one record, numbered from 1 in order, and each is counted once as a success or a failure |
| CoordinatorProperties.NonEmptyFacts | ashi_os/agents/research_agent.py:11 | the research facts are exactly the non-empty hit texts |
| Orchestrator.StepLines | ashi_os/brain/orchestrator.py:101 | one line per plan step, reading `id. task` |
| Orchestrator.RequestBody | ashi_os/brain/orchestrator.py:98-106 | the request text starts with the objective section and ends with the request marker followed by the message itself |
| Orchestrator.ChatOrchestrator.constructor | ashi_os/brain/orchestrator.py:11-28 | the orchestrator starts with no sessions, no memories and a fresh confirmation manager |
| Orchestrator.ChatOrchestrator.SessionHistory | ashi_os/brain/orchestrator.py:140-141 | the session's turns, and `[]` for a session never seen |
| Orchestrator.ChatOrchestrator.Chat | ashi_os/brain/orchestrator.py:30-138 | the reply and every state change are those `chat` gives: the confirmation step, then the policy reply or the two gates |
| Orchestrator.ChatOrchestrator.Handle | ashi_os/brain/orchestrator.py:45-138 | the destructive gate, the plan and risk, the risk gate, then the answer |
| Orchestrator.ChatOrchestrator.Block | ashi_os/brain/orchestrator.py:45-65 | a destructive message gets a new token, the block is logged and the fixed high-risk reply is returned |
| Orchestrator.ChatOrchestrator.Gate | ashi_os/brain/orchestrator.py:70-93 | an unconfirmed message needing confirmation gets a new token, the gate is logged and the plan and risk are returned |
| Orchestrator.ChatOrchestrator.Complete | ashi_os/brain/orchestrator.py:95-138 | the responder answers from the request text and the history; the turn is appended, the message maybe remembered and the completion logged |
| Orchestrator.InvalidTokenPolicy | ashi_os/brain/orchestrator.py:31-41 | a `confirm` reply with the wrong token gets the policy reply with no token and changes nothing |
| Orchestrator.PolicyReplyIff | ashi_os/brain/orchestrator.py:31-41 | the policy reply is given exactly when the confirmation step accepts a reply but hands back no message |
| Orchestrator.ConfirmedReplays | ashi_os/brain/orchestrator.py:31-43 | a `confirm <token>` reply with the pending token removes the entry and sends the stored message, confirmed, through the gates |
| Orchestrator.UnconfirmedPassesAsIs | ashi_os/brain/orchestrator.py:31-45 | any other message goes through the gates as itself, unconfirmed |
| Orchestrator.BlockedFacts | ashi_os/brain/orchestrator.py:45-65 | a block leaves a token in the reply and one `blocked.destructive` record, and records no turn and no memory |
| Orchestrator.GatedFacts | ashi_os/brain/orchestrator.py:70-93 | the risk gate leaves a token in the reply and one `chat.confirmation_required` record, and records no turn and no memory |
| Orchestrator.CompletedFacts | ashi_os/brain/orchestrator.py:95-138 | past both gates the session's history grows by the message then the reply, other sessions and pending tokens keep theirs, and one `chat.completed` record is logged |
| Orchestrator.DestructiveAlwaysBlocked | ashi_os/brain/orchestrator.py:45 | a destructive message is blocked whether or not it was confirmed |
| Orchestrator.PastBothGates | ashi_os/brain/orchestrator.py:45-138 | a message that is not destructive and is confirmed or needs no confirmation reaches the responder |
| Orchestrator.ConfirmedDestructiveBlockedAgain | ashi_os/brain/orchestrator.py:31-65 | confirming a destructive message blocks it again under a new token, so it never reaches the responder |
| Orchestrator.HighRiskGated | ashi_os/brain/orchestrator.py:67-93 | an unconfirmed message holding a high-risk term, and not destructive, stops at the gate with its plan and risk |
| Orchestrator.BlankNotGated | ashi_os/brain/orchestrator.py:67-70 | a blank message never needs confirmation |
| Orchestrator.HandledFacts | ashi_os/brain/orchestrator.py:45-138 | past the confirmation step a chat logs exactly one record, records a turn exactly when no confirmation is needed, and a memory exactly when it is also to be remembered |
| Orchestrator.ChatCases | ashi_os/brain/orchestrator.py:30-138 | a chat either gives the policy reply, touching only the pending table, or goes through the gates |
| Orchestrator.MemoryRule | ashi_os/brain/orchestrator.py:114-115 | the message is remembered exactly when the chat completes, memory on chat is enabled and the stripped message is longer than eight characters |
| Orchestrator.OneRecordPerChat | ashi_os/brain/orchestrator.py:51-128 | a chat writes at most one audit record, none for the policy reply, and its event is the completion exactly when no confirmation is needed |
| Orchestrator.ConfirmationIffNoTurn | ashi_os/brain/orchestrator.py:70-138 | a reply needs confirmation exactly when no turn was recorded |
| Orchestrator.GateThenConfirmCompletes | ashi_os/brain/orchestrator.py:31-138 | a gated message's token, sent back as `confirm <token>` in any letter case, completes that message without asking again |
| WakeWord.From | ashi_os/voice/wake_word.py:15 | Python's `s[i:]`: the suffix from `i`, empty past the end |
| WakeWord.CommandFrom | ashi_os/voice/wake_word.py:15 | the command is no longer than the text and neither starts nor ends with a space or trimmed punctuation |
| WakeWord.DetectSkipping | ashi_os/voice/wake_word.py:1-15 | the phrase is heard exactly when the stripped text is not blank and the phrase is blank or occurs, in any letter case, in the text; unheard gives `(False, "")`, a blank phrase the whole stripped text, and the command is never longer than the text |
| WakeWord.DetectAsWritten | ashi_os/voice/wake_word.py:1-16 | `detect_wake_phrase` as written: heard under the same condition, `(False, "")` when not |
| WakeWord.Detect | ashi_os/voice/wake_word.py:1-16 | the intended detection: heard under the same condition, `(False, "")` when not, the whole stripped text for a blank phrase |
| WakeWord.DetectFound | ashi_os/voice/wake_word.py:11-16 | where the phrase is found, the command is read from the match on |
| WakeWord.PhraseThenCommand | ashi_os/voice/wake_word.py:1-16 | the phrase, a space and a command are heard, giving back exactly that command |
| WakeWord.PaddedPhraseDropsLetter | ashi_os/voice/wake_word.py:7-15 | with a phrase configured with surrounding spaces, the code as written drops the command's first letter, while the intended detection keeps it |
| Router.WordEnd | aashi/pipeline/router.py:38 | the first word of a text ends at its first whitespace character |
| Router.SplitMax2 | aashi/pipeline/router.py:38 | `split(maxsplit=2)` gives at most three parts |
| Router.Route | aashi/pipeline/router.py:5-59 | every line gets one of the eighteen intents |
| Router.Distinguish | aashi/pipeline/router.py:18-57 | the prefixes differ at fixed offsets, so the order of the rules decides only where one prefix extends another |
| Router.ExactKeyword | aashi/pipeline/router.py:8-44 | an exact keyword, in any letter case, gives its intent without arguments |
| Router.ChatIffUnclaimed | aashi/pipeline/router.py:59 | a line is chat exactly when no rule claims it, and carries the line unchanged |
| Router.SaveNote | aashi/pipeline/router.py:18-19 | `save ` gives the rest of the line, stripped, in its original case |
| Router.VoicePrecedence | aashi/pipeline/router.py:23-30 | `voice on` and `voice off` come first, then `voice mode ` with its argument lower-cased, then `voice ` |
| Router.FileArguments | aashi/pipeline/router.py:34-48 | `listen ` and `voicefile ` carry the rest of the line, stripped, as a file name |
| Router.SystemActionKeepsText | aashi/pipeline/router.py:50-57 | the shortcut prefixes hand the whole original line to system control |
| Router.SplitThree | aashi/pipeline/router.py:38 | `split(maxsplit=2)` of two words and a rest gives them back |
| Router.SplitTwo | aashi/pipeline/router.py:38 | `split(maxsplit=2)` of two words gives them back |
| Router.CloneTrain | aashi/pipeline/router.py:37-43 | `clonevoice file name` gives the file name and the stripped voice name |
| Router.CloneTrainDefaultName | aashi/pipeline/router.py:37-43 | `clonevoice file` alone gives the default voice name |
| EnvLoader.ParseLine | aashi/env_loader.py:20-28 | a line defines a variable only with a non-empty stripped key holding no `=` |
| EnvLoader.Environment.constructor | aashi/env_loader.py:30 | the environment starts as given |
| EnvLoader.Environment.LoadFile | aashi/env_loader.py:10-30 | a missing or unreadable file changes nothing, an undecodable one raises, else the lines are applied |
| EnvLoader.Environment.LoadLines | aashi/env_loader.py:19-30 | the loop applies each line in order and stops at the first exception |
| EnvLoader.Environment.LoadLocalFiles | aashi/env_loader.py:5-7 | `.env` then `.env.local`, the second skipped if the first raised |
| EnvLoader.AppliedStep | aashi/env_loader.py:19-30 | loading one more line applies its step unless loading stopped |
| EnvLoader.StoppedStaysStopped | aashi/env_loader.py:19-30 | once loading has stopped, later lines change nothing |
| EnvLoader.ExistingKept | aashi/env_loader.py:30 | a variable already set is never overwritten and none is removed |
| EnvLoader.FirstDefinitionWins | aashi/env_loader.py:19-30 | a variable not set before is set exactly when some line defines it, to the first such line's value |
| EnvLoader.DotEnvFirst | aashi/env_loader.py:5-30 | a variable defined in `.env` keeps that value whatever `.env.local` says |
| EnvLoader.SkippedLines | aashi/env_loader.py:20-22 | blank lines, comments and lines without `=` define nothing |
| EnvLoader.SplitAtFirstEquals | aashi/env_loader.py:24-26 | `KEY=value` defines `KEY` as the unquoted value, split at the first `=` only |
| MemoryStore.NotesOf | aashi/memory.py:63-67 | one string per stored note, none when the entry is not a list |
| MemoryStore.ModeOf | aashi/memory.py:89-91 | the mode reads as "system" or "file" |
| MemoryStore.ModeIn | aashi/memory.py:90-91 | the mode read from voice settings is "system" or "file" |
| MemoryStore.StrList | aashi/memory.py:67-72 | a list holding the strings in order |
| MemoryStore.Store.FromData | aashi/memory.py:18-21 | a store over memory in normal shape, not yet written |
| MemoryStore.Store.Open | aashi/memory.py:18-40 | the store over the file as read, or the exception normalizing raised |
| MemoryStore.Store.Save | aashi/memory.py:58-61 | saving a valid memory writes it out unchanged |
| MemoryStore.Store.Persist | aashi/memory.py:58-61 | a save after a change normalizes and writes the data |
| MemoryStore.Store.AddNote | aashi/memory.py:69-73 | the note goes after the existing ones and the memory is written |
| MemoryStore.Store.SetVoiceEnabled | aashi/memory.py:78-80 | sets the flag, normalizes and writes |
| MemoryStore.Store.SetVoiceName | aashi/memory.py:85-87 | sets the name, normalizes and writes |
| MemoryStore.Store.SetVoiceMode | aashi/memory.py:93-95 | sets the mode, normalizes and writes; an unknown mode is stored as "system" |
| MemoryStore.Store.SetVoiceFile | aashi/memory.py:100-102 | sets the file, normalizes and writes |
| MemoryStore.GetPresent | aashi/memory.py:76-98 | with the key present, the default given to `get` does not matter |
| MemoryStore.GetAbsent | aashi/memory.py:76-98 | without the key, `get` gives the default |
| MemoryStore.AppendFacts | aashi/memory.py:43-53 | adding a new key keeps every existing key's value |
| MemoryStore.SetDefaultFacts | aashi/memory.py:43-53 | `setdefault` adds its key and keeps every value already there |
| MemoryStore.PutHasKey | aashi/memory.py:79-101 | assigning a key adds that key and no other |
| MemoryStore.PutSame | aashi/memory.py:56 | assigning a key its own value changes nothing |
| MemoryStore.PutPut | aashi/memory.py:56 | a second assignment to a key replaces the first |
| MemoryStore.PutGet | aashi/memory.py:79-101 | the value under any key after an assignment |
| MemoryStore.DefaultVoiceFields | aashi/memory.py:8-13 | the default voice settings: off, "Samantha", "system", no file |
| MemoryStore.DefaultStateFields | aashi/memory.py:6-14 | the default memory holds no notes and the default voice settings |
| MemoryStore.DefaultNormal | aashi/memory.py:6-14 | the default memory is in normal shape |
| MemoryStore.DefaultAccessors | aashi/memory.py:6-98 | the default memory reads as no notes, voice off, and the default name, mode and file |
| MemoryStore.KeysDistinct | aashi/memory.py:6-14 | the keys the memory uses are distinct |
| MemoryStore.VoiceDefaultsAt | aashi/memory.py:50-53 | defaulting adds exactly the four fields and keeps every stored value |
| MemoryStore.VoiceDefaultsComplete | aashi/memory.py:50-53 | complete voice settings are left as they are |
| MemoryStore.VoiceSettingsAt | aashi/memory.py:45-53 | the settings normalized hold the four fields and every stored field's value |
| MemoryStore.SettledVoiceFacts | aashi/memory.py:55-56 | settling the mode makes it "system" or "file" and keeps every other field |
| MemoryStore.NormalizeFixesNormal | aashi/memory.py:42-56 | normalizing memory in normal shape changes nothing |
| MemoryStore.NormalizeFailsIff | aashi/memory.py:55 | normalizing raises exactly when the stored mode is a list or a dictionary, naming its type |
| MemoryStore.NormalizeMakesNormal | aashi/memory.py:42-56 | normalizing without error leaves memory in normal shape |
| MemoryStore.NormalizeIdempotent | aashi/memory.py:42-56 | normalizing twice is normalizing once |
| MemoryStore.NormalizeKeeps | aashi/memory.py:42-56 | normalizing keeps every other top-level entry and notes already present |
| MemoryStore.LoadedNormal | aashi/memory.py:23-40 | loading gives memory in normal shape unless normalizing raised; a missing, unreadable or non-object file gives the defaults |
| MemoryStore.WithVoiceFieldShape | aashi/memory.py:79-101 | setting a field keeps the four fields and the notes |
| MemoryStore.SetFieldEffect | aashi/memory.py:55-102 | setting one field and normalizing raises nothing and changes that field alone, an unknown mode becoming "system" |
| MemoryStore.VoiceAfterSet | aashi/memory.py:79-101 | after a set the voice settings are the stored ones with that field assigned |
| MemoryStore.EnabledNameAfterPut | aashi/memory.py:76-83 | the flag and name read differently only when that field was assigned |
| MemoryStore.ModeFileAfterPut | aashi/memory.py:90-98 | the mode and file read differently only when that field was assigned |
| MemoryStore.AccessorsAfterSet | aashi/memory.py:75-102 | after a set its accessor reads the new value and the others read as before |
| MemoryStore.SetterReadsBack | aashi/memory.py:75-102 | each setter reads back, the memory stays in normal shape and the rest reads as before |
| MemoryStore.AddNoteEffect | aashi/memory.py:69-72 | the notes read back with the new one last |
| MemoryStore.NoteKeepsVoice | aashi/memory.py:69-73 | adding a note keeps memory in normal shape and every voice setting |
| Text.Find | ashi_os/voice/wake_word.py:11 | `str.find`: the first offset where the text occurs, and -1 exactly when it does not occur |
| Text.StripEmptyIff | ashi_os/brain/planning.py:73 | a stripped text is empty exactly when every character is one that is stripped |
| Text.SplitOnParts | ashi_os/brain/planning.py:73 | no part of `split(",")` holds a comma |
| Text.SplitJoin | ashi_os/brain/planning.py:73 | joining the parts of a split with the separator gives the text back |
| Text.LowerIsLower | ashi_os/core/security.py:19 | lower-casing gives lower-case text, and doing it twice is doing it once |
| Text.NatToStringRoundTrip | ashi_os/agents/validation_agent.py:24 | a count rendered in decimal reads back as that count |
| Text.NatToStringInjective | ashi_os/agents/validation_agent.py:24 | different counts render differently |

## Left out

- Web front ends, the desktop GUI, speech, audio and threads are not part of this model. That covers `ashi_os/api`, `aashi/gui.py`, `main.py`, `ashi_os/voice` apart from `wake_word.py`, and `aashi/voice*.py`.
- The language-model router, the context builder and the vector memory service are not part of this model. The orchestrator takes one responder function of the session, the request text and the history; a responder that raises is not modelled. The memory service is a list of the `(session, text)` pairs handed to it, without their metadata. The research agent's hits and the memory agent's new id are parameters.
- `secrets.token_hex(4)` is a parameter constrained to eight lower-case hexadecimal characters. Tokens are not assumed distinct across sessions.
- `datetime.now` is a parameter. One reading stands for every reading a single call makes.
- System control and browser calls are one environment function from `(tool, action, argument)` to a result, because they only start external programs.
- The code runner's subprocess is a launcher parameter giving a return code and the two output streams, a timeout, or an exception of a given kind and text. `shlex.split` is a splitter parameter giving the tokens or the text of its `ValueError`. The working directory is not modelled.
- `Path.resolve` is modelled lexically: `.` and `..` are resolved, but symbolic links are not followed.
- File contents are text. The SQLite table, the JSON files and the audit file are in-memory values. The JSON round trip of a stored payload is modelled for `None`, booleans, integers, strings, lists and dictionaries, whose keys become strings. Floats are not modelled.
- The audit log keeps each record as its time, event and redacted payload. The JSON line written to the file is not rendered.
- `str.lower` is modelled for ASCII letters only. `str.strip` uses Python's whitespace set.
- The planner's regular expression `\b(?:then|and then|after that|next|finally|and)\b` is a hand-written splitter. It treats ASCII letters, digits and `_` as word characters; Python's `\b` is Unicode-aware.
- Executor.ToolExecutor.Execute: a due job that itself asks for `scheduler`/`run_due` recurses. A `fuel` bound stands for Python's stack depth. When the bound runs out, the replay fails as Python's `RecursionError` does, and the executor answers "Unhandled tool failure: maximum recursion depth exceeded".
- Executor.ToolExecutor.SchedulerAction: `scheduler`/`create` answers with the new job's id. The `status: pending` that `add_job` also returns is implied, not carried.
- FileSystem.FileSystemModule.ReadFile: file contents are text, so the "File is not UTF-8 text." answer for undecodable bytes is not modelled.
- Scheduler.SchedulerStore.AddJob returns the new id rather than the `{"id", "status"}` dictionary. The status is always `pending`, which the method's contract states for the stored row.
- EnvLoader.Environment.LoadFile takes the file's lines as `splitlines` gives them, so line splitting itself is not modelled.
- EnvLoader.SplitAtFirstEquals is stated for values that do not end in whitespace, which stripping would remove.
- MemoryStore.Store.Save records the data written instead of writing a file. An `OSError` while writing is not modelled.
- The e-mail module's constructor creates the queue file's parent directory. That side effect is not modelled.
- The e-mail queue file is `data/email_queue.json` inside the workspace, but the model keeps the queue apart from the workspace tree. A filesystem `write`, `append` or `delete` of that file does not change the queue, and a filesystem `read` of it does not show queued e-mails. The JSON text `json.dumps(items, indent=2)` writes is not rendered.
- Values.StrRepr and Values.StrToInt follow Python on ASCII text only. `repr` copies every non-ASCII character unchanged, while Python escapes the non-printable ones such as `\xa0` and `\u2028`. `int()` accepts only ASCII digits, while Python accepts every Unicode decimal digit. Python's tables of printable characters and decimal digits are not modelled.
- `ashi_os/core/config.py`, `aashi/config.py`, `aashi/assistant.py` and the pipeline wrappers other than the router are not part of this model.

## Findings

| source | as written | input that shows it | evidently intended | confidence | as-written member | corrected member |
|---|---|---|---|---|---|---|
| ashi_os/voice/wake_word.py:15 | the command starts `len(phrase)` characters after the match, counting the whitespace around the configured phrase that the search stripped away | phrase `" hey aashi "`, text `"hey aashi open notes"`: the command comes out as `"pen notes"` | skip the length of the stripped phrase, so the command is `"open notes"` | not executed | WakeWord.DetectAsWritten | WakeWord.Detect |
