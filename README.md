# Task timing trackers of ansible-diag, modelled in Dafny

This project models the two stateful callback plugins of ansible-diag. Both are
driven by the ordered stream of lifecycle notifications that `ansible-playbook`
sends to its callbacks.

- `debug_log_json` keeps one "current task" slot and a per-host ledger.
  A task-start fills the slot. An ok, failed or unreachable outcome turns the slot
  into a task record (role name, role path, task name, the result, and its parsed
  `start` and `end` timestamps). The record is appended to `_hosts[host]` and the
  slot is emptied. Every other notification only logs.
- `profile_timeline` keeps `stats` (task name → `[start, elapsed]`) and `current`.
  Starting a task closes the open one (elapsed = now − start) and opens the new one.
  At `playbook_on_stats` it closes the last task and builds two views: a timeline
  sorted by start time, and the 15 longest tasks.

Modules:

- `Wrappers` (`wrappers.dfy`): `Option` and `Result`.
- `Timestamp` (`timestamp.dfy`): the `YYYY-MM-DD HH:MM:SS.ffffff` parser behind
  `_get_datetime`, the matching formatter, and their round trip.
- `DebugLog` (`debug_log.dfy`): the ledger as pure state functions (`Deliver`,
  `Step`, `Run`, `Emitted`), lemmas about them, and the class `DebugLogJson`. Its
  `curTask` and `hosts` fields are updated by methods whose postconditions equal `Step`.
- `ProfileTimeline` (`profile_timeline.dfy`): the profiler state functions
  (`CloseCurrent`, `Recorded`, `RunEvents`), a stable insertion sort standing for
  Python's `sorted`, the timeline and top-15 views, `SecondsToHms`, and the class
  `CallbackModule` with fields `stats`, `order` and `current`.

From Python 3.7 on, dictionaries yield their items in first-insertion order, and
assigning to an existing key keeps its position. The profiler's `order` field holds that order
explicitly, so that `stats.items()` is a sequence.

The wall clock is an integer parameter `now`. A handler exception is a
`HandlerError` value. The engine reports an exception raised in a callback as a
warning and keeps going; `Step` models this by keeping the old state.

What the code does, and therefore what the model does:

- Skipped outcomes produce no record.
- An unreadable timestamp raises before anything is appended, so no record is kept.
- The code has no rollup tree, no async job correlation and no duration checks.
- The profiler's views are built over its own `stats` dict, where a repeated task
  name overwrites the earlier entry. They are not built over ledger records.

## Model

| member | source | states |
|---|---|---|
| `Timestamp.Parse` | plugins/v2_callback/debug_log_json/debug_log_json.py:119-121 | an accepted string has the fixed shape and its fields are in the ranges `datetime` allows (years 1..9999, real calendar days, hour < 24, minute and second < 60, microsecond < 10^6) |
| `Timestamp.ParseFormat` | plugins/v2_callback/debug_log_json/debug_log_json.py:119-121 | formatting a valid timestamp and parsing it back gives the same timestamp |
| `Timestamp.FormatParse` | plugins/v2_callback/debug_log_json/debug_log_json.py:119-121 | any accepted string is exactly the formatted text of the value it parses to |
| `Timestamp.ParseIff` | plugins/v2_callback/debug_log_json/debug_log_json.py:119-121 | `Parse(s) == Some(d)` if and only if `d` is valid and `s` is its formatted text |
| `Timestamp.DigitsOfPad` | plugins/v2_callback/debug_log_json/debug_log_json.py:121 | a number below 10^width, zero-padded to `width` digits, reads back as itself |
| `Timestamp.PadOfDigits` | plugins/v2_callback/debug_log_json/debug_log_json.py:121 | a digit string is the zero-padded text of the number it denotes |
| `Timestamp.DaysInMonth` | plugins/v2_callback/debug_log_json/debug_log_json.py:121 | a month has 28 to 31 days, and 29 exactly for February of a leap year |
| `DebugLog.OutcomeOf` | plugins/v2_callback/debug_log_json/debug_log_json.py:212-225 | exactly the failed, ok and unreachable notifications go to the record handler |
| `DebugLog.TaskStartOverwrites` | plugins/v2_callback/debug_log_json/debug_log_json.py:254-256 | a task-start makes the task current, replacing any open one, keeps the ledger, and emits no record |
| `DebugLog.MakeRecordSucceeds` | plugins/v2_callback/debug_log_json/debug_log_json.py:141-155 | the handler builds a record exactly when `start` and `end` are present and parse, a task is open, and that task has a role |
| `DebugLog.OutcomeAppendsOne` | plugins/v2_callback/debug_log_json/debug_log_json.py:141-158 | an accepted outcome appends one record at the end of its host's list, creating the list on first use; other hosts' lists are unchanged and the slot is emptied; the record's code, role name, role path, task name, result, start and end come from the notification and the open task |
| `DebugLog.NoOpenTaskLeavesLedger` | plugins/v2_callback/debug_log_json/debug_log_json.py:150-158 | an outcome with no open task fails, changes nothing and emits nothing; with readable timestamps the error is `NoOpenTask` |
| `DebugLog.SecondOutcomeFails` | plugins/v2_callback/debug_log_json/debug_log_json.py:150-158 | a second outcome before the next task-start fails and leaves the state as the first outcome left it |
| `DebugLog.FailureKeepsState` | plugins/v2_callback/debug_log_json/debug_log_json.py:141-183 | only the record handler and the stats dump can raise, and a raised exception keeps the ledger and the slot and emits nothing |
| `DebugLog.IgnoredNotifications` | plugins/v2_callback/debug_log_json/debug_log_json.py:220-239 | skipped, no-hosts, async-poll, async-ok and async-failed notifications succeed and leave `_hosts` and `_cur_task` unchanged |
| `DebugLog.StatsOnlyDumps` | plugins/v2_callback/debug_log_json/debug_log_json.py:164-183 | `playbook_on_stats` changes nothing and records nothing; it raises `KeyError('delta')` exactly when some recorded result has no `delta` key |
| `DebugLog.StepHostList` | plugins/v2_callback/debug_log_json/debug_log_json.py:157-158 | one notification extends a host's list by exactly the record it appends for that host, if any |
| `DebugLog.RunHostList` | plugins/v2_callback/debug_log_json/debug_log_json.py:157-158 | after any stream, each host's list is its old list followed by exactly the records the stream appended for that host, in notification order |
| `DebugLog.RunOnlyAppends` | plugins/v2_callback/debug_log_json/debug_log_json.py:157 | lists only grow: a host's old list is a prefix of its list after any stream |
| `DebugLog.RunKeys` | plugins/v2_callback/debug_log_json/debug_log_json.py:157 | the hosts with a list after a stream are the earlier ones plus those the stream appended to |
| `DebugLog.RecordsForAppend` | plugins/v2_callback/debug_log_json/debug_log_json.py:157 | selecting one host's records distributes over concatenation of record streams |
| `DebugLog.RecordsFor` | plugins/v2_callback/debug_log_json/debug_log_json.py:157 | one host's records of a stream are exactly the records emitted for that host, and no more of them than the stream has |
| `DebugLog.PairsAllRecorded` | plugins/v2_callback/debug_log_json/debug_log_json.py:141-158 | in a stream of task-start/outcome pairs with readable timestamps and role tasks, every outcome is recorded once, in order, as written out from its pair, and the slot ends empty |
| `DebugLog.LedgerOfPairs` | plugins/v2_callback/debug_log_json/debug_log_json.py:141-158 | from the initial state, such a stream leaves each host with exactly the records of the outcomes for it, in notification order |
| `DebugLog.DebugLogJson.constructor` | plugins/v2_callback/debug_log_json/debug_log_json.py:126-129 | a new tracker has no open task and an empty ledger |
| `DebugLog.DebugLogJson.PlaybookOnTaskStart` | plugins/v2_callback/debug_log_json/debug_log_json.py:254-256 | sets `curTask` to the task and keeps `hosts` |
| `DebugLog.DebugLogJson.HandleRunnerCallback` | plugins/v2_callback/debug_log_json/debug_log_json.py:141-158 | returns the exception the handler raises, keeping the state; otherwise appends the record to the host's list and empties the slot |
| `DebugLog.DebugLogJson.RunnerOnFailed` | plugins/v2_callback/debug_log_json/debug_log_json.py:212-214 | takes the step of a failed outcome, and reports an error exactly when that step fails |
| `DebugLog.DebugLogJson.RunnerOnOk` | plugins/v2_callback/debug_log_json/debug_log_json.py:216-218 | takes the step of an ok outcome, and reports an error exactly when that step fails |
| `DebugLog.DebugLogJson.RunnerOnUnreachable` | plugins/v2_callback/debug_log_json/debug_log_json.py:223-225 | takes the step of an unreachable outcome, and reports an error exactly when that step fails |
| `DebugLog.DebugLogJson.HandleRunnerAsyncCallback` | plugins/v2_callback/debug_log_json/debug_log_json.py:160-162 | the async handler is a stub: the slot and the ledger are unchanged |
| `DebugLog.DebugLogJson.RunnerOnAsyncOk` | plugins/v2_callback/debug_log_json/debug_log_json.py:233-235 | takes the step of an async-ok notification, which changes nothing |
| `DebugLog.DebugLogJson.RunnerOnAsyncFailed` | plugins/v2_callback/debug_log_json/debug_log_json.py:237-239 | takes the step of an async-failed notification, which changes nothing |
| `DebugLog.DebugLogJson.PlaybookOnStats` | plugins/v2_callback/debug_log_json/debug_log_json.py:164-183 | keeps the state, and returns `KeyError('delta')` exactly when some recorded result has no `delta` key |
| `DebugLog.DebugLogJson.Notify` | plugins/v2_callback/debug_log_json/debug_log_json.py:212-256 | any notification moves the object to `Step` of its old state |
| `ProfileTimeline.SecondsToHms` | plugins/v2_callback/profile_timeline/profile_timeline.py:77-80 | minutes and seconds lie in 0..59 and h·3600 + m·60 + s equals the input; hours are nonnegative for a nonnegative input |
| `ProfileTimeline.SecondsToHmsUnique` | plugins/v2_callback/profile_timeline/profile_timeline.py:77-80 | every split with minutes and seconds in 0..59 that sums to the input is the one returned |
| `ProfileTimeline.CloseCurrentEffect` | plugins/v2_callback/profile_timeline/profile_timeline.py:98-100 | with no open task nothing changes; otherwise only the open task's elapsed becomes now − start |
| `ProfileTimeline.RecordedEffect` | plugins/v2_callback/profile_timeline/profile_timeline.py:107-117 | the previous task is closed, `name` becomes current with entry `(now, None)`, the keys gain `name`, every other entry is unchanged, and a new key goes to the end of the dict order |
| `ProfileTimeline.HandlerRecordedUnderPrefix` | plugins/v2_callback/profile_timeline/profile_timeline.py:122-123 | a handler task is recorded and made current under `"HANDLER: " + name` |
| `ProfileTimeline.CloseCurrentWf` | plugins/v2_callback/profile_timeline/profile_timeline.py:98-100 | closing the open task preserves the state invariant (distinct keys in dict order, current tracked, only the current entry open) |
| `ProfileTimeline.RecordedWf` | plugins/v2_callback/profile_timeline/profile_timeline.py:107-117 | recording a task preserves the state invariant |
| `ProfileTimeline.CloseCurrentClosesAll` | plugins/v2_callback/profile_timeline/profile_timeline.py:132 | after `playbook_on_stats` closes the last task, every entry has an elapsed time |
| `ProfileTimeline.ApplyWf` | plugins/v2_callback/profile_timeline/profile_timeline.py:107-132 | every notification preserves the state invariant |
| `ProfileTimeline.RunEventsKeys` | plugins/v2_callback/profile_timeline/profile_timeline.py:116-117 | after any stream the invariant holds, and the keys are the earlier ones plus the recorded keys |
| `ProfileTimeline.DistinctLength` | plugins/v2_callback/profile_timeline/profile_timeline.py:117 | a list without repetitions is as long as its set of elements |
| `ProfileTimeline.OneEntryPerKey` | plugins/v2_callback/profile_timeline/profile_timeline.py:116-117 | from a fresh plugin, `stats` has exactly one entry per distinct recorded name |
| `ProfileTimeline.ApplyClock` | plugins/v2_callback/profile_timeline/profile_timeline.py:98-117 | with a clock that does not go back, one notification keeps every start ≤ now and every closed elapsed ≥ 0 |
| `ProfileTimeline.RunEventsClock` | plugins/v2_callback/profile_timeline/profile_timeline.py:98-117 | along a stream with a non-decreasing clock, no entry ever has a negative elapsed time |
| `ProfileTimeline.Items` | plugins/v2_callback/profile_timeline/profile_timeline.py:136 | `stats.items()` lists every key of `stats` exactly once, in dict order, with its start and elapsed: as many items as keys, and a name occurs among the items exactly when it is a key |
| `ProfileTimeline.Insert` | plugins/v2_callback/profile_timeline/profile_timeline.py:135-138 | inserting adds exactly one element |
| `ProfileTimeline.InsertSorted` | plugins/v2_callback/profile_timeline/profile_timeline.py:135-138 | inserting into a sorted list keeps it sorted |
| `ProfileTimeline.StableSort` | plugins/v2_callback/profile_timeline/profile_timeline.py:135-138 | `sorted` returns a permutation of its input, non-decreasing by the key |
| `ProfileTimeline.InsertWithKey` | plugins/v2_callback/profile_timeline/profile_timeline.py:135-138 | insertion adds the inserted element first among the elements with its key |
| `ProfileTimeline.StableSortKeepsTies` | plugins/v2_callback/profile_timeline/profile_timeline.py:135-138 | `sorted` is stable: elements with equal keys keep their relative order |
| `ProfileTimeline.TimelineSpec` | plugins/v2_callback/profile_timeline/profile_timeline.py:135-138 | the timeline is a permutation of `stats.items()`, non-decreasing by start time, with equal starts in dict order |
| `ProfileTimeline.ByElapsedRanked` | plugins/v2_callback/profile_timeline/profile_timeline.py:152-156 | the ranking is a permutation of `stats.items()`, non-increasing by elapsed time |
| `ProfileTimeline.ByElapsedKeepsTies` | plugins/v2_callback/profile_timeline/profile_timeline.py:152-156 | with `reverse=True`, equal elapsed times keep their dict order |
| `ProfileTimeline.RankedTail` | plugins/v2_callback/profile_timeline/profile_timeline.py:159 | in a ranking, nothing past a cut ran longer than anything before it |
| `ProfileTimeline.RankedHead` | plugins/v2_callback/profile_timeline/profile_timeline.py:159 | the head of a ranking is ranked, is a sub-multiset of the items, and no left-out item ran longer than a kept one |
| `ProfileTimeline.TopSpec` | plugins/v2_callback/profile_timeline/profile_timeline.py:152-159 | the top list has min(15, n) items, is a prefix of the full descending sort, is non-increasing by elapsed, and no item left out ran longer than any item kept |
| `ProfileTimeline.RecordedAsWrittenNeverRecords` | plugins/v2_callback/profile_timeline/profile_timeline.py:68-117 | as written, `_record_task` always raises in `tasktime()` at line 111 and leaves the state unchanged |
| `ProfileTimeline.CallbackModule.constructor` | plugins/v2_callback/profile_timeline/profile_timeline.py:92-94 | a new profiler has empty `stats`, no current task, and satisfies the invariant |
| `ProfileTimeline.CallbackModule.Timestamp` | plugins/v2_callback/profile_timeline/profile_timeline.py:98-100 | the new state is `CloseCurrent` of the old one and the invariant is kept |
| `ProfileTimeline.CallbackModule.RecordTask` | plugins/v2_callback/profile_timeline/profile_timeline.py:107-117 | the new state is `Recorded` of the old one and the invariant is kept |
| `ProfileTimeline.CallbackModule.PlaybookOnTaskStart` | plugins/v2_callback/profile_timeline/profile_timeline.py:119-120 | records the task under its own name |
| `ProfileTimeline.CallbackModule.V2PlaybookOnHandlerTaskStart` | plugins/v2_callback/profile_timeline/profile_timeline.py:122-123 | records the handler task under `"HANDLER: " + name` |
| `ProfileTimeline.CallbackModule.PlaybookOnStats` | plugins/v2_callback/profile_timeline/profile_timeline.py:128-159 | closes the last task, leaves every entry closed, and returns the timeline and the top-15 list of the resulting items |

## Left out

- Timestamp.Parse: weaker than `strptime`. It accepts only the full-width form. `strptime` also accepts one-digit month, day, hour, minute and second fields, a space-padded day, one to five fraction digits, any run of whitespace between date and time, and non-ASCII Unicode digits. The stream carries the full-width form.
- `_get_datetime` returns a `datetime` object; the model keeps its seven fields only (no time zone, no arithmetic on them).
- The rest of the profiler model uses the corrected `_record_task` (`Recorded`), which leaves out the display call; see Findings.
- Display and formatting: `_log`, `_dlog`, `filled`, the text produced by `tasktime` and `seconds_to_hms`, `strftime`/`localtime`, `'{0:.01f}'`, `pprint`, `json.dumps`, and the lines the ledger's flat dump writes (debug_log_json.py:171-183). Of the dump only its `KeyError` on a result without `delta` is modelled; the loop itself is not, since it changes nothing.
- Dict order before Python 3.7: the plugin also targets Python 2 (profile_timeline.py:25-26), where `stats.items()` comes out in hash order. The model assumes Python 3.7 or later, so the tie clauses of `TimelineSpec` and `ByElapsedKeepsTies` say nothing about older interpreters.
- `time.time()` and floating point: the clock is an integer `now` the caller supplies, and `SecondsToHms` works on integers.
- ProfileTimeline.CallbackModule.RecordTask: weaker than the source, because it reads the clock once. The source reads it once to close the previous task and again to open the new one.
- The first `seconds_to_hms` (profile_timeline.py:54-61) is shadowed. Only its arity effect in `CallSecondsToHms` is modelled, and the module-level `timestamp(self)` (profile_timeline.py:64-66) duplicates `_timestamp`.
- Class-level shared state: the source declares `_cur_task` and `_hosts` at class level (debug_log_json.py:126, 129), so all instances share them. Here they are fields of one `DebugLogJson` object.
- Async job-id correlation: the source stubs it out (`_handle_runner_async_callback` returns), so it is a no-op here.
- The rollup tree by host and role invocation exists only as a comment (debug_log_json.py:185-195); there is no code to model.
- Hooks that only log (`set_play_context`, `on_any`, `playbook_on_start`, `playbook_on_notify`, `playbook_on_play_start`, `playbook_on_setup`, and the other `playbook_on_*` hooks) change no state and are not listed in the notification types.
- The result payload is a map from key to string. Only `start` and `end` are read; values that are not strings are not modelled.
- Plugin loading, whitelisting, `CallbackBase` and the `CALLBACK_*` constants; `plugins/callback/execution_diag.py` and `plugins/callback/execution_diag/execution_diag.py` only log fixed strings and are not part of this model.

## Findings

| source | as written | input that shows it | evidently intended | confidence | as-written member | corrected member |
|---|---|---|---|---|---|---|
| plugins/v2_callback/profile_timeline/profile_timeline.py:68-117 | `tasktime()` calls `seconds_to_hms(x, True)`; the later one-argument definition at line 77 shadows the two-argument one, so the call raises `TypeError`; `_record_task` calls `tasktime()` first (line 111), so no task is ever recorded (and `playbook_on_stats` raises the same way at line 129, before closing the last task) | any `playbook_on_task_start(name, False)` | log the time line and then record the task | high, not executed | `ProfileTimeline.RecordedAsWrittenNeverRecords` | `ProfileTimeline.RecordedEffect` |
