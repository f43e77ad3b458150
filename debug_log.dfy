/**
 * The per-host task ledger of the `debug_log_json` callback plugin.
 *
 * The orchestration engine calls the plugin once per lifecycle notification, in
 * order. A task-start fills the single "current task" slot; an ok, failed or
 * unreachable outcome turns that slot into a task record, appends the record to
 * the list of the host the outcome is for, and empties the slot. Every other
 * notification only logs, which is not modelled.
 */
module DebugLog {
  import opened Wrappers
  import Timestamp

  /** The role a task belongs to (`task._role`). */
  datatype Role = Role(roleName: string, rolePath: string)

  /** A task as the engine announces it; `role` is `None` for a task written directly in a play. */
  datatype Task = Task(name: string, role: Option<Role>)

  /**
   * A task result. Only the `start` and `end` keys are read; every other key is
   * kept in the record untouched.
   */
  datatype Payload = Payload(fields: map<string, string>)

  /** The outcomes that produce a record (the `runnercode` strings "failed", "ok", "unreachable"). */
  datatype RunnerCode = Failed | Ok | Unreachable

  /** The value of every record's `entrytype` field. */
  const TaskRecordEntry: string := "TASK_RECORD"

  /** One finalized task on one host. */
  datatype TaskRecord = TaskRecord(
    entryType: string,
    runnerCode: RunnerCode,
    roleName: string,
    rolePath: string,
    taskName: string,
    result: Payload,
    start: Timestamp.DateTime,
    end: Timestamp.DateTime)

  /** The exceptions the record handler can raise before it appends anything. */
  datatype HandlerError =
    | MissingKey(key: string)                 // `result[key]` raises KeyError
    | BadTimestamp(key: string, text: string) // `strptime` raises ValueError
    | NoOpenTask                              // `self._cur_task` is None
    | TaskHasNoRole                           // `self._cur_task._role` is None

  /** The plugin's state: `_cur_task` and `_hosts`. */
  datatype LedgerState = LedgerState(curTask: Option<Task>, hosts: map<string, seq<TaskRecord>>)

  const Initial: LedgerState := LedgerState(None, map[])

  /** The notifications the plugin handles (the hooks that only log are not listed). */
  datatype Notification =
    | TaskStart(task: Task, isConditional: bool)
    | RunnerFailed(host: string, res: Payload, ignoreErrors: bool)
    | RunnerOk(host: string, res: Payload)
    | RunnerSkipped(host: string, item: Option<string>)
    | RunnerUnreachable(host: string, res: Payload)
    | RunnerNoHosts
    | RunnerAsyncPoll(host: string, res: Payload, jid: string, clock: int)
    | RunnerAsyncOk(host: string, res: Payload, jid: string)
    | RunnerAsyncFailed(host: string, res: Payload, jid: string)
    | PlaybookOnStats

  /** A synchronous outcome that goes through the record handler: its code, host and result. */
  datatype Outcome = Outcome(code: RunnerCode, host: string, res: Payload)

  /** Which notifications the `runner_on_*` dispatchers pass to the record handler. */
  function OutcomeOf(n: Notification): (o: Option<Outcome>)
    ensures o.Some? <==> n.RunnerFailed? || n.RunnerOk? || n.RunnerUnreachable?
  {
    match n
    case RunnerFailed(h, res, _) => Some(Outcome(Failed, h, res))
    case RunnerOk(h, res) => Some(Outcome(Ok, h, res))
    case RunnerUnreachable(h, res) => Some(Outcome(Unreachable, h, res))
    case _ => None
  }

  /** `_hosts[host]` read through the `defaultdict(list)`: a host never seen has the empty list. */
  function HostList(hosts: map<string, seq<TaskRecord>>, host: string): seq<TaskRecord> {
    if host in hosts then hosts[host] else []
  }

  /** `self._get_datetime(result[key])`. */
  function ReadTimestamp(res: Payload, key: string): Result<Timestamp.DateTime, HandlerError> {
    if key !in res.fields then Failure(MissingKey(key))
    else match Timestamp.Parse(res.fields[key])
      case None => Failure(BadTimestamp(key, res.fields[key]))
      case Some(t) => Success(t)
  }

  /**
   * The record `_handle_runner_callback` builds, or the exception it raises first,
   * in Python's evaluation order: both timestamps, then the current task, then its role.
   */
  function MakeRecord(cur: Option<Task>, code: RunnerCode, res: Payload): Result<TaskRecord, HandlerError> {
    match ReadTimestamp(res, "start")
    case Failure(e) => Failure(e)
    case Success(start) =>
      match ReadTimestamp(res, "end")
      case Failure(e) => Failure(e)
      case Success(end) =>
        if cur.None? then Failure(NoOpenTask)
        else if cur.value.role.None? then Failure(TaskHasNoRole)
        else Success(TaskRecord(TaskRecordEntry, code, cur.value.role.value.roleName,
                                cur.value.role.value.rolePath, cur.value.name, res, start, end))
  }

  /** Lines 157-158: append to the host's list (creating it) and empty the slot. */
  function Append(s: LedgerState, host: string, rec: TaskRecord): LedgerState {
    LedgerState(None, s.hosts[host := HostList(s.hosts, host) + [rec]])
  }

  /**
   * The flat dump of `playbook_on_stats` reads `result['delta']` of every record it
   * holds, so it raises `KeyError` when some recorded result has no `delta` key.
   */
  predicate DumpRaises(hosts: map<string, seq<TaskRecord>>) {
    exists h, i :: h in hosts && 0 <= i < |hosts[h]| && "delta" !in hosts[h][i].result.fields
  }

  /** The plugin's reaction to one notification: its new state, or the exception it raises. */
  function Deliver(s: LedgerState, n: Notification): Result<LedgerState, HandlerError> {
    if n.TaskStart? then Success(LedgerState(Some(n.task), s.hosts))
    else if n.PlaybookOnStats? then (if DumpRaises(s.hosts) then Failure(MissingKey("delta")) else Success(s))
    else match OutcomeOf(n)
      case None => Success(s)
      case Some(o) =>
        match MakeRecord(s.curTask, o.code, o.res)
        case Failure(e) => Failure(e)
        case Success(rec) => Success(Append(s, o.host, rec))
  }

  /** The engine reports a callback's exception as a warning and goes on: the state is kept. */
  function Step(s: LedgerState, n: Notification): LedgerState {
    Deliver(s, n).GetOr(s)
  }

  /** The record a notification appends, with its host, if it appends one. */
  function Appended(s: LedgerState, n: Notification): Option<(string, TaskRecord)> {
    match OutcomeOf(n)
    case None => None
    case Some(o) =>
      match MakeRecord(s.curTask, o.code, o.res)
      case Failure(_) => None
      case Success(rec) => Some((o.host, rec))
  }

  /** The state after a whole notification stream. */
  function Run(s: LedgerState, ns: seq<Notification>): LedgerState
    decreases |ns|
  {
    if ns == [] then s else Run(Step(s, ns[0]), ns[1..])
  }

  /** Every record a stream appends, with its host, in notification order. */
  function Emitted(s: LedgerState, ns: seq<Notification>): seq<(string, TaskRecord)>
    decreases |ns|
  {
    if ns == [] then []
    else
      (match Appended(s, ns[0]) case None => [] case Some(e) => [e])
      + Emitted(Step(s, ns[0]), ns[1..])
  }

  /** The records of `es` that are for `host`, in order. */
  function RecordsFor(es: seq<(string, TaskRecord)>, host: string): (r: seq<TaskRecord>)
    ensures |r| <= |es|
    ensures forall x :: x in r <==> (host, x) in es
  {
    if es == [] then []
    else (if es[0].0 == host then [es[0].1] else []) + RecordsFor(es[1..], host)
  }

  lemma {:induction false} RecordsForAppend(a: seq<(string, TaskRecord)>, b: seq<(string, TaskRecord)>, host: string)
    ensures RecordsFor(a + b, host) == RecordsFor(a, host) + RecordsFor(b, host)
  {
    if a != [] {
      assert (a + b)[0] == a[0] && (a + b)[1..] == a[1..] + b;
      RecordsForAppend(a[1..], b, host);
    } else {
      assert a + b == b;
    }
  }

  /** A task-start replaces the current task, open or not, and emits nothing. */
  lemma TaskStartOverwrites(s: LedgerState, t: Task, isConditional: bool)
    ensures Step(s, TaskStart(t, isConditional)) == LedgerState(Some(t), s.hosts)
    ensures Appended(s, TaskStart(t, isConditional)) == None
  {
  }

  /** The record handler succeeds exactly when both timestamps parse and a task with a role is open. */
  lemma MakeRecordSucceeds(cur: Option<Task>, code: RunnerCode, res: Payload)
    ensures MakeRecord(cur, code, res).Success? <==>
      && "start" in res.fields && Timestamp.Parse(res.fields["start"]).Some?
      && "end" in res.fields && Timestamp.Parse(res.fields["end"]).Some?
      && cur.Some? && cur.value.role.Some?
  {
  }

  /**
   * An ok, failed or unreachable outcome that the handler accepts appends exactly one
   * record, built from the notification and the open task, at the end of its host's
   * list; it empties the slot and leaves every other host's list as it was.
   */
  lemma OutcomeAppendsOne(s: LedgerState, n: Notification)
    requires OutcomeOf(n).Some? && Deliver(s, n).Success?
    ensures var o := OutcomeOf(n).value;
      var s' := Step(s, n);
      && s.curTask.Some? && s.curTask.value.role.Some?
      && s'.curTask == None
      && s'.hosts.Keys == s.hosts.Keys + {o.host}
      && |s'.hosts[o.host]| == |HostList(s.hosts, o.host)| + 1
      && s'.hosts[o.host][..|HostList(s.hosts, o.host)|] == HostList(s.hosts, o.host)
      && (forall h :: h in s.hosts && h != o.host ==> s'.hosts[h] == s.hosts[h])
      && var rec := s'.hosts[o.host][|HostList(s.hosts, o.host)|];
      && Appended(s, n) == Some((o.host, rec))
      && rec.entryType == TaskRecordEntry
      && rec.runnerCode == o.code
      && rec.roleName == s.curTask.value.role.value.roleName
      && rec.rolePath == s.curTask.value.role.value.rolePath
      && rec.taskName == s.curTask.value.name
      && rec.result == o.res
      && Timestamp.Parse(o.res.fields["start"]) == Some(rec.start)
      && Timestamp.Parse(o.res.fields["end"]) == Some(rec.end)
  {
    var o := OutcomeOf(n).value;
    var old_ := HostList(s.hosts, o.host);
    var rec := MakeRecord(s.curTask, o.code, o.res).value;
    assert Step(s, n).hosts[o.host] == old_ + [rec];
    assert (old_ + [rec])[..|old_|] == old_;
  }

  /**
   * An outcome with no open task raises before anything is appended: the ledger is
   * unchanged and no record is emitted. The error is `NoOpenTask` once the payload's
   * timestamps are readable.
   */
  lemma NoOpenTaskLeavesLedger(s: LedgerState, n: Notification)
    requires s.curTask.None? && OutcomeOf(n).Some?
    ensures Deliver(s, n).Failure?
    ensures Step(s, n) == s && Appended(s, n) == None
    ensures ReadTimestamp(OutcomeOf(n).value.res, "start").Success? &&
            ReadTimestamp(OutcomeOf(n).value.res, "end").Success? ==>
            Deliver(s, n) == Failure(NoOpenTask)
  {
  }

  /** A second outcome before the next task-start finds no open task and changes nothing. */
  lemma SecondOutcomeFails(s: LedgerState, n1: Notification, n2: Notification)
    requires OutcomeOf(n1).Some? && Deliver(s, n1).Success?
    requires OutcomeOf(n2).Some?
    ensures Deliver(Step(s, n1), n2).Failure?
    ensures Step(Step(s, n1), n2) == Step(s, n1)
  {
    NoOpenTaskLeavesLedger(Step(s, n1), n2);
  }

  /**
   * A raised exception keeps the whole state: neither the ledger nor the slot moves.
   * Only the record handler and the flat dump of `playbook_on_stats` can raise.
   */
  lemma FailureKeepsState(s: LedgerState, n: Notification)
    requires Deliver(s, n).Failure?
    ensures Step(s, n) == s && Appended(s, n) == None
    ensures OutcomeOf(n).Some? || n.PlaybookOnStats?
  {
  }

  /** Skipped, no-hosts and async notifications succeed and change neither `_hosts` nor `_cur_task`. */
  lemma IgnoredNotifications(s: LedgerState, n: Notification)
    requires n.RunnerSkipped? || n.RunnerNoHosts? || n.RunnerAsyncPoll? ||
             n.RunnerAsyncOk? || n.RunnerAsyncFailed?
    ensures Deliver(s, n) == Success(s) && Appended(s, n) == None
  {
  }

  /**
   * `playbook_on_stats` changes nothing and records nothing; it raises `KeyError('delta')`
   * exactly when some recorded result has no `delta` key.
   */
  lemma StatsOnlyDumps(s: LedgerState)
    ensures Step(s, PlaybookOnStats) == s && Appended(s, PlaybookOnStats) == None
    ensures Deliver(s, PlaybookOnStats).Failure? <==>
      exists h, i :: h in s.hosts && 0 <= i < |s.hosts[h]| && "delta" !in s.hosts[h][i].result.fields
    ensures Deliver(s, PlaybookOnStats).Failure? ==> Deliver(s, PlaybookOnStats).error == MissingKey("delta")
  {
  }

  /** One step adds its appended record, if any, to its host's list and touches no other list. */
  lemma {:induction false} StepHostList(s: LedgerState, n: Notification, host: string)
    ensures HostList(Step(s, n).hosts, host) ==
      HostList(s.hosts, host) +
      RecordsFor(match Appended(s, n) case None => [] case Some(e) => [e], host)
  {
    var e: seq<(string, TaskRecord)> := match Appended(s, n) case None => [] case Some(e) => [e];
    if Appended(s, n).Some? {
      assert RecordsFor(e, host) == (if e[0].0 == host then [e[0].1] else []) + RecordsFor(e[1..], host);
      assert e[1..] == [];
    } else {
      assert Step(s, n).hosts == s.hosts;
    }
  }

  /**
   * Each host's list after a stream is its list before followed by exactly the
   * records the stream appended for that host, in notification order.
   */
  lemma {:induction false} RunHostList(s: LedgerState, ns: seq<Notification>, host: string)
    ensures HostList(Run(s, ns).hosts, host) == HostList(s.hosts, host) + RecordsFor(Emitted(s, ns), host)
    decreases |ns|
  {
    if ns != [] {
      var s1 := Step(s, ns[0]);
      var e: seq<(string, TaskRecord)> := match Appended(s, ns[0]) case None => [] case Some(e) => [e];
      StepHostList(s, ns[0], host);
      RunHostList(s1, ns[1..], host);
      RecordsForAppend(e, Emitted(s1, ns[1..]), host);
    }
  }

  /** Lists only grow: the list a host had is a prefix of the list it has after any stream. */
  lemma RunOnlyAppends(s: LedgerState, ns: seq<Notification>, host: string)
    requires host in s.hosts
    ensures host in Run(s, ns).hosts
    ensures s.hosts[host] <= Run(s, ns).hosts[host]
  {
    RunHostList(s, ns, host);
    RunKeys(s, ns);
  }

  /** The hosts with a list after a stream are those before and those the stream appended to. */
  lemma {:induction false} RunKeys(s: LedgerState, ns: seq<Notification>)
    ensures Run(s, ns).hosts.Keys == s.hosts.Keys + set e | e in Emitted(s, ns) :: e.0
    decreases |ns|
  {
    if ns != [] {
      var s1 := Step(s, ns[0]);
      RunKeys(s1, ns[1..]);
      var e: seq<(string, TaskRecord)> := match Appended(s, ns[0]) case None => [] case Some(e) => [e];
      assert Emitted(s, ns) == e + Emitted(s1, ns[1..]);
      if Appended(s, ns[0]).None? {
        assert s1.hosts == s.hosts;
      }
    }
  }

  /** A task-start of a task in a role, followed by an outcome whose timestamps are readable. */
  predicate GoodPair(start: Notification, outcome: Notification) {
    && start.TaskStart? && start.task.role.Some?
    && OutcomeOf(outcome).Some?
    && ReadTimestamp(OutcomeOf(outcome).value.res, "start").Success?
    && ReadTimestamp(OutcomeOf(outcome).value.res, "end").Success?
  }

  /** A stream made only of good task-start/outcome pairs. */
  predicate WellFormedPairs(ns: seq<Notification>)
    decreases |ns|
  {
    ns == [] || (|ns| >= 2 && GoodPair(ns[0], ns[1]) && WellFormedPairs(ns[2..]))
  }

  /** The record a good pair stands for, written out from the two notifications alone. */
  function PairRecord(start: Notification, outcome: Notification): (string, TaskRecord)
    requires GoodPair(start, outcome)
  {
    var o := OutcomeOf(outcome).value;
    var role := start.task.role.value;
    (o.host, TaskRecord(TaskRecordEntry, o.code, role.roleName, role.rolePath, start.task.name, o.res,
                        ReadTimestamp(o.res, "start").value, ReadTimestamp(o.res, "end").value))
  }

  function PairRecords(ns: seq<Notification>): seq<(string, TaskRecord)>
    requires WellFormedPairs(ns)
    decreases |ns|
  {
    if ns == [] then [] else [PairRecord(ns[0], ns[1])] + PairRecords(ns[2..])
  }

  /**
   * In a stream of good task-start/outcome pairs every outcome is recorded, once,
   * in notification order, whatever the state the stream starts from; the slot is
   * empty at the end.
   */
  lemma {:induction false} PairsAllRecorded(s: LedgerState, ns: seq<Notification>)
    requires WellFormedPairs(ns)
    ensures Emitted(s, ns) == PairRecords(ns)
    ensures ns != [] ==> Run(s, ns).curTask == None
    decreases |ns|
  {
    if ns != [] {
      var s1 := Step(s, ns[0]);
      var s2 := Step(s1, ns[1]);
      assert s1 == LedgerState(Some(ns[0].task), s.hosts);
      assert Appended(s, ns[0]) == None;
      assert Appended(s1, ns[1]) == Some(PairRecord(ns[0], ns[1]));
      assert s2.curTask == None;
      assert ns[1..][1..] == ns[2..];
      PairsAllRecorded(s2, ns[2..]);
      assert Emitted(s1, ns[1..]) == [PairRecord(ns[0], ns[1])] + Emitted(s2, ns[2..]);
      assert Emitted(s, ns) == [] + Emitted(s1, ns[1..]);
      assert Run(s, ns) == Run(s2, ns[2..]);
    }
  }

  /**
   * From the initial state, a stream of good pairs leaves each host with exactly the
   * records of the outcomes for that host, in notification order.
   */
  lemma LedgerOfPairs(ns: seq<Notification>, host: string)
    requires WellFormedPairs(ns)
    ensures HostList(Run(Initial, ns).hosts, host) == RecordsFor(PairRecords(ns), host)
  {
    RunHostList(Initial, ns, host);
    PairsAllRecorded(Initial, ns);
  }

  /** The plugin object; each instance owns its own slot and ledger. */
  class DebugLogJson {
    var curTask: Option<Task>
    var hosts: map<string, seq<TaskRecord>>

    function State(): LedgerState
      reads this
    {
      LedgerState(curTask, hosts)
    }

    constructor ()
      ensures State() == Initial
    {
      curTask := None;
      hosts := map[];
    }

    /** `playbook_on_task_start`: the task becomes current, whatever was open before. */
    method PlaybookOnTaskStart(task: Task, isConditional: bool)
      modifies this
      ensures State() == Step(old(State()), TaskStart(task, isConditional))
      ensures curTask == Some(task) && hosts == old(hosts)
    {
      curTask := Some(task);
    }

    /** `_handle_runner_callback`: build the record, append it, empty the slot; `err` is the exception raised. */
    method HandleRunnerCallback(code: RunnerCode, host: string, result: Payload) returns (err: Option<HandlerError>)
      modifies this
      ensures match MakeRecord(old(curTask), code, result)
        case Failure(e) => err == Some(e) && State() == old(State())
        case Success(rec) => err == None && State() == Append(old(State()), host, rec)
    {
      var start := ReadTimestamp(result, "start");
      if start.Failure? {
        return Some(start.error);
      }
      var end := ReadTimestamp(result, "end");
      if end.Failure? {
        return Some(end.error);
      }
      if curTask.None? {
        return Some(NoOpenTask);
      }
      if curTask.value.role.None? {
        return Some(TaskHasNoRole);
      }
      var role := curTask.value.role.value;
      var rec := TaskRecord(TaskRecordEntry, code, role.roleName, role.rolePath,
                            curTask.value.name, result, start.value, end.value);
      var list := if host in hosts then hosts[host] else [];
      hosts := hosts[host := list + [rec]];
      curTask := None;
      err := None;
    }

    /** `_handle_runner_async_callback`: job-id correlation is a stub in the plugin; nothing happens. */
    method HandleRunnerAsyncCallback(code: RunnerCode, host: string, result: Payload, jid: string)
      ensures State() == old(State())
    {
    }

    method RunnerOnFailed(host: string, res: Payload, ignoreErrors: bool) returns (err: Option<HandlerError>)
      modifies this
      ensures State() == Step(old(State()), RunnerFailed(host, res, ignoreErrors))
      ensures err.Some? <==> Deliver(old(State()), RunnerFailed(host, res, ignoreErrors)).Failure?
    {
      err := HandleRunnerCallback(Failed, host, res);
    }

    method RunnerOnOk(host: string, res: Payload) returns (err: Option<HandlerError>)
      modifies this
      ensures State() == Step(old(State()), RunnerOk(host, res))
      ensures err.Some? <==> Deliver(old(State()), RunnerOk(host, res)).Failure?
    {
      err := HandleRunnerCallback(Ok, host, res);
    }

    method RunnerOnUnreachable(host: string, res: Payload) returns (err: Option<HandlerError>)
      modifies this
      ensures State() == Step(old(State()), RunnerUnreachable(host, res))
      ensures err.Some? <==> Deliver(old(State()), RunnerUnreachable(host, res)).Failure?
    {
      err := HandleRunnerCallback(Unreachable, host, res);
    }

    method RunnerOnAsyncOk(host: string, res: Payload, jid: string)
      ensures State() == Step(old(State()), RunnerAsyncOk(host, res, jid))
    {
      HandleRunnerAsyncCallback(Ok, host, res, jid);
    }

    method RunnerOnAsyncFailed(host: string, res: Payload, jid: string)
      ensures State() == Step(old(State()), RunnerAsyncFailed(host, res, jid))
    {
      HandleRunnerAsyncCallback(Failed, host, res, jid);
    }

    /**
     * `playbook_on_stats`: the flat dump only logs, but it reads `result['delta']` of
     * every record, so `err` is the `KeyError` it raises when one has none.
     */
    method PlaybookOnStats() returns (err: Option<HandlerError>)
      ensures State() == Step(old(State()), Notification.PlaybookOnStats)
      ensures err.Some? <==> DumpRaises(hosts)
      ensures err.Some? ==> err.value == MissingKey("delta")
    {
      err := if DumpRaises(hosts) then Some(MissingKey("delta")) else None;
    }

    /** Hand one notification to the hook the engine would call for it. */
    method Notify(n: Notification) returns (err: Option<HandlerError>)
      modifies this
      ensures State() == Step(old(State()), n)
      ensures err.Some? <==> Deliver(old(State()), n).Failure?
    {
      err := None;
      match n
      case TaskStart(task, isConditional) => PlaybookOnTaskStart(task, isConditional);
      case RunnerFailed(host, res, ignoreErrors) => err := RunnerOnFailed(host, res, ignoreErrors);
      case RunnerOk(host, res) => err := RunnerOnOk(host, res);
      case RunnerUnreachable(host, res) => err := RunnerOnUnreachable(host, res);
      case RunnerAsyncOk(host, res, jid) => RunnerOnAsyncOk(host, res, jid);
      case RunnerAsyncFailed(host, res, jid) => RunnerOnAsyncFailed(host, res, jid);
      case RunnerSkipped(_, _) =>
      case RunnerNoHosts =>
      case RunnerAsyncPoll(_, _, _, _) =>
      case PlaybookOnStats => err := PlaybookOnStats();
    }
  }
}
