/**
 * The `profile_timeline` callback plugin: per-task timing, a timeline of all tasks
 * ordered by start time and the fifteen longest-running tasks.
 *
 * `stats` maps a task name to its start time and elapsed time (`None` while the task
 * is open); `current` names the open task. Starting a task closes the previous one.
 * The wall clock is an integer parameter `now` of every operation that reads it.
 */
module ProfileTimeline {
  import opened Wrappers

  /** `seconds_to_hms`, the definition at line 77: two `divmod`s by 60. */
  function SecondsToHms(seconds: int): (hms: (int, int, int))
    ensures 0 <= hms.1 < 60 && 0 <= hms.2 < 60
    ensures hms.0 * 3600 + hms.1 * 60 + hms.2 == seconds
    ensures seconds >= 0 ==> hms.0 >= 0
  {
    // Python's divmod floors; Dafny's / and % agree with it for a positive divisor.
    var m, s := seconds / 60, seconds % 60;
    (m / 60, m % 60, s)
  }

  /** The split is the only one with minutes and seconds below 60. */
  lemma SecondsToHmsUnique(seconds: int, h: int, m: int, s: int)
    requires 0 <= m < 60 && 0 <= s < 60
    requires h * 3600 + m * 60 + s == seconds
    ensures SecondsToHms(seconds) == (h, m, s)
  {
    var (h', m', s') := SecondsToHms(seconds);
    var q := h * 60 + m;
    var q' := h' * 60 + m';
    assert q * 60 + s == seconds;
    assert q' * 60 + s' == seconds;
    assert (q - q') * 60 == s' - s;
    assert q == q' && s == s';
    assert (h - h') * 60 == m' - m;
  }

  /** One value of `stats`: `[start_time, elapsed_time]`. */
  datatype Entry = Entry(start: int, elapsed: Option<int>)

  /**
   * The plugin's state. `order` lists the keys of `stats` in the order they were first
   * inserted, the order in which a Python dict yields its items.
   */
  datatype ProfileState = ProfileState(stats: map<string, Entry>, order: seq<string>, current: Option<string>)

  const Initial: ProfileState := ProfileState(map[], [], None)

  /** The open task, if any, has an entry (so `self.stats[self.current]` never raises). */
  predicate CurrentTracked(s: ProfileState) {
    s.current.Some? ==> s.current.value in s.stats
  }

  /** The state the plugin maintains: keys listed once each, and only the open task still unclosed. */
  ghost predicate Wf(s: ProfileState) {
    && (forall i, j :: 0 <= i < j < |s.order| ==> s.order[i] != s.order[j])
    && (forall k :: k in s.stats <==> k in s.order)
    && CurrentTracked(s)
    && (forall k :: k in s.stats && s.stats[k].elapsed.None? ==> s.current == Some(k))
  }

  predicate AllClosed(s: ProfileState) {
    forall k :: k in s.stats ==> s.stats[k].elapsed.Some?
  }

  /** `_timestamp`: the open task's elapsed time becomes `now` minus its start. */
  function CloseCurrent(s: ProfileState, now: int): (r: ProfileState)
    requires CurrentTracked(s)
    ensures CurrentTracked(r)
  {
    if s.current.None? then s
    else
      var k := s.current.value;
      s.(stats := s.stats[k := s.stats[k].(elapsed := Some(now - s.stats[k].start))])
  }

  /** `_record_task`: close the open task, then open `name` at `now`. */
  function Recorded(s: ProfileState, name: string, now: int): (r: ProfileState)
    requires CurrentTracked(s)
    ensures CurrentTracked(r)
  {
    var s1 := CloseCurrent(s, now);
    ProfileState(
      s1.stats[name := Entry(now, None)],
      if name in s1.stats then s1.order else s1.order + [name],
      Some(name))
  }

  /**
   * A call of `seconds_to_hms` with `argCount` positional arguments. Python resolves the
   * name when the call runs, so it reaches the definition at line 77, which takes one
   * argument; any other count raises `TypeError` (`None` here).
   */
  function CallSecondsToHms(argCount: nat, seconds: int): (r: Option<(int, int, int)>)
    ensures r.Some? <==> argCount == 1
  {
    if argCount == 1 then Some(SecondsToHms(seconds)) else None
  }

  /** `tasktime()` as written: lines 71-72 pass two arguments (`seconds, True`). */
  function TaskTimeAsWritten(now: int, tn: int): Option<(int, int, int)> {
    CallSecondsToHms(2, now - tn)
  }

  /**
   * `_record_task` as written: line 111 logs `tasktime()` before anything else, so
   * the exception from `tasktime` leaves the state untouched.
   */
  function RecordedAsWritten(s: ProfileState, name: string, now: int, tn: int): Result<ProfileState, string>
    requires CurrentTracked(s)
  {
    match TaskTimeAsWritten(now, tn)
    case None => Failure("TypeError")
    case Some(_) => Success(Recorded(s, name, now))
  }

  /** As written, no task is ever recorded: every call raises and the state stays as it was. */
  lemma RecordedAsWrittenNeverRecords(s: ProfileState, name: string, now: int, tn: int)
    requires CurrentTracked(s)
    ensures RecordedAsWritten(s, name, now, tn).Failure?
    ensures RecordedAsWritten(s, name, now, tn).GetOr(s) == s
  {
  }

  /** The key a handler task is recorded under. */
  function HandlerKey(taskName: string): string {
    "HANDLER: " + taskName
  }

  /** The notifications that touch the plugin's state, each with the clock reading it sees. */
  datatype ProfileEvent =
    | TaskStarted(name: string, isConditional: bool, now: int)
    | HandlerTaskStarted(taskName: string, now: int)
    | Stats(now: int)

  /** The key an event records, if it records one. */
  function RecordedKey(e: ProfileEvent): Option<string> {
    match e
    case TaskStarted(name, _, _) => Some(name)
    case HandlerTaskStarted(taskName, _) => Some(HandlerKey(taskName))
    case Stats(_) => None
  }

  function Apply(s: ProfileState, e: ProfileEvent): (r: ProfileState)
    requires CurrentTracked(s)
    ensures CurrentTracked(r)
  {
    match e
    case TaskStarted(name, _, now) => Recorded(s, name, now)
    case HandlerTaskStarted(taskName, now) => Recorded(s, HandlerKey(taskName), now)
    case Stats(now) => CloseCurrent(s, now)
  }

  function RunEvents(s: ProfileState, es: seq<ProfileEvent>): (r: ProfileState)
    requires CurrentTracked(s)
    ensures CurrentTracked(r)
    decreases |es|
  {
    if es == [] then s else RunEvents(Apply(s, es[0]), es[1..])
  }

  /** The keys a stream of events records. */
  function RecordedKeys(es: seq<ProfileEvent>): set<string>
    decreases |es|
  {
    if es == [] then {}
    else (match RecordedKey(es[0]) case None => {} case Some(k) => {k}) + RecordedKeys(es[1..])
  }

  /** `_timestamp` changes only the open task's elapsed time, and only when a task is open. */
  lemma CloseCurrentEffect(s: ProfileState, now: int)
    requires CurrentTracked(s)
    ensures var r := CloseCurrent(s, now);
      && r.stats.Keys == s.stats.Keys && r.order == s.order && r.current == s.current
      && (s.current.None? ==> r == s)
      && (s.current.Some? ==>
            r.stats[s.current.value] == Entry(s.stats[s.current.value].start,
                                              Some(now - s.stats[s.current.value].start)))
      && (forall k :: k in s.stats && Some(k) != s.current ==> r.stats[k] == s.stats[k])
  {
  }

  /**
   * `_record_task` closes the previous task, makes `name` current with a fresh open
   * entry starting at `now`, and leaves every other entry as it was.
   */
  lemma RecordedEffect(s: ProfileState, name: string, now: int)
    requires CurrentTracked(s)
    ensures var r := Recorded(s, name, now);
      && r.current == Some(name)
      && r.stats[name] == Entry(now, None)
      && r.stats.Keys == s.stats.Keys + {name}
      && (s.current.Some? && s.current.value != name ==>
            r.stats[s.current.value] == Entry(s.stats[s.current.value].start,
                                              Some(now - s.stats[s.current.value].start)))
      && (forall k :: k in s.stats && k != name && Some(k) != s.current ==> r.stats[k] == s.stats[k])
      && r.order == (if name in s.stats then s.order else s.order + [name])
  {
  }

  /** A handler task is recorded under its name prefixed with "HANDLER: ". */
  lemma HandlerRecordedUnderPrefix(s: ProfileState, taskName: string, now: int)
    requires CurrentTracked(s)
    ensures var r := Apply(s, HandlerTaskStarted(taskName, now));
      && r.current == Some("HANDLER: " + taskName)
      && "HANDLER: " + taskName in r.stats
      && r.stats["HANDLER: " + taskName] == Entry(now, None)
  {
  }

  lemma CloseCurrentWf(s: ProfileState, now: int)
    requires Wf(s)
    ensures Wf(CloseCurrent(s, now))
  {
  }

  lemma RecordedWf(s: ProfileState, name: string, now: int)
    requires Wf(s)
    ensures Wf(Recorded(s, name, now))
  {
    var s1 := CloseCurrent(s, now);
    var r := Recorded(s, name, now);
    CloseCurrentWf(s, now);
    assert AllClosed(s1);
    if name !in s1.stats {
      forall i, j | 0 <= i < j < |r.order| ensures r.order[i] != r.order[j] {
        if j == |s1.order| {
          assert r.order[i] == s1.order[i] && s1.order[i] in s1.stats;
        }
      }
    }
  }

  /** Once `playbook_on_stats` has closed the last task, no entry is still open. */
  lemma CloseCurrentClosesAll(s: ProfileState, now: int)
    requires Wf(s)
    ensures AllClosed(CloseCurrent(s, now))
  {
  }

  lemma ApplyWf(s: ProfileState, e: ProfileEvent)
    requires Wf(s)
    ensures Wf(Apply(s, e))
  {
    match e
    case TaskStarted(name, _, now) => RecordedWf(s, name, now);
    case HandlerTaskStarted(taskName, now) => RecordedWf(s, HandlerKey(taskName), now);
    case Stats(now) => CloseCurrentWf(s, now);
  }

  /**
   * After any stream of events the state is well formed, and `stats` has one entry
   * for each distinct key recorded: a repeated name overwrites its earlier entry.
   */
  lemma {:induction false} RunEventsKeys(s: ProfileState, es: seq<ProfileEvent>)
    requires Wf(s)
    ensures Wf(RunEvents(s, es))
    ensures RunEvents(s, es).stats.Keys == s.stats.Keys + RecordedKeys(es)
    decreases |es|
  {
    if es != [] {
      ApplyWf(s, es[0]);
      RunEventsKeys(Apply(s, es[0]), es[1..]);
    }
  }

  /** A list without repetitions is as long as the set of its elements. */
  lemma {:induction false} DistinctLength(xs: seq<string>)
    requires forall i, j :: 0 <= i < j < |xs| ==> xs[i] != xs[j]
    ensures |set x | x in xs| == |xs|
  {
    if xs != [] {
      var tail := xs[1..];
      DistinctLength(tail);
      assert (set x | x in xs) == (set x | x in tail) + {xs[0]};
      assert forall j :: 0 <= j < |tail| ==> tail[j] == xs[j + 1];
      assert xs[0] !in tail;
    }
  }

  /** From the start of a playbook, `stats` holds exactly one entry per distinct recorded key. */
  lemma OneEntryPerKey(es: seq<ProfileEvent>)
    ensures RunEvents(Initial, es).stats.Keys == RecordedKeys(es)
    ensures |RunEvents(Initial, es).stats| == |RunEvents(Initial, es).order| == |RecordedKeys(es)|
  {
    RunEventsKeys(Initial, es);
    var r := RunEvents(Initial, es);
    DistinctLength(r.order);
    assert (set x | x in r.order) == r.stats.Keys;
  }

  /** Every start is at most `t`, and every closed entry has a nonnegative elapsed time. */
  predicate ClockOk(s: ProfileState, t: int) {
    forall k :: k in s.stats ==>
      s.stats[k].start <= t && (s.stats[k].elapsed.Some? ==> s.stats[k].elapsed.value >= 0)
  }

  function EventTime(e: ProfileEvent): int {
    e.now
  }

  /** The clock readings of `es` never go backwards, starting from `t`. */
  predicate Monotone(es: seq<ProfileEvent>, t: int)
    decreases |es|
  {
    es == [] || (t <= EventTime(es[0]) && Monotone(es[1..], EventTime(es[0])))
  }

  function LastTime(es: seq<ProfileEvent>, t: int): int
    decreases |es|
  {
    if es == [] then t else LastTime(es[1..], EventTime(es[0]))
  }

  lemma ApplyClock(s: ProfileState, e: ProfileEvent, t: int)
    requires CurrentTracked(s) && ClockOk(s, t) && t <= EventTime(e)
    ensures ClockOk(Apply(s, e), EventTime(e))
  {
  }

  /** With a clock that never goes backwards, no task ever gets a negative elapsed time. */
  lemma {:induction false} RunEventsClock(s: ProfileState, es: seq<ProfileEvent>, t: int)
    requires CurrentTracked(s) && ClockOk(s, t) && Monotone(es, t)
    ensures ClockOk(RunEvents(s, es), LastTime(es, t))
    decreases |es|
  {
    if es != [] {
      ApplyClock(s, es[0], t);
      RunEventsClock(Apply(s, es[0]), es[1..], EventTime(es[0]));
    }
  }

  // ---------------------------------------------------------------------------
  // The two sorted views of playbook_on_stats.

  /** One item of `stats.items()` once its task is closed: `(name, [start, elapsed])`. */
  datatype Timing = Timing(name: string, start: int, elapsed: int)

  /** `stats.items()`, in dict order. */
  function Items(s: ProfileState): (items: seq<Timing>)
    requires Wf(s) && AllClosed(s)
    ensures |items| == |s.order|
    ensures forall i :: 0 <= i < |items| ==>
      items[i].name == s.order[i] && s.order[i] in s.stats &&
      Entry(items[i].start, Some(items[i].elapsed)) == s.stats[s.order[i]]
    ensures |items| == |s.stats|
    ensures forall k :: k in s.stats <==> exists i :: 0 <= i < |items| && items[i].name == k
  {
    DistinctLength(s.order);
    assert (set x | x in s.order) == s.stats.Keys;
    seq(|s.order|, i requires 0 <= i < |s.order| =>
      Timing(s.order[i], s.stats[s.order[i]].start, s.stats[s.order[i]].elapsed.value))
  }

  predicate SortedBy<T>(s: seq<T>, key: T -> int) {
    forall i, j :: 0 <= i < j < |s| ==> key(s[i]) <= key(s[j])
  }

  /** Insert `x` before the first element whose key is not below `x`'s. */
  function Insert<T(==)>(x: T, s: seq<T>, key: T -> int): (r: seq<T>)
    ensures multiset(r) == multiset(s) + multiset{x}
  {
    if s == [] then [x]
    else if key(x) <= key(s[0]) then [x] + s
    else
      assert s == [s[0]] + s[1..];
      [s[0]] + Insert(x, s[1..], key)
  }

  lemma {:induction false} InsertSorted<T>(x: T, s: seq<T>, key: T -> int)
    requires SortedBy(s, key)
    ensures SortedBy(Insert(x, s, key), key)
  {
    if s != [] && key(s[0]) < key(x) {
      var rest := Insert(x, s[1..], key);
      InsertSorted(x, s[1..], key);
      assert s == [s[0]] + s[1..];
      forall j | 0 <= j < |rest| ensures key(s[0]) <= key(rest[j]) {
        assert rest[j] in multiset(rest);
        if rest[j] != x {
          assert rest[j] in multiset(s[1..]);
          var k :| 0 <= k < |s[1..]| && s[1..][k] == rest[j];
          assert s[k + 1] == rest[j];
        }
      }
      var r := [s[0]] + rest;
      forall i, j | 0 <= i < j < |r| ensures key(r[i]) <= key(r[j]) {
        if i == 0 {
          assert r[j] == rest[j - 1];
        } else {
          assert r[i] == rest[i - 1] && r[j] == rest[j - 1];
        }
      }
    }
  }

  /** Python's `sorted(s, key=key)`: ascending and stable (an insertion sort). */
  function StableSort<T(==)>(s: seq<T>, key: T -> int): (r: seq<T>)
    ensures multiset(r) == multiset(s)
    ensures SortedBy(r, key)
  {
    if s == [] then []
    else
      assert s == [s[0]] + s[1..];
      var tail := StableSort(s[1..], key);
      InsertSorted(s[0], tail, key);
      Insert(s[0], tail, key)
  }

  /** The elements of `s` whose key is `k`, in order. */
  function WithKey<T>(s: seq<T>, key: T -> int, k: int): seq<T> {
    if s == [] then []
    else (if key(s[0]) == k then [s[0]] else []) + WithKey(s[1..], key, k)
  }

  lemma {:induction false} InsertWithKey<T>(x: T, s: seq<T>, key: T -> int, k: int)
    ensures WithKey(Insert(x, s, key), key, k) ==
      (if key(x) == k then [x] else []) + WithKey(s, key, k)
  {
    if s == [] {
    } else if key(x) <= key(s[0]) {
      assert ([x] + s)[1..] == s;
    } else {
      var rest := Insert(x, s[1..], key);
      assert ([s[0]] + rest)[1..] == rest;
      InsertWithKey(x, s[1..], key, k);
    }
  }

  /** Stability: elements with equal keys keep their original relative order. */
  lemma {:induction false} StableSortKeepsTies<T>(s: seq<T>, key: T -> int, k: int)
    ensures WithKey(StableSort(s, key), key, k) == WithKey(s, key, k)
  {
    if s != [] {
      StableSortKeepsTies(s[1..], key, k);
      InsertWithKey(s[0], StableSort(s[1..], key), key, k);
    }
  }

  function StartKey(t: Timing): int {
    t.start
  }

  /** `reverse=True` on a stable sort keeps ties in order, as an ascending sort on the negated key does. */
  function NegElapsedKey(t: Timing): int {
    -t.elapsed
  }

  /** `sorted(self.stats.items(), key=lambda value: value[1][0])`. */
  function Timeline(items: seq<Timing>): seq<Timing> {
    StableSort(items, StartKey)
  }

  /** `sorted(self.stats.items(), key=lambda value: value[1][1], reverse=True)`. */
  function ByElapsed(items: seq<Timing>): seq<Timing> {
    StableSort(items, NegElapsedKey)
  }

  const TopCount: nat := 15

  /** `results[:15]`. */
  function Top(items: seq<Timing>): seq<Timing> {
    var full := ByElapsed(items);
    full[..if |full| < TopCount then |full| else TopCount]
  }

  /**
   * The timeline holds every item once, ordered by start time; items with the same
   * start keep their dict order.
   */
  lemma TimelineSpec(items: seq<Timing>)
    ensures var t := Timeline(items);
      && multiset(t) == multiset(items)
      && |t| == |items|
      && (forall i, j :: 0 <= i < j < |t| ==> t[i].start <= t[j].start)
      && (forall k :: WithKey(t, StartKey, k) == WithKey(items, StartKey, k))
  {
    var t := Timeline(items);
    assert |t| == |multiset(t)|;
    forall k ensures WithKey(t, StartKey, k) == WithKey(items, StartKey, k) {
      StableSortKeepsTies(items, StartKey, k);
    }
  }

  /** The full ranking holds every item once, longest first. */
  lemma ByElapsedRanked(items: seq<Timing>)
    ensures var b := ByElapsed(items);
      && multiset(b) == multiset(items)
      && |b| == |items|
      && (forall i, j :: 0 <= i < j < |b| ==> b[i].elapsed >= b[j].elapsed)
  {
    var b := ByElapsed(items);
    assert |b| == |multiset(b)|;
    forall i, j | 0 <= i < j < |b| ensures b[i].elapsed >= b[j].elapsed {
      assert NegElapsedKey(b[i]) <= NegElapsedKey(b[j]);
    }
  }

  /** Tasks with equal elapsed times keep their dict order in the ranking. */
  lemma ByElapsedKeepsTies(items: seq<Timing>, k: int)
    ensures WithKey(ByElapsed(items), NegElapsedKey, k) == WithKey(items, NegElapsedKey, k)
  {
    StableSortKeepsTies(items, NegElapsedKey, k);
  }

  /** In a list ranked longest first, nothing past position `n` ran longer than anything before it. */
  lemma RankedTail(full: seq<Timing>, n: nat)
    requires n <= |full|
    requires forall i, j :: 0 <= i < j < |full| ==> full[i].elapsed >= full[j].elapsed
    ensures forall x, i :: x in multiset(full[n..]) && 0 <= i < n ==> x.elapsed <= full[i].elapsed
  {
    forall x, i | x in multiset(full[n..]) && 0 <= i < n ensures x.elapsed <= full[i].elapsed {
      var rest := full[n..];
      assert x in rest;
      var j :| 0 <= j < |rest| && rest[j] == x;
      assert full[n + j] == x;
    }
  }

  /** The head of a ranking of `items`: longest first, and no item left out ran longer. */
  lemma RankedHead(items: seq<Timing>, full: seq<Timing>, n: nat)
    requires multiset(full) == multiset(items) && n <= |full|
    requires forall i, j :: 0 <= i < j < |full| ==> full[i].elapsed >= full[j].elapsed
    ensures var top := full[..n];
      && (forall i, j :: 0 <= i < j < |top| ==> top[i].elapsed >= top[j].elapsed)
      && multiset(top) <= multiset(items)
      && (forall x, i :: x in multiset(items) - multiset(top) && 0 <= i < |top| ==> x.elapsed <= top[i].elapsed)
  {
    var top, rest := full[..n], full[n..];
    assert full == top + rest;
    var mt, mr := multiset(top), multiset(rest);
    assert multiset(items) == mt + mr;
    assert (mt + mr) - mt == mr;
    RankedTail(full, n);
    forall i, j | 0 <= i < j < |top| ensures top[i].elapsed >= top[j].elapsed {
      assert top[i] == full[i] && top[j] == full[j];
    }
  }

  /**
   * The top list has min(15, n) items, is the head of the full ranking, runs longest
   * first, and no item left out ran longer than any item kept.
   */
  lemma TopSpec(items: seq<Timing>)
    ensures var top := Top(items);
      && |top| == (if |items| < TopCount then |items| else TopCount)
      && top <= ByElapsed(items)
      && (forall i, j :: 0 <= i < j < |top| ==> top[i].elapsed >= top[j].elapsed)
      && multiset(top) <= multiset(items)
      && (forall x, i :: x in multiset(items) - multiset(top) && 0 <= i < |top| ==> x.elapsed <= top[i].elapsed)
  {
    ByElapsedRanked(items);
    var full := ByElapsed(items);
    var n := if |full| < TopCount then |full| else TopCount;
    assert Top(items) == full[..n];
    RankedHead(items, full, n);
  }

  /** The plugin object; each instance owns its own `stats` and `current`. */
  class CallbackModule {
    var stats: map<string, Entry>
    /** The insertion order of `stats`' keys, which Python keeps inside the dict. */
    var order: seq<string>
    var current: Option<string>

    function State(): ProfileState
      reads this
    {
      ProfileState(stats, order, current)
    }

    ghost predicate Valid()
      reads this
    {
      Wf(State())
    }

    constructor ()
      ensures Valid() && State() == Initial
    {
      stats := map[];
      order := [];
      current := None;
    }

    /** `_timestamp`. */
    method Timestamp(now: int)
      requires Valid()
      modifies this
      ensures Valid() && State() == CloseCurrent(old(State()), now)
    {
      CloseCurrentWf(State(), now);
      if current.Some? {
        var k := current.value;
        stats := stats[k := stats[k].(elapsed := Some(now - stats[k].start))];
      }
    }

    /** `_record_task`. */
    method RecordTask(name: string, now: int)
      requires Valid()
      modifies this
      ensures Valid() && State() == Recorded(old(State()), name, now)
    {
      RecordedWf(State(), name, now);
      Timestamp(now);
      current := Some(name);
      if name !in stats {
        order := order + [name];
      }
      stats := stats[name := Entry(now, None)];
    }

    /** `playbook_on_task_start`. */
    method PlaybookOnTaskStart(name: string, isConditional: bool, now: int)
      requires Valid()
      modifies this
      ensures Valid() && State() == Apply(old(State()), TaskStarted(name, isConditional, now))
    {
      RecordTask(name, now);
    }

    /** `v2_playbook_on_handler_task_start`. */
    method V2PlaybookOnHandlerTaskStart(taskName: string, now: int)
      requires Valid()
      modifies this
      ensures Valid() && State() == Apply(old(State()), HandlerTaskStarted(taskName, now))
    {
      RecordTask(HandlerKey(taskName), now);
    }

    /** `playbook_on_stats`: close the last task, then build the timeline and the top 15. */
    method PlaybookOnStats(now: int) returns (timeline: seq<Timing>, top: seq<Timing>)
      requires Valid()
      modifies this
      ensures Valid() && State() == Apply(old(State()), Stats(now))
      ensures AllClosed(State())
      ensures timeline == Timeline(Items(State()))
      ensures top == Top(Items(State()))
    {
      CloseCurrentClosesAll(State(), now);
      Timestamp(now);
      var items := Items(State());
      timeline := Timeline(items);
      top := Top(items);
    }
  }
}
