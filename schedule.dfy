/** The sequential schedule of a detailed plan: each phase runs its tasks
    one after another, and a new phase starts at the latest end so far. */
module Schedule {
  import opened Wrappers
  import opened Text
  import opened Values
  import opened DurationText
  import opened Identifiers

  /** The phase a task is scheduled in: `task.get("phase_name", "General")`. */
  function Phase(t: Task): Value
  {
    Get(t, "phase_name", Str("General"))
  }

  /** The days a task lasts: `parse_duration(task.get("task_duration", "5 days"))`. */
  function Duration(t: Task): nat
  {
    ParseDuration(Get(t, "task_duration", Str("5 days")))
  }

  /** `f` applied to each task. */
  function Over<T>(s: seq<Task>, f: Task -> T): (r: seq<T>)
    ensures |r| == |s|
  {
    seq(|s|, i requires 0 <= i < |s| => f(s[i]))
  }

  function Phases(s: seq<Task>): (ps: seq<Value>)
    ensures |ps| == |s|
  {
    Over(s, Phase)
  }

  function Durations(s: seq<Task>): (ds: seq<nat>)
    ensures |ds| == |s|
  {
    Over(s, Duration)
  }

  /** The scheduler's state between tasks: the end of the last task of each
      phase seen (`phase_dates`) and the running date (`current_date`). */
  datatype Cursor<P> = Cursor(phaseEnds: map<P, int>, current: int)

  /** Where a task of `phase` starts: after the previous task of its phase,
      or at the running date for the first task of a phase. */
  function StartIn<P>(c: Cursor<P>, phase: P): int
  {
    if phase in c.phaseEnds then c.phaseEnds[phase] else c.current
  }

  function Advance<P>(c: Cursor<P>, phase: P, d: nat): Cursor<P>
  {
    var e := StartIn(c, phase) + d;
    Cursor(c.phaseEnds[phase := e], if e > c.current then e else c.current)
  }

  /** The cursor after the first `n` tasks, given their phases and
      durations. */
  function CursorAfter<P>(ps: seq<P>, ds: seq<nat>, n: nat, start: int): Cursor<P>
    requires |ps| == |ds| && n <= |ps|
  {
    if n == 0 then Cursor(map[], start)
    else Advance(CursorAfter(ps, ds, n - 1, start), ps[n - 1], ds[n - 1])
  }

  /** The start day of task `j`. */
  function StartAt<P(==)>(ps: seq<P>, ds: seq<nat>, j: nat, start: int): int
    requires |ps| == |ds| && j < |ps|
  {
    StartIn(CursorAfter(ps, ds, j, start), ps[j])
  }

  /** A task with its dates written, and its duration when it had none. */
  function Dated(t: Task, startDay: int, d: nat): (r: Task)
    ensures "task_start_date" in r && r["task_start_date"] == Date(startDay)
    ensures "task_end_date" in r && r["task_end_date"] == Date(startDay + d)
    ensures Truthy(Get(r, "task_duration", Null))
  {
    var t1 := t["task_start_date" := Date(startDay)]["task_end_date" := Date(startDay + d)];
    if Truthy(Get(t1, "task_duration", Null)) then t1
    else t1["task_duration" := Str(NatToString(d) + " days")]
  }

  /** The tasks dated for the phases `ps` and durations `ds`. */
  function DatedAll<P(==)>(s: seq<Task>, ps: seq<P>, ds: seq<nat>, start: int): (r: seq<Task>)
    requires |ps| == |s| && |ds| == |s|
    ensures |r| == |s|
  {
    seq(|s|, i requires 0 <= i < |s| => Dated(s[i], StartAt(ps, ds, i, start), ds[i]))
  }

  /** The tasks after `calculate_sequential_dates` from day `start`. */
  function Scheduled(s: seq<Task>, start: int): (r: seq<Task>)
    ensures |r| == |s|
  {
    DatedAll(s, Phases(s), Durations(s), start)
  }

  /** The first day: the start date as `strptime` reads it, today when it
      does not parse. */
  function ScheduleStart(startDate: string, today: int, parseDate: string -> Option<int>): int
  {
    match parseDate(startDate)
    case Some(d) => d
    case None => today
  }

  /** Neither the running date nor any phase end lies before `start`. */
  ghost predicate NotBefore<P>(c: Cursor<P>, start: int)
  {
    c.current >= start && forall p :: p in c.phaseEnds ==> c.phaseEnds[p] >= start
  }

  /** One step keeps the cursor after the start, never moves the running
      date back, and moves it to at least the end of the task placed. */
  lemma AdvanceNotBefore<P>(c: Cursor<P>, phase: P, d: nat, start: int)
    requires NotBefore(c, start)
    ensures NotBefore(Advance(c, phase, d), start)
    ensures c.current <= Advance(c, phase, d).current
    ensures StartIn(c, phase) + d <= Advance(c, phase, d).current
  {
  }

  lemma {:induction false} CursorNotBefore<P>(ps: seq<P>, ds: seq<nat>, n: nat, start: int)
    requires |ps| == |ds| && n <= |ps|
    ensures NotBefore(CursorAfter(ps, ds, n, start), start)
  {
    if n > 0 {
      CursorNotBefore(ps, ds, n - 1, start);
      AdvanceNotBefore(CursorAfter(ps, ds, n - 1, start), ps[n - 1], ds[n - 1], start);
    }
  }

  /** The running date never moves back. */
  lemma {:induction false} CursorMonotone<P>(ps: seq<P>, ds: seq<nat>, j: nat, n: nat, start: int)
    requires |ps| == |ds| && j <= n <= |ps|
    ensures CursorAfter(ps, ds, j, start).current <= CursorAfter(ps, ds, n, start).current
  {
    if j < n {
      CursorMonotone(ps, ds, j, n - 1, start);
      CursorNotBefore(ps, ds, n - 1, start);
      AdvanceNotBefore(CursorAfter(ps, ds, n - 1, start), ps[n - 1], ds[n - 1], start);
    }
  }

  /** The running date never falls behind the start or any end so far,
      and no phase ends before the start. */
  lemma {:induction false} CursorCurrent<P>(ps: seq<P>, ds: seq<nat>, n: nat, start: int)
    requires |ps| == |ds| && n <= |ps|
    ensures CursorAfter(ps, ds, n, start).current >= start
    ensures forall p :: p in CursorAfter(ps, ds, n, start).phaseEnds ==> CursorAfter(ps, ds, n, start).phaseEnds[p] >= start
    ensures forall j :: 0 <= j < n ==> StartAt(ps, ds, j, start) + ds[j] <= CursorAfter(ps, ds, n, start).current
  {
    CursorNotBefore(ps, ds, n, start);
    forall j | 0 <= j < n ensures StartAt(ps, ds, j, start) + ds[j] <= CursorAfter(ps, ds, n, start).current {
      CursorNotBefore(ps, ds, j, start);
      AdvanceNotBefore(CursorAfter(ps, ds, j, start), ps[j], ds[j], start);
      CursorMonotone(ps, ds, j + 1, n, start);
    }
  }

  /** Each phase seen maps to the end of its last task. */
  lemma {:induction false} CursorPhases<P>(ps: seq<P>, ds: seq<nat>, n: nat, start: int)
    requires |ps| == |ds| && n <= |ps|
    ensures forall p :: p in CursorAfter(ps, ds, n, start).phaseEnds <==> LastInGroup(ps, p, n).Some?
    ensures forall p :: p in CursorAfter(ps, ds, n, start).phaseEnds ==>
      var j := LastInGroup(ps, p, n).value;
      CursorAfter(ps, ds, n, start).phaseEnds[p] == StartAt(ps, ds, j, start) + ds[j]
  {
    if n > 0 {
      CursorPhases(ps, ds, n - 1, start);
      var c' := CursorAfter(ps, ds, n, start);
      forall p ensures p in c'.phaseEnds <==> LastInGroup(ps, p, n).Some? {
        if p != ps[n - 1] {
          assert LastInGroup(ps, p, n) == LastInGroup(ps, p, n - 1);
        }
      }
      forall p | p in c'.phaseEnds
        ensures c'.phaseEnds[p] == StartAt(ps, ds, LastInGroup(ps, p, n).value, start) + ds[LastInGroup(ps, p, n).value]
      {
        if p != ps[n - 1] {
          assert LastInGroup(ps, p, n) == LastInGroup(ps, p, n - 1);
        }
      }
    }
  }

  /** Tasks of a phase run back to back: a task starts when the previous
      task of its phase ends; the first task of a phase starts no earlier
      than the project start and than every task before it, and the very
      first task starts on the start day. */
  lemma {:induction false} SchedulePhaseChain<P>(ps: seq<P>, ds: seq<nat>, i: nat, start: int)
    requires |ps| == |ds| && i < |ps|
    ensures match LastInGroup(ps, ps[i], i)
      case Some(j) => StartAt(ps, ds, i, start) == StartAt(ps, ds, j, start) + ds[j]
      case None =>
        StartAt(ps, ds, i, start) >= start &&
        forall j :: 0 <= j < i ==> StartAt(ps, ds, j, start) + ds[j] <= StartAt(ps, ds, i, start)
    ensures StartAt(ps, ds, i, start) >= start
    ensures i == 0 ==> StartAt(ps, ds, i, start) == start
  {
    var c := CursorAfter(ps, ds, i, start);
    CursorCurrent(ps, ds, i, start);
    CursorPhases(ps, ds, i, start);
    match LastInGroup(ps, ps[i], i)
    case Some(j) =>
      assert ps[i] in c.phaseEnds;
      CursorCurrent(ps, ds, j, start);
    case None =>
      assert ps[i] !in c.phaseEnds;
      assert StartAt(ps, ds, i, start) == c.current;
  }

  lemma {:induction false} DatedAllDates<P>(s: seq<Task>, ps: seq<P>, ds: seq<nat>, start: int, i: nat)
    requires |ps| == |s| && |ds| == |s| && i < |s|
    ensures var r := DatedAll(s, ps, ds, start);
      r[i]["task_start_date"] == Date(StartAt(ps, ds, i, start)) &&
      r[i]["task_end_date"] == Date(StartAt(ps, ds, i, start) + ds[i])
  {
  }

  /** The schedule as written into the tasks: each task ends its duration
      after it starts, never before the start day; it starts when the
      previous task of its phase ends, or, as the first of its phase, no
      earlier than any task before it ends. */
  lemma {:induction false} ScheduleDates(s: seq<Task>, start: int, i: nat)
    requires i < |s|
    ensures var r := Scheduled(s, start);
      r[i]["task_start_date"].Date? && r[i]["task_end_date"].Date? &&
      r[i]["task_end_date"].day == r[i]["task_start_date"].day + Duration(s[i]) &&
      r[i]["task_start_date"].day >= start &&
      (i == 0 ==> r[i]["task_start_date"] == Date(start))
    ensures var r := Scheduled(s, start);
      match LastInGroup(Phases(s), Phase(s[i]), i)
      case Some(j) => r[i]["task_start_date"] == r[j]["task_end_date"]
      case None => forall j :: 0 <= j < i ==> r[j]["task_end_date"].day <= r[i]["task_start_date"].day
  {
    var ps := Phases(s);
    var ds := Durations(s);
    SchedulePhaseChain(ps, ds, i, start);
    DatedAllDates(s, ps, ds, start, i);
    match LastInGroup(ps, ps[i], i)
    case Some(j) => DatedAllDates(s, ps, ds, start, j);
    case None =>
      forall j | 0 <= j < i ensures Scheduled(s, start)[j]["task_end_date"].day <= Scheduled(s, start)[i]["task_start_date"].day {
        DatedAllDates(s, ps, ds, start, j);
      }
  }

  /** Every task of a schedule `r` starts on or after the start day, and the
      first on it. */
  lemma ScheduledStarts(s: seq<Task>, start: int, r: seq<Task>)
    requires r == Scheduled(s, start)
    ensures |r| > 0 ==> "task_start_date" in r[0] && r[0]["task_start_date"] == Date(start)
    ensures forall i :: 0 <= i < |r| ==> "task_start_date" in r[i] && r[i]["task_start_date"].Date? && r[i]["task_start_date"].day >= start
  {
    forall i | 0 <= i < |s|
      ensures "task_start_date" in r[i] && r[i]["task_start_date"].Date? && r[i]["task_start_date"].day >= start
    {
      ScheduleDates(s, start, i);
    }
    if |s| > 0 {
      ScheduleDates(s, start, 0);
    }
  }

  /** A task whose duration is empty or missing lasts the default 5 days. */
  lemma DurationWhenMissing(t: Task)
    requires !Truthy(Get(t, "task_duration", Null))
    ensures Duration(t) == 5
  {
    if "task_duration" !in t {
      DefaultDuration();
    }
  }

  /** What dating does to each field of one task. */
  lemma DatedFields(t: Task, a: int, d: nat, k: string)
    ensures k != "task_start_date" && k != "task_end_date" && k != "task_duration" ==>
      (k in Dated(t, a, d) <==> k in t) && (k in t ==> Dated(t, a, d)[k] == t[k])
    ensures Truthy(Get(t, "task_duration", Null)) ==> Dated(t, a, d)["task_duration"] == t["task_duration"]
    ensures !Truthy(Get(t, "task_duration", Null)) ==> Dated(t, a, d)["task_duration"] == Str(NatToString(d) + " days")
  {
  }

  /** Dating writes the two dates and fills in a missing duration as
      "5 days"; every other field is kept. */
  lemma {:induction false} ScheduleKeepsFields(s: seq<Task>, start: int, i: nat, k: string)
    requires i < |s|
    ensures var r := Scheduled(s, start);
      k != "task_start_date" && k != "task_end_date" && k != "task_duration" ==>
        (k in r[i] <==> k in s[i]) && (k in s[i] ==> r[i][k] == s[i][k])
    ensures var r := Scheduled(s, start);
      Truthy(Get(s[i], "task_duration", Null)) ==> r[i]["task_duration"] == s[i]["task_duration"]
    ensures var r := Scheduled(s, start);
      !Truthy(Get(s[i], "task_duration", Null)) ==> r[i]["task_duration"] == Str("5 days") && Duration(s[i]) == 5
  {
    var ps := Phases(s);
    var ds := Durations(s);
    var a := StartAt(ps, ds, i, start);
    assert Scheduled(s, start)[i] == Dated(s[i], a, ds[i]);
    DatedFields(s[i], a, ds[i], k);
    if !Truthy(Get(s[i], "task_duration", Null)) {
      DurationWhenMissing(s[i]);
      DefaultDuration();
    }
  }

  /** Dating keeps a task's phase and duration. */
  lemma DurationStable(t: Task, a: int, d: nat)
    requires d == Duration(t)
    ensures Duration(Dated(t, a, d)) == d
    ensures Phase(Dated(t, a, d)) == Phase(t)
  {
    DatedFields(t, a, d, "phase_name");
    DatedFields(t, a, d, "task_duration");
    if !Truthy(Get(t, "task_duration", Null)) {
      DurationWhenMissing(t);
      DefaultDuration();
    }
  }

  lemma DatedTwice(t: Task, a: int, d: nat)
    ensures Dated(Dated(t, a, d), a, d) == Dated(t, a, d)
  {
  }

  /** Scheduling twice from the same day changes nothing the second time. */
  lemma {:induction false} ScheduleIdempotent(s: seq<Task>, start: int)
    ensures Scheduled(Scheduled(s, start), start) == Scheduled(s, start)
  {
    var r := Scheduled(s, start);
    var ps := Phases(s);
    var ds := Durations(s);
    forall i | 0 <= i < |s| ensures Phases(r)[i] == ps[i] && Durations(r)[i] == ds[i] {
      assert r[i] == Dated(s[i], StartAt(ps, ds, i, start), ds[i]);
      DurationStable(s[i], StartAt(ps, ds, i, start), ds[i]);
    }
    assert Phases(r) == ps && Durations(r) == ds;
    forall i | 0 <= i < |s| ensures Scheduled(r, start)[i] == r[i] {
      DatedTwice(s[i], StartAt(ps, ds, i, start), ds[i]);
    }
  }

  /** `calculate_sequential_dates`: dates the tasks in place, in list order,
      from the start date (today when it does not parse). */
  method CalculateSequentialDates(tasks: array<Task>, startDate: string, today: int,
                                  parseDate: string -> Option<int>)
    modifies tasks
    ensures tasks[..] == Scheduled(old(tasks[..]), ScheduleStart(startDate, today, parseDate))
  {
    var currentDate := match parseDate(startDate) case Some(d) => d case None => today;
    ScheduleFrom(tasks, currentDate, Phase, Duration);
  }

  /** The loop of `calculate_sequential_dates` from day `start`. It reads
      each task's phase with `phaseOf` and its duration with `durationOf`,
      which the caller gives as `Phase` and `Duration`. */
  method ScheduleFrom(tasks: array<Task>, start: int, phaseOf: Task -> Value, durationOf: Task -> nat)
    modifies tasks
    ensures tasks[..] == DatedAll(old(tasks[..]), Over(old(tasks[..]), phaseOf), Over(old(tasks[..]), durationOf), start)
  {
    ghost var s := tasks[..];
    ghost var ps := Over(s, phaseOf);
    ghost var ds := Over(s, durationOf);
    ghost var goal := DatedAll(s, ps, ds, start);
    var currentDate := start;
    var phaseDates: map<Value, int> := map[];
    for i := 0 to tasks.Length
      invariant phaseDates == CursorAfter(ps, ds, i, start).phaseEnds
      invariant currentDate == CursorAfter(ps, ds, i, start).current
      invariant forall k :: 0 <= k < i ==> tasks[k] == goal[k]
      invariant forall k :: i <= k < tasks.Length ==> tasks[k] == s[k]
    {
      phaseDates, currentDate := ScheduleTask(tasks, i, phaseDates, currentDate, phaseOf, durationOf, ps, ds, start);
      assert tasks[i] == goal[i];
    }
    assert tasks[..] == goal;
  }

  /** The loop body for task `i`: its phase and duration, its start after
      the previous task of its phase (or at the running date), its dates,
      and the scheduler's next state. */
  method ScheduleTask(tasks: array<Task>, i: nat, phaseDates: map<Value, int>, currentDate: int,
                      phaseOf: Task -> Value, durationOf: Task -> nat,
                      ghost ps: seq<Value>, ghost ds: seq<nat>, ghost start: int)
      returns (phaseDates': map<Value, int>, currentDate': int)
    requires |ps| == |ds| && i < |ps| && |ps| == tasks.Length
    requires ps[i] == phaseOf(tasks[i]) && ds[i] == durationOf(tasks[i])
    requires phaseDates == CursorAfter(ps, ds, i, start).phaseEnds && currentDate == CursorAfter(ps, ds, i, start).current
    modifies tasks
    ensures phaseDates' == CursorAfter(ps, ds, i + 1, start).phaseEnds
    ensures currentDate' == CursorAfter(ps, ds, i + 1, start).current
    ensures tasks[i] == Dated(old(tasks[i]), StartAt(ps, ds, i, start), ds[i])
    ensures forall k :: 0 <= k < tasks.Length && k != i ==> tasks[k] == old(tasks[k])
  {
    var phase := phaseOf(tasks[i]);
    var durationDays := durationOf(tasks[i]);
    var taskStart := if phase in phaseDates then phaseDates[phase] else currentDate;
    var taskEnd := taskStart + durationDays;
    WriteDates(tasks, i, taskStart, durationDays);
    CursorStep(ps, ds, i, start, phaseDates, currentDate, phase, durationDays);
    phaseDates' := phaseDates[phase := taskEnd];
    currentDate' := currentDate;
    if taskEnd > currentDate {
      currentDate' := taskEnd;
    }
  }

  /** One step of the scheduler's state, in the terms the loop uses. */
  lemma CursorStep<P>(ps: seq<P>, ds: seq<nat>, i: nat, start: int, ends: map<P, int>, current: int, phase: P, d: nat)
    requires |ps| == |ds| && i < |ps|
    requires ends == CursorAfter(ps, ds, i, start).phaseEnds && current == CursorAfter(ps, ds, i, start).current
    requires phase == ps[i] && d == ds[i]
    ensures var e := (if phase in ends then ends[phase] else current) + d;
      CursorAfter(ps, ds, i + 1, start).phaseEnds == ends[phase := e] &&
      CursorAfter(ps, ds, i + 1, start).current == if e > current then e else current
  {
  }

  /** Writes one task's dates, and its duration when it had none. */
  method WriteDates(tasks: array<Task>, i: nat, taskStart: int, durationDays: nat)
    requires i < tasks.Length
    modifies tasks
    ensures tasks[i] == Dated(old(tasks[i]), taskStart, durationDays)
    ensures forall k :: 0 <= k < tasks.Length && k != i ==> tasks[k] == old(tasks[k])
  {
    var task := tasks[i];
    task := task["task_start_date" := Date(taskStart)]["task_end_date" := Date(taskStart + durationDays)];
    if !Truthy(Get(task, "task_duration", Null)) {
      task := task["task_duration" := Str(NatToString(durationDays) + " days")];
    }
    tasks[i] := task;
  }
}
