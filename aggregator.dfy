/** The aggregator node: the worker outputs merged in key order, then
    identified and, in a detailed plan, scheduled. */
module Aggregator {
  import opened Wrappers
  import opened Text
  import opened Values
  import opened State
  import opened Identifiers
  import opened Schedule
  import Prompt

  // ---------------------------------------------------------------------
  // Merging the worker outputs

  /** `output.get("tasks", [])` is a list of dicts, or another iterable of
      dicts. */
  predicate TasksReadable(out: WorkerOutput)
  {
    IsDictList(out.tasks.GetOr(List([])))
  }

  predicate AllReadable(outputs: map<string, WorkerOutput>)
  {
    forall k :: k in outputs ==> TasksReadable(outputs[k])
  }

  function OutputTasks(out: WorkerOutput): seq<Task>
    requires TasksReadable(out)
  {
    DictItems(out.tasks.GetOr(List([])))
  }

  /** `output.get("package_name", worker_key)`. */
  function PackageName(key: string, out: WorkerOutput): Value
  {
    out.packageName.GetOr(Str(key))
  }

  /** A task whose phase name is empty or missing takes the package name. */
  function WithPhase(t: Task, name: Value): Task
  {
    if Truthy(Get(t, "phase_name", Null)) then t else t["phase_name" := name]
  }

  /** After backfilling, the phase name is truthy whenever the package name
      is; a truthy phase name is kept; no other field changes. */
  lemma WithPhaseFields(t: Task, name: Value)
    ensures Truthy(name) ==> Truthy(Get(WithPhase(t, name), "phase_name", Null))
    ensures Truthy(Get(t, "phase_name", Null)) ==> WithPhase(t, name) == t
    ensures forall k :: k != "phase_name" ==>
      (k in WithPhase(t, name) <==> k in t) && (k in t ==> WithPhase(t, name)[k] == t[k])
  {
  }

  function Backfilled(ts: seq<Task>, name: Value): (r: seq<Task>)
    ensures |r| == |ts|
  {
    seq(|ts|, i requires 0 <= i < |ts| => WithPhase(ts[i], name))
  }

  /** Blocks laid end to end, as `extend` builds a list. */
  function Concat<T>(bs: seq<seq<T>>): seq<T>
  {
    if bs == [] then [] else Concat(bs[..|bs| - 1]) + bs[|bs| - 1]
  }

  /** The sum of the blocks' lengths. */
  function TotalLength<T>(bs: seq<seq<T>>): nat
  {
    if bs == [] then 0 else TotalLength(bs[..|bs| - 1]) + |bs[|bs| - 1]|
  }

  lemma {:induction false} ConcatLength<T>(bs: seq<seq<T>>)
    ensures |Concat(bs)| == TotalLength(bs)
  {
    if bs != [] {
      ConcatLength(bs[..|bs| - 1]);
    }
  }

  /** Item `j` of block `i` sits after all items of the blocks before it. */
  lemma {:induction false} ConcatLayout<T>(bs: seq<seq<T>>, i: nat, j: nat)
    requires i < |bs| && j < |bs[i]|
    ensures TotalLength(bs[..i]) + j < |Concat(bs)|
    ensures Concat(bs)[TotalLength(bs[..i]) + j] == bs[i][j]
  {
    var init := bs[..|bs| - 1];
    ConcatLength(init);
    ConcatLength(bs);
    if i < |bs| - 1 {
      ConcatLayout(init, i, j);
      assert init[..i] == bs[..i];
    } else {
      assert bs[..i] == init;
    }
  }

  /** Every item of the concatenation is an item of some block. */
  lemma {:induction false} ConcatItems<T>(bs: seq<seq<T>>, x: T)
    requires x in Concat(bs)
    ensures exists i, j :: 0 <= i < |bs| && 0 <= j < |bs[i]| && bs[i][j] == x
  {
    var init := bs[..|bs| - 1];
    if x in Concat(init) {
      ConcatItems(init, x);
      var i, j :| 0 <= i < |init| && 0 <= j < |init[i]| && init[i][j] == x;
      assert bs[i][j] == x;
    } else {
      var j :| 0 <= j < |bs[|bs| - 1]| && bs[|bs| - 1][j] == x;
    }
  }

  /** The tasks one worker contributes: its tasks, phase names backfilled
      with its package name. */
  function Block(outputs: map<string, WorkerOutput>, key: string): seq<Task>
    requires AllReadable(outputs) && key in outputs
  {
    Backfilled(OutputTasks(outputs[key]), PackageName(key, outputs[key]))
  }

  function Blocks(outputs: map<string, WorkerOutput>, keys: seq<string>): (bs: seq<seq<Task>>)
    requires AllReadable(outputs) && forall i :: 0 <= i < |keys| ==> keys[i] in outputs
    ensures |bs| == |keys|
  {
    seq(|keys|, i requires 0 <= i < |keys| => Block(outputs, keys[i]))
  }

  /** The outputs under `keys`, in that order, each with its phase names
      backfilled. */
  function Merged(outputs: map<string, WorkerOutput>, keys: seq<string>): seq<Task>
    requires AllReadable(outputs) && forall i :: 0 <= i < |keys| ==> keys[i] in outputs
  {
    Concat(Blocks(outputs, keys))
  }

  /** The number of tasks the outputs under `keys` hold. */
  function TaskTotal(outputs: map<string, WorkerOutput>, keys: seq<string>): nat
    requires AllReadable(outputs) && forall i :: 0 <= i < |keys| ==> keys[i] in outputs
  {
    if keys == [] then 0
    else TaskTotal(outputs, keys[..|keys| - 1]) + |OutputTasks(outputs[keys[|keys| - 1]])|
  }

  lemma {:induction false} BlocksTotal(outputs: map<string, WorkerOutput>, keys: seq<string>)
    requires AllReadable(outputs) && forall k :: 0 <= k < |keys| ==> keys[k] in outputs
    ensures TotalLength(Blocks(outputs, keys)) == TaskTotal(outputs, keys)
  {
    if keys != [] {
      var init := keys[..|keys| - 1];
      var bs := Blocks(outputs, keys);
      BlocksTotal(outputs, init);
      assert bs[..|keys| - 1] == Blocks(outputs, init) by {
        forall k | 0 <= k < |init| ensures bs[..|keys| - 1][k] == Blocks(outputs, init)[k] {
          assert init[k] == keys[k];
        }
      }
      assert |bs[|keys| - 1]| == |OutputTasks(outputs[keys[|keys| - 1]])|;
    }
  }

  /** No task is lost or invented: the merged list holds exactly the
      tasks of the outputs, and task `j` of the `i`-th output sits after all
      tasks of the outputs before it, with its phase name backfilled. */
  lemma {:induction false} MergedLayout(outputs: map<string, WorkerOutput>, keys: seq<string>, i: nat, j: nat)
    requires AllReadable(outputs) && forall k :: 0 <= k < |keys| ==> keys[k] in outputs
    requires i < |keys| && j < |OutputTasks(outputs[keys[i]])|
    ensures |Merged(outputs, keys)| == TaskTotal(outputs, keys)
    ensures TaskTotal(outputs, keys[..i]) + j < |Merged(outputs, keys)|
    ensures Merged(outputs, keys)[TaskTotal(outputs, keys[..i]) + j] ==
      WithPhase(OutputTasks(outputs[keys[i]])[j], PackageName(keys[i], outputs[keys[i]]))
  {
    var bs := Blocks(outputs, keys);
    var front := keys[..i];
    ConcatLength(bs);
    BlocksTotal(outputs, keys);
    BlocksTotal(outputs, front);
    assert bs[..i] == Blocks(outputs, front) by {
      forall k | 0 <= k < i ensures bs[..i][k] == Blocks(outputs, front)[k] {
        assert front[k] == keys[k];
      }
    }
    ConcatLayout(bs, i, j);
    var out := outputs[keys[i]];
    assert bs[i] == Backfilled(OutputTasks(out), PackageName(keys[i], out));
  }

  /** No task is lost or invented: the merged list is as long as the
      outputs' task lists together. */
  lemma {:induction false} MergedLength(outputs: map<string, WorkerOutput>, keys: seq<string>)
    requires AllReadable(outputs) && forall k :: 0 <= k < |keys| ==> keys[k] in outputs
    ensures |Merged(outputs, keys)| == TaskTotal(outputs, keys)
  {
    ConcatLength(Blocks(outputs, keys));
    BlocksTotal(outputs, keys);
  }

  /** When every package name is non-empty, every merged task has a
      non-empty phase name. */
  lemma {:induction false} MergedPhasesSet(outputs: map<string, WorkerOutput>, keys: seq<string>)
    requires AllReadable(outputs) && forall k :: 0 <= k < |keys| ==> keys[k] in outputs
    requires forall k :: 0 <= k < |keys| ==> Truthy(PackageName(keys[k], outputs[keys[k]]))
    ensures forall t :: t in Merged(outputs, keys) ==> Truthy(Get(t, "phase_name", Null))
  {
    var bs := Blocks(outputs, keys);
    forall t | t in Merged(outputs, keys) ensures Truthy(Get(t, "phase_name", Null)) {
      ConcatItems(bs, t);
      var i, j :| 0 <= i < |bs| && 0 <= j < |bs[i]| && bs[i][j] == t;
      assert t == WithPhase(OutputTasks(outputs[keys[i]])[j], PackageName(keys[i], outputs[keys[i]]));
    }
  }

  /** The collection loop of `aggregator_node`: the outputs in key order,
      each task's empty phase name replaced by the package name. */
  method MergeOutputs(outputs: map<string, WorkerOutput>, keys: seq<string>) returns (allTasks: seq<Task>)
    requires AllReadable(outputs) && forall k :: 0 <= k < |keys| ==> keys[k] in outputs
    ensures allTasks == Merged(outputs, keys)
  {
    allTasks := [];
    for w := 0 to |keys|
      invariant allTasks == Concat(Blocks(outputs, keys[..w]))
    {
      var workerKey := keys[w];
      var output := outputs[workerKey];
      var packageName := output.packageName.GetOr(Str(workerKey));
      var tasks := BackfillPhases(OutputTasks(output), packageName);
      MergedStep(outputs, keys, w);
      allTasks := allTasks + tasks;
    }
    assert keys[..|keys|] == keys;
  }

  /** One more key appends its block to the merged list. */
  lemma MergedStep(outputs: map<string, WorkerOutput>, keys: seq<string>, w: nat)
    requires AllReadable(outputs) && forall k :: 0 <= k < |keys| ==> keys[k] in outputs
    requires w < |keys|
    ensures Concat(Blocks(outputs, keys[..w + 1])) ==
      Concat(Blocks(outputs, keys[..w])) + Backfilled(OutputTasks(outputs[keys[w]]), PackageName(keys[w], outputs[keys[w]]))
  {
    assert Blocks(outputs, keys[..w + 1]) == Blocks(outputs, keys[..w]) + [Block(outputs, keys[w])];
  }

  /** The inner loop: each task whose phase name is empty or missing gets
      the package name. */
  method BackfillPhases(tasks: seq<Task>, packageName: Value) returns (filled: seq<Task>)
    ensures filled == Backfilled(tasks, packageName)
  {
    filled := tasks;
    for t := 0 to |filled|
      invariant |filled| == |tasks|
      invariant forall k :: 0 <= k < t ==> filled[k] == WithPhase(tasks[k], packageName)
      invariant forall k :: t <= k < |filled| ==> filled[k] == tasks[k]
    {
      if !Truthy(Get(filled[t], "phase_name", Null)) {
        filled := filled[t := filled[t]["phase_name" := packageName]];
      }
    }
  }

  // ---------------------------------------------------------------------
  // The node

  /** `worker_outputs` is missing or empty. */
  predicate NoOutputs(o: Option<map<string, WorkerOutput>>)
  {
    o.None? || o.value == map[]
  }

  /** The `project_info` of the aggregated plan. */
  function ProjectInfoOf(r: map<string, Value>): ProjectInfo
  {
    ProjectInfo(Get(r, "location", Str("")), Get(r, "project_type", Str("")),
                Get(r, "plan_level", Str("")), Get(r, "start_date", Str("")),
                Get(r, "project_scale", Obj([])))
  }

  /** The tasks of the aggregated plan: merged in sorted key order,
      identified, and, for a detailed plan, dated from the start the
      start-date preference gives. The plan counts every task of every
      output once. */
  function FinalTasks(outputs: map<string, WorkerOutput>, r: map<string, Value>, planType: string,
                      today: int, parseDate: string -> Option<int>): (ts: seq<Task>)
    requires AllReadable(outputs)
    requires planType == "detailed" ==> "start_date" in r ==> r["start_date"].Str?
    ensures |ts| == TaskTotal(outputs, SortedKeys(outputs.Keys))
  {
    MergedLength(outputs, SortedKeys(outputs.Keys));
    var keys := SortedKeys(outputs.Keys);
    var ided := WithIdentifiers(Merged(outputs, keys), planType == "detailed");
    if planType == "detailed" then
      var startDate := Prompt.CalculateProjectStartDate(Prompt.StartPreference(r), today, parseDate);
      Scheduled(ided, ScheduleStart(startDate, today, parseDate))
    else ided
  }

  /** A detailed plan is dated from the day the start-date preference
      resolves to, as long as reading back the "YYYY-MM-DD" text written for
      that day gives the same day, as `strptime` does for `strftime`'s output
      (years 1000 to 9999). With `ScheduledStarts` and `ScheduleDates`, its
      first task starts on that day and no task starts before it. */
  lemma DetailedSchedule(outputs: map<string, WorkerOutput>, r: map<string, Value>,
                         today: int, parseDate: string -> Option<int>, d: int)
    requires AllReadable(outputs)
    requires "start_date" in r ==> r["start_date"].Str?
    requires d == Prompt.StartDay(Prompt.StartPreference(r), today, parseDate)
    requires parseDate(IsoDate(d)) == Some(d)
    ensures FinalTasks(outputs, r, "detailed", today, parseDate) ==
      Scheduled(WithIdentifiers(Merged(outputs, SortedKeys(outputs.Keys)), true), d)
  {
  }

  /** `aggregator_node`. The report against `min_tasks` is printed only and
      not modelled. Tasks are values here, so the updates the source makes
      to task dicts that `worker_outputs` shares with the plan do not show
      in `workerOutputs`. */
  method AggregatorNode(state: GraphState, today: int, parseDate: string -> Option<int>)
    requires state.workerOutputs.Some? ==> AllReadable(state.workerOutputs.value)
    requires !NoOutputs(state.workerOutputs) && PlanTypeOf(state.planType) == "detailed" ==>
      var r := state.questionnaireResponses.GetOr(map[]);
      "start_date" in r ==> r["start_date"].Str?
    modifies state
    ensures NoOutputs(old(state.workerOutputs)) ==>
      state.Now() == old(state.Now()).(errorMessage := Some("No worker outputs found"))
    ensures !NoOutputs(old(state.workerOutputs)) ==>
      var r := old(state.questionnaireResponses).GetOr(map[]);
      var planType := PlanTypeOf(old(state.planType));
      var ts := FinalTasks(old(state.workerOutputs).value, r, planType, today, parseDate);
      state.Now() == old(state.Now()).(aggregatedJson := Some(AggregatedPlan(ProjectInfoOf(r), planType, ts, |ts|)))
  {
    var workerOutputs := state.workerOutputs;
    var planType := PlanTypeOf(state.planType);
    if NoOutputs(workerOutputs) {
      state.errorMessage := Some("No worker outputs found");
      return;
    }
    var responses := state.questionnaireResponses.GetOr(map[]);
    var allTasks := AggregateTasks(workerOutputs.value, responses, planType, today, parseDate);
    state.aggregatedJson := Some(AggregatedPlan(ProjectInfoOf(responses), planType, allTasks, |allTasks|));
  }

  /** The task pipeline of `aggregator_node`: merge, identify and, for a
      detailed plan, schedule. */
  method AggregateTasks(outputs: map<string, WorkerOutput>, responses: map<string, Value>, planType: string,
                        today: int, parseDate: string -> Option<int>) returns (allTasks: seq<Task>)
    requires AllReadable(outputs)
    requires planType == "detailed" ==> "start_date" in responses ==> responses["start_date"].Str?
    ensures allTasks == FinalTasks(outputs, responses, planType, today, parseDate)
  {
    var keys := SortedKeys(outputs.Keys);
    var merged := MergeOutputs(outputs, keys);
    var tasks := new Task[|merged|](i requires 0 <= i < |merged| => merged[i]);
    assert tasks[..] == merged;
    AddTaskIdentifiers(tasks, planType);
    if planType == "detailed" {
      var actualStart := Prompt.CalculateProjectStartDate(Prompt.StartPreference(responses), today, parseDate);
      CalculateSequentialDates(tasks, actualStart, today, parseDate);
    }
    allTasks := tasks[..];
  }
}
