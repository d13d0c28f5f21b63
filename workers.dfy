/** The worker node: one language-model call per work package, each reply
    turned into a task list, the results collected into `worker_outputs`.
    A worker's reply is an input: the text the model returned, or the
    message of the exception the call raised. */
module Workers {
  import opened Wrappers
  import opened Text
  import opened Values
  import opened State
  import opened Extract

  /** The fallback document `{"tasks": []}`. */
  const NoTasks: Value := Obj([("tasks", List([]))])

  /** The dict `process_single_worker` returns. */
  datatype WorkerResult = WorkerResult(
    workerKey: string,
    packageName: Value,
    tasks: Value,
    taskCount: int,
    success: bool,
    error: Option<string>)

  /** `worker_info.get("package_name", worker_key)`. */
  function PackageNameOf(workerKey: string, info: WorkerInfo): Value
  {
    info.packageName.GetOr(Str(workerKey))
  }

  /** The `try` block of `process_single_worker`: the reply's `tasks`
      value, or the message of what it raised on the way (the model call
      itself, `.get` on a document that is not a dict, or `len` of a value
      without one). */
  function ReplyTasks(reply: Result<string>, parse: string -> Option<Value>): (r: Result<Value>)
    ensures r.Ok? ==> Len(r.value).Ok?
  {
    match reply
    case Raised(m) => Raised(m)
    case Ok(content) =>
      var result := ExtractJson(content, parse, NoTasks);
      if !result.Obj? then Raised(NoGetMessage(result))
      else
        var tasks := ObjGet(result.entries, "tasks", List([]));
        match Len(tasks)
        case Raised(m) => Raised(m)
        case Ok(_) => Ok(tasks)
  }

  /** `process_single_worker`: a failure is kept inside its own result, with
      no tasks and the first 50 characters of the message. */
  function ProcessSingleWorker(workerKey: string, info: WorkerInfo, reply: Result<string>,
                               parse: string -> Option<Value>): (r: WorkerResult)
    ensures r.workerKey == workerKey && r.packageName == PackageNameOf(workerKey, info)
    ensures r.success ==> r.error.None? && Len(r.tasks) == Ok(r.taskCount)
    ensures !r.success ==> r.tasks == List([]) && r.taskCount == 0 && r.error.Some? && |r.error.value| <= 50
    ensures r.success <==> ReplyTasks(reply, parse).Ok?
  {
    var packageName := PackageNameOf(workerKey, info);
    match ReplyTasks(reply, parse)
    case Ok(tasks) => WorkerResult(workerKey, packageName, tasks, Len(tasks).value, true, None)
    case Raised(m) => WorkerResult(workerKey, packageName, List([]), 0, false, Some(Take(m, 50)))
  }

  /** A failed model call gives an empty, unsuccessful result that carries
      the start of the message. */
  lemma CallFailure(workerKey: string, info: WorkerInfo, message: string, parse: string -> Option<Value>)
    ensures ProcessSingleWorker(workerKey, info, Raised(message), parse) ==
      WorkerResult(workerKey, PackageNameOf(workerKey, info), List([]), 0, false, Some(message[..if |message| <= 50 then |message| else 50]))
  {
  }

  /** A reply in which nothing parses is a success with no tasks: the
      fallback document has an empty task list. */
  lemma UnreadableReply(workerKey: string, info: WorkerInfo, content: string, parse: string -> Option<Value>)
    requires forall i :: 0 <= i < |FencedBlocks(content, 0)| ==> parse(FencedBlocks(content, 0)[i]).None?
    requires parse("").None?
    requires BraceSpan(content).Some? ==> parse(BraceSpan(content).value).None?
    ensures ProcessSingleWorker(workerKey, info, Ok(content), parse) ==
      WorkerResult(workerKey, PackageNameOf(workerKey, info), List([]), 0, true, None)
  {
    assert FirstParse(FencedBlocks(content, 0), parse).None?;
    assert ExtractJson(content, parse, NoTasks) == NoTasks;
    assert ObjGet(NoTasks.entries, "tasks", List([])) == List([]);
  }

  /** A reply whose document is a dict with a list of tasks succeeds with
      exactly those tasks. */
  lemma ListReply(workerKey: string, info: WorkerInfo, content: string, parse: string -> Option<Value>,
                  tasks: seq<Value>)
    requires ExtractJson(content, parse, NoTasks).Obj?
    requires Lookup(ExtractJson(content, parse, NoTasks).entries, "tasks") == Some(List(tasks))
    ensures ProcessSingleWorker(workerKey, info, Ok(content), parse) ==
      WorkerResult(workerKey, PackageNameOf(workerKey, info), List(tasks), |tasks|, true, None)
  {
  }

  // ---------------------------------------------------------------------
  // Collecting the results

  /** The `worker_outputs` entry kept from a result; `success` and `error`
      are dropped. */
  function OutputOf(r: WorkerResult): WorkerOutput
  {
    WorkerOutput(Some(r.packageName), Some(r.tasks), r.taskCount)
  }

  /** The entry of one worker. */
  function WorkerEntry(prompts: map<string, WorkerInfo>, replies: string -> Result<string>,
                       parse: string -> Option<Value>, key: string): WorkerOutput
    requires key in prompts
  {
    OutputOf(ProcessSingleWorker(key, prompts[key], replies(key), parse))
  }

  /** The outputs of the workers whose keys are in `done`. */
  function CollectedOver(prompts: map<string, WorkerInfo>, replies: string -> Result<string>,
                         parse: string -> Option<Value>, done: set<string>): (m: map<string, WorkerOutput>)
    requires done <= prompts.Keys
    ensures m.Keys == done
  {
    map k | k in done :: WorkerEntry(prompts, replies, parse, k)
  }

  /** `worker_outputs` once every worker has completed: one entry per
      worker key. It mentions no completion order. */
  function Collected(prompts: map<string, WorkerInfo>, replies: string -> Result<string>,
                     parse: string -> Option<Value>): (m: map<string, WorkerOutput>)
    ensures m.Keys == prompts.Keys
  {
    CollectedOver(prompts, replies, parse, prompts.Keys)
  }

  /** The sum of the task counts of the entries named by `keys`. */
  function CountSum(outputs: map<string, WorkerOutput>, keys: seq<string>): int
    requires forall k :: k in keys ==> k in outputs
  {
    if keys == [] then 0
    else CountSum(outputs, keys[..|keys| - 1]) + outputs[keys[|keys| - 1]].taskCount
  }

  predicate Distinct(s: seq<string>)
  {
    forall i, j :: 0 <= i < j < |s| ==> s[i] != s[j]
  }

  /** Taking one key out of a sum leaves the sum of the others. */
  lemma {:induction false} CountSumRemove(outputs: map<string, WorkerOutput>, keys: seq<string>, j: nat)
    requires forall k :: k in keys ==> k in outputs
    requires j < |keys|
    ensures CountSum(outputs, keys) == CountSum(outputs, keys[..j] + keys[j + 1..]) + outputs[keys[j]].taskCount
    decreases |keys|
  {
    var n := |keys| - 1;
    if j < n {
      var init := keys[..n];
      CountSumRemove(outputs, init, j);
      var rest := keys[..j] + keys[j + 1..];
      assert rest[..|rest| - 1] == init[..j] + init[j + 1..];
      assert rest[|rest| - 1] == keys[n];
    } else {
      assert keys[..j] + keys[j + 1..] == keys[..n];
    }
  }

  /** Removing the element at `j` from a sequence without repeats leaves
      a sequence without repeats holding every other element. */
  lemma RemoveDistinct(s: seq<string>, j: nat)
    requires Distinct(s) && j < |s|
    ensures var r := s[..j] + s[j + 1..];
      Distinct(r) && forall k :: k in r <==> k in s && k != s[j]
  {
    var r := s[..j] + s[j + 1..];
    forall p, q | 0 <= p < q < |r| ensures r[p] != r[q] {
      var p' := if p < j then p else p + 1;
      var q' := if q < j then q else q + 1;
      assert r[p] == s[p'] && r[q] == s[q'];
    }
    forall k ensures k in r <==> k in s && k != s[j] {
      if k in r {
        var q :| 0 <= q < |r| && r[q] == k;
        if q < j { assert s[q] == k; } else { assert s[q + 1] == k; }
      }
      if k in s && k != s[j] {
        var q :| 0 <= q < |s| && s[q] == k;
        if q < j { assert r[q] == k; } else { assert r[q - 1] == k; }
      }
    }
  }

  /** The total does not depend on the order the keys are visited in. */
  lemma {:induction false} CountSumOrder(outputs: map<string, WorkerOutput>, a: seq<string>, b: seq<string>)
    requires forall k :: k in a ==> k in outputs
    requires Distinct(a) && Distinct(b) && (forall k :: k in a <==> k in b)
    ensures CountSum(outputs, a) == CountSum(outputs, b)
    decreases |a|
  {
    if a != [] {
      var x := a[|a| - 1];
      var a' := a[..|a| - 1];
      assert x in a;
      var j :| 0 <= j < |b| && b[j] == x;
      var b' := b[..j] + b[j + 1..];
      RemoveDistinct(a, |a| - 1);
      RemoveDistinct(b, j);
      assert a[..|a| - 1] + a[|a|..] == a';
      CountSumOrder(outputs, a', b');
      CountSumRemove(outputs, b, j);
    }
  }

  /** The collection loop of `category_worker_node`, over the workers in
      the order they complete. Whatever that order, the outputs are the
      same map; `totalTasks` sums the task counts and `completed` counts
      the results. */
  method CollectResults(prompts: map<string, WorkerInfo>, replies: string -> Result<string>,
                        parse: string -> Option<Value>, order: seq<string>)
    returns (outputs: map<string, WorkerOutput>, totalTasks: int, completed: nat)
    requires Distinct(order) && forall k :: k in order <==> k in prompts
    ensures outputs == Collected(prompts, replies, parse)
    ensures totalTasks == CountSum(outputs, order)
    ensures completed == |prompts|
  {
    outputs := map[];
    totalTasks := 0;
    completed := 0;
    for i := 0 to |order|
      invariant forall k :: k in outputs <==> k in order[..i]
      invariant forall k :: k in outputs ==> k in prompts && outputs[k] == WorkerEntry(prompts, replies, parse, k)
      invariant totalTasks == CountSum(outputs, order[..i])
      invariant completed == i
    {
      var workerKey := order[i];
      var result := ProcessSingleWorker(workerKey, prompts[workerKey], replies(workerKey), parse);
      completed := completed + 1;
      CollectStep(outputs, order, i, OutputOf(result));
      outputs := outputs[result.workerKey := OutputOf(result)];
      totalTasks := totalTasks + result.taskCount;
    }
    assert order[..|order|] == order;
    DistinctCount(order, prompts.Keys);
    CollectedEntries(prompts, replies, parse, outputs);
  }

  /** The bookkeeping of one step of the collection loop: the new key was
      not summed yet, and the sum grows by its count. */
  lemma CollectStep(outputs: map<string, WorkerOutput>, order: seq<string>, i: nat, out: WorkerOutput)
    requires Distinct(order) && i < |order|
    requires forall k :: k in outputs <==> k in order[..i]
    ensures forall k :: k in order[..i + 1] <==> k in outputs || k == order[i]
    ensures CountSum(outputs[order[i] := out], order[..i + 1]) == CountSum(outputs, order[..i]) + out.taskCount
  {
    assert order[..i + 1][..i] == order[..i];
    assert order[i] !in order[..i];
    CountSumFrame(outputs, order[i], out, order[..i]);
  }

  /** A map with the workers' keys and their entries is the collected map. */
  lemma CollectedEntries(prompts: map<string, WorkerInfo>, replies: string -> Result<string>,
                         parse: string -> Option<Value>, outputs: map<string, WorkerOutput>)
    requires forall k :: k in outputs <==> k in prompts
    requires forall k :: k in outputs ==> k in prompts && outputs[k] == WorkerEntry(prompts, replies, parse, k)
    ensures outputs == Collected(prompts, replies, parse)
  {
  }

  /** Adding an entry for a key not yet summed leaves the sum unchanged. */
  lemma {:induction false} CountSumFrame(outputs: map<string, WorkerOutput>, key: string, out: WorkerOutput, keys: seq<string>)
    requires forall k :: k in keys ==> k in outputs
    requires key !in keys
    ensures CountSum(outputs[key := out], keys) == CountSum(outputs, keys)
    decreases |keys|
  {
    if keys != [] {
      assert keys[|keys| - 1] in keys;
      CountSumFrame(outputs, key, out, keys[..|keys| - 1]);
    }
  }

  /** A sequence without repeats has as many elements as the set it lists. */
  lemma {:induction false} DistinctCount(s: seq<string>, keys: set<string>)
    requires Distinct(s) && forall k :: k in s <==> k in keys
    ensures |s| == |keys|
    decreases |s|
  {
    if s != [] {
      var x := s[|s| - 1];
      assert x in s;
      forall k ensures k in s[..|s| - 1] <==> k in keys - {x} {
        if k in keys - {x} {
          assert k in s;
          var i :| 0 <= i < |s| && s[i] == k;
          assert i < |s| - 1;
          assert s[..|s| - 1][i] == k;
        }
      }
      DistinctCount(s[..|s| - 1], keys - {x});
    }
  }

  /** `category_worker_node`. `order` is the order in which the workers
      complete. With no plan only the error is set; with a plan that has
      no workers the thread pool refuses a size of zero and the ValueError
      escapes, the state unchanged; otherwise `worker_outputs` is the
      collected map. */
  method CategoryWorkerNode(state: GraphState, replies: string -> Result<string>,
                            parse: string -> Option<Value>, order: seq<string>)
    returns (raised: Option<string>)
    requires state.orchestratorPlan.Some? ==>
      Distinct(order) && forall k :: k in order <==> k in state.orchestratorPlan.value.workerPrompts
    modifies state
    ensures old(state.orchestratorPlan).None? ==>
      raised.None? && state.Now() == old(state.Now()).(errorMessage := Some("No orchestrator plan found"))
    ensures old(state.orchestratorPlan).Some? && old(state.orchestratorPlan).value.workerPrompts == map[] ==>
      raised == Some("max_workers must be greater than 0") && state.Now() == old(state.Now())
    ensures old(state.orchestratorPlan).Some? && old(state.orchestratorPlan).value.workerPrompts != map[] ==>
      raised.None? &&
      state.Now() == old(state.Now()).(workerOutputs :=
        Some(Collected(old(state.orchestratorPlan).value.workerPrompts, replies, parse)))
  {
    raised := None;
    var plan := state.orchestratorPlan;
    if plan.None? {
      state.errorMessage := Some("No orchestrator plan found");
      return;
    }
    var workerPrompts := plan.value.workerPrompts;
    if workerPrompts == map[] {
      raised := Some("max_workers must be greater than 0");
      return;
    }
    var outputs, totalTasks, completed := CollectResults(workerPrompts, replies, parse, order);
    state.workerOutputs := Some(outputs);
  }
}
