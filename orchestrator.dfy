/** The orchestrator node: the work packages the model proposes turned into
    one worker prompt each. The model's reply is an input: the text it
    returned, or the message of the exception the call raised. The request
    text sent to the model only reaches the model and is not modelled. */
module Orchestrator {
  import opened Wrappers
  import opened Text
  import opened Values
  import opened State
  import opened Extract

  // ---------------------------------------------------------------------
  // Project context

  /** The context line of one scale entry. */
  function ContextLine(e: (string, Value)): string
  {
    "- " + FieldLabel(e.0) + ": " + Display(e.1) + "\n"
  }

  /** The lines of the entries with a truthy value, in entry order. */
  function ScaleContext(es: seq<(string, Value)>): string
  {
    if es == [] then ""
    else
      var e := es[|es| - 1];
      ScaleContext(es[..|es| - 1]) + (if Truthy(e.1) then ContextLine(e) else "")
  }

  /** The fixed part of the context: the four answers it shows. */
  function ContextHeader(responses: map<string, Value>): string
  {
    "\nProject Type: " + Display(Get(responses, "project_type", Str(""))) +
    "\nLocation: " + Display(Get(responses, "location", Str(""))) +
    "\nPlan Level: " + Display(Get(responses, "plan_level", Str("High-level Plan"))) +
    "\nStart Date: " + Display(Get(responses, "start_date", Str(""))) +
    "\n\nProject Scale Details:\n"
  }

  /** `format_project_context`. */
  function ProjectContext(responses: map<string, Value>): (context: string)
    requires ScaleIsDict(responses)
    ensures (forall i :: 0 <= i < |ScaleOf(responses)| ==> !Truthy(ScaleOf(responses)[i].1)) ==>
      context == ContextHeader(responses)
  {
    ScaleContextFalsy(ScaleOf(responses));
    ContextHeader(responses) + ScaleContext(ScaleOf(responses))
  }

  /** The loop of `format_project_context`, appending one line per truthy
      scale entry. */
  method FormatProjectContext(responses: map<string, Value>) returns (context: string)
    requires ScaleIsDict(responses)
    ensures context == ProjectContext(responses)
  {
    var scale := ScaleOf(responses);
    var header := ContextHeader(responses);
    context := header;
    for i := 0 to |scale|
      invariant context == header + ScaleContext(scale[..i])
    {
      ContextStep(header, scale, i);
      if Truthy(scale[i].1) {
        context := context + ContextLine(scale[i]);
      }
    }
    assert scale[..|scale|] == scale;
  }

  /** One more entry adds its line after the text so far, when its value
      is truthy. */
  lemma ContextStep(header: string, es: seq<(string, Value)>, i: nat)
    requires i < |es|
    ensures header + ScaleContext(es[..i + 1]) ==
      if Truthy(es[i].1) then (header + ScaleContext(es[..i])) + ContextLine(es[i])
      else header + ScaleContext(es[..i])
  {
    assert es[..i + 1][..i] == es[..i];
    if Truthy(es[i].1) {
      AppendAssoc(header, ScaleContext(es[..i]), ContextLine(es[i]));
    }
  }

  /** The scale lines of consecutive runs of entries follow each other. */
  lemma {:induction false} ScaleContextAppend(es: seq<(string, Value)>, fs: seq<(string, Value)>)
    ensures ScaleContext(es + fs) == ScaleContext(es) + ScaleContext(fs)
    decreases |fs|
  {
    if fs != [] {
      var n := |fs| - 1;
      ScaleContextAppend(es, fs[..n]);
      var all := es + fs;
      assert all[..|all| - 1] == es + fs[..n] && all[|all| - 1] == fs[n];
      var tail := if Truthy(fs[n].1) then ContextLine(fs[n]) else "";
      assert ScaleContext(all) == ScaleContext(es + fs[..n]) + tail;
      assert ScaleContext(fs) == ScaleContext(fs[..n]) + tail;
    } else {
      assert es + fs == es;
    }
  }

  /** One entry gives its line when its value is truthy and nothing
      otherwise; with `ScaleContextAppend` this fixes the whole text. */
  lemma ScaleContextSingle(e: (string, Value))
    ensures ScaleContext([e]) == if Truthy(e.1) then ContextLine(e) else ""
  {
    assert [e][..0] == [];
  }

  /** A scale whose values are all falsy adds nothing to the context. */
  lemma {:induction false} ScaleContextFalsy(es: seq<(string, Value)>)
    ensures (forall i :: 0 <= i < |es| ==> !Truthy(es[i].1)) ==> ScaleContext(es) == ""
    decreases |es|
  {
    if es != [] {
      assert forall i :: 0 <= i < |es| - 1 ==> es[..|es| - 1][i] == es[i];
      ScaleContextFalsy(es[..|es| - 1]);
    }
  }

  // ---------------------------------------------------------------------
  // Sizing

  /** How many workers to ask for, how many tasks each, and the target. */
  datatype Sizing = Sizing(numWorkers: int, tasksPerWorker: int, minTasks: int)

  /** 32 workers for a detailed plan and 8 otherwise, 13 tasks each; the
      requested workers cover the target (32 x 13 = 416 >= 400 and
      8 x 13 = 104 >= 100). */
  function WorkerSizing(planType: string): (s: Sizing)
    ensures s == (if planType == "detailed" then Sizing(32, 13, 400) else Sizing(8, 13, 100))
    ensures s.numWorkers * s.tasksPerWorker >= s.minTasks
  {
    if planType == "detailed" then Sizing(32, 13, 400) else Sizing(8, 13, 100)
  }

  // ---------------------------------------------------------------------
  // Worker prompts

  const Placeholder: string := "{phase_assignment}"

  /** The text of a value that is a `str`. */
  function AsText(v: Value): Option<string>
  {
    match v
    case Str(s) => Some(s)
    case Date(d) => Some(IsoDate(d))
    case _ => None
  }

  // The fixed text of the package section, between the values it shows.
  const PackageHead: string := "\n\n## YOUR WORK PACKAGE: "
  const ScopeHead: string := "\n\n**Scope:** "
  const DeliverablesHead: string := "\n\n**Key Deliverables:**\n"
  const RequirementsHead: string := "\n\n**Requirements:**\n1. Generate exactly "
  const RequirementsText: string :=
    " detailed, actionable tasks" +
    "\n2. Cover ALL aspects within your scope" +
    "\n3. Include: Planning, Procurement, Execution, Quality Check, Handover tasks" +
    "\n4. Each task must be specific and measurable" +
    "\n5. Use appropriate phase names that reflect "
  const StandardsText: string :=
    " projects" +
    "\n\n**Task Quality Standards:**" +
    "\n- Tasks should be 1-5 days in duration typically" +
    "\n- Include material/equipment procurement tasks" +
    "\n- Include inspection and approval milestones" +
    "\n- Include coordination tasks with other trades" +
    "\n- Be specific (not generic like \"do work\")" +
    "\n\nGenerate "
  const ClosingText: string := " high-quality tasks in the exact JSON format specified.\n"

  /** The package section appended to every worker prompt. */
  function PackageSection(name: Value, scope: Value, deliverables: seq<Value>, targetTasks: int, projectType: Value): string
  {
    var target := IntToString(targetTasks);
    PackageHead + Display(name) + ScopeHead + Display(scope) +
    DeliverablesHead + Join(DeliverableLines(deliverables), "\n") +
    RequirementsHead + target + RequirementsText + Display(projectType) +
    StandardsText + target + ClosingText
  }

  /** One "- d" line per deliverable. */
  function DeliverableLines(ds: seq<Value>): (lines: seq<string>)
    ensures |lines| == |ds|
  {
    seq(|ds|, i requires 0 <= i < |ds| => "- " + Display(ds[i]))
  }

  /** `create_worker_prompt` on a package dict: the placeholder replaced
      by the package name, then the package section. A name that is not a
      `str` makes `replace` raise; deliverables that do not iterate make
      the list comprehension raise. */
  function CreateWorkerPrompt(base: string, pkg: seq<(string, Value)>, responses: map<string, Value>,
                              targetTasks: int): (r: Result<string>)
    ensures r.Ok? <==> AsText(ObjGet(pkg, "name", Str(""))).Some? &&
                       Iterate(ObjGet(pkg, "key_deliverables", List([]))).Ok?
  {
    var name := ObjGet(pkg, "name", Str(""));
    var scope := ObjGet(pkg, "scope", Str(""));
    var deliverables := ObjGet(pkg, "key_deliverables", List([]));
    match AsText(name)
    case None => Raised("replace() argument 2 must be str, not " + TypeName(name))
    case Some(nameText) =>
      var prompt := Replace(base, Placeholder, nameText);
      match Iterate(deliverables)
      case Raised(m) => Raised(m)
      case Ok(ds) => Ok(prompt + PackageSection(name, scope, ds, targetTasks, Get(responses, "project_type", Str(""))))
  }

  /** A worker prompt is the base prompt with every placeholder replaced by
      the package name, followed by the package section. */
  lemma WorkerPromptSplice(base: string, pkg: seq<(string, Value)>, responses: map<string, Value>, targetTasks: int)
    requires CreateWorkerPrompt(base, pkg, responses, targetTasks).Ok?
    ensures var name := ObjGet(pkg, "name", Str(""));
      var ds := Iterate(ObjGet(pkg, "key_deliverables", List([]))).value;
      CreateWorkerPrompt(base, pkg, responses, targetTasks).value ==
        Join(Split(base, Placeholder), AsText(name).value) +
        PackageSection(name, ObjGet(pkg, "scope", Str("")), ds, targetTasks, Get(responses, "project_type", Str("")))
  {
    ReplaceIsJoinOfSplit(base, Placeholder, AsText(ObjGet(pkg, "name", Str(""))).value);
  }

  /** A base prompt without the placeholder is kept whole at the start. */
  lemma BaseKept(base: string, pkg: seq<(string, Value)>, responses: map<string, Value>, targetTasks: int)
    requires CreateWorkerPrompt(base, pkg, responses, targetTasks).Ok?
    requires !Contains(base, Placeholder)
    ensures var p := CreateWorkerPrompt(base, pkg, responses, targetTasks).value;
      |base| <= |p| && p[..|base|] == base
  {
    ReplaceAbsent(base, Placeholder, AsText(ObjGet(pkg, "name", Str(""))).value);
  }

  /** The deliverables block splits back into one "- d" line per
      deliverable when no deliverable shows a newline. */
  lemma DeliverablesListed(ds: seq<Value>)
    requires ds != []
    requires forall i, k :: 0 <= i < |ds| && 0 <= k < |Display(ds[i])| ==> Display(ds[i])[k] != '\n'
    ensures Split(Join(DeliverableLines(ds), "\n"), "\n") == DeliverableLines(ds)
  {
    var lines := DeliverableLines(ds);
    forall i, k | 0 <= i < |lines| && 0 <= k < |lines[i]| ensures lines[i][k] != '\n' {
      if k >= 2 { assert lines[i][k] == Display(ds[i])[k - 2]; }
    }
    SplitJoin(lines, "\n");
  }

  /** `f"worker_{pkg.get('id', len(worker_prompts) + 1)}"`. */
  function WorkerKey(pkg: seq<(string, Value)>, size: nat): (key: string)
    ensures |key| >= 7 && key[..7] == "worker_"
    ensures Lookup(pkg, "id").None? ==> key == "worker_" + NatToString(size + 1)
  {
    "worker_" + Display(ObjGet(pkg, "id", Int(size + 1)))
  }

  function InfoOf(prompt: string, pkg: seq<(string, Value)>, targetTasks: int): WorkerInfo
  {
    WorkerInfo(prompt, Some(ObjGet(pkg, "name", Str(""))), ObjGet(pkg, "scope", Str("")), targetTasks)
  }

  /** The worker entry `create_worker_prompt` gives for each package, or
      what it raises. */
  function WorkerInfos(base: string, pkgs: seq<seq<(string, Value)>>, responses: map<string, Value>,
                       targetTasks: int): (infos: seq<Result<WorkerInfo>>)
    ensures |infos| == |pkgs|
  {
    seq(|pkgs|, i requires 0 <= i < |pkgs| =>
      match CreateWorkerPrompt(base, pkgs[i], responses, targetTasks)
      case Raised(m) => Raised(m)
      case Ok(prompt) => Ok(InfoOf(prompt, pkgs[i], targetTasks)))
  }

  /** `worker_prompts` after the packages `pkgs`, whose entries are
      `infos`, or the first error: each package is written under the key
      `keyOf` gives it from the number of keys so far, overwriting an
      earlier package with the same key. */
  function WorkerPrompts(keyOf: (seq<(string, Value)>, nat) -> string, pkgs: seq<seq<(string, Value)>>,
                         infos: seq<Result<WorkerInfo>>): (r: Result<map<string, WorkerInfo>>)
    requires |infos| == |pkgs|
    ensures r.Ok? ==> |r.value| <= |pkgs|
    ensures r.Ok? ==> forall i :: 0 <= i < |infos| ==> infos[i].Ok?
  {
    if pkgs == [] then Ok(map[])
    else
      var n := |pkgs| - 1;
      match WorkerPrompts(keyOf, pkgs[..n], infos[..n])
      case Raised(m) => Raised(m)
      case Ok(wp) =>
        match infos[n]
        case Raised(m) => Raised(m)
        case Ok(info) =>
          assert forall i :: 0 <= i < n ==> infos[..n][i] == infos[i];
          var key := keyOf(pkgs[n], |wp|);
          assert wp[key := info].Keys == wp.Keys + {key};
          Ok(wp[key := info])
  }

  /** The error is the one the first failing package raises. */
  lemma {:induction false} FirstPromptError(keyOf: (seq<(string, Value)>, nat) -> string, pkgs: seq<seq<(string, Value)>>,
                                            infos: seq<Result<WorkerInfo>>, k: nat)
    requires |infos| == |pkgs| && k < |infos| && infos[k].Raised?
    requires forall i :: 0 <= i < k ==> infos[i].Ok?
    ensures WorkerPrompts(keyOf, pkgs, infos) == Raised(infos[k].message)
    decreases |pkgs|
  {
    var n := |pkgs| - 1;
    if k < n {
      assert forall i :: 0 <= i < k ==> infos[..n][i] == infos[i];
      FirstPromptError(keyOf, pkgs[..n], infos[..n], k);
    } else {
      assert forall i :: 0 <= i < n ==> infos[..n][i].Ok?;
      PromptsRaise(keyOf, pkgs[..n], infos[..n]);
    }
  }

  /** When every entry was built the map is built too. */
  lemma {:induction false} PromptsRaise(keyOf: (seq<(string, Value)>, nat) -> string, pkgs: seq<seq<(string, Value)>>,
                                        infos: seq<Result<WorkerInfo>>)
    requires |infos| == |pkgs|
    requires forall i :: 0 <= i < |infos| ==> infos[i].Ok?
    ensures WorkerPrompts(keyOf, pkgs, infos).Ok?
    decreases |pkgs|
  {
    if pkgs != [] {
      var n := |pkgs| - 1;
      assert forall i :: 0 <= i < n ==> infos[..n][i] == infos[i];
      PromptsRaise(keyOf, pkgs[..n], infos[..n]);
    }
  }

  /** The keys of `wp` are exactly the packages' keys, and each key holds
      the entry of the last package that has it. */
  ghost predicate KeyedByLast(keyOf: (seq<(string, Value)>, nat) -> string, pkgs: seq<seq<(string, Value)>>,
                        infos: seq<Result<WorkerInfo>>, wp: map<string, WorkerInfo>)
    requires |infos| == |pkgs| && forall i :: 0 <= i < |infos| ==> infos[i].Ok?
  {
    (forall key :: key in wp <==> exists i :: 0 <= i < |pkgs| && key == keyOf(pkgs[i], 0)) &&
    (forall i :: 0 <= i < |pkgs| && (forall j :: i < j < |pkgs| ==> keyOf(pkgs[j], 0) != keyOf(pkgs[i], 0)) ==>
       keyOf(pkgs[i], 0) in wp && wp[keyOf(pkgs[i], 0)] == infos[i].value)
  }

  /** When no package's key depends on the number of keys so far, each
      key holds the entry of the last package that has it. */
  lemma {:induction false} KeysStable(keyOf: (seq<(string, Value)>, nat) -> string, pkgs: seq<seq<(string, Value)>>,
                                      infos: seq<Result<WorkerInfo>>)
    requires |infos| == |pkgs|
    requires forall i, size :: 0 <= i < |pkgs| ==> keyOf(pkgs[i], size) == keyOf(pkgs[i], 0)
    requires WorkerPrompts(keyOf, pkgs, infos).Ok?
    ensures KeyedByLast(keyOf, pkgs, infos, WorkerPrompts(keyOf, pkgs, infos).value)
    decreases |pkgs|
  {
    if pkgs != [] {
      var n := |pkgs| - 1;
      KeysStable(keyOf, pkgs[..n], infos[..n]);
      var wp := WorkerPrompts(keyOf, pkgs[..n], infos[..n]).value;
      assert keyOf(pkgs[n], |wp|) == keyOf(pkgs[n], 0);
      KeysStep(keyOf, pkgs, infos, wp);
    }
  }

  /** One step of `KeysStable`: the last package's key is written over the
      keys of the others. */
  lemma KeysStep(keyOf: (seq<(string, Value)>, nat) -> string, pkgs: seq<seq<(string, Value)>>,
                 infos: seq<Result<WorkerInfo>>, wp: map<string, WorkerInfo>)
    requires |infos| == |pkgs| > 0 && forall i :: 0 <= i < |infos| ==> infos[i].Ok?
    requires KeyedByLast(keyOf, pkgs[..|pkgs| - 1], infos[..|pkgs| - 1], wp)
    ensures KeyedByLast(keyOf, pkgs, infos, wp[keyOf(pkgs[|pkgs| - 1], 0) := infos[|pkgs| - 1].value])
  {
    var n := |pkgs| - 1;
    var init, initInfos := pkgs[..n], infos[..n];
    var last := keyOf(pkgs[n], 0);
    var wp' := wp[last := infos[n].value];
    forall key ensures key in wp' <==> exists i :: 0 <= i < |pkgs| && key == keyOf(pkgs[i], 0) {
      if key in wp' {
        if key == last {
          assert key == keyOf(pkgs[n], 0);
        } else {
          assert key in wp;
          var i :| 0 <= i < n && key == keyOf(init[i], 0);
          assert key == keyOf(pkgs[i], 0);
        }
      }
      if exists i :: 0 <= i < |pkgs| && key == keyOf(pkgs[i], 0) {
        var i :| 0 <= i < |pkgs| && key == keyOf(pkgs[i], 0);
        if i < n { assert key == keyOf(init[i], 0); assert key in wp; }
      }
    }
    forall i | 0 <= i < |pkgs| && (forall j :: i < j < |pkgs| ==> keyOf(pkgs[j], 0) != keyOf(pkgs[i], 0))
      ensures keyOf(pkgs[i], 0) in wp' && wp'[keyOf(pkgs[i], 0)] == infos[i].value
    {
      if i < n {
        assert init[i] == pkgs[i] && initInfos[i] == infos[i];
        assert forall j :: i < j < n ==> init[j] == pkgs[j];
      }
    }
  }

  /** A package with an `id` has the same key whatever the number of keys
      so far. */
  lemma IdKey(pkg: seq<(string, Value)>, size: nat)
    requires Lookup(pkg, "id").Some?
    ensures WorkerKey(pkg, size) == "worker_" + Display(Lookup(pkg, "id").value)
  {
  }

  /** When every package names its `id`, the keys of `worker_prompts` are
      exactly the packages' keys, and each key holds the entry of the last
      package that has it. */
  lemma KeysFromIds(pkgs: seq<seq<(string, Value)>>, infos: seq<Result<WorkerInfo>>)
    requires |infos| == |pkgs|
    requires forall i :: 0 <= i < |pkgs| ==> Lookup(pkgs[i], "id").Some?
    requires WorkerPrompts(WorkerKey, pkgs, infos).Ok?
    ensures KeyedByLast(WorkerKey, pkgs, infos, WorkerPrompts(WorkerKey, pkgs, infos).value)
  {
    forall i, size | 0 <= i < |pkgs| ensures WorkerKey(pkgs[i], size) == WorkerKey(pkgs[i], 0) {
      IdKey(pkgs[i], size);
      IdKey(pkgs[i], 0);
    }
    KeysStable(WorkerKey, pkgs, infos);
  }

  /** A package without an `id` takes the number of keys so far plus one,
      which can be a key already written: after a package without an id
      comes one with `id` 1, both are "worker_1" and only the second
      remains. */
  lemma MissingIdCollides(p0: seq<(string, Value)>, p1: seq<(string, Value)>, infos: seq<Result<WorkerInfo>>)
    requires Lookup(p0, "id").None? && Lookup(p1, "id") == Some(Int(1))
    requires |infos| == 2 && WorkerPrompts(WorkerKey, [p0, p1], infos).Ok?
    ensures var wp := WorkerPrompts(WorkerKey, [p0, p1], infos).value;
      wp.Keys == {"worker_1"} && wp["worker_1"] == infos[1].value
  {
    assert [p0, p1][..1] == [p0] && infos[..1] == [infos[0]];
    assert [p0][..0] == [] && [infos[0]][..0] == [];
    assert WorkerKey(p0, 0) == "worker_1" by { assert IntToString(1) == "1"; }
    assert WorkerKey(p1, 1) == "worker_1" by { assert IntToString(1) == "1"; }
  }

  /** The loop that builds `worker_prompts`. */
  method BuildWorkerPrompts(base: string, pkgs: seq<seq<(string, Value)>>, responses: map<string, Value>,
                            targetTasks: int) returns (r: Result<map<string, WorkerInfo>>)
    ensures r == WorkerPrompts(WorkerKey, pkgs, WorkerInfos(base, pkgs, responses, targetTasks))
  {
    ghost var infos := WorkerInfos(base, pkgs, responses, targetTasks);
    var workerPrompts: map<string, WorkerInfo> := map[];
    for i := 0 to |pkgs|
      invariant WorkerPrompts(WorkerKey, pkgs[..i], infos[..i]) == Ok(workerPrompts)
    {
      var pkg := pkgs[i];
      var workerKey := WorkerKey(pkg, |workerPrompts|);
      var workerPrompt := CreateWorkerPrompt(base, pkg, responses, targetTasks);
      PromptStep(WorkerKey, pkgs, infos, i, workerPrompts);
      if workerPrompt.Raised? {
        assert infos[i] == Raised(workerPrompt.message);
        return Raised(workerPrompt.message);
      }
      assert infos[i] == Ok(InfoOf(workerPrompt.value, pkg, targetTasks));
      workerPrompts := workerPrompts[workerKey := InfoOf(workerPrompt.value, pkg, targetTasks)];
    }
    assert pkgs[..|pkgs|] == pkgs && infos[..|pkgs|] == infos;
    return Ok(workerPrompts);
  }

  /** One turn of `BuildWorkerPrompts`: an entry that raises ends the
      build with its error, and one that is built is written under the
      package's key. */
  lemma PromptStep(keyOf: (seq<(string, Value)>, nat) -> string, pkgs: seq<seq<(string, Value)>>,
                   infos: seq<Result<WorkerInfo>>, i: nat, wp: map<string, WorkerInfo>)
    requires |infos| == |pkgs| && i < |pkgs|
    requires WorkerPrompts(keyOf, pkgs[..i], infos[..i]) == Ok(wp)
    ensures infos[i].Raised? ==> WorkerPrompts(keyOf, pkgs, infos) == Raised(infos[i].message)
    ensures infos[i].Ok? ==> WorkerPrompts(keyOf, pkgs[..i + 1], infos[..i + 1]) ==
                             Ok(wp[keyOf(pkgs[i], |wp|) := infos[i].value])
  {
    assert pkgs[..i + 1][..i] == pkgs[..i] && infos[..i + 1][..i] == infos[..i];
    if infos[i].Raised? {
      assert forall j :: 0 <= j < i ==> infos[..i][j] == infos[j];
      FirstPromptError(keyOf, pkgs, infos, i);
    }
  }

  // ---------------------------------------------------------------------
  // The node

  /** The index of the first item that is not a dict, where the printing
      loop's `pkg.get` raises. */
  function FirstNonDict(items: seq<Value>): (r: Option<nat>)
    ensures r.None? <==> forall i :: 0 <= i < |items| ==> items[i].Obj?
    ensures r.Some? ==> r.value < |items| && !items[r.value].Obj? &&
                        forall i :: 0 <= i < r.value ==> items[i].Obj?
  {
    if items == [] then None
    else if !items[0].Obj? then Some(0)
    else match FirstNonDict(items[1..])
         case None => None
         case Some(k) => Some(k + 1)
  }

  function PackageDicts(items: seq<Value>): (pkgs: seq<seq<(string, Value)>>)
    requires forall i :: 0 <= i < |items| ==> items[i].Obj?
    ensures |pkgs| == |items|
  {
    seq(|items|, i requires 0 <= i < |items| => items[i].entries)
  }

  /** The work packages of the reply, or what the `try` block raised on
      the way to them: the model call, `.get` on a document that is not a
      dict, a falsy package list, a list that does not iterate, or an item
      that is not a dict. */
  function WorkPackages(reply: Result<string>, parse: string -> Option<Value>): (r: Result<seq<seq<(string, Value)>>>)
    ensures r.Ok? ==> r.value != []
  {
    match reply
    case Raised(m) => Raised(m)
    case Ok(content) =>
      var plan := ExtractJson(content, parse, Obj([]));
      if !plan.Obj? then Raised(NoGetMessage(plan))
      else
        var packages := ObjGet(plan.entries, "work_packages", List([]));
        if !Truthy(packages) then Raised("No work packages received")
        else match Iterate(packages)
          case Raised(m) => Raised(m)
          case Ok(items) =>
            match FirstNonDict(items)
            case Some(k) => Raised(NoGetMessage(items[k]))
            case None =>
              TruthyItems(packages);
              Ok(PackageDicts(items))
  }

  /** A truthy value that iterates has at least one item. */
  lemma TruthyItems(v: Value)
    requires Truthy(v) && Iterate(v).Ok?
    ensures Iterate(v).value != []
  {
    if v.Date? {
      assert |IsoDate(v.day)| > 0;
    }
  }

  /** The plan, or the message the node reports after "Orchestration
      failed: ". */
  function Orchestration(enrichedPrompt: string, responses: map<string, Value>, planType: string,
                         reply: Result<string>, parse: string -> Option<Value>): (r: Result<OrchestratorPlan>)
    ensures r.Ok? ==> r.value.numWorkers == |r.value.workerPrompts| > 0
    ensures r.Ok? ==> r.value.planType == planType && r.value.tasksPerWorker == 13
    ensures r.Ok? ==> r.value.minTasks == (if planType == "detailed" then 400 else 100)
  {
    var sizing := WorkerSizing(planType);
    match WorkPackages(reply, parse)
    case Raised(m) => Raised(m)
    case Ok(pkgs) =>
      var infos := WorkerInfos(enrichedPrompt, pkgs, responses, sizing.tasksPerWorker);
      match WorkerPrompts(WorkerKey, pkgs, infos)
      case Raised(m) => Raised(m)
      case Ok(wp) =>
        assert |wp| > 0 by { NonEmptyPrompts(WorkerKey, pkgs, infos); }
        Ok(OrchestratorPlan(wp, planType, sizing.minTasks, |wp|, sizing.tasksPerWorker,
                            Get(responses, "project_type", Str("General"))))
  }

  /** At least one package gives at least one worker. */
  lemma NonEmptyPrompts(keyOf: (seq<(string, Value)>, nat) -> string, pkgs: seq<seq<(string, Value)>>,
                        infos: seq<Result<WorkerInfo>>)
    requires |infos| == |pkgs| > 0 && WorkerPrompts(keyOf, pkgs, infos).Ok?
    ensures |WorkerPrompts(keyOf, pkgs, infos).value| > 0
  {
    var n := |pkgs| - 1;
    var wp := WorkerPrompts(keyOf, pkgs[..n], infos[..n]).value;
    assert keyOf(pkgs[n], |wp|) in WorkerPrompts(keyOf, pkgs, infos).value;
  }

  /** A reply in which nothing parses fails the orchestration: the
      fallback document `{}` has no work packages. */
  lemma UnreadablePlanFails(enrichedPrompt: string, responses: map<string, Value>, planType: string,
                            content: string, parse: string -> Option<Value>)
    requires forall i :: 0 <= i < |FencedBlocks(content, 0)| ==> parse(FencedBlocks(content, 0)[i]).None?
    requires parse("").None?
    requires BraceSpan(content).Some? ==> parse(BraceSpan(content).value).None?
    ensures Orchestration(enrichedPrompt, responses, planType, Ok(content), parse) == Raised("No work packages received")
  {
    assert ExtractJson(content, parse, Obj([])) == Obj([]) by {
      assert FirstParse(FencedBlocks(content, 0), parse).None?;
    }
    EmptyPlanFails(content, parse);
  }

  /** A reply read as the document `{}` has no work packages. */
  lemma EmptyPlanFails(content: string, parse: string -> Option<Value>)
    requires ExtractJson(content, parse, Obj([])) == Obj([])
    ensures WorkPackages(Ok(content), parse) == Raised("No work packages received")
  {
    assert ObjGet([], "work_packages", List([])) == List([]);
  }

  /** `orchestrator_node`. The project context is formatted for the
      request to the model; a falsy enriched prompt only sets the error,
      and a failure anywhere after the request sets "Orchestration
      failed: ..." and no plan. */
  method OrchestratorNode(state: GraphState, reply: Result<string>, parse: string -> Option<Value>)
    requires state.enrichedPrompt.Some? && state.enrichedPrompt.value != "" ==>
      ScaleIsDict(state.questionnaireResponses.GetOr(map[]))
    modifies state
    ensures old(state.enrichedPrompt).None? || old(state.enrichedPrompt).value == "" ==>
      state.Now() == old(state.Now()).(errorMessage := Some("No enriched prompt found for orchestration"))
    ensures old(state.enrichedPrompt).Some? && old(state.enrichedPrompt).value != "" ==>
      var r := Orchestration(old(state.enrichedPrompt).value, old(state.questionnaireResponses).GetOr(map[]),
                             PlanTypeOf(old(state.planType)), reply, parse);
      (r.Ok? ==> state.Now() == old(state.Now()).(orchestratorPlan := Some(r.value))) &&
      (r.Raised? ==> state.Now() == old(state.Now()).(errorMessage := Some("Orchestration failed: " + r.message)))
  {
    var enrichedPrompt := state.enrichedPrompt.GetOr("");
    var responses := state.questionnaireResponses.GetOr(map[]);
    var planType := PlanTypeOf(state.planType);
    if enrichedPrompt == "" {
      state.errorMessage := Some("No enriched prompt found for orchestration");
      return;
    }
    var projectContext := FormatProjectContext(responses);
    var sizing := WorkerSizing(planType);
    var packages := WorkPackages(reply, parse);
    if packages.Raised? {
      state.errorMessage := Some("Orchestration failed: " + packages.message);
      return;
    }
    var workerPrompts := BuildWorkerPrompts(enrichedPrompt, packages.value, responses, sizing.tasksPerWorker);
    if workerPrompts.Raised? {
      state.errorMessage := Some("Orchestration failed: " + workerPrompts.message);
      return;
    }
    var prompts := workerPrompts.value;
    state.orchestratorPlan := Some(OrchestratorPlan(prompts, planType, sizing.minTasks, |prompts|,
                                                    sizing.tasksPerWorker, Get(responses, "project_type", Str("General"))));
  }
}
