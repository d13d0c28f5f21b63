/** The records that flow between the pipeline's nodes, and the graph state
    every node reads and writes. */
module State {
  import opened Wrappers
  import opened Values

  /** The `validation_result` entry: whether the answers passed and why not. */
  datatype ValidationResult = ValidationResult(isValid: bool, errors: seq<string>)

  /** One entry of the orchestrator's `worker_prompts`. */
  datatype WorkerInfo = WorkerInfo(prompt: string, packageName: Option<Value>, scope: Value, targetTasks: int)

  /** The `orchestrator_plan` entry. */
  datatype OrchestratorPlan = OrchestratorPlan(
    workerPrompts: map<string, WorkerInfo>,
    planType: string,
    minTasks: int,
    numWorkers: int,
    tasksPerWorker: int,
    projectType: Value)

  /** One entry of `worker_outputs`: the package name, the raw `tasks`
      value of the reply and its length. `None` stands for a missing key. */
  datatype WorkerOutput = WorkerOutput(packageName: Option<Value>, tasks: Option<Value>, taskCount: int)

  /** The `project_info` part of the aggregated plan (its timestamp is not
      modelled). */
  datatype ProjectInfo = ProjectInfo(
    location: Value,
    projectType: Value,
    planLevel: Value,
    startDate: Value,
    projectScale: Value)

  /** The `aggregated_json` entry handed to the spreadsheet renderer. */
  datatype AggregatedPlan = AggregatedPlan(
    projectInfo: ProjectInfo,
    planType: string,
    tasks: seq<Task>,
    totalTasks: int)

  /** The entries of the graph state at one moment, as a value. */
  datatype Snapshot = Snapshot(
    questionnaireResponses: Option<map<string, Value>>,
    validationResult: Option<ValidationResult>,
    enrichedPrompt: Option<string>,
    orchestratorPlan: Option<OrchestratorPlan>,
    workerOutputs: Option<map<string, WorkerOutput>>,
    aggregatedJson: Option<AggregatedPlan>,
    planType: Option<string>,
    excelPath: Option<string>,
    errorMessage: Option<string>)

  /** The graph state; every entry starts out as `None`. */
  class GraphState {
    var questionnaireResponses: Option<map<string, Value>>
    var validationResult: Option<ValidationResult>
    var enrichedPrompt: Option<string>
    var orchestratorPlan: Option<OrchestratorPlan>
    var workerOutputs: Option<map<string, WorkerOutput>>
    var aggregatedJson: Option<AggregatedPlan>
    var planType: Option<string>
    var excelPath: Option<string>
    var errorMessage: Option<string>

    /** The current entries. A node's contract compares the snapshot after
        it with the snapshot before it, updated in the entries it writes. */
    function Now(): Snapshot
      reads this
    {
      Snapshot(questionnaireResponses, validationResult, enrichedPrompt, orchestratorPlan,
               workerOutputs, aggregatedJson, planType, excelPath, errorMessage)
    }

    /** `create_initial_state`. */
    constructor ()
      ensures questionnaireResponses == None && validationResult == None
      ensures enrichedPrompt == None && orchestratorPlan == None
      ensures workerOutputs == None && aggregatedJson == None
      ensures planType == None && excelPath == None && errorMessage == None
    {
      questionnaireResponses := None;
      validationResult := None;
      enrichedPrompt := None;
      orchestratorPlan := None;
      workerOutputs := None;
      aggregatedJson := None;
      planType := None;
      excelPath := None;
      errorMessage := None;
    }
  }

  /** `state.get("plan_type", "high_level")`. */
  function PlanTypeOf(p: Option<string>): string
  {
    p.GetOr("high_level")
  }

  /** `responses.get("project_scale", {})` is a dict: the answer is
      missing or a dict. */
  predicate ScaleIsDict(responses: map<string, Value>)
  {
    "project_scale" in responses ==> responses["project_scale"].Obj?
  }

  /** The entries of `responses.get("project_scale", {})`. */
  function ScaleOf(responses: map<string, Value>): seq<(string, Value)>
    requires ScaleIsDict(responses)
  {
    if "project_scale" in responses then responses["project_scale"].entries else []
  }

  /** `state.get(key, {})` on the questionnaire answers is falsy. */
  predicate NoResponses(r: Option<map<string, Value>>)
  {
    r.None? || r.value == map[]
  }
}
