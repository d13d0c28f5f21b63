/** The prompt node: the project start date chosen from the start-date
    preference, the scale-detail lines of each project type, and the
    enriched prompt handed to the orchestrator. */
module Prompt {
  import opened Wrappers
  import opened Text
  import opened Values
  import opened State

  // ---------------------------------------------------------------------
  // Calendar

  /** `date.weekday()` of a day number: Monday is 0. Day 0, 1970-01-01, was
      a Thursday. */
  function Weekday(day: int): (w: int)
    ensures 0 <= w < 7
  {
    (day + 3) % 7
  }

  predicate IsMonday(day: int) { Weekday(day) == 0 }

  /** `(7 - d.weekday()) % 7`: days from `day` to the next Monday, zero on a
      Monday. */
  function DaysUntilMonday(day: int): (k: int)
    ensures 0 <= k < 7 && IsMonday(day + k)
    ensures forall j :: day <= j < day + k ==> !IsMonday(j)
  {
    (7 - Weekday(day)) % 7
  }

  /** The Monday after `today`, a full week ahead when today is a Monday. */
  function NextMonday(today: int): (d: int)
    ensures today < d <= today + 7 && IsMonday(d)
    ensures forall j :: today < j < d ==> !IsMonday(j)
  {
    var k := DaysUntilMonday(today);
    today + (if k == 0 then 7 else k)
  }

  /** The day `calculate_project_start_date` settles on. `parseDate` is
      `strptime(_, "%Y-%m-%d")`: the day a string names, or `None` when it
      raises ValueError. */
  function StartDay(preference: string, today: int, parseDate: string -> Option<int>): (d: int)
    ensures parseDate(preference) != Some(d) ==> today < d && IsMonday(d)
  {
    if preference == "Immediate" then NextMonday(today)
    else if preference == "Within 1 Month" then
      var s := today + 30;
      s + DaysUntilMonday(s)
    else
      match parseDate(preference)
      case Some(d) => d
      case None => NextMonday(today)
  }

  /** `calculate_project_start_date`: the start day as "YYYY-MM-DD". */
  function CalculateProjectStartDate(preference: string, today: int, parseDate: string -> Option<int>): (r: string)
    ensures |r| >= 10
  {
    IsoDate(StartDay(preference, today, parseDate))
  }

  /** "Immediate" starts on the first Monday strictly after today. */
  lemma StartImmediate(today: int, parseDate: string -> Option<int>)
    ensures var d := StartDay("Immediate", today, parseDate);
      today < d <= today + 7 && IsMonday(d) &&
      forall j :: today < j < d ==> !IsMonday(j)
  {
  }

  /** "Within 1 Month" starts on the first Monday at least 30 days out. */
  lemma StartWithinMonth(today: int, parseDate: string -> Option<int>)
    ensures var d := StartDay("Within 1 Month", today, parseDate);
      today + 30 <= d <= today + 36 && IsMonday(d) &&
      forall j :: today + 30 <= j < d ==> !IsMonday(j)
  {
  }

  /** Any other preference is a date of its own; one that does not parse
      falls back to the "Immediate" choice. */
  lemma StartCustom(preference: string, today: int, parseDate: string -> Option<int>)
    requires preference != "Immediate" && preference != "Within 1 Month"
    ensures parseDate(preference).Some? ==> StartDay(preference, today, parseDate) == parseDate(preference).value
    ensures parseDate(preference).None? ==>
      StartDay(preference, today, parseDate) == StartDay("Immediate", today, parseDate)
  {
  }

  // ---------------------------------------------------------------------
  // Scale details

  /** The scale fields shown for a project type, as (label, key, unit). */
  function ScaleFields(projectType: Value): seq<(string, string, string)>
  {
    if projectType == Str("Highrise") then
      [("Total Land Area", "total_land_area", ""),
       ("Number of Towers", "number_of_towers", ""),
       ("Floors per Tower", "floors_per_tower", ""),
       ("Average Flat Size", "average_flat_size", "")]
    else if projectType == Str("Standalone Building") then
      [("Total Built-up Area", "total_built_up_area", ""),
       ("Number of Floors", "number_of_floors", ""),
       ("Purpose", "purpose", "")]
    else if projectType == Str("Villa") then
      [("Number of Villas", "number_of_villas", ""),
       ("Average Villa Size", "average_villa_size", ""),
       ("Number of Floors", "villa_floors", "")]
    else if projectType == Str("Commercial") then
      [("Total Built-up Area", "total_built_up_area", ""),
       ("Number of Floors", "number_of_floors", ""),
       ("Usage Type", "usage_type", "")]
    else if projectType == Str("Infrastructure") then
      [("Infrastructure Type", "infrastructure_type", ""),
       ("Approximate Length/Area", "approximate_length_or_area", ""),
       ("Estimated Duration", "estimated_duration_months", " months")]
    else []
  }

  /** One "- Label: value" line; a missing answer shows as "N/A". */
  function ScaleLine(field: (string, string, string), scale: seq<(string, Value)>): string
  {
    "- " + field.0 + ": " + Display(ObjGet(scale, field.1, Str("N/A"))) + field.2
  }

  function ScaleLines(projectType: Value, scale: seq<(string, Value)>): (lines: seq<string>)
    ensures |lines| <= 4
    ensures forall i :: 0 <= i < |lines| ==> |lines[i]| > 2 && lines[i][..2] == "- "
  {
    var fields := ScaleFields(projectType);
    seq(|fields|, i requires 0 <= i < |fields| => ScaleLine(fields[i], scale))
  }

  /** `format_project_scale_details`. */
  function FormatProjectScaleDetails(projectType: Value, scale: seq<(string, Value)>): (r: string)
    ensures r == "" <==> ScaleLines(projectType, scale) == []
    ensures r != "" ==> |r| > 2 && r[..2] == "- "
  {
    Join(ScaleLines(projectType, scale), "\n")
  }

  /** A high-rise shows four lines, the other known types three, an unknown
      type nothing; each line names its field and shows its answer, or
      "N/A" when the answer is missing. */
  lemma ScaleLinesShape(projectType: Value, scale: seq<(string, Value)>)
    ensures var lines := ScaleLines(projectType, scale);
      |lines| == (if projectType == Str("Highrise") then 4
                  else if projectType in {Str("Standalone Building"), Str("Villa"), Str("Commercial"), Str("Infrastructure")} then 3
                  else 0)
    ensures forall i :: 0 <= i < |ScaleLines(projectType, scale)| ==>
      var f := ScaleFields(projectType)[i];
      Lookup(scale, f.1).None? ==> ScaleLines(projectType, scale)[i] == "- " + f.0 + ": N/A" + f.2
    ensures forall i :: 0 <= i < |ScaleLines(projectType, scale)| ==>
      var f := ScaleFields(projectType)[i];
      Lookup(scale, f.1).Some? ==>
        ScaleLines(projectType, scale)[i] == "- " + f.0 + ": " + Display(Lookup(scale, f.1).value) + f.2
  {
  }

  /** The details are the lines joined by newlines: when no answer holds a
      newline, splitting the text at newlines gives the lines back, and an
      unknown type gives the empty text. */
  lemma {:induction false} ScaleDetailsRoundTrip(projectType: Value, scale: seq<(string, Value)>)
    requires forall i, k :: 0 <= i < |ScaleLines(projectType, scale)| && 0 <= k < |ScaleLines(projectType, scale)[i]| ==>
      ScaleLines(projectType, scale)[i][k] != '\n'
    ensures ScaleLines(projectType, scale) != [] ==>
      Split(FormatProjectScaleDetails(projectType, scale), "\n") == ScaleLines(projectType, scale)
    ensures ScaleLines(projectType, scale) == [] ==> FormatProjectScaleDetails(projectType, scale) == ""
  {
    var lines := ScaleLines(projectType, scale);
    if lines != [] {
      SplitJoin(lines, "\n");
    }
  }

  // ---------------------------------------------------------------------
  // The node

  /** The answers' `project_scale` as `.get` sees it: its entries, or no
      entries when the answer is missing. */
  function ScaleEntries(responses: map<string, Value>): seq<(string, Value)>
  {
    if "project_scale" in responses && responses["project_scale"].Obj? then responses["project_scale"].entries else []
  }

  /** The answers the prompt node can read without raising: a scale that is
      a dict whenever the project type shows its fields, and a start-date
      preference that is a string. */
  predicate PromptReadable(responses: map<string, Value>)
  {
    (ScaleFields(Get(responses, "project_type", Str(""))) != [] && "project_scale" in responses ==>
       responses["project_scale"].Obj?) &&
    ("start_date" in responses ==> responses["start_date"].Str?)
  }

  function StartPreference(responses: map<string, Value>): string
    requires "start_date" in responses ==> responses["start_date"].Str?
  {
    if "start_date" in responses then responses["start_date"].s else "Immediate"
  }

  /** `prompt_node`. The template file, its output-format instructions and
      the current date are folded into `render`, which receives the answers,
      the plan type, the scale details and the start date. */
  method PromptNode(state: GraphState, today: int, parseDate: string -> Option<int>,
                    render: (map<string, Value>, string, string, string) -> string)
    requires state.questionnaireResponses.Some? ==> PromptReadable(state.questionnaireResponses.value)
    modifies state
    ensures NoResponses(old(state.questionnaireResponses)) ==>
      state.Now() == old(state.Now()).(errorMessage := Some("No questionnaire responses found for prompt generation"))
    ensures !NoResponses(old(state.questionnaireResponses)) ==>
      var r := old(state.questionnaireResponses).value;
      state.Now() == old(state.Now()).(enrichedPrompt := Some(render(r, PlanTypeOf(old(state.planType)),
        FormatProjectScaleDetails(Get(r, "project_type", Str("")), ScaleEntries(r)),
        CalculateProjectStartDate(StartPreference(r), today, parseDate))))
  {
    var responses := state.questionnaireResponses;
    if NoResponses(responses) {
      state.errorMessage := Some("No questionnaire responses found for prompt generation");
      return;
    }
    var r := responses.value;
    var details := FormatProjectScaleDetails(Get(r, "project_type", Str("")), ScaleEntries(r));
    var start := CalculateProjectStartDate(StartPreference(r), today, parseDate);
    state.enrichedPrompt := Some(render(r, PlanTypeOf(state.planType), details, start));
  }
}
