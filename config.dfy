/** The fixed vocabularies of the planner: project types, plan levels and
    the spreadsheet columns of each plan type. */
module Config {

  const ProjectTypes: seq<string> :=
    ["Highrise", "Standalone Building", "Villa", "Commercial", "Infrastructure"]

  const PlanLevels: seq<string> := ["High-level Plan", "Detailed Plan"]

  const HighLevelColumns: seq<string> :=
    ["Phase Name", "Activity Name", "Task Name", "Task Category", "Task Duration"]

  const DetailedColumns: seq<string> :=
    ["Phase Name", "Activity Name", "Task Name", "Task Category",
     "Task Start Date", "Task End Date", "Work Quantity", "Work Rate",
     "Work UOM", "Task Description", "Priority", "Predecessor",
     "Dependency Type", "Successor"]
}
