/** The spreadsheet renderer: the cell values of the "Project Plan" sheet,
    one row per task and one column per header of the plan type, and the
    path the workbook is saved under. Styling and the file itself are not
    modelled; a sheet is the map from (row, column) to the cell's value. */
module ExcelGenerator {
  import opened Wrappers
  import opened Text
  import opened Values
  import opened State
  import opened Config

  /** `column_key_map`: the task field shown under each known column
      header. */
  const ColumnKeyTable: seq<(string, string)> := [
    ("Phase Name", "phase_name"),
    ("Activity Name", "activity_name"),
    ("Task Name", "task_name"),
    ("Task Category", "task_category"),
    ("Task Duration", "task_duration"),
    ("Task Start Date", "task_start_date"),
    ("Task End Date", "task_end_date"),
    ("Work Quantity", "work_quantity"),
    ("Work Rate", "work_rate"),
    ("Work UOM", "work_uom"),
    ("Task Description", "task_description"),
    ("Priority", "priority"),
    ("Predecessor", "predecessor"),
    ("Dependency Type", "dependency_type"),
    ("Successor", "successor")]

  const NoAggregateMessage := "No aggregated JSON found for Excel generation"

  /** `column.lower().replace(" ", "_")`: the field an unknown header reads. */
  function SnakeKey(column: string): string
  {
    Replace(Lower(column), " ", "_")
  }

  /** The snake-case of a header, character by character. */
  function SnakeChars(column: string): (r: string)
    ensures |r| == |column|
  {
    seq(|column|, i requires 0 <= i < |column| =>
      if column[i] == ' ' then '_' else LowerChar(column[i]))
  }

  /** Lower-casing and then turning spaces into underscores maps each
      character on its own. */
  lemma SnakeKeyChars(column: string)
    ensures SnakeKey(column) == SnakeChars(column)
  {
    ReplaceOneChar(Lower(column), ' ', '_');
    assert SwapChar(Lower(column), ' ', '_') == SnakeChars(column);
  }

  /** `column_key_map.get(column, column.lower().replace(" ", "_"))` over
      the entries `table` of the map, searched from entry `from` on: the key
      of the entry for the header, or its snake-case when there is none. */
  function KeyFor(table: seq<(string, string)>, column: string, from: nat): string
    decreases |table| - from
  {
    if from >= |table| then SnakeKey(column)
    else if table[from].0 == column then table[from].1
    else KeyFor(table, column, from + 1)
  }

  /** The field a header reads: every header, known or not, reads its own
      snake-case field. */
  function ColumnKey(column: string): (key: string)
    ensures key == SnakeChars(column)
  {
    ColumnKeyTableIsSnake();
    SnakeTableKey(ColumnKeyTable, column, 0);
    KeyFor(ColumnKeyTable, column, 0)
  }

  /** Every entry of the table maps a header to its snake-case. */
  predicate SnakeTable(table: seq<(string, string)>)
  {
    forall i :: 0 <= i < |table| ==> table[i].1 == SnakeChars(table[i].0)
  }

  /** A table of snake-case entries changes nothing: the lookup gives the
      snake-case whether or not the header is in it. */
  lemma {:induction false} SnakeTableKey(table: seq<(string, string)>, column: string, from: nat)
    requires SnakeTable(table)
    ensures KeyFor(table, column, from) == SnakeChars(column)
    decreases |table| - from
  {
    if from >= |table| {
      SnakeKeyChars(column);
    } else if table[from].0 != column {
      SnakeTableKey(table, column, from + 1);
    }
  }

  /** The fixed keys are the snake-case of their headers. */
  lemma ColumnKeyTableIsSnake()
    ensures SnakeTable(ColumnKeyTable)
  {
    forall i | 0 <= i < |ColumnKeyTable|
      ensures ColumnKeyTable[i].1 == SnakeChars(ColumnKeyTable[i].0)
    {
      if i < 5 {
        KnownKeysFirst(i);
      } else if i < 10 {
        KnownKeysSecond(i);
      } else {
        KnownKeysThird(i);
      }
    }
  }

  /** The table's entries, checked five at a time. */
  lemma KnownKeysFirst(i: nat)
    requires i < 5
    ensures ColumnKeyTable[i].1 == SnakeChars(ColumnKeyTable[i].0)
  {
  }

  lemma KnownKeysSecond(i: nat)
    requires 5 <= i < 10
    ensures ColumnKeyTable[i].1 == SnakeChars(ColumnKeyTable[i].0)
  {
  }

  lemma KnownKeysThird(i: nat)
    requires 10 <= i < 15
    ensures ColumnKeyTable[i].1 == SnakeChars(ColumnKeyTable[i].0)
  {
  }

  /** `get_task_value`: the task's field for the header, with a missing
      field and a `None` both shown as an empty string. */
  function GetTaskValue(task: Task, column: string): (v: Value)
    ensures v != Null
  {
    var value := Get(task, ColumnKey(column), Str(""));
    if value == Null then Str("") else value
  }

  /** The cell is the header's snake-case field whenever that field holds
      something other than `None` (a zero or a false included), and an
      empty string otherwise. */
  lemma TaskValueOfField(task: Task, column: string)
    ensures var key := SnakeChars(column);
      GetTaskValue(task, column) == (if key in task && task[key] != Null then task[key] else Str(""))
  {
  }

  /** The header row that each plan type's sheet carries. */
  function ColumnsFor(planType: string): seq<string>
  {
    if planType == "detailed" then DetailedColumns else HighLevelColumns
  }

  /** Only the high-level sheet has a duration column. */
  lemma ColumnsOfPlanType(planType: string)
    ensures "Task Duration" in ColumnsFor(planType) <==> planType != "detailed"
  {
    if planType == "detailed" {
      assert forall i :: 0 <= i < |DetailedColumns| ==> DetailedColumns[i] != "Task Duration";
    } else {
      assert HighLevelColumns[4] == "Task Duration";
    }
  }

  /** A worksheet: the values of its cells by (row, column), both counted
      from 1. */
  class Worksheet {
    var cells: map<(int, int), Value>

    /** A new, empty sheet. */
    constructor ()
      ensures cells == map[]
    {
      cells := map[];
    }

    /** `ws.cell(row=row, column=column, value=value)` with a value that is
        not `None`: that cell now holds the value. */
    method Cell(row: int, column: int, value: Value)
      modifies this
      ensures cells == old(cells)[(row, column) := value]
    {
      cells := cells[(row, column) := value];
    }
  }

  /** Cell `k` lies in the first `rows` task rows, or among the first `cols`
      columns of the row after them; task rows start at row 2. */
  predicate InGrid(k: (int, int), rows: int, cols: int, width: int)
  {
    (2 <= k.0 < 2 + rows && 1 <= k.1 <= width) || (k.0 == 2 + rows && 1 <= k.1 <= cols)
  }

  /** `cells` is `base` with the first `rows` tasks and the first `cols`
      columns of the next one written: each such cell holds the task's value
      for the column's header, and every other cell is as in `base`. */
  ghost predicate Written(cells: map<(int, int), Value>, base: map<(int, int), Value>,
                    cellOf: (Task, string) -> Value, tasks: seq<Task>, columns: seq<string>, rows: nat, cols: nat)
    requires rows <= |tasks| && cols <= |columns| && (rows == |tasks| ==> cols == 0)
  {
    (forall k :: k in cells <==> k in base || InGrid(k, rows, cols, |columns|)) &&
    (forall k :: k in cells && InGrid(k, rows, cols, |columns|) ==>
       cells[k] == cellOf(tasks[k.0 - 2], columns[k.1 - 1])) &&
    (forall k :: k in base && !InGrid(k, rows, cols, |columns|) ==> cells[k] == base[k])
  }

  /** A finished row is the start of the next one. */
  lemma NextRow(cells: map<(int, int), Value>, base: map<(int, int), Value>,
                cellOf: (Task, string) -> Value, tasks: seq<Task>, columns: seq<string>, rows: nat)
    requires rows < |tasks|
    requires Written(cells, base, cellOf, tasks, columns, rows, |columns|)
    ensures Written(cells, base, cellOf, tasks, columns, rows + 1, 0)
  {
    forall k ensures InGrid(k, rows, |columns|, |columns|) <==> InGrid(k, rows + 1, 0, |columns|) {
    }
  }

  /** Writing the next cell of the current row extends the written part. */
  lemma NextCell(cells: map<(int, int), Value>, base: map<(int, int), Value>,
                 cellOf: (Task, string) -> Value, tasks: seq<Task>, columns: seq<string>,
                 rows: nat, cols: nat)
    requires rows < |tasks| && cols < |columns|
    requires Written(cells, base, cellOf, tasks, columns, rows, cols)
    ensures Written(cells[(2 + rows, cols + 1) := cellOf(tasks[rows], columns[cols])],
                    base, cellOf, tasks, columns, rows, cols + 1)
  {
    var next := cells[(2 + rows, cols + 1) := cellOf(tasks[rows], columns[cols])];
    forall k | k in base && !InGrid(k, rows, cols + 1, |columns|) ensures next[k] == base[k] {
      assert k != (2 + rows, cols + 1);
    }
  }

  /** The sheet `write_tasks_to_sheet` leaves after the first `rows` tasks
      and the first `cols` columns of the next one, one cell at a time:
      column `c` of task `r` goes to cell (2 + r, c). */
  function Filled(base: map<(int, int), Value>, cellOf: (Task, string) -> Value,
                  tasks: seq<Task>, columns: seq<string>, rows: nat, cols: nat): map<(int, int), Value>
    requires rows <= |tasks| && cols <= |columns| && (rows == |tasks| ==> cols == 0)
    decreases rows, cols
  {
    if cols > 0 then
      Filled(base, cellOf, tasks, columns, rows, cols - 1)[(2 + rows, cols) := cellOf(tasks[rows], columns[cols - 1])]
    else if rows > 0 then Filled(base, cellOf, tasks, columns, rows - 1, |columns|)
    else base
  }

  /** Cell by cell, the filled sheet holds each written task's value under
      each header and keeps every other cell. */
  lemma {:induction false} FilledWritten(base: map<(int, int), Value>, cellOf: (Task, string) -> Value,
                                         tasks: seq<Task>, columns: seq<string>, rows: nat, cols: nat)
    requires rows <= |tasks| && cols <= |columns| && (rows == |tasks| ==> cols == 0)
    ensures Written(Filled(base, cellOf, tasks, columns, rows, cols), base, cellOf, tasks, columns, rows, cols)
    decreases rows, cols
  {
    if cols > 0 {
      FilledWritten(base, cellOf, tasks, columns, rows, cols - 1);
      NextCell(Filled(base, cellOf, tasks, columns, rows, cols - 1), base, cellOf, tasks, columns, rows, cols - 1);
    } else if rows > 0 {
      FilledWritten(base, cellOf, tasks, columns, rows - 1, |columns|);
      NextRow(Filled(base, cellOf, tasks, columns, rows - 1, |columns|), base, cellOf, tasks, columns, rows - 1);
    }
  }

  /** The next cell of row `row`, task `rows`'s row. */
  lemma FilledStep(base: map<(int, int), Value>, cellOf: (Task, string) -> Value,
                   tasks: seq<Task>, columns: seq<string>, rows: nat, cols: nat, row: int, value: Value)
    requires rows < |tasks| && cols < |columns| && row == 2 + rows
    requires value == cellOf(tasks[rows], columns[cols])
    ensures Filled(base, cellOf, tasks, columns, rows, cols + 1) ==
      Filled(base, cellOf, tasks, columns, rows, cols)[(row, cols + 1) := value]
  {
  }

  /** A finished row is the start of the next one. */
  lemma FilledRow(base: map<(int, int), Value>, cellOf: (Task, string) -> Value,
                  tasks: seq<Task>, columns: seq<string>, rows: nat)
    requires rows < |tasks|
    ensures Filled(base, cellOf, tasks, columns, rows + 1, 0) ==
      Filled(base, cellOf, tasks, columns, rows, |columns|)
  {
  }

  /** `write_tasks_to_sheet`: task `i` fills row `2 + i`, its `j`-th header
      column `1 + j`, with `get_task_value`; the number of task rows is
      returned. */
  method WriteTasksToSheet(ws: Worksheet, tasks: seq<Task>, columns: seq<string>) returns (rows: int)
    modifies ws
    ensures rows == |tasks|
    ensures ws.cells == Filled(old(ws.cells), GetTaskValue, tasks, columns, |tasks|, 0)
  {
    ghost var base := ws.cells;
    var rowIdx := 2;
    var i := 0;
    while i < |tasks|
      invariant 0 <= i <= |tasks| && rowIdx == i + 2
      invariant ws.cells == Filled(base, GetTaskValue, tasks, columns, i, 0)
    {
      var j := 0;
      while j < |columns|
        invariant 0 <= j <= |columns|
        invariant ws.cells == Filled(base, GetTaskValue, tasks, columns, i, j)
      {
        var value := GetTaskValue(tasks[i], columns[j]);
        FilledStep(base, GetTaskValue, tasks, columns, i, j, rowIdx, value);
        ws.Cell(rowIdx, j + 1, value);
        j := j + 1;
      }
      FilledRow(base, GetTaskValue, tasks, columns, i);
      rowIdx := rowIdx + 1;
      i := i + 1;
    }
    rows := rowIdx - 2;
  }

  /** The written sheet is determined by the sheet before, the tasks and
      the headers. */
  lemma WrittenUnique(c1: map<(int, int), Value>, c2: map<(int, int), Value>,
                      base: map<(int, int), Value>, cellOf: (Task, string) -> Value, tasks: seq<Task>, columns: seq<string>)
    requires Written(c1, base, cellOf, tasks, columns, |tasks|, 0)
    requires Written(c2, base, cellOf, tasks, columns, |tasks|, 0)
    ensures c1 == c2
  {
    forall k | k in c1 ensures k in c2 && c1[k] == c2[k] {
      if !InGrid(k, |tasks|, 0, |columns|) {
        assert k in base;
      }
    }
  }

  /** What a reader of the written sheet finds: each task's values in its
      row, the header row and every row below the tasks as they were. */
  lemma WrittenCells(cells: map<(int, int), Value>, base: map<(int, int), Value>,
                     cellOf: (Task, string) -> Value, tasks: seq<Task>, columns: seq<string>)
    requires Written(cells, base, cellOf, tasks, columns, |tasks|, 0)
    ensures forall i, j :: 0 <= i < |tasks| && 0 <= j < |columns| ==>
      (2 + i, 1 + j) in cells && cells[(2 + i, 1 + j)] == cellOf(tasks[i], columns[j])
    ensures forall k :: k in base && (k.0 < 2 || k.0 >= 2 + |tasks|) ==> k in cells && cells[k] == base[k]
    ensures forall k :: k in cells && k !in base ==> 2 <= k.0 < 2 + |tasks| && 1 <= k.1 <= |columns|
  {
    forall i, j | 0 <= i < |tasks| && 0 <= j < |columns|
      ensures (2 + i, 1 + j) in cells && cells[(2 + i, 1 + j)] == cellOf(tasks[i], columns[j])
    {
      assert InGrid((2 + i, 1 + j), |tasks|, 0, |columns|);
    }
  }

  /** `os.path.join(directory, name)` for a relative `name`. */
  function PathJoin(directory: string, name: string): (r: string)
    ensures |r| >= |name| && r[|r| - |name|..] == name
  {
    if directory == [] || directory[|directory| - 1] == '/' then directory + name
    else directory + "/" + name
  }

  /** `project_plan_{project_type}_{timestamp}.xlsx`, the project type's
      spaces replaced by underscores. */
  function PlanFileName(projectType: string, timestamp: string): (name: string)
    ensures |name| >= 18 && name[..13] == "project_plan_" && name[|name| - 5..] == ".xlsx"
  {
    "project_plan_" + Replace(projectType, " ", "_") + "_" + timestamp + ".xlsx"
  }

  /** The file name keeps the project type's length and holds no space
      from it. */
  lemma PlanFileNameShape(projectType: string, timestamp: string)
    ensures PlanFileName(projectType, timestamp) ==
      "project_plan_" + SwapChar(projectType, ' ', '_') + "_" + timestamp + ".xlsx"
    ensures forall i :: 13 <= i < 13 + |projectType| ==>
      PlanFileName(projectType, timestamp)[i] != ' '
  {
    ReplaceOneChar(projectType, ' ', '_');
    var name := PlanFileName(projectType, timestamp);
    var swapped := SwapChar(projectType, ' ', '_');
    forall i | 13 <= i < 13 + |projectType| ensures name[i] != ' ' {
      assert name[i] == swapped[i - 13];
    }
  }

  /** `excel_generator_node`, writing into the new "Project Plan" sheet `ws`.
      The output directory and the `%Y%m%d_%H%M%S` time stamp are inputs.
      Without an aggregated plan only the error message is set; otherwise
      the plan type picks the headers, the tasks fill the sheet below the
      header row, and the path of the workbook is recorded. */
  method ExcelGeneratorNode(state: GraphState, ws: Worksheet, outputDir: string, timestamp: string)
    requires ws.cells == map[]
    requires state.aggregatedJson.Some? ==> state.aggregatedJson.value.projectInfo.projectType.Str?
    modifies state, ws
    ensures old(state.aggregatedJson).None? ==>
      state.Now() == old(state.Now()).(errorMessage := Some(NoAggregateMessage)) && ws.cells == map[]
    ensures old(state.aggregatedJson).Some? ==>
      var plan := old(state.aggregatedJson).value;
      state.Now() == old(state.Now()).(excelPath :=
        Some(PathJoin(outputDir, PlanFileName(plan.projectInfo.projectType.s, timestamp)))) &&
      ws.cells == Filled(map[], GetTaskValue, plan.tasks, ColumnsFor(plan.planType), |plan.tasks|, 0)
  {
    if state.aggregatedJson.None? {
      state.errorMessage := Some(NoAggregateMessage);
      return;
    }
    var plan := state.aggregatedJson.value;
    var columns := ColumnsFor(plan.planType);
    var rowsWritten := WriteTasksToSheet(ws, plan.tasks, columns);
    var fileName := PlanFileName(plan.projectInfo.projectType.s, timestamp);
    state.excelPath := Some(PathJoin(outputDir, fileName));
  }
}
