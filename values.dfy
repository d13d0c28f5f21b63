/** The dynamically typed values of the pipeline: decoded JSON, questionnaire
    answers and task fields, with the Python operations the nodes apply to
    them (truthiness, `dict.get`, `str()`, iteration, `len()`). */
module Values {
  import opened Wrappers
  import opened Text

  /** A Python value. `Obj` is a dict as an ordered list of entries (Python
      dicts keep insertion order, and `json.loads` keeps the last value of a
      repeated key). `Date(day)` is the "YYYY-MM-DD" string that `strftime`
      writes for day number `day`, counted from 1970-01-01. */
  datatype Value =
    | Null
    | Bool(b: bool)
    | Int(i: int)
    | Str(s: string)
    | List(items: seq<Value>)
    | Obj(entries: seq<(string, Value)>)
    | Date(day: int)

  /** A task record: field name to value. The order of a task's fields is
      never observed, so a map stands for the dict. */
  type Task = map<string, Value>

  /** Python truthiness. */
  predicate Truthy(v: Value)
  {
    match v
    case Null => false
    case Bool(b) => b
    case Int(i) => i != 0
    case Str(s) => s != ""
    case List(xs) => xs != []
    case Obj(es) => es != []
    case Date(_) => true
  }

  /** `d.get(key, default)` on a task or another string-keyed dict. */
  function Get(d: map<string, Value>, key: string, default: Value): Value
  {
    if key in d then d[key] else default
  }

  /** The value of `key` in a dict's entries; the last entry wins. */
  function Lookup(entries: seq<(string, Value)>, key: string): (r: Option<Value>)
    ensures r.Some? <==> exists i :: 0 <= i < |entries| && entries[i].0 == key
    ensures r.Some? ==> exists i :: 0 <= i < |entries| && entries[i] == (key, r.value)
  {
    if entries == [] then None
    else if entries[|entries| - 1].0 == key then Some(entries[|entries| - 1].1)
    else Lookup(entries[..|entries| - 1], key)
  }

  /** `dict.get(key, default)` on a dict's entries. */
  function ObjGet(entries: seq<(string, Value)>, key: string, default: Value): Value
  {
    Lookup(entries, key).GetOr(default)
  }

  /** The dict as a map from keys to values. */
  function ToMap(entries: seq<(string, Value)>): (m: map<string, Value>)
    ensures forall k :: k in m <==> Lookup(entries, k).Some?
    ensures forall k :: k in m ==> m[k] == Lookup(entries, k).value
  {
    if entries == [] then map[]
    else ToMap(entries[..|entries| - 1])[entries[|entries| - 1].0 := entries[|entries| - 1].1]
  }

  /** `type(v).__name__`. */
  function TypeName(v: Value): string
  {
    match v
    case Null => "NoneType"
    case Bool(_) => "bool"
    case Int(_) => "int"
    case Str(_) => "str"
    case List(_) => "list"
    case Obj(_) => "dict"
    case Date(_) => "str"
  }

  /** The message of the AttributeError raised by `v.get(...)` on a value
      that is not a dict. */
  function NoGetMessage(v: Value): string
  {
    "'" + TypeName(v) + "' object has no attribute 'get'"
  }

  // ---------------------------------------------------------------------
  // str() and repr()

  function Pad2(n: int): string { ZeroPad(IntToString(n), 2) }

  /** The proleptic Gregorian date (year, month, day) of a day number. */
  function CivilFromDays(day: int): (int, int, int)
  {
    var z := day + 719468;
    var era := z / 146097;
    var doe := z - era * 146097;
    var yoe := (doe - doe / 1460 + doe / 36524 - doe / 146096) / 365;
    var doy := doe - (365 * yoe + yoe / 4 - yoe / 100);
    var mp := (5 * doy + 2) / 153;
    var d := doy - (153 * mp + 2) / 5 + 1;
    var m := if mp < 10 then mp + 3 else mp - 9;
    (yoe + era * 400 + (if m <= 2 then 1 else 0), m, d)
  }

  /** `strftime("%Y-%m-%d")` of a day number. */
  function IsoDate(day: int): string
  {
    var (y, m, d) := CivilFromDays(day);
    ZeroPad(IntToString(y), 4) + "-" + Pad2(m) + "-" + Pad2(d)
  }

  /** Python `str(v)`, as an f-string shows a value. */
  function Display(v: Value): string
  {
    match v
    case Str(s) => s
    case Date(d) => IsoDate(d)
    case _ => Repr(v)
  }

  /** Python `repr(v)`. Quotes inside strings are not escaped. */
  function Repr(v: Value): string
  {
    match v
    case Null => "None"
    case Bool(b) => if b then "True" else "False"
    case Int(i) => IntToString(i)
    case Str(s) => "'" + s + "'"
    case Date(d) => "'" + IsoDate(d) + "'"
    case List(xs) => "[" + ReprItems(xs) + "]"
    case Obj(es) => "{" + ReprEntries(es) + "}"
  }

  /** The items of a list as `repr` shows them, separated by ", ". */
  function ReprItems(xs: seq<Value>): string
    decreases xs
  {
    if xs == [] then ""
    else if |xs| == 1 then Repr(xs[0])
    else Repr(xs[0]) + ", " + ReprItems(xs[1..])
  }

  /** The entries of a dict as `repr` shows them, separated by ", ". */
  function ReprEntries(es: seq<(string, Value)>): string
    decreases es
  {
    if es == [] then ""
    else
      var e := es[0];
      assert e.1 < e && e in es;
      var item := "'" + e.0 + "': " + Repr(e.1);
      if |es| == 1 then item else item + ", " + ReprEntries(es[1..])
  }

  // ---------------------------------------------------------------------
  // Iteration and len()

  /** The one-character strings of `s`, in order. */
  function Chars(s: string): seq<Value>
  {
    seq(|s|, i requires 0 <= i < |s| => Str([s[i]]))
  }

  /** `for x in v`: the items of a list, the one-character strings of a
      string, the keys of a dict; anything else raises TypeError. */
  function Iterate(v: Value): Result<seq<Value>>
  {
    match v
    case List(xs) => Ok(xs)
    case Str(s) => Ok(Chars(s))
    case Date(d) => Ok(Chars(IsoDate(d)))
    case Obj(es) => Ok(seq(|es|, i requires 0 <= i < |es| => Str(es[i].0)))
    case _ => Raised("'" + TypeName(v) + "' object is not iterable")
  }

  /** `len(v)`; values without a length raise TypeError. */
  function Len(v: Value): Result<int>
  {
    match v
    case List(xs) => Ok(|xs|)
    case Str(s) => Ok(|s|)
    case Date(d) => Ok(|IsoDate(d)|)
    case Obj(es) => Ok(|es|)
    case _ => Raised("object of type '" + TypeName(v) + "' has no len()")
  }

  /** `strftime("%Y-%m-%d")` writes at least ten characters: four or more
      for the year, two each for month and day, and two dashes. */
  lemma IsoDateLength(day: int)
    ensures |IsoDate(day)| >= 10
  {
  }

  /** `repr` is never empty, and shows a string or a date between single
      quotes. */
  lemma ReprShape(v: Value)
    ensures Repr(v) != ""
    ensures (v.Str? || v.Date?) ==> |Repr(v)| >= 2 && Repr(v)[0] == '\'' && Repr(v)[|Repr(v)| - 1] == '\''
  {
    match v
    case Str(s) =>
      assert Repr(v) == "'" + s + "'";
    case Date(d) =>
      assert Repr(v) == "'" + IsoDate(d) + "'";
    case Int(i) =>
      assert |IntToString(i)| > 0;
    case _ =>
  }

  /** `str()` of a string is the string, and only the empty string shows as
      nothing. */
  lemma DisplayShape(v: Value)
    ensures Display(v) == "" <==> v == Str("")
    ensures v.Str? ==> Display(v) == v.s
  {
    ReprShape(v);
    if v.Date? { IsoDateLength(v.day); }
  }

  /** A value has a length exactly when it can be iterated, and the length
      is the number of items the iteration yields; only `None`, booleans and
      integers cannot be iterated, and a dict yields its keys in order. */
  lemma IterateLen(v: Value)
    ensures Iterate(v).Raised? <==> v.Null? || v.Bool? || v.Int?
    ensures Len(v).Ok? <==> Iterate(v).Ok?
    ensures Len(v).Ok? ==> Len(v).value == |Iterate(v).value|
    ensures v.Obj? ==> Iterate(v).Ok? && |Iterate(v).value| == |v.entries|
    ensures v.Obj? ==> forall i :: 0 <= i < |v.entries| ==> Iterate(v).value[i] == Str(v.entries[i].0)
  {
  }

  /** A value with a length is true exactly when the length is not zero,
      as Python falls back to `len()` for containers and strings. */
  lemma TruthyLen(v: Value)
    requires Len(v).Ok?
    ensures Truthy(v) <==> Len(v).value != 0
  {
    if v.Date? { IsoDateLength(v.day); }
  }

  /** `for item in v: item.get(...)` succeeds: `v` iterates over dicts only. */
  predicate IsDictList(v: Value)
  {
    Iterate(v).Ok? && forall i :: 0 <= i < |Iterate(v).value| ==> Iterate(v).value[i].Obj?
  }

  /** The task records a list of dicts holds. */
  function DictItems(v: Value): (ts: seq<Task>)
    requires IsDictList(v)
    ensures |ts| == |Iterate(v).value|
  {
    var xs := Iterate(v).value;
    seq(|xs|, i requires 0 <= i < |xs| => ToMap(xs[i].entries))
  }
}
