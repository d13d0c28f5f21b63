/** Task identifiers and the predecessor/successor links between the tasks
    of one phase and activity. */
module Identifiers {
  import opened Wrappers
  import opened Text
  import opened Values

  /** `f"T{i+1:04d}"`: the identifier of the task at index `i`. */
  function TaskId(i: nat): string
  {
    "T" + ZeroPad(NatToString(i + 1), 4)
  }

  /** Different positions get different identifiers. */
  lemma {:induction false} TaskIdInjective(i: nat, j: nat)
    ensures TaskId(i) == TaskId(j) <==> i == j
  {
    if TaskId(i) == TaskId(j) {
      var a := ZeroPad(NatToString(i + 1), 4);
      var b := ZeroPad(NatToString(j + 1), 4);
      assert a == TaskId(i)[1..] && b == TaskId(j)[1..];
      ZeroPadValue(NatToString(i + 1), 4);
      ZeroPadValue(NatToString(j + 1), 4);
      NatToStringRoundTrip(i + 1);
      NatToStringRoundTrip(j + 1);
    }
  }

  /** The group a task is linked within: `f"{phase_name}|{activity_name}"`. */
  function GroupKey(t: Task): (key: string)
    ensures "phase_name" !in t && "activity_name" !in t ==> key == "|"
    ensures '|' in key
  {
    Display(Get(t, "phase_name", Str(""))) + "|" + Display(Get(t, "activity_name", Str("")))
  }

  /** The group key of every task, in order. */
  function GroupKeys(s: seq<Task>): (ks: seq<string>)
    ensures |ks| == |s|
  {
    seq(|s|, i requires 0 <= i < |s| => GroupKey(s[i]))
  }

  /** The last index below `j` whose key is `key`. */
  function LastInGroup<K(==)>(ks: seq<K>, key: K, j: nat): (r: Option<nat>)
    requires j <= |ks|
    ensures r.Some? ==> r.value < j && ks[r.value] == key
    ensures r.Some? ==> forall k :: r.value < k < j ==> ks[k] != key
    ensures r.None? ==> forall k :: 0 <= k < j ==> ks[k] != key
  {
    if j == 0 then None
    else if ks[j - 1] == key then Some(j - 1)
    else LastInGroup(ks, key, j - 1)
  }

  /** The first index at or after `j` whose key is `key`. */
  function FirstInGroup<K(==)>(ks: seq<K>, key: K, j: nat): (r: Option<nat>)
    requires j <= |ks|
    ensures r.Some? ==> j <= r.value < |ks| && ks[r.value] == key
    ensures r.Some? ==> forall k :: j <= k < r.value ==> ks[k] != key
    ensures r.None? ==> forall k :: j <= k < |ks| ==> ks[k] != key
    decreases |ks| - j
  {
    if j == |ks| then None
    else if ks[j] == key then Some(j)
    else FirstInGroup(ks, key, j + 1)
  }

  /** The task a task depends on: the previous one with the same key. */
  function Predecessor<K(==)>(ks: seq<K>, i: nat): Option<nat>
    requires i < |ks|
  {
    LastInGroup(ks, ks[i], i)
  }

  /** The task that depends on a task: the next one with the same key. */
  function Successor<K(==)>(ks: seq<K>, i: nat): Option<nat>
    requires i < |ks|
  {
    FirstInGroup(ks, ks[i], i + 1)
  }

  /** The identifiers of the first `n` positions. */
  function TaskIds(n: nat): (ids: seq<string>)
    ensures |ids| == n
  {
    seq(n, i requires 0 <= i < n => TaskId(i))
  }

  /** The task at index `i` after `add_task_identifiers`, for the group
      keys `ks` and the identifiers `ids`; `linked` says whether its group
      links have been written. */
  function Identified<K(==)>(s: seq<Task>, ks: seq<K>, ids: seq<string>, i: nat, linked: bool): (r: Task)
    requires |ks| == |s| && |ids| == |s| && i < |s|
    ensures "task_id" in r && r["task_id"] == Str(ids[i])
  {
    var t := s[i]["task_id" := Str(ids[i])];
    if !linked then t
    else
      var t1 := match Predecessor(ks, i)
        case Some(p) => t["predecessor" := Str(ids[p])]["dependency_type" := Str("FS")]
        case None => t;
      match Successor(ks, i)
      case Some(n) => t1["successor" := Str(ids[n])]
      case None => t1
  }

  /** The tasks after `add_task_identifiers`; only a detailed plan is
      linked. */
  function WithIdentifiers(s: seq<Task>, detailed: bool): (r: seq<Task>)
    ensures |r| == |s|
  {
    var ks := GroupKeys(s);
    var ids := TaskIds(|s|);
    seq(|s|, i requires 0 <= i < |s| => Identified(s, ks, ids, i, detailed))
  }

  /** Every task gets the identifier of its position, so identifiers are
      unique. */
  lemma IdentifiersUnique(s: seq<Task>, detailed: bool, i: nat, j: nat)
    requires i < |s| && j < |s|
    ensures "task_id" in WithIdentifiers(s, detailed)[i] && "task_id" in WithIdentifiers(s, detailed)[j]
    ensures WithIdentifiers(s, detailed)[i]["task_id"] == Str(TaskId(i))
    ensures i != j ==> WithIdentifiers(s, detailed)[i]["task_id"] != WithIdentifiers(s, detailed)[j]["task_id"]
  {
    TaskIdInjective(i, j);
  }

  lemma IdentifiedKeeps<K>(s: seq<Task>, ks: seq<K>, ids: seq<string>, i: nat, linked: bool, k: string)
    requires |ks| == |s| && |ids| == |s| && i < |s|
    requires k != "task_id" && (linked ==> k !in {"predecessor", "dependency_type", "successor"})
    ensures k in Identified(s, ks, ids, i, linked) <==> k in s[i]
    ensures k in s[i] ==> Identified(s, ks, ids, i, linked)[k] == s[i][k]
  {
  }

  /** Fields other than the identifier and the links are kept, and a
      high-level plan gets no links. */
  lemma IdentifiersKeepFields(s: seq<Task>, detailed: bool, i: nat, k: string)
    requires i < |s|
    requires k != "task_id" && (detailed ==> k !in {"predecessor", "dependency_type", "successor"})
    ensures k in WithIdentifiers(s, detailed)[i] <==> k in s[i]
    ensures k in s[i] ==> WithIdentifiers(s, detailed)[i][k] == s[i][k]
  {
    IdentifiedKeeps(s, GroupKeys(s), TaskIds(|s|), i, detailed, k);
  }

  lemma {:induction false} LinksChain<K>(s: seq<Task>, ks: seq<K>, ids: seq<string>, i: nat)
    requires |ks| == |s| && |ids| == |s| && i < |s|
    ensures match Predecessor(ks, i)
      case Some(p) =>
        ks[p] == ks[i] &&
        Identified(s, ks, ids, i, true)["predecessor"] == Str(ids[p]) &&
        Identified(s, ks, ids, i, true)["dependency_type"] == Str("FS") &&
        Successor(ks, p) == Some(i) && Identified(s, ks, ids, p, true)["successor"] == Str(ids[i])
      case None =>
        (forall k :: 0 <= k < i ==> ks[k] != ks[i]) &&
        ("predecessor" in Identified(s, ks, ids, i, true) <==> "predecessor" in s[i]) &&
        ("predecessor" in s[i] ==> Identified(s, ks, ids, i, true)["predecessor"] == s[i]["predecessor"]) &&
        ("dependency_type" in Identified(s, ks, ids, i, true) <==> "dependency_type" in s[i]) &&
        ("dependency_type" in s[i] ==> Identified(s, ks, ids, i, true)["dependency_type"] == s[i]["dependency_type"])
    ensures Successor(ks, i).None? ==>
      ("successor" in Identified(s, ks, ids, i, true) <==> "successor" in s[i]) &&
      ("successor" in s[i] ==> Identified(s, ks, ids, i, true)["successor"] == s[i]["successor"])
  {
    match Predecessor(ks, i)
    case Some(p) =>
      var n := FirstInGroup(ks, ks[i], p + 1);
      assert n.Some? && n.value <= i;
      assert n.value == i;
    case None =>
  }

  /** In a detailed plan the links of a group form one chain in list order:
      a task with a predecessor (the previous task with its group key) names
      it and depends on it "FS", that predecessor names the task as its
      successor, and the first and last tasks of a group keep what they
      had. */
  lemma {:induction false} LinksFormChain(s: seq<Task>, i: nat)
    requires i < |s|
    ensures var r := WithIdentifiers(s, true);
      var ks := GroupKeys(s);
      match Predecessor(ks, i)
      case Some(p) =>
        ks[p] == ks[i] &&
        r[i]["predecessor"] == Str(TaskId(p)) && r[i]["dependency_type"] == Str("FS") &&
        Successor(ks, p) == Some(i) && r[p]["successor"] == Str(TaskId(i))
      case None =>
        (forall k :: 0 <= k < i ==> ks[k] != ks[i]) &&
        ("predecessor" in r[i] <==> "predecessor" in s[i]) &&
        ("predecessor" in s[i] ==> r[i]["predecessor"] == s[i]["predecessor"]) &&
        ("dependency_type" in r[i] <==> "dependency_type" in s[i]) &&
        ("dependency_type" in s[i] ==> r[i]["dependency_type"] == s[i]["dependency_type"])
    ensures Successor(GroupKeys(s), i).None? ==>
      var r := WithIdentifiers(s, true);
      ("successor" in r[i] <==> "successor" in s[i]) &&
      ("successor" in s[i] ==> r[i]["successor"] == s[i]["successor"])
  {
    LinksChain(s, GroupKeys(s), TaskIds(|s|), i);
  }

  /** A list of `phase_groups`: the indices below `n` whose key is `key`,
      ascending. */
  ghost predicate GroupIndices<K>(g: seq<(nat, string)>, ks: seq<K>, key: K, n: nat)
    requires n <= |ks|
  {
    (forall p :: 0 <= p < |g| ==> g[p].0 < n && ks[g[p].0] == key) &&
    (forall p, q :: 0 <= p < q < |g| ==> g[p].0 < g[q].0) &&
    (forall k :: 0 <= k < n && ks[k] == key ==> exists p :: 0 <= p < |g| && g[p].0 == k)
  }

  /** `phase_groups` after the first `n` tasks: a list for each key seen. */
  ghost predicate GroupsAfter<K>(groups: map<K, seq<(nat, string)>>, ks: seq<K>, n: nat)
    requires n <= |ks|
  {
    (forall key :: key in groups ==> GroupIndices(groups[key], ks, key, n)) &&
    (forall k :: 0 <= k < n ==> ks[k] in groups)
  }

  /** Each entry of `phase_groups` carries the identifier of its index. */
  ghost predicate IdsMatch<K>(groups: map<K, seq<(nat, string)>>)
  {
    forall key, p :: key in groups && 0 <= p < |groups[key]| ==> groups[key][p].1 == TaskId(groups[key][p].0)
  }

  lemma IdsStep<K>(groups: map<K, seq<(nat, string)>>, key: K, i: nat)
    requires IdsMatch(groups)
    ensures IdsMatch(Grouped(groups, key, (i, TaskId(i))))
  {
  }

  lemma {:induction false} GroupAppend<K>(g: seq<(nat, string)>, ks: seq<K>, i: nat, id: string)
    requires i < |ks| && GroupIndices(g, ks, ks[i], i)
    ensures GroupIndices(g + [(i, id)], ks, ks[i], i + 1)
  {
    var g' := g + [(i, id)];
    forall k | 0 <= k < i + 1 && ks[k] == ks[i] ensures exists p :: 0 <= p < |g'| && g'[p].0 == k {
      if k == i {
        assert g'[|g|].0 == k;
      } else {
        var p :| 0 <= p < |g| && g[p].0 == k;
        assert g'[p].0 == k;
      }
    }
  }

  lemma {:induction false} GroupUntouched<K>(h: seq<(nat, string)>, ks: seq<K>, key: K, i: nat)
    requires i < |ks| && ks[i] != key && GroupIndices(h, ks, key, i)
    ensures GroupIndices(h, ks, key, i + 1)
  {
    forall k | 0 <= k < i + 1 && ks[k] == key ensures exists p :: 0 <= p < |h| && h[p].0 == k {
      assert k < i;
    }
  }

  lemma {:induction false} GroupsStep<K>(groups: map<K, seq<(nat, string)>>, ks: seq<K>, i: nat, id: string)
    requires i < |ks| && GroupsAfter(groups, ks, i)
    ensures GroupsAfter(Grouped(groups, ks[i], (i, id)), ks, i + 1)
  {
    var key := ks[i];
    var g := if key in groups then groups[key] else [];
    var groups' := Grouped(groups, key, (i, id));
    if key !in groups {
      forall k | 0 <= k < i ensures ks[k] != key {
        assert ks[k] in groups;
      }
    }
    assert GroupIndices(g, ks, key, i);
    GroupAppend(g, ks, i, id);
    forall key2 | key2 in groups' ensures GroupIndices(groups'[key2], ks, key2, i + 1) {
      if key2 == key {
        assert groups'[key2] == g + [(i, id)];
      } else {
        assert key2 in groups && groups'[key2] == groups[key2];
        GroupUntouched(groups[key2], ks, key2, i);
      }
    }
    forall k | 0 <= k < i + 1 ensures ks[k] in groups' {
      if k < i { assert ks[k] in groups; }
    }
  }

  /** Within a complete group, the neighbours in the list are exactly the
      previous and the next index with the same key. */
  lemma {:induction false} GroupNeighbours<K>(g: seq<(nat, string)>, ks: seq<K>, key: K, p: nat)
    requires GroupIndices(g, ks, key, |ks|) && p < |g|
    ensures LastInGroup(ks, key, g[p].0) == (if p > 0 then Some(g[p - 1].0) else None)
    ensures FirstInGroup(ks, key, g[p].0 + 1) == (if p < |g| - 1 then Some(g[p + 1].0) else None)
  {
    GroupPrevious(g, ks, key, p);
    GroupNext(g, ks, key, p);
  }

  lemma {:induction false} GroupPrevious<K>(g: seq<(nat, string)>, ks: seq<K>, key: K, p: nat)
    requires GroupIndices(g, ks, key, |ks|) && p < |g|
    ensures LastInGroup(ks, key, g[p].0) == (if p > 0 then Some(g[p - 1].0) else None)
  {
    var i := g[p].0;
    forall k | 0 <= k < i && ks[k] == key ensures p > 0 && k <= g[p - 1].0 {
      var q :| 0 <= q < |g| && g[q].0 == k;
      assert q < p;
      if q < p - 1 {
        assert g[q].0 < g[p - 1].0;
      }
    }
  }

  lemma {:induction false} GroupNext<K>(g: seq<(nat, string)>, ks: seq<K>, key: K, p: nat)
    requires GroupIndices(g, ks, key, |ks|) && p < |g|
    ensures FirstInGroup(ks, key, g[p].0 + 1) == (if p < |g| - 1 then Some(g[p + 1].0) else None)
  {
    var i := g[p].0;
    forall k | i < k < |ks| && ks[k] == key ensures p < |g| - 1 && g[p + 1].0 <= k {
      var q :| 0 <= q < |g| && g[q].0 == k;
      assert p < q;
      if q > p + 1 {
        assert g[p + 1].0 < g[q].0;
      }
    }
    if p < |g| - 1 {
      assert i < g[p + 1].0 && ks[g[p + 1].0] == key;
      FirstInGroupAt(ks, key, i + 1, g[p + 1].0);
    }
  }

  /** A key's first occurrence from `j` on is where it occurs with none
      before it. */
  lemma FirstInGroupAt<K>(ks: seq<K>, key: K, j: nat, m: nat)
    requires j <= m < |ks| && ks[m] == key
    requires forall k :: j <= k < m ==> ks[k] != key
    ensures FirstInGroup(ks, key, j) == Some(m)
  {
  }

  /** `add_task_identifiers`: numbers the tasks in place and, in a detailed
      plan, links each group's members in list order. */
  method AddTaskIdentifiers(tasks: array<Task>, planType: string)
    modifies tasks
    ensures tasks[..] == WithIdentifiers(old(tasks[..]), planType == "detailed")
  {
    ghost var s := tasks[..];
    ghost var ks := GroupKeys(s);
    ghost var ids := TaskIds(|s|);
    var groups := NumberTasks(tasks);
    if planType == "detailed" {
      var keys := groups.Keys;
      while keys != {}
        invariant keys <= groups.Keys
        invariant forall k :: 0 <= k < tasks.Length ==> tasks[k] == Identified(s, ks, ids, k, ks[k] !in keys)
        decreases |keys|
      {
        var key :| key in keys;
        assert forall p :: 0 <= p < |groups[key]| ==> groups[key][p].1 == ids[groups[key][p].0];
        LinkGroup(tasks, groups[key], s, ks, ids, key, keys);
        keys := keys - {key};
      }
    }
  }

  /** The numbering pass: each task gets its identifier, and its index joins
      the list of its group. */
  method NumberTasks(tasks: array<Task>) returns (groups: map<string, seq<(nat, string)>>)
    modifies tasks
    ensures forall k :: 0 <= k < tasks.Length ==> tasks[k] == old(tasks[k])["task_id" := Str(TaskId(k))]
    ensures GroupsAfter(groups, GroupKeys(old(tasks[..])), tasks.Length) && IdsMatch(groups)
  {
    ghost var s := tasks[..];
    ghost var ks := GroupKeys(s);
    groups := map[];
    for i := 0 to tasks.Length
      invariant forall k :: 0 <= k < i ==> tasks[k] == s[k]["task_id" := Str(TaskId(k))]
      invariant forall k :: i <= k < tasks.Length ==> tasks[k] == s[k]
      invariant GroupsAfter(groups, ks, i) && IdsMatch(groups)
    {
      var taskId, key := NumberTask(tasks, i, s);
      GroupsStep(groups, ks, i, taskId);
      IdsStep(groups, key, i);
      groups := Grouped(groups, key, (i, taskId));
    }
  }

  /** Adds an entry at the end of its key's group, opening the group when absent. */
  function Grouped<K>(groups: map<K, seq<(nat, string)>>, key: K, entry: (nat, string)): (r: map<K, seq<(nat, string)>>)
    ensures key in r && r[key] == (if key in groups then groups[key] else []) + [entry]
    ensures forall k :: k in groups && k != key ==> k in r && r[k] == groups[k]
    ensures r.Keys == groups.Keys + {key}
  {
    groups[key := (if key in groups then groups[key] else []) + [entry]]
  }

  /** One step of the numbering loop: writes the task's identifier and
      returns it with the task's group key. */
  method NumberTask(tasks: array<Task>, i: nat, ghost s: seq<Task>) returns (taskId: string, key: string)
    requires i < tasks.Length == |s| && tasks[i] == s[i]
    modifies tasks
    ensures taskId == TaskId(i) && key == GroupKeys(s)[i]
    ensures tasks[i] == s[i]["task_id" := Str(taskId)]
    ensures forall k :: 0 <= k < tasks.Length && k != i ==> tasks[k] == old(tasks[k])
  {
    taskId := TaskId(i);
    var task := tasks[i];
    tasks[i] := task["task_id" := Str(taskId)];
    key := GroupKey(tasks[i]);
    KeyIgnoresId(s, i, Str(taskId));
  }

  lemma KeyIgnoresId(s: seq<Task>, i: nat, id: Value)
    requires i < |s|
    ensures GroupKey(s[i]["task_id" := id]) == GroupKeys(s)[i]
  {
    assert Get(s[i]["task_id" := id], "phase_name", Str("")) == Get(s[i], "phase_name", Str(""));
    assert Get(s[i]["task_id" := id], "activity_name", Str("")) == Get(s[i], "activity_name", Str(""));
  }

  /** A linked task is its numbered form with the links written. */
  lemma LinkedFromNumbered<K>(s: seq<Task>, ks: seq<K>, ids: seq<string>, i: nat, prev: Option<nat>, next: Option<nat>)
    requires |ks| == |s| && |ids| == |s| && i < |s| && Predecessor(ks, i) == prev && Successor(ks, i) == next
    requires prev.Some? ==> prev.value < |s|
    requires next.Some? ==> next.value < |s|
    ensures Identified(s, ks, ids, i, true) ==
      var t := Identified(s, ks, ids, i, false);
      var t1 := if prev.Some? then t["predecessor" := Str(ids[prev.value])]["dependency_type" := Str("FS")] else t;
      if next.Some? then t1["successor" := Str(ids[next.value])] else t1
  {
  }

  lemma GroupAllLinked<K>(ts: seq<Task>, group: seq<(nat, string)>, s: seq<Task>, ks: seq<K>, ids: seq<string>, key: K)
    requires |s| == |ts| && |ks| == |s| && |ids| == |s|
    requires GroupIndices(group, ks, key, |s|)
    requires forall p :: 0 <= p < |group| ==> ts[group[p].0] == Identified(s, ks, ids, group[p].0, true)
    ensures forall k :: 0 <= k < |ts| && ks[k] == key ==> ts[k] == Identified(s, ks, ids, k, true)
  {
    forall k | 0 <= k < |ts| && ks[k] == key
      ensures ts[k] == Identified(s, ks, ids, k, true)
    {
      var p :| 0 <= p < |group| && group[p].0 == k;
    }
  }

  /** Writes one task's links: the predecessor's identifier with an "FS"
      dependency, and the successor's identifier. */
  method WriteLinks(tasks: array<Task>, i: nat, prev: Option<string>, next: Option<string>)
    requires i < tasks.Length
    modifies tasks
    ensures tasks[i] ==
      var t := old(tasks[i]);
      var t1 := if prev.Some? then t["predecessor" := Str(prev.value)]["dependency_type" := Str("FS")] else t;
      if next.Some? then t1["successor" := Str(next.value)] else t1
    ensures forall k :: 0 <= k < tasks.Length && k != i ==> tasks[k] == old(tasks[k])
  {
    if prev.Some? {
      tasks[i] := tasks[i]["predecessor" := Str(prev.value)]["dependency_type" := Str("FS")];
    }
    if next.Some? {
      tasks[i] := tasks[i]["successor" := Str(next.value)];
    }
  }

  /** The linking pass over one group. */
  method LinkGroup<K(==)>(tasks: array<Task>, group: seq<(nat, string)>, ghost s: seq<Task>, ghost ks: seq<K>,
                   ghost ids: seq<string>, ghost key: K, ghost keys: set<K>)
    requires |s| == tasks.Length && |ks| == |s| && |ids| == |s| && key in keys
    requires GroupIndices(group, ks, key, |s|)
    requires forall p :: 0 <= p < |group| ==> group[p].1 == ids[group[p].0]
    requires forall k :: 0 <= k < tasks.Length ==> tasks[k] == Identified(s, ks, ids, k, ks[k] !in keys)
    modifies tasks
    ensures forall k :: 0 <= k < tasks.Length ==> tasks[k] == Identified(s, ks, ids, k, ks[k] !in keys - {key})
  {
    for idx := 0 to |group|
      invariant forall k :: 0 <= k < tasks.Length && ks[k] != key ==>
        tasks[k] == Identified(s, ks, ids, k, ks[k] !in keys)
      invariant forall p :: 0 <= p < |group| ==> tasks[group[p].0] == Identified(s, ks, ids, group[p].0, p < idx)
    {
      var taskIdx := group[idx].0;
      GroupNeighbours(group, ks, key, idx);
      LinkedFromNumbered(s, ks, ids, taskIdx,
        if idx > 0 then Some(group[idx - 1].0) else None,
        if idx < |group| - 1 then Some(group[idx + 1].0) else None);
      WriteLinks(tasks, taskIdx,
        if idx > 0 then Some(group[idx - 1].1) else None,
        if idx < |group| - 1 then Some(group[idx + 1].1) else None);
      forall p | 0 <= p < |group|
        ensures tasks[group[p].0] == Identified(s, ks, ids, group[p].0, p < idx + 1)
      {
        if p != idx { assert group[p].0 != taskIdx; }
      }
    }
    GroupAllLinked(tasks[..], group, s, ks, ids, key);
  }
}
