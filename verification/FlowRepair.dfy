/**
 * Repairing a flow when apps are added, removed or change: drop the tasks nobody
 * expects any more (and repeats), then insert every task that is missing.
 */
module FlowRepair {
  import opened Seqs
  import opened FlowModel

  // ---- inserting one missing task ----

  predicate HasLater(w: Wave, t: Task) {
    exists i :: 0 <= i < |w.tasks| && w.tasks[i].block == t.block && Rank(w.tasks[i].phase) > Rank(t.phase)
  }

  /** The first wave from i on holding a later phase of t's app, -1 when there is none. */
  function FirstLaterFrom(flow: Flow, t: Task, i: nat): (before: int)
    requires i <= |flow|
    ensures before == -1 || i <= before < |flow|
    ensures before == -1 ==> forall k :: i <= k < |flow| ==> !HasLater(flow[k], t)
    ensures before != -1 ==> HasLater(flow[before], t) && forall k :: i <= k < before ==> !HasLater(flow[k], t)
    decreases |flow| - i
  {
    if i == |flow| then -1
    else if HasLater(flow[i], t) then i
    else FirstLaterFrom(flow, t, i + 1)
  }

  /** Whether t may join wave w without mixing phases before and after the release. */
  predicate Compatible(w: Wave, t: Task) {
    if w.tasks == [] then true
    else
      var hasPre := exists i :: 0 <= i < |w.tasks| && IsPre(w.tasks[i].phase);
      var hasPost := exists i :: 0 <= i < |w.tasks| && !IsPre(w.tasks[i].phase);
      if !IsPre(t.phase) && hasPre then false
      else if IsPre(t.phase) && hasPost then false
      else true
  }

  function AppendTo(flow: Flow, i: nat, t: Task): Flow
    requires i < |flow|
  {
    flow[i := flow[i].(tasks := flow[i].tasks + [t])]
  }

  function Splice(flow: Flow, i: nat, w: Wave): Flow
    requires i <= |flow|
  {
    flow[..i] + [w] + flow[i..]
  }

  function InsertMissing(flow: Flow, t: Task, waveId: Id): Flow {
    var before := FirstLaterFrom(flow, t, 0);
    if before >= 0 then
      if before - 1 >= 0 && Compatible(flow[before - 1], t) then AppendTo(flow, before - 1, t)
      else Splice(flow, before, Wave(waveId, [t]))
    else if flow == [] then [Wave(waveId, [t])]
    else if Compatible(flow[|flow| - 1], t) then AppendTo(flow, |flow| - 1, t)
    else flow + [Wave(waveId, [t])]
  }

  method InsertMissingTask(flow: Flow, t: Task, waveId: Id) returns (r: Flow)
    ensures r == InsertMissing(flow, t, waveId)
  {
    var before := -1;
    for i := 0 to |flow|
      invariant before == -1
      invariant FirstLaterFrom(flow, t, 0) == FirstLaterFrom(flow, t, i)
    {
      if HasLater(flow[i], t) {
        before := i;
        break;
      }
    }
    if before >= 0 {
      var prev := before - 1;
      if prev >= 0 && Compatible(flow[prev], t) {
        return AppendTo(flow, prev, t);
      }
      return Splice(flow, before, Wave(waveId, [t]));
    }
    if flow == [] {
      return [Wave(waveId, [t])];
    }
    var last := |flow| - 1;
    if Compatible(flow[last], t) {
      return AppendTo(flow, last, t);
    }
    return flow + [Wave(waveId, [t])];
  }

  // ---- dropping what is not expected ----

  function KeepTasks(tasks: seq<Task>, expected: set<Chip>, seen: set<Chip>): (seq<Task>, set<Chip>) {
    if tasks == [] then ([], seen)
    else
      var c := ChipOf(tasks[0]);
      if c in expected && c !in seen then
        var (rest, seen') := KeepTasks(tasks[1..], expected, seen + {c});
        ([tasks[0]] + rest, seen')
      else
        KeepTasks(tasks[1..], expected, seen)
  }

  function Keep(flow: Flow, expected: set<Chip>, seen: set<Chip>): (Flow, set<Chip>) {
    if flow == [] then ([], seen)
    else
      var (tasks, seen') := KeepTasks(flow[0].tasks, expected, seen);
      var (rest, seen'') := Keep(flow[1..], expected, seen');
      ([Wave(flow[0].id, tasks)] + rest, seen'')
  }

  // ---- the whole repair ----

  function FillIn(flow: Flow, missing: seq<Chip>, g: Id): Flow
    decreases missing
  {
    if missing == [] then flow
    else
      var t := Task(g, missing[0].owner, missing[0].phase);
      FillIn(InsertMissing(flow, t, g + 1), missing[1..], g + 2)
  }

  function Missing(expected: seq<Chip>, seen: set<Chip>): (r: seq<Chip>)
    ensures forall c :: c in r <==> c in expected && c !in seen
  {
    if expected == [] then []
    else if expected[0] in seen then Missing(expected[1..], seen)
    else [expected[0]] + Missing(expected[1..], seen)
  }

  /** `expected` lists, in insertion order, the chips the blocks ask for; g is the id supply. */
  function Reconcile(expected: seq<Chip>, flow: Flow, g: Id): Flow {
    var (kept, seen) := Keep(flow, Elems(expected), {});
    var missing := Missing(expected, seen);
    var placed := FillIn(kept, missing, g);
    if placed != [] then placed else [Wave(g + 2 * |missing|, [])]
  }

  /** One filter over all the waves, with a set of the chips already met. */
  method DropUnexpected(flow: Flow, wanted: set<Chip>) returns (kept: Flow, seen: set<Chip>)
    ensures kept == Keep(flow, wanted, {}).0 && seen == Keep(flow, wanted, {}).1
  {
    kept, seen := [], {};
    for i := 0 to |flow|
      invariant Keep(flow, wanted, {}).0 == kept + Keep(flow[i..], wanted, seen).0
      invariant Keep(flow, wanted, {}).1 == Keep(flow[i..], wanted, seen).1
    {
      var tasks;
      tasks, seen := KeepWave(flow[i].tasks, wanted, seen);
      assert flow[i..][1..] == flow[i + 1..];
      kept := kept + [Wave(flow[i].id, tasks)];
    }
  }

  method KeepWave(tasks: seq<Task>, wanted: set<Chip>, met: set<Chip>) returns (kept: seq<Task>, seen: set<Chip>)
    ensures kept == KeepTasks(tasks, wanted, met).0 && seen == KeepTasks(tasks, wanted, met).1
  {
    kept, seen := [], met;
    for j := 0 to |tasks|
      invariant KeepTasks(tasks, wanted, met).0 == kept + KeepTasks(tasks[j..], wanted, seen).0
      invariant KeepTasks(tasks, wanted, met).1 == KeepTasks(tasks[j..], wanted, seen).1
    {
      assert tasks[j..][1..] == tasks[j + 1..];
      var key := ChipOf(tasks[j]);
      if key in wanted && key !in seen {
        seen := seen + {key};
        kept := kept + [tasks[j]];
      }
    }
  }

  method ReconcileFlow(expected: seq<Chip>, flow: Flow, g: Id) returns (r: Flow)
    ensures r == Reconcile(expected, flow, g)
  {
    var wanted := Elems(expected);
    var kept, seen := DropUnexpected(flow, wanted);
    var placed, next: Id := kept, g;
    for i := 0 to |expected|
      invariant FillIn(kept, Missing(expected, seen), g) == FillIn(placed, Missing(expected[i..], seen), next)
      invariant g + 2 * |Missing(expected, seen)| == next + 2 * |Missing(expected[i..], seen)|
    {
      var key := expected[i];
      FillInStep(expected, i, seen, placed, next);
      if key !in seen {
        placed := InsertMissingTask(placed, Task(next, key.owner, key.phase), next + 1);
        next := next + 2;
      }
    }
    r := if placed != [] then placed else [Wave(next, [])];
  }

  lemma FillInStep(expected: seq<Chip>, i: nat, seen: set<Chip>, flow: Flow, g: Id)
    requires i < |expected|
    ensures var (m, c, m') := (Missing(expected[i..], seen), expected[i], Missing(expected[i + 1..], seen));
      if c in seen then m == m'
      else
        && |m| == |m'| + 1
        && FillIn(flow, m, g) == FillIn(InsertMissing(flow, Task(g, c.owner, c.phase), g + 1), m', g + 2)
  {
    assert expected[i..][1..] == expected[i + 1..];
    if expected[i] !in seen {
      assert Missing(expected[i..], seen)[1..] == Missing(expected[i + 1..], seen);
    }
  }
}
