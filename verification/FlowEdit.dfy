/** Dragging a task to another wave: what moves, what stays, and when nothing is lost. */
module FlowEdit {
  import opened Seqs
  import opened FlowModel
  import opened FlowRepair
  import opened RepairOrder
  import opened RepairExact
  import opened RepairStable

  // ---- the move ----

  function StripTasks(tasks: seq<Task>, id: Id): seq<Task> {
    if tasks == [] then []
    else (if tasks[0].id != id then [tasks[0]] else []) + StripTasks(tasks[1..], id)
  }

  function Strip(flow: Flow, id: Id): Flow {
    Map((w: Wave) => w.(tasks := StripTasks(w.tasks, id)), flow)
  }

  function FindTask(tasks: seq<Task>, id: Id): (r: Option<Task>)
    ensures r.Some? ==> r.value in tasks && r.value.id == id
    ensures r.None? ==> forall t :: t in tasks ==> t.id != id
  {
    if tasks == [] then None
    else if tasks[0].id == id then Some(tasks[0])
    else FindTask(tasks[1..], id)
  }

  /** The task that moves: a later wave's hit overwrites an earlier one's. */
  function Moved(flow: Flow, id: Id): Option<Task> {
    if flow == [] then None
    else
      var later := Moved(flow[1..], id);
      if later.Some? then later else FindTask(flow[0].tasks, id)
  }

  function IndexOf(tasks: seq<Task>, id: Id): (k: nat)
    ensures k <= |tasks| && (k < |tasks| ==> tasks[k].id == id)
    ensures forall j :: 0 <= j < k ==> tasks[j].id != id
  {
    if tasks == [] then 0
    else if tasks[0].id == id then 0
    else 1 + IndexOf(tasks[1..], id)
  }

  function Place(tasks: seq<Task>, t: Task, before: Option<Id>): seq<Task> {
    var at := if before.Some? then IndexOf(tasks, before.value) else |tasks|;
    tasks[..at] + [t] + tasks[at..]
  }

  function Drop(flow: Flow, t: Task, to: Id, before: Option<Id>): Flow {
    Map((w: Wave) => if w.id == to then w.(tasks := Place(w.tasks, t, before)) else w, flow)
  }

  function MoveTask(flow: Flow, id: Id, to: Id, before: Option<Id>): Flow {
    match Moved(flow, id)
    case None => flow
    case Some(t) => Drop(Strip(flow, id), t, to, before)
  }

  // ---- what it conserves ----

  function Bag(flow: Flow): multiset<Task> {
    if flow == [] then multiset{} else multiset(flow[0].tasks) + Bag(flow[1..])
  }

  function WavesWith(flow: Flow, id: Id): nat {
    if flow == [] then 0 else (if flow[0].id == id then 1 else 0) + WavesWith(flow[1..], id)
  }

  ghost predicate UniqueTaskIds(flow: Flow) {
    forall t :: t in Bag(flow) ==> Bag(flow)[t] == 1 && forall u :: u in Bag(flow) && u.id == t.id ==> u == t
  }

  lemma {:induction false} StripTasksBag(tasks: seq<Task>, id: Id)
    ensures forall t: Task :: multiset(StripTasks(tasks, id))[t] == if t.id == id then 0 else multiset(tasks)[t]
  {
    if tasks == [] {
    } else {
      StripTasksBag(tasks[1..], id);
      assert tasks == [tasks[0]] + tasks[1..];
    }
  }

  lemma {:induction false} StripBag(flow: Flow, id: Id)
    ensures forall t: Task :: Bag(Strip(flow, id))[t] == if t.id == id then 0 else Bag(flow)[t]
  {
    if flow == [] {
    } else {
      assert Strip(flow, id)[1..] == Strip(flow[1..], id);
      StripTasksBag(flow[0].tasks, id);
      StripBag(flow[1..], id);
    }
  }

  lemma {:induction false} DropBag(flow: Flow, t: Task, to: Id, before: Option<Id>)
    ensures Bag(Drop(flow, t, to, before)) == Bag(flow)[t := Bag(flow)[t] + WavesWith(flow, to)]
  {
    if flow == [] {
    } else {
      var w := flow[0];
      assert Drop(flow, t, to, before)[1..] == Drop(flow[1..], t, to, before);
      DropBag(flow[1..], t, to, before);
      PlaceBag(w.tasks, t, before);
    }
  }

  lemma PlaceBag(tasks: seq<Task>, t: Task, before: Option<Id>)
    ensures multiset(Place(tasks, t, before)) == multiset(tasks) + multiset{t}
  {
    var at := if before.Some? then IndexOf(tasks, before.value) else |tasks|;
    assert tasks == tasks[..at] + tasks[at..];
  }

  lemma {:induction false} StripWaves(flow: Flow, id: Id, to: Id)
    ensures WavesWith(Strip(flow, id), to) == WavesWith(flow, to)
  {
    if flow == [] {
    } else {
      assert Strip(flow, id)[1..] == Strip(flow[1..], id);
      StripWaves(flow[1..], id, to);
    }
  }

  lemma {:induction false} MovedInBag(flow: Flow, id: Id)
    ensures match Moved(flow, id)
            case Some(t) => t in Bag(flow) && t.id == id
            case None => forall t :: t in Bag(flow) ==> t.id != id
  {
    if flow == [] {
    } else {
      MovedInBag(flow[1..], id);
    }
  }

  /**
   * With distinct task ids, a move conserves the tasks exactly when its target names one wave (or it moves
   * nothing).
   */
  lemma MoveConserves(flow: Flow, id: Id, to: Id, before: Option<Id>)
    requires UniqueTaskIds(flow)
    ensures Bag(MoveTask(flow, id, to, before)) == Bag(flow) <==> Moved(flow, id).None? || WavesWith(flow, to) == 1
  {
    MovedInBag(flow, id);
    if Moved(flow, id).Some? {
      var t := Moved(flow, id).value;
      StripBag(flow, id);
      StripWaves(flow, id, to);
      DropBag(Strip(flow, id), t, to, before);
      assert Bag(MoveTask(flow, id, to, before))[t] == WavesWith(flow, to);
      forall u: Task ensures u != t ==> Bag(MoveTask(flow, id, to, before))[u] == Bag(flow)[u] {
        if u.id == id && u != t {
          assert u !in Bag(flow);
        }
      }
    }
  }

  /** An unknown target loses the task, and only that task. */
  lemma MoveToNowhere(flow: Flow, id: Id, to: Id, before: Option<Id>)
    requires UniqueTaskIds(flow) && Moved(flow, id).Some? && WavesWith(flow, to) == 0
    ensures Bag(MoveTask(flow, id, to, before)) == Bag(flow) - multiset{Moved(flow, id).value}
  {
    var t := Moved(flow, id).value;
    MovedInBag(flow, id);
    StripBag(flow, id);
    StripWaves(flow, id, to);
    DropBag(Strip(flow, id), t, to, before);
    forall u: Task ensures u != t ==> Bag(MoveTask(flow, id, to, before))[u] == Bag(flow)[u] {
      if u.id == id && u != t {
        assert u !in Bag(flow);
      }
    }
  }

  // ---- what it leaves alone ----

  lemma {:induction false} StripTasksConcat(xs: seq<Task>, ys: seq<Task>, id: Id)
    ensures StripTasks(xs + ys, id) == StripTasks(xs, id) + StripTasks(ys, id)
  {
    if xs == [] {
      assert xs + ys == ys;
    } else {
      assert (xs + ys)[1..] == xs[1..] + ys;
      StripTasksConcat(xs[1..], ys, id);
    }
  }

  lemma {:induction false} StripTasksTwice(tasks: seq<Task>, id: Id)
    ensures StripTasks(StripTasks(tasks, id), id) == StripTasks(tasks, id)
  {
    if tasks == [] {
    } else {
      StripTasksConcat(if tasks[0].id != id then [tasks[0]] else [], StripTasks(tasks[1..], id), id);
      StripTasksTwice(tasks[1..], id);
    }
  }

  lemma PlaceStripped(tasks: seq<Task>, t: Task, before: Option<Id>)
    ensures StripTasks(Place(tasks, t, before), t.id) == StripTasks(tasks, t.id)
  {
    var at := if before.Some? then IndexOf(tasks, before.value) else |tasks|;
    assert tasks == tasks[..at] + tasks[at..];
    StripTasksConcat(tasks[..at], tasks[at..], t.id);
    StripTasksConcat(tasks[..at] + [t], tasks[at..], t.id);
    StripTasksConcat(tasks[..at], [t], t.id);
  }

  /** Away from the moved task, a move changes nothing: same waves, same ids, same tasks in the same order. */
  lemma MoveFrame(flow: Flow, id: Id, to: Id, before: Option<Id>)
    ensures Strip(MoveTask(flow, id, to, before), id) == Strip(flow, id)
  {
    MovedInBag(flow, id);
    if Moved(flow, id).Some? {
      var t, r := Moved(flow, id).value, MoveTask(flow, id, to, before);
      forall i | 0 <= i < |flow| ensures Strip(r, id)[i] == Strip(flow, id)[i] {
        StripTasksTwice(flow[i].tasks, id);
        PlaceStripped(StripTasks(flow[i].tasks, id), t, before);
      }
    }
  }

  /** t sits in `tasks` just before the first task with the given id, last when there is none; the rest is `others`. */
  ghost predicate LandsBefore(tasks: seq<Task>, others: seq<Task>, t: Task, before: Option<Id>) {
    exists k :: 0 <= k <= |others| &&
      tasks == others[..k] + [t] + others[k..] && (k < |others| ==> before == Some(others[k].id))
      && forall j :: 0 <= j < k ==> before != Some(others[j].id)
  }

  lemma MoveLands(flow: Flow, id: Id, to: Id, before: Option<Id>, i: nat)
    requires Moved(flow, id).Some? && i < |flow| && flow[i].id == to
    ensures LandsBefore(MoveTask(flow, id, to, before)[i].tasks, StripTasks(flow[i].tasks, id),
                        Moved(flow, id).value, before)
  {
    var others := StripTasks(flow[i].tasks, id);
    var k := if before.Some? then IndexOf(others, before.value) else |others|;
    assert MoveTask(flow, id, to, before)[i].tasks == others[..k] + [Moved(flow, id).value] + others[k..];
  }

  // ---- repaired flows may be dragged safely ----

  lemma {:induction false} BagConcat(f: Flow, h: Flow)
    ensures Bag(f + h) == Bag(f) + Bag(h)
  {
    if f == [] {
      assert f + h == h;
    } else {
      assert (f + h)[1..] == f[1..] + h;
      BagConcat(f[1..], h);
    }
  }

  lemma BagSwap(f: Flow, w: Wave, h: Flow)
    ensures Bag(f + [w] + h) == Bag(f) + multiset(w.tasks) + Bag(h)
  {
    BagConcat(f + [w], h);
    BagConcat(f, [w]);
  }

  lemma JoinBag(front: Flow, w: Wave, back: Flow, t: Task)
    ensures Bag(front + [Wave(w.id, w.tasks + [t])] + back) == Bag(front + [w] + back) + multiset{t}
  {
    BagSwap(front, Wave(w.id, w.tasks + [t]), back);
    BagSwap(front, w, back);
  }

  lemma NewWaveBag(front: Flow, back: Flow, t: Task, waveId: Id)
    ensures Bag(front + [Wave(waveId, [t])] + back) == Bag(front + back) + multiset{t}
  {
    BagSwap(front, Wave(waveId, [t]), back);
    BagConcat(front, back);
  }

  lemma InsertBag(flow: Flow, t: Task, waveId: Id)
    ensures Bag(InsertMissing(flow, t, waveId)) == Bag(flow) + multiset{t}
  {
    var k := Cut(flow, t);
    if Joins(flow, t) {
      InsertJoins(flow, t, waveId);
      SplitAround(flow, k);
      JoinBag(flow[..k - 1], flow[k - 1], flow[k..], t);
    } else {
      InsertSplices(flow, t, waveId);
      NewWaveBag(flow[..k], flow[k..], t, waveId);
      assert InsertMissing(flow, t, waveId) == flow[..k] + [Wave(waveId, [t])] + flow[k..];
      assert flow == flow[..k] + flow[k..];
    }
  }

  lemma {:induction false} FillInUnique(flow: Flow, missing: seq<Chip>, g: Id)
    requires UniqueTaskIds(flow) && forall t :: t in Bag(flow) ==> t.id < g
    ensures UniqueTaskIds(FillIn(flow, missing, g))
    decreases missing
  {
    if missing == [] {
    } else {
      var t := Task(g, missing[0].owner, missing[0].phase);
      InsertBag(flow, t, g + 1);
      FillInUnique(InsertMissing(flow, t, g + 1), missing[1..], g + 2);
    }
  }

  lemma {:induction false} KeepTasksBag(tasks: seq<Task>, expected: set<Chip>, seen: set<Chip>)
    ensures multiset(KeepTasks(tasks, expected, seen).0) <= multiset(tasks)
  {
    if tasks == [] {
    } else {
      assert tasks == [tasks[0]] + tasks[1..];
      KeepTasksBag(tasks[1..], expected, seen);
      KeepTasksBag(tasks[1..], expected, seen + {ChipOf(tasks[0])});
    }
  }

  lemma {:induction false} KeepBag(flow: Flow, expected: set<Chip>, seen: set<Chip>)
    ensures Bag(Keep(flow, expected, seen).0) <= Bag(flow)
  {
    if flow == [] {
    } else {
      KeepTasksBag(flow[0].tasks, expected, seen);
      KeepBag(flow[1..], expected, KeepTasks(flow[0].tasks, expected, seen).1);
    }
  }

  lemma {:induction false} BagIds(flow: Flow, g: Id)
    requires IdsBelow(flow, g)
    ensures forall t :: t in Bag(flow) ==> t.id < g
  {
    if flow == [] {
    } else {
      BagIds(flow[1..], g);
    }
  }

  /** Task ids stay distinct through a repair, so the condition of MoveConserves keeps holding. */
  lemma RepairKeepsIdsUnique(expected: seq<Chip>, flow: Flow, g: Id)
    requires UniqueTaskIds(flow) && IdsBelow(flow, g)
    ensures UniqueTaskIds(Reconcile(expected, flow, g))
  {
    var kept := Kept(expected, flow);
    KeepBag(flow, Elems(expected), {});
    BagIds(flow, g);
    forall t | t in Bag(kept) ensures t.id < g && Bag(kept)[t] == 1 {
      assert t in Bag(flow);
    }
    FillInUnique(kept, MissingFrom(expected, flow), g);
  }

  /** With one wave, numbered 1, dragging its only task to wave 2 empties the flow. */
  lemma DraggedAway()
    ensures Bag(MoveTask([Wave(1, [Task(7, "api", Build)])], 7, 2, None)) == multiset{}
  {
    LoneTaskLost(Task(7, "api", Build), 1, 2);
  }

  lemma LoneTaskLost(t: Task, from: Id, to: Id)
    requires from != to
    ensures Bag(MoveTask([Wave(from, [t])], t.id, to, None)) == multiset{}
  {
    var flow := [Wave(from, [t])];
    assert [t][1..] == [] && flow[1..] == [];
    assert Moved(flow, t.id) == Some(t) && Bag(flow) == multiset{t};
    assert UniqueTaskIds(flow);
    MoveToNowhere(flow, t.id, to, None);
  }
}
