/** What a repair leaves alone: surviving tasks and waves, ids, and flows that need no repair. */
module RepairStable {
  import opened Seqs
  import opened FlowModel
  import opened FlowRepair
  import opened RepairOrder
  import opened RepairExact

  // ---- surviving tasks keep their order and their waves ----

  predicate IdsBelow(flow: Flow, g: Id) {
    forall i :: 0 <= i < |flow| ==> flow[i].id < g && forall j :: 0 <= j < |flow[i].tasks| ==> flow[i].tasks[j].id < g
  }

  function OlderTasks(tasks: seq<Task>, g: Id): seq<Task> {
    if tasks == [] then []
    else (if tasks[0].id < g then [tasks[0]] else []) + OlderTasks(tasks[1..], g)
  }

  /** The part of a flow that was there before the id supply reached g. */
  function Older(flow: Flow, g: Id): Flow {
    if flow == [] then []
    else (if flow[0].id < g then [Wave(flow[0].id, OlderTasks(flow[0].tasks, g))] else []) + Older(flow[1..], g)
  }

  lemma {:induction false} OlderTasksAll(tasks: seq<Task>, g: Id)
    requires forall j :: 0 <= j < |tasks| ==> tasks[j].id < g
    ensures OlderTasks(tasks, g) == tasks
  {
    if tasks == [] {
    } else {
      OlderTasksAll(tasks[1..], g);
    }
  }

  lemma {:induction false} OlderAll(flow: Flow, g: Id)
    requires IdsBelow(flow, g)
    ensures Older(flow, g) == flow
  {
    if flow == [] {
    } else {
      OlderTasksAll(flow[0].tasks, g);
      OlderAll(flow[1..], g);
    }
  }

  lemma {:induction false} OlderTasksAppend(tasks: seq<Task>, t: Task, g: Id)
    requires t.id >= g
    ensures OlderTasks(tasks + [t], g) == OlderTasks(tasks, g)
  {
    if tasks == [] {
      assert OlderTasks([t], g) == OlderTasks([], g);
    } else {
      assert (tasks + [t])[1..] == tasks[1..] + [t];
      OlderTasksAppend(tasks[1..], t, g);
    }
  }

  lemma {:induction false} OlderConcat(f: Flow, h: Flow, g: Id)
    ensures Older(f + h, g) == Older(f, g) + Older(h, g)
  {
    if f == [] {
      assert f + h == h;
    } else {
      assert (f + h)[1..] == f[1..] + h;
      OlderConcat(f[1..], h, g);
    }
  }

  lemma OlderJoin(f: Flow, w: Wave, h: Flow, t: Task, g: Id)
    requires t.id >= g
    ensures Older(f + [Wave(w.id, w.tasks + [t])] + h, g) == Older(f + [w] + h, g)
  {
    OlderTasksAppend(w.tasks, t, g);
    OlderSwap(f, Wave(w.id, w.tasks + [t]), h, g);
    OlderSwap(f, w, h, g);
  }

  lemma OlderNewWave(f: Flow, w: Wave, h: Flow, g: Id)
    requires w.id >= g
    ensures Older(f + [w] + h, g) == Older(f + h, g)
  {
    OlderSwap(f, w, h, g);
    OlderConcat(f, h, g);
  }

  lemma OlderInsert(flow: Flow, t: Task, waveId: Id, g: Id)
    requires t.id >= g && waveId >= g
    ensures Older(InsertMissing(flow, t, waveId), g) == Older(flow, g)
  {
    var k := Cut(flow, t);
    if Joins(flow, t) {
      InsertJoins(flow, t, waveId);
      SplitAround(flow, k);
      OlderJoin(flow[..k - 1], flow[k - 1], flow[k..], t, g);
    } else {
      InsertSplices(flow, t, waveId);
      assert InsertMissing(flow, t, waveId) == flow[..k] + [Wave(waveId, [t])] + flow[k..];
      assert flow == flow[..k] + flow[k..];
      OlderNewWave(flow[..k], Wave(waveId, [t]), flow[k..], g);
    }
  }

  lemma OlderSwap(f: Flow, w: Wave, h: Flow, g: Id)
    ensures Older(f + [w] + h, g) ==
            Older(f, g) + (if w.id < g then [Wave(w.id, OlderTasks(w.tasks, g))] else []) + Older(h, g)
  {
    OlderConcat(f + [w], h, g);
    OlderConcat(f, [w], g);
  }

  lemma {:induction false} OlderFillIn(flow: Flow, missing: seq<Chip>, next: Id, g: Id)
    requires next >= g
    ensures Older(FillIn(flow, missing, next), g) == Older(flow, g)
    decreases missing
  {
    if missing == [] {
    } else {
      var t := Task(next, missing[0].owner, missing[0].phase);
      OlderInsert(flow, t, next + 1, g);
      OlderFillIn(InsertMissing(flow, t, next + 1), missing[1..], next + 2, g);
    }
  }

  lemma {:induction false} ThinnedMember<T>(xs: seq<T>, ys: seq<T>, x: T)
    requires Thinned(xs, ys) && x in xs
    ensures x in ys
  {
    if ys == [] {
    } else if xs != [] && xs[0] == ys[0] && Thinned(xs[1..], ys[1..]) {
      if x in xs[1..] {
        ThinnedMember(xs[1..], ys[1..], x);
      }
    } else {
      ThinnedMember(xs, ys[1..], x);
    }
  }

  /**
   * However much is inserted, taking the new tasks and waves away gives back exactly what was
   * kept: the old waves in order, each holding its surviving tasks in order.
   */
  lemma RepairKeepsSurvivors(expected: seq<Chip>, flow: Flow, g: Id)
    requires IdsBelow(flow, g)
    ensures Older(Reconcile(expected, flow, g), g) == Kept(expected, flow)
    ensures |Kept(expected, flow)| == |flow|
    ensures forall i :: 0 <= i < |flow| ==>
      Kept(expected, flow)[i].id == flow[i].id && Thinned(Kept(expected, flow)[i].tasks, flow[i].tasks)
  {
    var kept, missing := Kept(expected, flow), MissingFrom(expected, flow);
    KeepThins(flow, Elems(expected), {});
    forall i, j | 0 <= i < |kept| && 0 <= j < |kept[i].tasks| ensures kept[i].tasks[j].id < g {
      ThinnedMember(kept[i].tasks, flow[i].tasks, kept[i].tasks[j]);
    }
    OlderAll(kept, g);
    OlderFillIn(kept, missing, g, g);
    assert Older([Wave(g + 2 * |missing|, [])], g) == [];
  }

  // ---- flows that need no repair ----

  lemma {:induction false} KeepTasksAll(tasks: seq<Task>, expected: set<Chip>, seen: set<Chip>)
    requires NoDup(Chips(tasks)) && forall c :: c in Chips(tasks) ==> c in expected && c !in seen
    ensures KeepTasks(tasks, expected, seen).0 == tasks
  {
    if tasks == [] {
    } else {
      var c := ChipOf(tasks[0]);
      assert Chips(tasks) == [c] + Chips(tasks[1..]);
      assert Chips(tasks)[0] == c;
      NoDupConcat([c], Chips(tasks[1..]));
      KeepTasksAll(tasks[1..], expected, seen + {c});
    }
  }

  lemma {:induction false} KeepAll(flow: Flow, expected: set<Chip>, seen: set<Chip>)
    requires NoDup(Flat(flow)) && forall c :: c in Flat(flow) ==> c in expected && c !in seen
    ensures Keep(flow, expected, seen).0 == flow
  {
    if flow == [] {
    } else {
      var tasks := flow[0].tasks;
      FlatStep(flow);
      NoDupConcat(Chips(tasks), Flat(flow[1..]));
      KeepTasksAll(tasks, expected, seen);
      KeepTasksContents(tasks, expected, seen);
      KeepAll(flow[1..], expected, KeepTasks(tasks, expected, seen).1);
    }
  }

  ghost predicate Complete(expected: seq<Chip>, flow: Flow) {
    NoDup(Flat(flow)) && forall c :: c in Flat(flow) <==> c in expected
  }

  /** A repair changes nothing, ids included, exactly on the flows that already hold each expected chip once. */
  lemma RepairFixpoint(expected: seq<Chip>, flow: Flow, g: Id)
    requires NoDup(expected)
    ensures Reconcile(expected, flow, g) == flow <==> flow != [] && Complete(expected, flow)
  {
    RepairIsExact(expected, flow, g);
    if flow != [] && Complete(expected, flow) {
      KeepAll(flow, Elems(expected), {});
      RepairParts(expected, flow);
      HasMember(MissingFrom(expected, flow));
    }
  }

  /** Repairing twice is repairing once, whatever ids the second repair would draw. */
  lemma RepairIdempotent(expected: seq<Chip>, flow: Flow, g: Id, g': Id)
    requires NoDup(expected)
    ensures Reconcile(expected, Reconcile(expected, flow, g), g') == Reconcile(expected, flow, g)
  {
    RepairIsExact(expected, flow, g);
    RepairFixpoint(expected, Reconcile(expected, flow, g), g');
  }

  // ---- the case that breaks order ----

  const Gap: Flow := [Wave(0, [Task(1, "a", Install), Task(2, "a", Cleanup)])]
  const Wanted: seq<Chip> := [Chip("a", Install), Chip("a", Build), Chip("a", Cleanup)]

  lemma GapFacts()
    ensures Flat(Gap) == [Wanted[0], Wanted[2]]
    ensures OrderOk(Signature(Gap))
    ensures Kept(Wanted, Gap) == Gap
  {
    var wave := Chips(Gap[0].tasks);
    assert wave == [Wanted[0], Wanted[2]];
    assert Signature(Gap) == [wave];
    FlattenOne(wave);
    assert Wanted[0] in Wanted && Wanted[2] in Wanted;
    KeepAll(Gap, Elems(Wanted), {});
  }

  /** Install and cleanup share a wave and build is missing: the flow is in order, its repair is not. */
  lemma RepairCanBreakOrder(g: Id)
    ensures Agenda(Wanted) && OrderOk(Signature(Gap)) && !OrderOk(Signature(Reconcile(Wanted, Gap, g)))
  {
    GapFacts();
    RepairKeepsOrder(Wanted, Gap, g);
    var wave := Signature(Gap)[0];
    assert wave[0] == Wanted[0] && wave[1] == Wanted[2];
    assert HoldsEarlier(wave, Wanted[1]) && HoldsLater(wave, Wanted[1]);
    assert Straddled(Signature(Gap), Wanted[1]);
    assert Wanted[1] in Wanted && Wanted[1] !in Flat(Gap);
  }
}
