/** What a repaired flow contains, what it leaves alone, and when it is in order. */
module RepairExact {
  import opened Seqs
  import opened FlowModel
  import opened FlowRepair
  import opened RepairOrder

  function Flat(flow: Flow): seq<Chip> {
    Flatten(Signature(flow))
  }

  lemma FlatStep(flow: Flow)
    requires flow != []
    ensures Flat(flow) == Chips(flow[0].tasks) + Flat(flow[1..])
  {
    assert Signature(flow)[1..] == Signature(flow[1..]);
  }

  // ---- what is kept ----

  /** xs can be obtained from ys by deleting elements. */
  ghost predicate Thinned<T>(xs: seq<T>, ys: seq<T>) {
    if ys == [] then xs == []
    else (xs != [] && xs[0] == ys[0] && Thinned(xs[1..], ys[1..])) || Thinned(xs, ys[1..])
  }

  lemma {:induction false} KeepTasksContents(tasks: seq<Task>, expected: set<Chip>, seen: set<Chip>)
    ensures var (r, seen') := KeepTasks(tasks, expected, seen);
      && NoDup(Chips(r))
      && (forall c :: c in Chips(r) <==> c in Chips(tasks) && c in expected && c !in seen)
      && seen' == seen + Elems(Chips(r))
  {
    if tasks == [] {
    } else {
      var c, rest := ChipOf(tasks[0]), tasks[1..];
      assert Chips(tasks) == [c] + Chips(rest);
      if c in expected && c !in seen {
        KeepTasksContents(rest, expected, seen + {c});
        var kept := KeepTasks(rest, expected, seen + {c}).0;
        assert Chips([tasks[0]] + kept) == [c] + Chips(kept);
        NoDupConcat([c], Chips(kept));
        assert Elems([c] + Chips(kept)) == {c} + Elems(Chips(kept));
      } else {
        KeepTasksContents(rest, expected, seen);
      }
    }
  }

  lemma {:induction false} KeepTasksThins(tasks: seq<Task>, expected: set<Chip>, seen: set<Chip>)
    ensures Thinned(KeepTasks(tasks, expected, seen).0, tasks)
  {
    if tasks == [] {
    } else {
      var c, rest := ChipOf(tasks[0]), tasks[1..];
      if c in expected && c !in seen {
        KeepTasksThins(rest, expected, seen + {c});
        var kept := KeepTasks(rest, expected, seen + {c}).0;
        assert ([tasks[0]] + kept)[1..] == kept;
      } else {
        KeepTasksThins(rest, expected, seen);
      }
    }
  }

  /** In front of fewer of the chips behind it, a chip is in order as well. */
  lemma FewerInOrder(c: Chip, rest: seq<Chip>, kept: seq<Chip>)
    requires InOrder([c] + rest) && InOrder(kept) && forall d :: d in kept ==> d in rest
    ensures InOrder([c] + kept)
  {
    InOrderConcat([c], rest);
    InOrderConcat([c], kept);
  }

  lemma RestInOrder(c: Chip, rest: seq<Chip>)
    requires InOrder([c] + rest)
    ensures InOrder(rest)
  {
    InOrderConcat([c], rest);
  }

  lemma {:induction false} KeepTasksOrder(tasks: seq<Task>, expected: set<Chip>, seen: set<Chip>)
    requires InOrder(Chips(tasks))
    ensures InOrder(Chips(KeepTasks(tasks, expected, seen).0))
  {
    if tasks == [] {
    } else {
      var c, rest := ChipOf(tasks[0]), tasks[1..];
      assert Chips(tasks) == [c] + Chips(rest);
      RestInOrder(c, Chips(rest));
      if c in expected && c !in seen {
        KeepTasksOrder(rest, expected, seen + {c});
        KeepTasksContents(rest, expected, seen + {c});
        var kept := KeepTasks(rest, expected, seen + {c}).0;
        assert Chips([tasks[0]] + kept) == [c] + Chips(kept);
        FewerInOrder(c, Chips(rest), Chips(kept));
      } else {
        KeepTasksOrder(rest, expected, seen);
      }
    }
  }

  lemma {:induction false} KeepContents(flow: Flow, expected: set<Chip>, seen: set<Chip>)
    ensures var (r, seen') := Keep(flow, expected, seen);
      && NoDup(Flat(r))
      && (forall c :: c in Flat(r) <==> c in Flat(flow) && c in expected && c !in seen)
      && seen' == seen + Elems(Flat(r))
  {
    if flow == [] {
    } else {
      var (tasks, seen') := KeepTasks(flow[0].tasks, expected, seen);
      var (rest, seen'') := Keep(flow[1..], expected, seen');
      KeepTasksContents(flow[0].tasks, expected, seen);
      KeepContents(flow[1..], expected, seen');
      var r := [Wave(flow[0].id, tasks)] + rest;
      assert r[1..] == rest;
      FlatStep(flow);
      FlatStep(r);
      NoDupConcat(Chips(tasks), Flat(rest));
      assert Elems(Chips(tasks) + Flat(rest)) == Elems(Chips(tasks)) + Elems(Flat(rest));
    }
  }

  /** What is kept stays in its wave, in its order. */
  lemma {:induction false} KeepThins(flow: Flow, expected: set<Chip>, seen: set<Chip>)
    ensures var r := Keep(flow, expected, seen).0;
      |r| == |flow| && forall i :: 0 <= i < |flow| ==> r[i].id == flow[i].id && Thinned(r[i].tasks, flow[i].tasks)
  {
    if flow == [] {
    } else {
      KeepTasksThins(flow[0].tasks, expected, seen);
      KeepThins(flow[1..], expected, KeepTasks(flow[0].tasks, expected, seen).1);
    }
  }

  lemma {:induction false} KeepOrder(flow: Flow, expected: set<Chip>, seen: set<Chip>)
    requires OrderOk(Signature(flow))
    ensures OrderOk(Signature(Keep(flow, expected, seen).0))
  {
    if flow == [] {
    } else {
      var (tasks, seen') := KeepTasks(flow[0].tasks, expected, seen);
      var rest := Keep(flow[1..], expected, seen').0;
      OrderOkFlow(flow);
      KeepTasksContents(flow[0].tasks, expected, seen);
      KeepTasksOrder(flow[0].tasks, expected, seen);
      KeepContents(flow[1..], expected, seen');
      KeepOrder(flow[1..], expected, seen');
      OrderShrinks(flow, [Wave(flow[0].id, tasks)] + rest);
    }
  }

  lemma OrderShrinks(flow: Flow, less: Flow)
    requires flow != [] && less != []
    requires !Mixed(Chips(flow[0].tasks)) && Precedes(Chips(flow[0].tasks), Flat(flow[1..]))
    requires forall c :: c in Chips(less[0].tasks) ==> c in Chips(flow[0].tasks)
    requires forall c :: c in Flat(less[1..]) ==> c in Flat(flow[1..])
    requires InOrder(Chips(less[0].tasks)) && OrderOk(Signature(less[1..]))
    ensures OrderOk(Signature(less))
  {
    OrderOkFlow(less);
  }

  lemma OrderOkFlow(flow: Flow)
    requires flow != []
    ensures OrderOk(Signature(flow)) <==>
      && !Mixed(Chips(flow[0].tasks)) && InOrder(Chips(flow[0].tasks))
      && OrderOk(Signature(flow[1..])) && Precedes(Chips(flow[0].tasks), Flat(flow[1..]))
  {
    assert Signature(flow) == [Chips(flow[0].tasks)] + Signature(flow[1..]);
    OrderOkStep(Chips(flow[0].tasks), Signature(flow[1..]));
  }

  lemma OrderOkStep(wave: seq<Chip>, rest: Plan)
    ensures OrderOk([wave] + rest) <==> !Mixed(wave) && InOrder(wave) && OrderOk(rest) && Precedes(wave, Flatten(rest))
  {
    var plan := [wave] + rest;
    assert plan[1..] == rest && Flatten(plan) == wave + Flatten(rest);
    InOrderConcat(wave, Flatten(rest));
    if Unmixed(plan) {
      assert !Mixed(plan[0]);
      forall i | 0 <= i < |rest| ensures !Mixed(rest[i]) {
        assert !Mixed(plan[i + 1]);
      }
    }
  }

  // ---- what is filled in ----

  lemma {:induction false} FillInExact(flow: Flow, missing: seq<Chip>, g: Id)
    requires NoDup(Flat(flow)) && NoDup(missing) && Disjoint(missing, Flat(flow))
    ensures NoDup(Flat(FillIn(flow, missing, g)))
    ensures forall c :: c in Flat(FillIn(flow, missing, g)) <==> c in Flat(flow) || c in missing
    decreases missing
  {
    if missing == [] {
    } else {
      var t, rest := Task(g, missing[0].owner, missing[0].phase), missing[1..];
      assert missing == [missing[0]] + rest;
      NoDupConcat([missing[0]], rest);
      InsertExact(flow, t, g + 1);
      FillInExact(InsertMissing(flow, t, g + 1), rest, g + 2);
    }
  }

  lemma InsertExact(flow: Flow, t: Task, waveId: Id)
    requires NoDup(Flat(flow)) && ChipOf(t) !in Flat(flow)
    ensures NoDup(Flat(InsertMissing(flow, t, waveId)))
    ensures forall c :: c in Flat(InsertMissing(flow, t, waveId)) <==> c in Flat(flow) || c == ChipOf(t)
  {
    var sig, k, c := Signature(flow), Cut(flow, t), ChipOf(t);
    var front, back := Flatten(sig[..k]), Flatten(sig[k..]);
    InsertShape(flow, t, waveId);
    InsertedFlat(sig, Signature(InsertMissing(flow, t, waveId)), c, k);
    FlattenSplit(sig, k);
    NoDupConcat(front, back);
    NoDupConcat(front + [c], back);
    NoDupConcat(front, [c]);
  }

  lemma {:induction false} MissingNoDup(expected: seq<Chip>, seen: set<Chip>)
    requires NoDup(expected)
    ensures NoDup(Missing(expected, seen))
  {
    if expected == [] {
    } else {
      var rest := expected[1..];
      assert expected == [expected[0]] + rest;
      NoDupConcat([expected[0]], rest);
      MissingNoDup(rest, seen);
      NoDupConcat([expected[0]], Missing(rest, seen));
    }
  }

  lemma AgendaFirst(c: Chip, rest: seq<Chip>)
    requires Agenda([c] + rest)
    ensures Agenda(rest) && forall d :: d in rest && d.owner == c.owner ==> Rank(c.phase) < Rank(d.phase)
  {
    var all := [c] + rest;
    forall i, j | 0 <= i < j < |rest| && rest[i].owner == rest[j].owner
      ensures Rank(rest[i].phase) < Rank(rest[j].phase)
    {
      assert rest[i] == all[i + 1] && rest[j] == all[j + 1];
    }
    forall j | 0 <= j < |rest| && rest[j].owner == c.owner ensures Rank(c.phase) < Rank(rest[j].phase) {
      assert all[0] == c && all[j + 1] == rest[j];
    }
  }

  lemma AgendaCons(c: Chip, rest: seq<Chip>)
    requires Agenda(rest) && forall d :: d in rest && d.owner == c.owner ==> Rank(c.phase) < Rank(d.phase)
    ensures Agenda([c] + rest)
  {
  }

  lemma {:induction false} MissingAgenda(expected: seq<Chip>, seen: set<Chip>)
    requires Agenda(expected)
    ensures Agenda(Missing(expected, seen))
  {
    if expected == [] {
    } else {
      var c, rest := expected[0], expected[1..];
      assert expected == [c] + rest;
      AgendaFirst(c, rest);
      MissingAgenda(rest, seen);
      AgendaCons(c, Missing(rest, seen));
    }
  }

  lemma MissingSpec(expected: seq<Chip>, seen: set<Chip>)
    ensures NoDup(expected) ==> NoDup(Missing(expected, seen))
    ensures Agenda(expected) ==> Agenda(Missing(expected, seen))
  {
    if NoDup(expected) {
      MissingNoDup(expected, seen);
    }
    if Agenda(expected) {
      MissingAgenda(expected, seen);
    }
  }

  // ---- the main results ----

  /** What survives of a flow before anything is inserted. */
  function Kept(expected: seq<Chip>, flow: Flow): Flow {
    Keep(flow, Elems(expected), {}).0
  }

  function MissingFrom(expected: seq<Chip>, flow: Flow): seq<Chip> {
    Missing(expected, Keep(flow, Elems(expected), {}).1)
  }

  lemma RepairParts(expected: seq<Chip>, flow: Flow)
    ensures NoDup(Flat(Kept(expected, flow)))
    ensures forall c :: c in Flat(Kept(expected, flow)) <==> c in Flat(flow) && c in expected
    ensures forall c :: c in MissingFrom(expected, flow) <==> c in expected && c !in Flat(flow)
    ensures NoDup(expected) ==> NoDup(MissingFrom(expected, flow))
    ensures Agenda(expected) ==> Agenda(MissingFrom(expected, flow))
  {
    KeepContents(flow, Elems(expected), {});
    MissingSpec(expected, Keep(flow, Elems(expected), {}).1);
  }

  /** The repair fills in what is missing, and leaves an empty wave if there is nothing. */
  lemma ReconcileIs(expected: seq<Chip>, flow: Flow, g: Id)
    ensures var filled := FillIn(Kept(expected, flow), MissingFrom(expected, flow), g);
      Reconcile(expected, flow, g) ==
        if filled != [] then filled else [Wave(g + 2 * |MissingFrom(expected, flow)|, [])]
  {
  }

  lemma RepairIsFillIn(expected: seq<Chip>, flow: Flow, g: Id)
    ensures var r := Reconcile(expected, flow, g);
      var filled := FillIn(Kept(expected, flow), MissingFrom(expected, flow), g);
      Flat(r) == Flat(filled) && (OrderOk(Signature(r)) <==> OrderOk(Signature(filled)))
  {
    ReconcileIs(expected, flow, g);
    OrEmptyWave(Reconcile(expected, flow, g), FillIn(Kept(expected, flow), MissingFrom(expected, flow), g),
                g + 2 * |MissingFrom(expected, flow)|);
  }

  lemma OrEmptyWave(r: Flow, filled: Flow, id: Id)
    requires r == if filled != [] then filled else [Wave(id, [])]
    ensures Flat(r) == Flat(filled) && (OrderOk(Signature(r)) <==> OrderOk(Signature(filled)))
  {
    EmptyWave(id);
  }

  /** The lone empty wave that stands in for an empty flow. */
  lemma EmptyWave(id: Id)
    ensures Flat([Wave(id, [])]) == Flat([])
    ensures OrderOk(Signature([Wave(id, [])])) && OrderOk(Signature([]))
  {
    FlattenOne(Chips([]));
    assert Signature([Wave(id, [])]) == [Chips([])];
  }

  /** A repaired flow holds every expected chip exactly once and nothing else. */
  lemma RepairIsExact(expected: seq<Chip>, flow: Flow, g: Id)
    requires NoDup(expected)
    ensures NoDup(Flat(Reconcile(expected, flow, g)))
    ensures forall c :: c in Flat(Reconcile(expected, flow, g)) <==> c in expected
  {
    RepairParts(expected, flow);
    RepairIsFillIn(expected, flow, g);
    FillInExact(Kept(expected, flow), MissingFrom(expected, flow), g);
  }

  /** The repair produces an ordered flow exactly when what it kept is ordered and straddles no missing chip. */
  lemma RepairOrdered(expected: seq<Chip>, flow: Flow, g: Id)
    requires Agenda(expected)
    ensures OrderOk(Signature(Reconcile(expected, flow, g))) <==>
      && OrderOk(Signature(Kept(expected, flow)))
      && forall c :: c in expected && c !in Flat(flow) ==> !Straddled(Signature(Kept(expected, flow)), c)
  {
    RepairParts(expected, flow);
    RepairIsFillIn(expected, flow, g);
    FillInOrder(Kept(expected, flow), MissingFrom(expected, flow), g);
  }

  /** So a flow that was in order comes back in order unless one of its waves straddles a missing chip. */
  lemma RepairKeepsOrder(expected: seq<Chip>, flow: Flow, g: Id)
    requires Agenda(expected) && OrderOk(Signature(flow))
    ensures OrderOk(Signature(Reconcile(expected, flow, g))) <==>
      forall c :: c in expected && c !in Flat(flow) ==> !Straddled(Signature(Kept(expected, flow)), c)
  {
    RepairOrdered(expected, flow, g);
    KeepOrder(flow, Elems(expected), {});
  }
}
