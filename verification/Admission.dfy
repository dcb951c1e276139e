/** Admitting runs of a job: the one-slot gate, the busy count and the index of runs, under concurrency. */
module Admission {

  type Job = string

  datatype Policy = Allow | Skip | Queue

  /**
   * Where a run is between being called and returning. `gated` says its admission took the slot.
   * Deferred calls go last first: a run leaves the index before it returns its slot.
   */
  datatype Phase = Called | Admitted(gated: bool) | Tracked(gated: bool) | Untracked(gated: bool) | Finished

  datatype Run = Run(job: Job, id: string, policy: Policy, phase: Phase)

  /** What the runs share: taken slots, busy counts, and the index by run id. */
  datatype Table = Table(taken: set<Job>, busy: map<Job, nat>, index: map<string, Job>)

  function Busy(t: Table, j: Job): nat {
    if j in t.busy then t.busy[j] else 0
  }

  function Track(t: Table, id: string, j: Job): Table {
    t.(index := t.index[id := j], busy := t.busy[j := Busy(t, j) + 1])
  }

  function Release(t: Table, id: string, j: Job): Table {
    t.(index := t.index - {id}, busy := if Busy(t, j) > 0 then t.busy[j := Busy(t, j) - 1] else t.busy)
  }

  class Runs {
    var taken: set<Job>
    var busy: map<Job, nat>
    var index: map<string, Job>

    function Shared(): Table
      reads this
    {
      Table(taken, busy, index)
    }

    constructor ()
      ensures Shared() == Table({}, map[], map[])
    {
      taken, busy, index := {}, map[], map[];
    }

    /** A non-blocking try for the job's slot. */
    method TryGate(j: Job) returns (ok: bool)
      modifies this`taken
      ensures ok == (j !in old(taken)) && taken == old(taken) + {j}
    {
      ok := j !in taken;
      taken := taken + {j};
    }

    method ReturnSlot(j: Job)
      modifies this`taken
      ensures taken == old(taken) - {j}
    {
      taken := taken - {j};
    }

    method TrackRun(id: string, j: Job)
      modifies this`busy, this`index
      ensures Shared() == Track(old(Shared()), id, j)
    {
      index := index[id := j];
      busy := busy[j := (if j in busy then busy[j] else 0) + 1];
    }

    method ReleaseRun(id: string, j: Job)
      modifies this`busy, this`index
      ensures Shared() == Release(old(Shared()), id, j)
    {
      index := index - {id};
      if j in busy && busy[j] > 0 {
        busy := busy[j := busy[j] - 1];
      }
    }
  }

  // ---- any number of runs, interleaved ----

  datatype State = State(table: Table, runs: map<nat, Run>)

  /** `Admit` is the select on the gate: a queued run blocks while it is taken, until it is given up. */
  datatype Action =
    | Call(run: nat, job: Job, id: string, policy: Policy)
    | Admit(run: nat)
    | GiveUp(run: nat)
    | TrackRun(run: nat)
    | ReleaseRun(run: nat)
    | Return(run: nat)

  function Start(): State {
    State(Table({}, map[], map[]), map[])
  }

  function To(s: State, g: nat, phase: Phase): State
    requires g in s.runs
  {
    s.(runs := s.runs[g := s.runs[g].(phase := phase)])
  }

  function DoAdmit(s: State, g: nat): State
    requires g in s.runs
  {
    var r := s.runs[g];
    if r.policy == Allow then To(s, g, Admitted(false))
    else if r.job !in s.table.taken then To(s.(table := s.table.(taken := s.table.taken + {r.job})), g, Admitted(true))
    else if r.policy == Skip then To(s, g, Finished)
    else s
  }

  function Do(s: State, a: Action): State {
    if a.Call? then
      if a.run in s.runs then s else s.(runs := s.runs[a.run := Run(a.job, a.id, a.policy, Called)])
    else if a.run !in s.runs then s
    else
      var r := s.runs[a.run];
      match a
      case Admit(g) => if r.phase == Called then DoAdmit(s, g) else s
      case GiveUp(g) => if r.phase == Called && r.policy == Queue then To(s, g, Finished) else s
      case TrackRun(g) =>
        if r.phase.Admitted? then To(s.(table := Track(s.table, r.id, r.job)), g, Tracked(r.phase.gated)) else s
      case ReleaseRun(g) =>
        if r.phase.Tracked? then To(s.(table := Release(s.table, r.id, r.job)), g, Untracked(r.phase.gated)) else s
      case Return(g) =>
        if r.phase.Untracked? then
          var t := if r.phase.gated then s.table.(taken := s.table.taken - {r.job}) else s.table;
          To(s.(table := t), g, Finished)
        else s
  }

  function RunAll(actions: seq<Action>): State {
    if actions == [] then Start() else Do(RunAll(actions[..|actions| - 1]), actions[|actions| - 1])
  }

  // ---- the invariant ----

  predicate HoldsSlot(r: Run, j: Job) {
    r.job == j && (r.phase.Admitted? || r.phase.Tracked? || r.phase.Untracked?) && r.phase.gated
  }

  function TrackedOf(s: State, j: Job): set<nat> {
    set g | g in s.runs && s.runs[g].job == j && s.runs[g].phase.Tracked?
  }

  ghost predicate OneHolder(s: State) {
    forall g, h | g in s.runs && h in s.runs ::
      HoldsSlot(s.runs[g], s.runs[g].job) && HoldsSlot(s.runs[h], s.runs[g].job) ==> g == h
  }

  ghost predicate TakenIsHeld(s: State) {
    forall j :: j in s.table.taken <==> exists g :: g in s.runs && HoldsSlot(s.runs[g], j)
  }

  ghost predicate BusyIsTracked(s: State) {
    forall j :: Busy(s.table, j) == |TrackedOf(s, j)|
  }

  /** Only runs called under "allow" go ungated. */
  ghost predicate UngatedAllowed(s: State) {
    forall g :: g in s.runs && (s.runs[g].phase.Admitted? || s.runs[g].phase.Tracked?) && !s.runs[g].phase.gated ==>
      s.runs[g].policy == Allow
  }

  ghost predicate Inv(s: State) {
    OneHolder(s) && TakenIsHeld(s) && BusyIsTracked(s) && UngatedAllowed(s)
  }

  /** A phase change of one run that keeps whether it holds the slot. */
  lemma SameHolders(s: State, t: State, g: nat)
    requires OneHolder(s) && TakenIsHeld(s) && g in s.runs && g in t.runs
    requires t.runs == s.runs[g := t.runs[g]] && t.table.taken == s.table.taken
    requires forall j :: HoldsSlot(t.runs[g], j) <==> HoldsSlot(s.runs[g], j)
    ensures OneHolder(t) && TakenIsHeld(t)
  {
    forall j ensures j in t.table.taken <==> exists h :: h in t.runs && HoldsSlot(t.runs[h], j) {
      if h :| h in s.runs && HoldsSlot(s.runs[h], j) {
        assert h in t.runs && HoldsSlot(t.runs[h], j);
      }
      if h :| h in t.runs && HoldsSlot(t.runs[h], j) {
        assert h in s.runs && HoldsSlot(s.runs[h], j);
      }
    }
  }

  lemma TakeSlot(s: State, g: nat)
    requires OneHolder(s) && TakenIsHeld(s) && g in s.runs && s.runs[g].phase == Called &&
             s.runs[g].job !in s.table.taken
    ensures var t := To(s.(table := s.table.(taken := s.table.taken + {s.runs[g].job})), g, Admitted(true));
      OneHolder(t) && TakenIsHeld(t)
  {
    var t := To(s.(table := s.table.(taken := s.table.taken + {s.runs[g].job})), g, Admitted(true));
    assert HoldsSlot(t.runs[g], s.runs[g].job);
    forall j ensures j in t.table.taken <==> exists h :: h in t.runs && HoldsSlot(t.runs[h], j) {
      if h :| h in s.runs && HoldsSlot(s.runs[h], j) {
        assert h in t.runs && HoldsSlot(t.runs[h], j);
      }
      if h :| h in t.runs && HoldsSlot(t.runs[h], j) {
        assert h == g || HoldsSlot(s.runs[h], j);
      }
    }
  }

  lemma ReturnSlotKeeps(s: State, g: nat)
    requires OneHolder(s) && TakenIsHeld(s) && g in s.runs && s.runs[g].phase == Untracked(true)
    ensures var t := To(s.(table := s.table.(taken := s.table.taken - {s.runs[g].job})), g, Finished);
      OneHolder(t) && TakenIsHeld(t)
  {
    var t := To(s.(table := s.table.(taken := s.table.taken - {s.runs[g].job})), g, Finished);
    assert HoldsSlot(s.runs[g], s.runs[g].job);
    forall j ensures j in t.table.taken <==> exists h :: h in t.runs && HoldsSlot(t.runs[h], j) {
      if j in t.table.taken {
        var h :| h in s.runs && HoldsSlot(s.runs[h], j);
        assert h in t.runs && HoldsSlot(t.runs[h], j);
      }
      if h :| h in t.runs && HoldsSlot(t.runs[h], j) {
        assert h in s.runs && HoldsSlot(s.runs[h], j);
      }
    }
  }

  // ---- the busy count ----

  lemma TrackCounts(s: State, g: nat, gated: bool)
    requires BusyIsTracked(s) && g in s.runs && s.runs[g].phase == Admitted(gated)
    ensures BusyIsTracked(To(s.(table := Track(s.table, s.runs[g].id, s.runs[g].job)), g, Tracked(gated)))
  {
    var t := To(s.(table := Track(s.table, s.runs[g].id, s.runs[g].job)), g, Tracked(gated));
    forall j ensures Busy(t.table, j) == |TrackedOf(t, j)| {
      if j == s.runs[g].job {
        assert TrackedOf(t, j) == TrackedOf(s, j) + {g};
      } else {
        assert TrackedOf(t, j) == TrackedOf(s, j);
      }
    }
  }

  lemma ReleaseCounts(s: State, g: nat, gated: bool)
    requires BusyIsTracked(s) && g in s.runs && s.runs[g].phase == Tracked(gated)
    ensures BusyIsTracked(To(s.(table := Release(s.table, s.runs[g].id, s.runs[g].job)), g, Untracked(gated)))
    ensures Busy(s.table, s.runs[g].job) > 0
  {
    var t := To(s.(table := Release(s.table, s.runs[g].id, s.runs[g].job)), g, Untracked(gated));
    assert g in TrackedOf(s, s.runs[g].job);
    forall j ensures Busy(t.table, j) == |TrackedOf(t, j)| {
      if j == s.runs[g].job {
        assert TrackedOf(t, j) == TrackedOf(s, j) - {g};
      } else {
        assert TrackedOf(t, j) == TrackedOf(s, j);
      }
    }
  }

  lemma CountsStay(s: State, t: State)
    requires BusyIsTracked(s) && t.table.busy == s.table.busy && forall j :: TrackedOf(t, j) == TrackedOf(s, j)
    ensures BusyIsTracked(t)
  {
    forall j ensures Busy(t.table, j) == |TrackedOf(t, j)| {
      assert Busy(s.table, j) == |TrackedOf(s, j)|;
    }
  }

  // ---- every step, every run ----

  lemma MoveKeeps(s: State, g: nat, phase: Phase)
    requires Inv(s) && g in s.runs
    requires forall j :: HoldsSlot(s.runs[g].(phase := phase), j) <==> HoldsSlot(s.runs[g], j)
    requires !phase.Tracked? && !s.runs[g].phase.Tracked?
    requires phase.Admitted? && !phase.gated ==> s.runs[g].policy == Allow
    ensures Inv(To(s, g, phase))
  {
    var t := To(s, g, phase);
    SameHolders(s, t, g);
    assert forall j :: TrackedOf(t, j) == TrackedOf(s, j);
    CountsStay(s, t);
  }

  lemma CallKeeps(s: State, g: nat, r: Run)
    requires Inv(s) && g !in s.runs && r.phase == Called
    ensures Inv(s.(runs := s.runs[g := r]))
  {
    var t := s.(runs := s.runs[g := r]);
    forall j ensures j in t.table.taken <==> exists h :: h in t.runs && HoldsSlot(t.runs[h], j) {
      if h :| h in s.runs && HoldsSlot(s.runs[h], j) {
        assert h in t.runs && HoldsSlot(t.runs[h], j);
      }
      if h :| h in t.runs && HoldsSlot(t.runs[h], j) {
        assert h in s.runs && HoldsSlot(s.runs[h], j);
      }
    }
    assert forall j :: TrackedOf(t, j) == TrackedOf(s, j);
    CountsStay(s, t);
  }

  lemma AdmitKeeps(s: State, g: nat)
    requires Inv(s) && g in s.runs && s.runs[g].phase == Called
    ensures Inv(DoAdmit(s, g))
  {
    var r := s.runs[g];
    if r.policy == Allow {
      MoveKeeps(s, g, Admitted(false));
    } else if r.job !in s.table.taken {
      TakeSlot(s, g);
      var t := DoAdmit(s, g);
      assert forall j :: TrackedOf(t, j) == TrackedOf(s, j);
      CountsStay(s, t);
    } else if r.policy == Skip {
      MoveKeeps(s, g, Finished);
    }
  }

  lemma TrackKeeps(s: State, g: nat, gated: bool)
    requires Inv(s) && g in s.runs && s.runs[g].phase == Admitted(gated)
    ensures Inv(To(s.(table := Track(s.table, s.runs[g].id, s.runs[g].job)), g, Tracked(gated)))
  {
    var t := To(s.(table := Track(s.table, s.runs[g].id, s.runs[g].job)), g, Tracked(gated));
    SameHolders(s, t, g);
    TrackCounts(s, g, gated);
  }

  lemma ReleaseKeeps(s: State, g: nat, gated: bool)
    requires Inv(s) && g in s.runs && s.runs[g].phase == Tracked(gated)
    ensures Inv(To(s.(table := Release(s.table, s.runs[g].id, s.runs[g].job)), g, Untracked(gated)))
  {
    var t := To(s.(table := Release(s.table, s.runs[g].id, s.runs[g].job)), g, Untracked(gated));
    SameHolders(s, t, g);
    ReleaseCounts(s, g, gated);
  }

  lemma ReturnKeeps(s: State, g: nat)
    requires Inv(s) && g in s.runs && s.runs[g].phase.Untracked?
    ensures Inv(Do(s, Return(g)))
  {
    if s.runs[g].phase.gated {
      ReturnSlotKeeps(s, g);
      var t := Do(s, Return(g));
      assert forall j :: TrackedOf(t, j) == TrackedOf(s, j);
      CountsStay(s, t);
    } else {
      MoveKeeps(s, g, Finished);
    }
  }

  lemma StepKeeps(s: State, a: Action)
    requires Inv(s)
    ensures Inv(Do(s, a))
  {
    if a.Call? {
      if a.run !in s.runs {
        CallKeeps(s, a.run, Run(a.job, a.id, a.policy, Called));
      }
    } else if a.run in s.runs {
      var r := s.runs[a.run];
      match a
      case Admit(g) => if r.phase == Called { AdmitKeeps(s, g); }
      case GiveUp(g) => if r.phase == Called && r.policy == Queue { MoveKeeps(s, g, Finished); }
      case TrackRun(g) => if r.phase.Admitted? { TrackKeeps(s, g, r.phase.gated); }
      case ReleaseRun(g) => if r.phase.Tracked? { ReleaseKeeps(s, g, r.phase.gated); }
      case Return(g) => if r.phase.Untracked? { ReturnKeeps(s, g); }
    }
  }

  lemma {:induction false} RunKeeps(actions: seq<Action>)
    ensures Inv(RunAll(actions))
  {
    if actions == [] {
      assert forall j :: TrackedOf(Start(), j) == {};
    } else {
      RunKeeps(actions[..|actions| - 1]);
      StepKeeps(RunAll(actions[..|actions| - 1]), actions[|actions| - 1]);
    }
  }

  /**
   * Whatever the interleaving: at most one run admitted through a job's gate is between admission
   * and returning its slot, a slot is taken only while such a run exists, and the busy count is the
   * number of runs between trackRun and releaseRun.
   */
  lemma AtMostOneGated(actions: seq<Action>, j: Job)
    ensures var s := RunAll(actions);
      && (forall g, h :: g in s.runs && h in s.runs && HoldsSlot(s.runs[g], j) && HoldsSlot(s.runs[h], j) ==> g == h)
      && (j in s.table.taken <==> exists g :: g in s.runs && HoldsSlot(s.runs[g], j))
      && Busy(s.table, j) == |TrackedOf(s, j)|
  {
    RunKeeps(actions);
  }

  /** A run is turned away or kept waiting only while another holds the slot, and never under "allow". */
  lemma RefusedOnlyWhenHeld(actions: seq<Action>, g: nat)
    requires var s := RunAll(actions); g in s.runs && s.runs[g].phase == Called
    ensures var s := RunAll(actions); var r := s.runs[g]; var t := Do(s, Admit(g));
      if r.policy == Allow || forall h :: h in s.runs ==> !HoldsSlot(s.runs[h], r.job)
      then t.runs[g].phase == Admitted(r.policy != Allow)
      else t.runs[g].phase == if r.policy == Skip then Finished else Called
  {
    RunKeeps(actions);
  }

  /** A job never run under "allow" has at most one run tracked at any time. */
  lemma BusyAtMostOne(actions: seq<Action>, j: Job)
    requires forall g :: g in RunAll(actions).runs && RunAll(actions).runs[g].job == j ==>
             RunAll(actions).runs[g].policy != Allow
    ensures Busy(RunAll(actions).table, j) <= 1
  {
    var s := RunAll(actions);
    RunKeeps(actions);
    var tracked := TrackedOf(s, j);
    if tracked != {} {
      var g :| g in tracked;
      assert forall h :: h in tracked ==> HoldsSlot(s.runs[h], j);
      assert tracked == {g};
    }
  }

  /** A run under "allow" and one under "skip" can be in progress together. */
  lemma AllowOverlaps(j: Job, a: string, b: string) returns (actions: seq<Action>)
    ensures Busy(RunAll(actions).table, j) == 2
  {
    actions := [Call(0, j, a, Allow), Admit(0), TrackRun(0), Call(1, j, b, Skip), Admit(1), TrackRun(1)];
    AllowTracked(actions, j, a);
    SkipTracked(actions, j, a, b);
    assert actions[..6] == actions;
  }

  /** The first run is under way without the slot. */
  lemma AllowTracked(actions: seq<Action>, j: Job, a: string)
    requires |actions| >= 3 && actions[0] == Call(0, j, a, Allow) && actions[1] == Admit(0) && actions[2] == TrackRun(0)
    ensures RunAll(actions[..3]) ==
            State(Table({}, map[j := 1], map[a := j]), map[0 := Run(j, a, Allow, Tracked(false))])
  {
    assert actions[..0] == [];
    RunTo(actions, 0, State(Table({}, map[], map[]), map[0 := Run(j, a, Allow, Called)]));
    RunTo(actions, 1, State(Table({}, map[], map[]), map[0 := Run(j, a, Allow, Admitted(false))]));
    RunTo(actions, 2, State(Table({}, map[j := 1], map[a := j]), map[0 := Run(j, a, Allow, Tracked(false))]));
  }

  /** The second one finds the slot free. */
  lemma SkipTracked(actions: seq<Action>, j: Job, a: string, b: string)
    requires |actions| >= 6 && actions[3] == Call(1, j, b, Skip) && actions[4] == Admit(1) && actions[5] == TrackRun(1)
    requires RunAll(actions[..3]) ==
             State(Table({}, map[j := 1], map[a := j]), map[0 := Run(j, a, Allow, Tracked(false))])
    ensures Busy(RunAll(actions[..6]).table, j) == 2
  {
    var one, first := Table({}, map[j := 1], map[a := j]), Run(j, a, Allow, Tracked(false));
    RunTo(actions, 3, State(one, map[0 := first, 1 := Run(j, b, Skip, Called)]));
    one := one.(taken := {j});
    RunTo(actions, 4, State(one, map[0 := first, 1 := Run(j, b, Skip, Admitted(true))]));
    RunTo(actions, 5, State(Track(one, b, j), map[0 := first, 1 := Run(j, b, Skip, Tracked(true))]));
  }

  lemma RunTo(actions: seq<Action>, i: nat, s: State)
    requires i < |actions| && Do(RunAll(actions[..i]), actions[i]) == s
    ensures RunAll(actions[..i + 1]) == s
  {
    assert actions[..i + 1][..i] == actions[..i];
  }

  // ---- the index ----

  ghost predicate DistinctIds(s: State) {
    forall g, h :: g in s.runs && h in s.runs && s.runs[g].id == s.runs[h].id ==> g == h
  }

  ghost predicate Indexed(s: State, id: string) {
    exists g :: g in s.runs && s.runs[g].phase.Tracked? && s.runs[g].id == id
  }

  ghost predicate IndexIsTracked(s: State) {
    forall id :: id in s.table.index <==> Indexed(s, id)
  }

  lemma StepKeepsIds(s: State, a: Action)
    ensures forall g :: g in s.runs ==> g in Do(s, a).runs && Do(s, a).runs[g].id == s.runs[g].id
  {
  }

  /** A step that leaves the index and every run's being tracked alone. */
  lemma IndexStays(s: State, t: State)
    requires IndexIsTracked(s) && t.table.index == s.table.index
    requires forall g :: g in s.runs ==>
               && g in t.runs && t.runs[g].id == s.runs[g].id
               && (t.runs[g].phase.Tracked? <==> s.runs[g].phase.Tracked?)
    requires forall g :: g in t.runs && t.runs[g].phase.Tracked? ==> g in s.runs
    ensures IndexIsTracked(t)
  {
    forall id ensures Indexed(t, id) <==> Indexed(s, id) {
    }
  }

  lemma IndexTrack(s: State, g: nat)
    requires IndexIsTracked(s) && g in s.runs && s.runs[g].phase.Admitted?
    ensures IndexIsTracked(Do(s, TrackRun(g)))
  {
    var t := Do(s, TrackRun(g));
    var r := s.runs[g];
    assert t.runs[g].phase.Tracked?;
    forall id ensures id in t.table.index <==> Indexed(t, id) {
      if h :| h in s.runs && s.runs[h].phase.Tracked? && s.runs[h].id == id {
        assert h in t.runs && t.runs[h].phase.Tracked? && t.runs[h].id == id;
      }
      if h :| h in t.runs && t.runs[h].phase.Tracked? && t.runs[h].id == id {
        assert h != g ==> Indexed(s, id);
      }
    }
  }

  lemma IndexRelease(s: State, g: nat)
    requires IndexIsTracked(s) && DistinctIds(s) && g in s.runs && s.runs[g].phase.Tracked?
    ensures IndexIsTracked(Do(s, ReleaseRun(g)))
  {
    var t := Do(s, ReleaseRun(g));
    forall id ensures id in t.table.index <==> Indexed(t, id) {
      if id != s.runs[g].id && Indexed(s, id) {
        var h :| h in s.runs && s.runs[h].phase.Tracked? && s.runs[h].id == id;
        assert h in t.runs && t.runs[h].phase.Tracked? && t.runs[h].id == id;
      }
      if h :| h in t.runs && t.runs[h].phase.Tracked? && t.runs[h].id == id {
        assert h in s.runs && s.runs[h].phase.Tracked? && h != g;
      }
    }
  }

  lemma StepKeepsIndex(s: State, a: Action)
    requires IndexIsTracked(s) && DistinctIds(s)
    ensures IndexIsTracked(Do(s, a))
  {
    if a.TrackRun? && a.run in s.runs && s.runs[a.run].phase.Admitted? {
      IndexTrack(s, a.run);
    } else if a.ReleaseRun? && a.run in s.runs && s.runs[a.run].phase.Tracked? {
      IndexRelease(s, a.run);
    } else {
      IndexStays(s, Do(s, a));
    }
  }

  /** As long as run ids differ, the index, and so a cancel, reaches exactly the tracked runs. */
  lemma {:induction false} IndexReachesTracked(actions: seq<Action>)
    requires DistinctIds(RunAll(actions))
    ensures IndexIsTracked(RunAll(actions))
  {
    if actions == [] {
    } else {
      var s := RunAll(actions[..|actions| - 1]);
      StepKeepsIds(s, actions[|actions| - 1]);
      IndexReachesTracked(actions[..|actions| - 1]);
      StepKeepsIndex(s, actions[|actions| - 1]);
    }
  }
}
