/** What one wave runs and what it reports, whatever fails in it. */
module FlowRunWave {
  import opened Seqs
  import opened FlowModel
  import opened FlowWire
  import opened FlowRun
  import opened FlowRunWork
  import opened FlowRunStages
  import opened FlowRunOnce
  import opened FlowRunReads

  // ---- the tasks ----

  /** A later app of the same name takes the place of an earlier one. */
  lemma {:induction false} AppFound(apps: seq<App>, name: string, k: nat)
    requires k < |apps| && apps[k].name == name && forall j :: k < j < |apps| ==> apps[j].name != name
    ensures FindApp(apps, name) == Some(apps[k])
  {
    if k < |apps| - 1 {
      AppFound(apps[..|apps| - 1], name, k);
    }
  }

  lemma {:induction false} AppMissing(apps: seq<App>, name: string)
    ensures FindApp(apps, name).Some? <==> exists app :: app in apps && app.name == name
  {
    if apps != [] {
      var n := |apps| - 1;
      AppMissing(apps[..n], name);
      assert apps == apps[..n] + [apps[n]];
    }
  }

  ghost predicate Named(host: Host, cmd: Command, root: Root, t: SpecTask) {
    exists app :: app in AppsOf(host, cmd, root) && app.name == t.app
  }

  ghost predicate Known(host: Host, cmd: Command, root: Root, t: SpecTask) {
    Named(host, cmd, root, t) && PhaseOf(t).Some?
  }

  /** Task k is the first one the agent cannot make sense of. */
  ghost predicate FirstUnknown(host: Host, cmd: Command, root: Root, tasks: seq<SpecTask>, k: nat) {
    k < |tasks| && !Known(host, cmd, root, tasks[k]) && forall j :: 0 <= j < k ==> Known(host, cmd, root, tasks[j])
  }

  ghost predicate AllKnown(host: Host, cmd: Command, root: Root, tasks: seq<SpecTask>) {
    forall j :: 0 <= j < |tasks| ==> Known(host, cmd, root, tasks[j])
  }

  /** What is wrong with such a task. */
  ghost function Unknown(host: Host, cmd: Command, root: Root, t: SpecTask): Failure {
    if Named(host, cmd, root, t) then UnknownPhase(t.phase) else UnknownApp(t.app)
  }

  predicate InPhase(t: SpecTask, p: Phase) {
    PhaseOf(t) == Some(p)
  }

  /** A script with something to run. */
  predicate HasScript(host: Host, cmd: Command, root: Root, t: SpecTask) {
    var app, p := FindApp(AppsOf(host, cmd, root), t.app), PhaseOf(t);
    && app.Some? && p.Some? && p.value in {Install, Build, Cleanup, PreStart}
    && Body(host, cmd, app.value, p.value) != ""
  }

  function Scripted(host: Host, cmd: Command, root: Root): SpecTask -> bool {
    (t: SpecTask) => HasScript(host, cmd, root, t)
  }

  function Phased(p: Phase): SpecTask -> bool {
    (t: SpecTask) => InPhase(t, p)
  }

  function ChipFor(t: SpecTask): Chip {
    Chip(t.app, match PhaseOf(t) case Some(p) => p case None => Install)
  }

  function Picked(tasks: seq<SpecTask>, takes: SpecTask -> bool): seq<Chip> {
    Map(ChipFor, Filter(tasks, takes))
  }

  /** The work in a list of tasks, each kind in the order of the list. */
  function WorkIn(host: Host, cmd: Command, root: Root, tasks: seq<SpecTask>): Work {
    Work(Picked(tasks, Scripted(host, cmd, root)), Picked(tasks, Phased(Run)), Picked(tasks, Phased(Start)),
         Picked(tasks, Phased(Health)))
  }

  function Plus(a: Work, b: Work): Work {
    Work(a.scripts + b.scripts, a.runs + b.runs, a.starts + b.starts, a.healths + b.healths)
  }

  lemma PickedStep(tasks: seq<SpecTask>, takes: SpecTask -> bool)
    requires tasks != []
    ensures Picked(tasks, takes) == (if takes(tasks[0]) then [ChipFor(tasks[0])] else []) + Picked(tasks[1..], takes)
  {
  }

  lemma WorkStep(host: Host, cmd: Command, root: Root, tasks: seq<SpecTask>)
    requires tasks != []
    ensures WorkIn(host, cmd, root, tasks) ==
            Plus(WorkIn(host, cmd, root, [tasks[0]]), WorkIn(host, cmd, root, tasks[1..]))
  {
    PickedBoth(tasks, Scripted(host, cmd, root));
    PickedBoth(tasks, Phased(Run));
    PickedBoth(tasks, Phased(Start));
    PickedBoth(tasks, Phased(Health));
  }

  lemma PickedOne(t: SpecTask, takes: SpecTask -> bool)
    ensures Picked([t], takes) == if takes(t) then [ChipFor(t)] else []
  {
    PickedStep([t], takes);
    assert [t][1..] == [];
  }

  lemma PickedBoth(tasks: seq<SpecTask>, takes: SpecTask -> bool)
    requires tasks != []
    ensures Picked(tasks, takes) == Picked([tasks[0]], takes) + Picked(tasks[1..], takes)
  {
    PickedStep(tasks, takes);
    PickedOne(tasks[0], takes);
  }

  lemma WorkOne(host: Host, cmd: Command, root: Root, t: SpecTask)
    ensures var one := WorkIn(host, cmd, root, [t]);
      && one.scripts == (if HasScript(host, cmd, root, t) then [ChipFor(t)] else [])
      && one.runs == (if InPhase(t, Run) then [ChipFor(t)] else [])
      && one.starts == (if InPhase(t, Start) then [ChipFor(t)] else [])
      && one.healths == (if InPhase(t, Health) then [ChipFor(t)] else [])
  {
    PickedOne(t, Scripted(host, cmd, root));
    PickedOne(t, Phased(Run));
    PickedOne(t, Phased(Start));
    PickedOne(t, Phased(Health));
  }

  lemma AddIs(host: Host, cmd: Command, root: Root, t: SpecTask, app: App, work: Work)
    requires FindApp(AppsOf(host, cmd, root), t.app) == Some(app) && PhaseOf(t).Some?
    ensures AddTask(host, cmd, app, Chip(t.app, PhaseOf(t).value), work) == Plus(work, WorkIn(host, cmd, root, [t]))
  {
    var c := Chip(t.app, PhaseOf(t).value);
    TaskTaken(host, cmd, app, c, work);
    WorkOne(host, cmd, root, t);
    Added(AddTask(host, cmd, app, c, work), work, WorkIn(host, cmd, root, [t]), c, HasScript(host, cmd, root, t));
  }

  lemma Added(now: Work, was: Work, one: Work, c: Chip, scripted: bool)
    requires now.scripts == was.scripts + if scripted then [c] else []
    requires now.runs == was.runs + if c.phase == Run then [c] else []
    requires now.starts == was.starts + if c.phase == Start then [c] else []
    requires now.healths == was.healths + if c.phase == Health then [c] else []
    requires one.scripts == if scripted then [c] else []
    requires one.runs == if c.phase == Run then [c] else []
    requires one.starts == if c.phase == Start then [c] else []
    requires one.healths == if c.phase == Health then [c] else []
    ensures now == Plus(was, one)
  {
  }

  lemma PlusAgain(a: Work, b: Work, c: Work)
    ensures Plus(Plus(a, b), c) == Plus(a, Plus(b, c))
  {
  }

  lemma SortStep(host: Host, cmd: Command, root: Root, tasks: seq<SpecTask>, work: Work) returns (app: App)
    requires tasks != [] && Known(host, cmd, root, tasks[0])
    ensures FindApp(AppsOf(host, cmd, root), tasks[0].app) == Some(app) && PhaseOf(tasks[0]).Some?
    ensures var c := Chip(tasks[0].app, PhaseOf(tasks[0]).value);
      SortTasks(host, cmd, root, tasks, work) ==
        SortTasks(host, cmd, root, tasks[1..], AddTask(host, cmd, app, c, work))
  {
    AppMissing(AppsOf(host, cmd, root), tasks[0].app);
    app := FindApp(AppsOf(host, cmd, root), tasks[0].app).value;
  }

  /** When every task is known, the work of a wave is what its tasks ask for. */
  lemma {:induction false} SortIs(host: Host, cmd: Command, root: Root, tasks: seq<SpecTask>, work: Work)
    requires AllKnown(host, cmd, root, tasks)
    ensures SortTasks(host, cmd, root, tasks, work) == Ready(Plus(work, WorkIn(host, cmd, root, tasks)))
    decreases tasks
  {
    if tasks == [] {
      assert Plus(work, WorkIn(host, cmd, root, [])) == work;
    } else {
      var app := SortStep(host, cmd, root, tasks, work);
      assert forall j :: 0 <= j < |tasks[1..]| ==> tasks[1..][j] == tasks[j + 1];
      AddIs(host, cmd, root, tasks[0], app, work);
      SortIs(host, cmd, root, tasks[1..], Plus(work, WorkIn(host, cmd, root, [tasks[0]])));
      WorkStep(host, cmd, root, tasks);
      PlusAgain(work, WorkIn(host, cmd, root, [tasks[0]]), WorkIn(host, cmd, root, tasks[1..]));
    }
  }

  lemma SortOn(host: Host, cmd: Command, root: Root, tasks: seq<SpecTask>, work: Work) returns (next: Work)
    requires tasks != [] && Known(host, cmd, root, tasks[0])
    ensures SortTasks(host, cmd, root, tasks, work) == SortTasks(host, cmd, root, tasks[1..], next)
  {
    var app := SortStep(host, cmd, root, tasks, work);
    next := AddTask(host, cmd, app, Chip(tasks[0].app, PhaseOf(tasks[0]).value), work);
  }

  lemma RejectsHere(host: Host, cmd: Command, root: Root, tasks: seq<SpecTask>, work: Work)
    requires tasks != [] && !Known(host, cmd, root, tasks[0])
    ensures SortTasks(host, cmd, root, tasks, work) == Rejected(Unknown(host, cmd, root, tasks[0]))
  {
    AppMissing(AppsOf(host, cmd, root), tasks[0].app);
  }

  function Sorter(host: Host, cmd: Command, root: Root): (seq<SpecTask>, Work) -> Sorted {
    (tasks: seq<SpecTask>, work: Work) => SortTasks(host, cmd, root, tasks, work)
  }

  ghost predicate GoesOn(sort: (seq<SpecTask>, Work) -> Sorted, tasks: seq<SpecTask>, work: Work) {
    tasks != [] && exists next :: sort(tasks, work) == sort(tasks[1..], next)
  }

  lemma {:induction false} Skips(sort: (seq<SpecTask>, Work) -> Sorted, tasks: seq<SpecTask>, work: Work, k: nat)
      returns (next: Work)
    requires k <= |tasks| && forall j, w: Work :: 0 <= j < k ==> GoesOn(sort, tasks[j..], w)
    ensures sort(tasks, work) == sort(tasks[k..], next)
  {
    if k == 0 {
      next := work;
      assert tasks[0..] == tasks;
    } else {
      var w := Skips(sort, tasks, work, k - 1);
      assert GoesOn(sort, tasks[k - 1..], w);
      assert tasks[k - 1..][1..] == tasks[k..];
      next :| sort(tasks[k - 1..], w) == sort(tasks[k..], next);
    }
  }

  lemma OnKnown(host: Host, cmd: Command, root: Root, tasks: seq<SpecTask>, work: Work)
    requires tasks != [] && Known(host, cmd, root, tasks[0])
    ensures GoesOn(Sorter(host, cmd, root), tasks, work)
  {
    var next := SortOn(host, cmd, root, tasks, work);
    assert Sorter(host, cmd, root)(tasks, work) == Sorter(host, cmd, root)(tasks[1..], next);
  }

  /** Otherwise the first one that is not known rejects the wave. */
  lemma SortRejects(host: Host, cmd: Command, root: Root, tasks: seq<SpecTask>, work: Work, k: nat)
    requires FirstUnknown(host, cmd, root, tasks, k)
    ensures SortTasks(host, cmd, root, tasks, work) == Rejected(Unknown(host, cmd, root, tasks[k]))
  {
    forall j, w: Work | 0 <= j < k ensures GoesOn(Sorter(host, cmd, root), tasks[j..], w) {
      assert Known(host, cmd, root, tasks[j]);
      OnKnown(host, cmd, root, tasks[j..], w);
    }
    var next := Skips(Sorter(host, cmd, root), tasks, work, k);
    RejectsHere(host, cmd, root, tasks[k..], next);
  }

  // ---- what is run ----

  /** Each of jobs[..n] begun once and ended once, as it turned out. */
  function RanTo(jobs: seq<Chip>, root: Root, ok: nat -> bool, n: nat): multiset<Event>
    requires n <= |jobs|
  {
    if n == 0 then multiset{}
    else RanTo(jobs, root, ok, n - 1) + multiset{Began(jobs[n - 1], root), Ended(jobs[n - 1], ok(n - 1))}
  }

  function Ran(world: World, i: nat, jobs: seq<Chip>, root: Root): multiset<Event> {
    RanTo(jobs, root, (k: nat) => k < |jobs| && world.succeeds(i, jobs[k], k), |jobs|)
  }

  lemma {:induction false} AllToDo(jobs: seq<Chip>, root: Root, ok: nat -> bool, at: seq<nat>, n: nat)
    requires |at| == |jobs| && n <= |jobs| && forall j :: 0 <= j < n ==> at[j] == 0
    ensures Left(jobs, root, ok, at, n) == RanTo(jobs, root, ok, n)
  {
    if n > 0 {
      AllToDo(jobs, root, ok, at, n - 1);
    }
  }

  lemma {:induction false} SameRan(jobs: seq<Chip>, root: Root, ok: nat -> bool, ok': nat -> bool, n: nat)
    requires n <= |jobs| && forall k: nat :: k < n ==> ok(k) == ok'(k)
    ensures RanTo(jobs, root, ok, n) == RanTo(jobs, root, ok', n)
  {
    if n > 0 {
      SameRan(jobs, root, ok, ok', n - 1);
    }
  }

  /** Whatever the schedule and whatever fails, each parallel script is run once, to its end. */
  lemma ScriptsRan(world: World, i: nat, root: Root, jobs: seq<Chip>)
    ensures multiset(Scripts(world, i, root, jobs)) == Ran(world, i, jobs, root)
  {
    var ok, at, picks := Outcome(world, i, jobs), seq(|jobs|, _ => 0), world.picks(i);
    InterleaveBag(jobs, root, ok, picks + FinishPicks(|jobs|), at);
    AfterConcat(picks, FinishPicks(|jobs|), at);
    FinishAll(|jobs|, After(picks, at));
    NothingLeft(jobs, root, ok, After(picks + FinishPicks(|jobs|), at), |jobs|);
    AllToDo(jobs, root, ok, at, |jobs|);
    SameRan(jobs, root, ok, (k: nat) => k < |jobs| && world.succeeds(i, jobs[k], k), |jobs|);
  }

  lemma {:induction false} InTurnRan(jobs: seq<Chip>, ok: nat -> bool, k: nat)
    requires k <= |jobs|
    ensures RanTo(jobs, Current, ok, k) + multiset(InTurn(jobs, ok, k)) == RanTo(jobs, Current, ok, |jobs|)
    decreases |jobs| - k
  {
    if k < |jobs| {
      var two := multiset{Began(jobs[k], Current), Ended(jobs[k], ok(k))};
      InTurnRan(jobs, ok, k + 1);
      TwoRan(jobs[k], ok(k), InTurn(jobs, ok, k + 1));
      Regrouped(RanTo(jobs, Current, ok, k), two, multiset(InTurn(jobs, ok, k + 1)));
    }
  }

  lemma Regrouped(a: multiset<Event>, b: multiset<Event>, c: multiset<Event>)
    ensures a + (b + c) == (a + b) + c
  {
  }

  lemma TwoRan(c: Chip, ok: bool, rest: seq<Event>)
    ensures multiset([Began(c, Current), Ended(c, ok)] + rest) ==
            multiset{Began(c, Current), Ended(c, ok)} + multiset(rest)
  {
    assert multiset([Began(c, Current), Ended(c, ok)]) == multiset{Began(c, Current), Ended(c, ok)};
  }

  lemma TurnRan(world: World, i: nat, jobs: seq<Chip>)
    ensures multiset(Turn(world, i, jobs)) == Ran(world, i, jobs, Current)
  {
    var ok := Outcome(world, i, jobs);
    InTurnRan(jobs, ok, 0);
    SameRan(jobs, Current, ok, (k: nat) => k < |jobs| && world.succeeds(i, jobs[k], k), |jobs|);
  }

  // ---- a wave ----

  ghost predicate Fails(world: World, i: nat, jobs: seq<Chip>) {
    exists k :: 0 <= k < |jobs| && !world.succeeds(i, jobs[k], k)
  }

  lemma FailsNot(world: World, i: nat, jobs: seq<Chip>)
    ensures Fails(world, i, jobs) <==> !AllOk(world, i, jobs)
  {
  }

  /** The start tasks of apps that are not up, nor launched by the wave itself. */
  ghost predicate Waiting(world: World, i: nat, runs: seq<Chip>, up: set<string>, c: Chip) {
    c.owner !in up && forall k :: 0 <= k < |runs| && world.succeeds(i, runs[k], k) ==> runs[k].owner != c.owner
  }

  /** What a wave's stages run, and what is reported: the stages go in turn, and one that fails is the last. */
  ghost predicate Staged4(world: World, i: nat, root: Root, s: seq<Chip>, r: seq<Chip>, t: seq<Chip>, h: seq<Chip>,
                          ran: multiset<Event>, why: Option<Failure>) {
    var (a, b, c) := (Ran(world, i, s, root), Ran(world, i, r, Current), Ran(world, i, t, Current));
    if Fails(world, i, s) then ran == a && why == Some(ScriptsFailed)
    else if Fails(world, i, r) then ran == a + b && why == Some(RunFailed)
    else if Fails(world, i, t) then ran == a + b + c && why == Some(StartFailed)
    else ran == a + b + c + Ran(world, i, h, Current) && why == if Fails(world, i, h) then Some(HealthFailed) else None
  }

  lemma WorkRuns(world: World, i: nat, released: bool, work: Work, up: set<string>)
    requires released || (work.runs == [] && work.starts == [])
    ensures Staged4(world, i, RootOf(released), work.scripts, work.runs, ToStart(world, i, work, up), work.healths,
                    multiset(RunWork(world, i, released, work, up).0), RunWork(world, i, released, work, up).1)
  {
    var starts := ToStart(world, i, work, up);
    ScriptsRan(world, i, RootOf(released), work.scripts);
    TurnRan(world, i, work.runs);
    TurnRan(world, i, starts);
    TurnRan(world, i, work.healths);
    FailsNot(world, i, work.scripts);
    FailsNot(world, i, work.runs);
    FailsNot(world, i, starts);
    FailsNot(world, i, work.healths);
  }

  /** The start tasks that are left are those of apps that are not up. */
  lemma StartsLeft(world: World, i: nat, work: Work, up: set<string>)
    ensures forall c :: Down(up + Launched(world, i, work.runs))(c) <==> Waiting(world, i, work.runs, up, c)
  {
  }

  lemma SortedIs(host: Host, cmd: Command, root: Root, tasks: seq<SpecTask>)
    requires AllKnown(host, cmd, root, tasks)
    ensures SortTasks(host, cmd, root, tasks, NoWork) == Ready(WorkIn(host, cmd, root, tasks))
  {
    SortIs(host, cmd, root, tasks, NoWork);
    PlusNone(WorkIn(host, cmd, root, tasks));
  }

  lemma PlusNone(work: Work)
    ensures Plus(NoWork, work) == work
  {
  }

  lemma RunsSorted(host: Host, cmd: Command, world: World, i: nat, released: bool, work: Work)
    requires i < |cmd.waves| && SortTasks(host, cmd, RootOf(released), cmd.waves[i], NoWork) == Ready(work)
    ensures RunWave(host, cmd, world, i, released) == RunWork(world, i, released, work, Up(host, cmd, world, i))
  {
  }

  lemma NoneBefore(host: Host, cmd: Command, released: bool, tasks: seq<SpecTask>, work: Work)
    requires SortTasks(host, cmd, RootOf(released), tasks, NoWork) == Ready(work) && (released || !NeedsPost(tasks))
    ensures released || (work.runs == [] && work.starts == [])
  {
    SortAllowed(host, cmd, RootOf(released), tasks, NoWork, released);
  }

  /**
   * A wave whose tasks are all known runs the scripts, run, start and health tasks it asks for, apps that
   * are up not started again: each once to its end, stage after stage, up to the first stage with a failure.
   */
  lemma WaveRuns(host: Host, cmd: Command, world: World, i: nat, released: bool)
    requires i < |cmd.waves| && (released || !NeedsPost(cmd.waves[i]))
    requires AllKnown(host, cmd, RootOf(released), cmd.waves[i])
    ensures var (work, up) := (WorkIn(host, cmd, RootOf(released), cmd.waves[i]), Up(host, cmd, world, i));
      Staged4(world, i, RootOf(released), work.scripts, work.runs, ToStart(world, i, work, up), work.healths,
              multiset(RunWave(host, cmd, world, i, released).0), RunWave(host, cmd, world, i, released).1)
  {
    var work := WorkIn(host, cmd, RootOf(released), cmd.waves[i]);
    SortedIs(host, cmd, RootOf(released), cmd.waves[i]);
    RunsSorted(host, cmd, world, i, released, work);
    NoneBefore(host, cmd, released, cmd.waves[i], work);
    WorkRuns(world, i, released, work, Up(host, cmd, world, i));
  }

  /** Any other wave runs nothing and reports the first task that is not known. */
  lemma WaveRefused(host: Host, cmd: Command, world: World, i: nat, released: bool, k: nat)
    requires i < |cmd.waves| && FirstUnknown(host, cmd, RootOf(released), cmd.waves[i], k)
    ensures RunWave(host, cmd, world, i, released).0 == []
    ensures RunWave(host, cmd, world, i, released).1 == Some(Unknown(host, cmd, RootOf(released), cmd.waves[i][k]))
  {
    SortRejects(host, cmd, RootOf(released), cmd.waves[i], NoWork, k);
  }

  // ---- the order of the stages ----

  function StageOf(e: Event): nat {
    match e
    case Activated => 0
    case _ =>
      match e.chip.phase
      case Run => 1
      case Start => 2
      case Health => 3
      case _ => 0
  }

  /** Nothing of a stage happens once a later one has begun. */
  ghost predicate Rising(tr: seq<Event>) {
    forall a, b :: 0 <= a < b < |tr| ==> StageOf(tr[a]) <= StageOf(tr[b])
  }

  ghost predicate AtStage(tr: seq<Event>, n: nat) {
    forall e :: e in tr ==> StageOf(e) == n
  }

  lemma RisingParts(s: seq<Event>, r: seq<Event>, t: seq<Event>, h: seq<Event>)
    requires AtStage(s, 0) && AtStage(r, 1) && AtStage(t, 2) && AtStage(h, 3)
    ensures Rising(s) && Rising(s + r) && Rising(s + r + t) && Rising(s + r + t + h)
  {
  }

  lemma {:induction false} RanChips(jobs: seq<Chip>, root: Root, ok: nat -> bool, n: nat, e: Event)
    requires n <= |jobs| && e in RanTo(jobs, root, ok, n)
    ensures !e.Activated? && e.chip in jobs
  {
    if e in RanTo(jobs, root, ok, n - 1) {
      RanChips(jobs, root, ok, n - 1, e);
    }
  }

  lemma RanAt(world: World, i: nat, jobs: seq<Chip>, root: Root, tr: seq<Event>, n: nat)
    requires multiset(tr) == Ran(world, i, jobs, root)
    requires forall c :: c in jobs ==> StageOf(Began(c, root)) == n
    ensures AtStage(tr, n)
  {
    forall e | e in tr ensures StageOf(e) == n {
      assert e in multiset(tr);
      RanChips(jobs, root, (k: nat) => k < |jobs| && world.succeeds(i, jobs[k], k), |jobs|, e);
    }
  }

  lemma PickedFrom(tasks: seq<SpecTask>, takes: SpecTask -> bool, c: Chip) returns (t: SpecTask)
    requires c in Picked(tasks, takes)
    ensures t in tasks && takes(t) && c == ChipFor(t)
  {
    var k :| 0 <= k < |Picked(tasks, takes)| && Picked(tasks, takes)[k] == c;
    t := Filter(tasks, takes)[k];
  }

  lemma PickedPhases(tasks: seq<SpecTask>, p: Phase)
    ensures forall c :: c in Picked(tasks, Phased(p)) ==> c.phase == p
  {
    forall c | c in Picked(tasks, Phased(p)) ensures c.phase == p {
      var t := PickedFrom(tasks, Phased(p), c);
    }
  }

  lemma PickedScripts(host: Host, cmd: Command, root: Root, tasks: seq<SpecTask>)
    ensures forall c :: c in Picked(tasks, Scripted(host, cmd, root)) ==> c.phase in {Install, Build, Cleanup, PreStart}
  {
    var takes := Scripted(host, cmd, root);
    forall c | c in Picked(tasks, takes) ensures c.phase in {Install, Build, Cleanup, PreStart} {
      var t := PickedFrom(tasks, takes, c);
    }
  }

  /** Each kind of work holds tasks of its own phases. */
  ghost predicate InKinds(work: Work) {
    && (forall c :: c in work.scripts ==> c.phase in {Install, Build, Cleanup, PreStart})
    && (forall c :: c in work.runs ==> c.phase == Run)
    && (forall c :: c in work.starts ==> c.phase == Start)
    && (forall c :: c in work.healths ==> c.phase == Health)
  }

  lemma KindsOf(host: Host, cmd: Command, root: Root, tasks: seq<SpecTask>)
    ensures InKinds(WorkIn(host, cmd, root, tasks))
  {
    PickedScripts(host, cmd, root, tasks);
    PickedPhases(tasks, Run);
    PickedPhases(tasks, Start);
    PickedPhases(tasks, Health);
  }

  lemma ScriptsAt(world: World, i: nat, root: Root, jobs: seq<Chip>)
    requires forall c :: c in jobs ==> StageOf(Began(c, root)) == 0
    ensures AtStage(Scripts(world, i, root, jobs), 0)
  {
    ScriptsRan(world, i, root, jobs);
    RanAt(world, i, jobs, root, Scripts(world, i, root, jobs), 0);
  }

  lemma TurnAt(world: World, i: nat, jobs: seq<Chip>, n: nat)
    requires forall c :: c in jobs ==> StageOf(Began(c, Current)) == n
    ensures AtStage(Turn(world, i, jobs), n)
  {
    TurnRan(world, i, jobs);
    RanAt(world, i, jobs, Current, Turn(world, i, jobs), n);
  }

  lemma StagesRise(world: World, i: nat, root: Root, work: Work, starts: seq<Chip>)
    requires InKinds(work) && forall c :: c in starts ==> c in work.starts
    ensures var (s, r) := (Scripts(world, i, root, work.scripts), Turn(world, i, work.runs));
      var (t, h) := (Turn(world, i, starts), Turn(world, i, work.healths));
      Rising(s) && Rising(s + r) && Rising(s + r + t) && Rising(s + r + t + h)
  {
    ScriptsAt(world, i, root, work.scripts);
    TurnAt(world, i, work.runs, 1);
    TurnAt(world, i, starts, 2);
    TurnAt(world, i, work.healths, 3);
    RisingParts(Scripts(world, i, root, work.scripts), Turn(world, i, work.runs), Turn(world, i, starts),
                Turn(world, i, work.healths));
  }

  lemma WorkRises(world: World, i: nat, released: bool, work: Work, up: set<string>)
    requires released || (work.runs == [] && work.starts == [])
    requires InKinds(work)
    ensures Rising(RunWork(world, i, released, work, up).0)
  {
    StagesRise(world, i, RootOf(released), work, ToStart(world, i, work, up));
    RunsFollow(world, i, released, work, up);
  }

  /** A wave's scripts come before its run tasks, these before its start tasks, and health checks are last. */
  lemma WaveRises(host: Host, cmd: Command, world: World, i: nat, released: bool)
    requires i < |cmd.waves| && (released || !NeedsPost(cmd.waves[i]))
    requires AllKnown(host, cmd, RootOf(released), cmd.waves[i])
    ensures Rising(RunWave(host, cmd, world, i, released).0)
  {
    var tasks, work := cmd.waves[i], WorkIn(host, cmd, RootOf(released), cmd.waves[i]);
    SortedIs(host, cmd, RootOf(released), tasks);
    RunsSorted(host, cmd, world, i, released, work);
    NoneBefore(host, cmd, released, tasks, work);
    KindsOf(host, cmd, RootOf(released), tasks);
    WorkRises(world, i, released, work, Up(host, cmd, world, i));
  }
}
