/** From a checked flow to its runs: no run of the agent takes an app's phases out of order. */
module FlowRunOrder {
  import opened Seqs
  import opened FlowModel
  import opened FlowBlocks
  import opened FlowWire
  import opened RepairExact
  import opened FlowRun
  import opened FlowRunReads

  /** What a trace starts or finishes, step by step. */
  function Met(tr: seq<Event>): seq<Chip> {
    if tr == [] then []
    else (if tr[0] == Activated then [] else [tr[0].chip]) + Met(tr[1..])
  }

  /** The tasks of a wave whose phase the agent knows. */
  function KnownChips(tasks: seq<SpecTask>): seq<Chip> {
    if tasks == [] then []
    else
      (match PhaseOf(tasks[0]) case Some(p) => [Chip(tasks[0].app, p)] case None => []) + KnownChips(tasks[1..])
  }

  function PlanOf(spec: Spec): (p: Plan)
    ensures |p| == |spec| && forall i :: 0 <= i < |spec| ==> p[i] == KnownChips(spec[i])
  {
    if spec == [] then [] else [KnownChips(spec[0])] + PlanOf(spec[1..])
  }

  /** No app has two different script phases in the wave: those would run in parallel. */
  ghost predicate RaceFree(chips: seq<Chip>) {
    forall c, d :: c in chips && d in chips && c.owner == d.owner && IsScript(c.phase) && IsScript(d.phase) ==>
      c.phase == d.phase
  }

  /** The scripts wave i actually starts, tasks with nothing to run left out, race with none of their own app. */
  ghost predicate WaveRaceFree(host: Host, cmd: Command, i: nat)
    requires i < |cmd.waves|
  {
    forall root :: var sorted := SortTasks(host, cmd, root, cmd.waves[i], NoWork);
      sorted.Ready? ==> RaceFree(sorted.work.scripts)
  }

  ghost predicate AllRaceFree(host: Host, cmd: Command) {
    forall i :: 0 <= i < |cmd.waves| ==> WaveRaceFree(host, cmd, i)
  }

  ghost predicate Within(xs: seq<Chip>, ys: seq<Chip>) {
    forall c :: c in xs ==> c in ys
  }

  lemma {:induction false} MetConcat(xs: seq<Event>, ys: seq<Event>)
    ensures Met(xs + ys) == Met(xs) + Met(ys)
  {
    if xs == [] {
      assert xs + ys == ys;
    } else {
      assert (xs + ys)[1..] == xs[1..] + ys;
      MetConcat(xs[1..], ys);
    }
  }

  // ---- one wave ----

  lemma {:induction false} InterleaveMeets(jobs: seq<Chip>, root: Root, ok: nat -> bool, picks: seq<nat>, at: seq<nat>)
    requires |at| == |jobs|
    ensures Within(Met(Interleave(jobs, root, ok, picks, at)), jobs)
    decreases picks
  {
    if picks == [] {
    } else {
      var j := picks[0];
      if j < |jobs| && at[j] < 2 {
        var e := if at[j] == 0 then Began(jobs[j], root) else Ended(jobs[j], ok(j));
        var rest := Interleave(jobs, root, ok, picks[1..], at[j := at[j] + 1]);
        InterleaveMeets(jobs, root, ok, picks[1..], at[j := at[j] + 1]);
        assert ([e] + rest)[1..] == rest;
        assert jobs[j] in jobs;
      } else {
        InterleaveMeets(jobs, root, ok, picks[1..], at);
      }
    }
  }

  lemma {:induction false} InTurnMeets(jobs: seq<Chip>, ok: nat -> bool, k: nat)
    requires k <= |jobs|
    ensures Within(Met(InTurn(jobs, ok, k)), jobs)
    decreases |jobs| - k
  {
    if k == |jobs| {
    } else {
      InTurnMeets(jobs, ok, k + 1);
      var two := [Began(jobs[k], Current), Ended(jobs[k], ok(k))];
      MetConcat(two, InTurn(jobs, ok, k + 1));
      assert two[1..] == [Ended(jobs[k], ok(k))];
      assert Met(two) == [jobs[k], jobs[k]];
    }
  }

  ghost predicate WorkFrom(work: Work, chips: seq<Chip>) {
    && (forall c :: c in work.scripts ==> c in chips && IsScript(c.phase))
    && (forall c :: c in work.runs ==> c in chips && c.phase == Run)
    && (forall c :: c in work.starts ==> c in chips && c.phase == Start)
    && (forall c :: c in work.healths ==> c in chips && c.phase == Health)
  }

  lemma AddTaskFrom(host: Host, cmd: Command, app: App, c: Chip, work: Work, chips: seq<Chip>)
    requires WorkFrom(work, chips) && c in chips
    ensures WorkFrom(AddTask(host, cmd, app, c, work), chips)
  {
    var body := Body(host, cmd, app, c.phase);
    match c.phase
    case Run =>
    case Start =>
    case Health =>
    case _ =>
      assert IsScript(c.phase);
  }

  lemma {:induction false} SortFrom(host: Host, cmd: Command, root: Root, tasks: seq<SpecTask>, work: Work,
                                    chips: seq<Chip>)
    requires WorkFrom(work, chips) && Within(KnownChips(tasks), chips)
    ensures var sorted := SortTasks(host, cmd, root, tasks, work);
      sorted.Ready? ==> WorkFrom(sorted.work, chips)
    ensures var sorted := SortTasks(host, cmd, root, tasks, work);
      sorted.Rejected? ==> !sorted.why.MixedWave?
    decreases tasks
  {
    if tasks == [] {
    } else {
      var app, p := FindApp(AppsOf(host, cmd, root), tasks[0].app), PhaseOf(tasks[0]);
      if app.Some? && p.Some? {
        var c := Chip(tasks[0].app, p.value);
        assert KnownChips(tasks) == [c] + KnownChips(tasks[1..]);
        assert c in KnownChips(tasks);
        AddTaskFrom(host, cmd, app.value, c, work, chips);
        SortFrom(host, cmd, root, tasks[1..], AddTask(host, cmd, app.value, c, work), chips);
      }
    }
  }

  /** Chips of one stage: all of the same rank wherever they share an app. */
  ghost predicate Level(chips: seq<Chip>) {
    forall c, d :: c in chips && d in chips && c.owner == d.owner ==> Rank(c.phase) == Rank(d.phase)
  }

  lemma Stack(front: seq<Chip>, back: seq<Chip>, r: nat)
    requires InOrder(front) && Level(back)
    requires (forall c :: c in front ==> Rank(c.phase) <= r) && forall c :: c in back ==> Rank(c.phase) >= r
    ensures InOrder(front + back)
  {
    assert InOrder(back) by {
      forall i, j | 0 <= i < j < |back| && back[i].owner == back[j].owner
        ensures Rank(back[i].phase) <= Rank(back[j].phase)
      {
        assert back[i] in back && back[j] in back;
      }
    }
    InOrderConcat(front, back);
  }

  /** The trace of a wave is its stages up to the one that fails. */
  lemma RunWorkShape(world: World, i: nat, released: bool, work: Work, up: set<string>)
    ensures var (s, r) := (Scripts(world, i, RootOf(released), work.scripts), Turn(world, i, work.runs));
      var (t, h) := (Turn(world, i, ToStart(world, i, work, up)), Turn(world, i, work.healths));
      var (tr, why) := RunWork(world, i, released, work, up);
      (tr == s || tr == s + r || tr == s + r + t || tr == s + r + t + h) && !(why.Some? && why.value.MixedWave?)
  {
  }

  lemma RunWorkMeets(world: World, i: nat, released: bool, work: Work, up: set<string>, chips: seq<Chip>)
    requires WorkFrom(work, chips) && RaceFree(work.scripts)
    ensures var (tr, why) := RunWork(world, i, released, work, up);
      InOrder(Met(tr)) && Within(Met(tr), chips) && !(why.Some? && why.value.MixedWave?)
  {
    var starts := ToStart(world, i, work, up);
    var s, r := Scripts(world, i, RootOf(released), work.scripts), Turn(world, i, work.runs);
    var t, h := Turn(world, i, starts), Turn(world, i, work.healths);
    InterleaveMeets(work.scripts, RootOf(released), Outcome(world, i, work.scripts),
                    world.picks(i) + FinishPicks(|work.scripts|), seq(|work.scripts|, _ => 0));
    InTurnMeets(work.runs, Outcome(world, i, work.runs), 0);
    InTurnMeets(starts, Outcome(world, i, starts), 0);
    InTurnMeets(work.healths, Outcome(world, i, work.healths), 0);
    MetStages(s, r, t, h);
    StackAll(Met(s), Met(r), Met(t), Met(h), chips);
    RunWorkShape(world, i, released, work, up);
  }

  lemma MetStages(s: seq<Event>, r: seq<Event>, t: seq<Event>, h: seq<Event>)
    ensures Met(s + r) == Met(s) + Met(r)
    ensures Met(s + r + t) == Met(s) + Met(r) + Met(t)
    ensures Met(s + r + t + h) == Met(s) + Met(r) + Met(t) + Met(h)
  {
    MetConcat(s, r);
    MetConcat(s + r, t);
    MetConcat(s + r + t, h);
  }

  lemma StackAll(s: seq<Chip>, r: seq<Chip>, t: seq<Chip>, h: seq<Chip>, chips: seq<Chip>)
    requires WorkFrom(Work(s, r, t, h), chips) && RaceFree(s)
    ensures InOrder(s) && InOrder(s + r) && InOrder(s + r + t) && InOrder(s + r + t + h)
    ensures Within(s, chips) && Within(s + r, chips) && Within(s + r + t, chips) && Within(s + r + t + h, chips)
  {
    assert Level(s);
    assert InOrder(s) by {
      forall i, j | 0 <= i < j < |s| && s[i].owner == s[j].owner ensures Rank(s[i].phase) <= Rank(s[j].phase) {
        assert s[i] in s && s[j] in s;
      }
    }
    Stack(s, r, Rank(Run));
    Stack(s + r, t, Rank(Start));
    Stack(s + r + t, h, Rank(Health));
  }

  lemma RunWaveMeets(host: Host, cmd: Command, world: World, i: nat, released: bool)
    requires i < |cmd.waves| && WaveRaceFree(host, cmd, i)
    ensures var (tr, why) := RunWave(host, cmd, world, i, released);
      InOrder(Met(tr)) && Within(Met(tr), KnownChips(cmd.waves[i])) && !(why.Some? && why.value.MixedWave?)
  {
    var chips := KnownChips(cmd.waves[i]);
    SortFrom(host, cmd, RootOf(released), cmd.waves[i], NoWork, chips);
    var sorted := SortTasks(host, cmd, RootOf(released), cmd.waves[i], NoWork);
    if sorted.Ready? {
      RunWorkMeets(world, i, released, sorted.work, Up(host, cmd, world, i), chips);
    }
  }

  // ---- the whole flow ----

  lemma {:induction false} MixedKnown(tasks: seq<SpecTask>)
    ensures NeedsPost(tasks) && NeedsPre(tasks) ==> Mixed(KnownChips(tasks))
    ensures NeedsPost(tasks) ==> exists c :: c in KnownChips(tasks) && !IsPre(c.phase)
    ensures NeedsPre(tasks) ==> exists c :: c in KnownChips(tasks) && IsPre(c.phase)
  {
    forall k | 0 <= k < |tasks| && PhaseOf(tasks[k]).Some?
      ensures Chip(tasks[k].app, PhaseOf(tasks[k]).value) in KnownChips(tasks)
    {
      KnownMember(tasks, k);
    }
  }

  predicate AsksFor(t: SpecTask, c: Chip) {
    PhaseOf(t) == Some(c.phase) && t.app == c.owner
  }

  lemma KnownHere(tasks: seq<SpecTask>, c: Chip)
    requires tasks != [] && (AsksFor(tasks[0], c) || c in KnownChips(tasks[1..]))
    ensures c in KnownChips(tasks)
  {
  }

  lemma {:induction false} KnownMember(tasks: seq<SpecTask>, k: nat)
    requires k < |tasks| && PhaseOf(tasks[k]).Some?
    ensures Chip(tasks[k].app, PhaseOf(tasks[k]).value) in KnownChips(tasks)
  {
    if k > 0 {
      assert tasks[1..][k - 1] == tasks[k];
      KnownMember(tasks[1..], k - 1);
    }
    KnownHere(tasks, Chip(tasks[k].app, PhaseOf(tasks[k]).value));
  }

  lemma KnownStep(tasks: seq<SpecTask>, c: Chip)
    requires c in KnownChips(tasks)
    ensures tasks != [] && (AsksFor(tasks[0], c) || c in KnownChips(tasks[1..]))
  {
  }

  lemma {:induction false} KnownFrom(tasks: seq<SpecTask>, c: Chip)
    requires c in KnownChips(tasks)
    ensures exists t :: t in tasks && AsksFor(t, c)
  {
    KnownStep(tasks, c);
    if !AsksFor(tasks[0], c) {
      KnownFrom(tasks[1..], c);
      var t :| t in tasks[1..] && AsksFor(t, c);
      assert t in tasks;
    }
  }

  /** A wave needs the release if some task of it runs after the release, and is mixed if another runs before it. */
  lemma SidesExact(tasks: seq<SpecTask>)
    ensures NeedsPost(tasks) <==> exists c :: c in KnownChips(tasks) && !IsPre(c.phase)
    ensures NeedsPost(tasks) && NeedsPre(tasks) <==> Mixed(KnownChips(tasks))
  {
    MixedKnown(tasks);
    forall c | c in KnownChips(tasks) ensures if IsPre(c.phase) then NeedsPre(tasks) else NeedsPost(tasks) {
      KnownFrom(tasks, c);
      var t :| t in tasks && AsksFor(t, c);
      var k :| 0 <= k < |tasks| && tasks[k] == t;
    }
  }

  /** The part of the flow still to run, as a plan. */
  function Rest(cmd: Command, i: nat): Plan
    requires i <= |cmd.waves|
  {
    PlanOf(cmd.waves[i..])
  }

  lemma RestStep(cmd: Command, i: nat)
    requires i < |cmd.waves|
    ensures Rest(cmd, i) == [KnownChips(cmd.waves[i])] + Rest(cmd, i + 1)
    ensures Flatten(Rest(cmd, i)) == KnownChips(cmd.waves[i]) + Flatten(Rest(cmd, i + 1))
  {
    assert cmd.waves[i..][1..] == cmd.waves[i + 1..];
  }

  lemma MetActivated(tr: seq<Event>)
    ensures Met([Activated] + tr) == Met(tr)
  {
    assert ([Activated] + tr)[1..] == tr;
  }

  /** A run from some wave on meets only these tasks, in order, and is not refused as mixed. */
  ghost predicate Orderly(run: (seq<Event>, Option<Failure>), chips: seq<Chip>) {
    InOrder(Met(run.0)) && Within(Met(run.0), chips) && !(run.1.Some? && run.1.value.MixedWave?)
  }

  /** Moving the release into place first changes nothing about that. */
  lemma ActivatedOrderly(host: Host, cmd: Command, world: World, i: nat, failed: nat, chips: seq<Chip>)
    requires i < |cmd.waves| && cmd.waves[i] != [] && NeedsPost(cmd.waves[i]) && !NeedsPre(cmd.waves[i])
    requires Orderly(WaveThenRest(host, cmd, world, i, true, failed), chips)
    ensures Orderly(RunFrom(host, cmd, world, i, false, failed), chips)
  {
    MetActivated(WaveThenRest(host, cmd, world, i, true, failed).0);
  }

  lemma EndOrderly(host: Host, cmd: Command, world: World, released: bool, failed: nat)
    ensures Orderly(RunFrom(host, cmd, world, |cmd.waves|, released, failed), [])
  {
    MetActivated([]);
    assert [Activated] + [] == [Activated];
  }

  lemma {:induction false} RunFromInOrder(host: Host, cmd: Command, world: World, i: nat, released: bool, failed: nat)
    requires i <= |cmd.waves| && OrderOk(Rest(cmd, i)) && AllRaceFree(host, cmd)
    ensures Orderly(RunFrom(host, cmd, world, i, released, failed), Flatten(Rest(cmd, i)))
    decreases |cmd.waves| - i, 1
  {
    if i == |cmd.waves| {
      EndOrderly(host, cmd, world, released, failed);
    } else {
      var w := KnownChips(cmd.waves[i]);
      RestStep(cmd, i);
      OrderOkStep(w, Rest(cmd, i + 1));
      MixedKnown(cmd.waves[i]);
      if cmd.waves[i] == [] {
        RunFromInOrder(host, cmd, world, i + 1, released, failed);
      } else if NeedsPost(cmd.waves[i]) && !released {
        WaveThenRestInOrder(host, cmd, world, i, true, failed);
        ActivatedOrderly(host, cmd, world, i, failed, Flatten(Rest(cmd, i)));
      } else {
        WaveThenRestInOrder(host, cmd, world, i, released, failed);
      }
    }
  }

  lemma {:induction false} WaveThenRestInOrder(host: Host, cmd: Command, world: World, i: nat, released: bool,
                                               failed: nat)
    requires i < |cmd.waves| && AllRaceFree(host, cmd) && OrderOk(Rest(cmd, i + 1))
    requires Precedes(KnownChips(cmd.waves[i]), Flatten(Rest(cmd, i + 1)))
    ensures Orderly(WaveThenRest(host, cmd, world, i, released, failed),
                    KnownChips(cmd.waves[i]) + Flatten(Rest(cmd, i + 1)))
    decreases |cmd.waves| - i, 0
  {
    var (events, why) := RunWave(host, cmd, world, i, released);
    RunWaveMeets(host, cmd, world, i, released);
    if why.None? || ContinueOnFail(cmd) {
      var failed' := if why.Some? then failed + 1 else failed;
      var rest := RunFrom(host, cmd, world, i + 1, released, failed').0;
      RunFromInOrder(host, cmd, world, i + 1, released, failed');
      MetConcat(events, rest);
      InOrderConcat(Met(events), Met(rest));
    }
  }

  /**
   * Whatever fails, whatever the parallel scripts' schedule, and whatever the failure policy: a
   * flow in order, whose waves start no two different script phases of one app, never takes an
   * app's phases out of order and is never refused as mixed.
   */
  lemma RunsInOrder(host: Host, cmd: Command, world: World)
    requires OrderOk(PlanOf(cmd.waves)) && AllRaceFree(host, cmd)
    ensures var (tr, why) := RunFlow(host, cmd, world);
      InOrder(Met(tr)) && !(why.Some? && why.value.MixedWave?)
  {
    assert cmd.waves[0..] == cmd.waves;
    RunFromInOrder(host, cmd, world, 0, false, 0);
  }

  // ---- from the editor ----

  /** No wave of the flow holds two different script phases of one app. */
  ghost predicate NoSharedScripts(plan: Plan) {
    forall i :: 0 <= i < |plan| ==> RaceFree(plan[i])
  }

  lemma NoSharedScriptsRaceFree(host: Host, cmd: Command)
    requires NoSharedScripts(PlanOf(cmd.waves))
    ensures AllRaceFree(host, cmd)
  {
    forall i, root | 0 <= i < |cmd.waves|
      ensures var sorted := SortTasks(host, cmd, root, cmd.waves[i], NoWork);
        sorted.Ready? ==> RaceFree(sorted.work.scripts)
    {
      SortFrom(host, cmd, root, cmd.waves[i], NoWork, KnownChips(cmd.waves[i]));
      assert RaceFree(PlanOf(cmd.waves)[i]);
    }
  }

  lemma {:induction false} WireChips(blocks: seq<Block>, chips: seq<Chip>)
    ensures KnownChips(ToWire(blocks, chips)) == NamedWave(blocks, chips)
  {
    if chips == [] {
    } else {
      assert ToWire(blocks, chips)[1..] == ToWire(blocks, chips[1..]);
      PhaseOfName(NameOf(blocks, chips[0].owner), chips[0].phase);
      WireChips(blocks, chips[1..]);
    }
  }

  lemma WirePlan(blocks: seq<Block>, flow: Flow)
    ensures PlanOf(FlowToSpec(blocks, flow)) == NamedPlan(blocks, NonEmpty(Signature(flow)))
  {
    var sig := NonEmpty(Signature(flow));
    forall i | 0 <= i < |sig| ensures KnownChips(ToWire(blocks, sig[i])) == NamedWave(blocks, sig[i]) {
      WireChips(blocks, sig[i]);
    }
  }

  lemma NonEmptyOrder(plan: Plan)
    requires OrderOk(plan)
    ensures OrderOk(NonEmpty(plan))
  {
    NonEmptyFlatten(plan);
    forall i | 0 <= i < |NonEmpty(plan)| ensures !Mixed(NonEmpty(plan)[i]) {
      var j :| 0 <= j < |plan| && plan[j] == NonEmpty(plan)[i];
    }
  }

  lemma NamedRaceFree(blocks: seq<Block>, chips: seq<Chip>)
    requires RaceFree(chips) && NamesResolve(blocks, chips)
    ensures RaceFree(NamedWave(blocks, chips))
  {
    var named := NamedWave(blocks, chips);
    forall c, d | c in named && d in named && c.owner == d.owner && IsScript(c.phase) && IsScript(d.phase)
      ensures c.phase == d.phase
    {
      var i :| 0 <= i < |named| && named[i] == c;
      var j :| 0 <= j < |named| && named[j] == d;
      assert chips[i] in chips && chips[j] in chips;
      assert Resolves(blocks, chips[i].owner) && Resolves(blocks, chips[j].owner);
    }
  }

  /** The editor's check is enough: what it passes, the agent runs in order, on every host and in every run. */
  lemma EditorToAgent(blocks: seq<Block>, flow: Flow, host: Host, cmd: Command, world: World)
    requires OrderOk(Signature(flow)) && NoSharedScripts(Signature(flow)) && NamesResolve(blocks, Flat(flow))
    requires cmd.waves == FlowToSpec(blocks, flow)
    ensures var (tr, why) := RunFlow(host, cmd, world);
      InOrder(Met(tr)) && !(why.Some? && why.value.MixedWave?)
  {
    WirePlan(blocks, flow);
    NonEmptyOrder(Signature(flow));
    NonEmptyFlatten(Signature(flow));
    NamedOrder(blocks, NonEmpty(Signature(flow)));
    NamedSharesNoScripts(blocks, Signature(flow));
    NoSharedScriptsRaceFree(host, cmd);
    RunsInOrder(host, cmd, world);
  }

  lemma NamedSharesNoScripts(blocks: seq<Block>, plan: Plan)
    requires NoSharedScripts(plan) && NamesResolve(blocks, Flatten(plan))
    ensures NoSharedScripts(NamedPlan(blocks, NonEmpty(plan)))
  {
    var sig := NonEmpty(plan);
    NonEmptyFlatten(plan);
    forall i | 0 <= i < |sig| ensures RaceFree(NamedPlan(blocks, sig)[i]) {
      var j :| 0 <= j < |plan| && plan[j] == sig[i];
      assert RaceFree(plan[j]);
      forall c: Chip | c in sig[i] ensures Resolves(blocks, c.owner) {
        FlattenMember(sig, c);
      }
      NamedRaceFree(blocks, sig[i]);
    }
  }
}
