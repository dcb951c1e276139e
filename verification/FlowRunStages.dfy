/** Activation: how often, when exactly, and what may run on either side of it. */
module FlowRunStages {
  import opened Seqs
  import opened FlowModel
  import opened FlowWire
  import opened FlowRun
  import opened Text
  import opened FlowRunReads

  /**
   * Reads a trace as an automaton: activation happens at most once, scripts use the release
   * directory before it and the current link after it, and post-release steps only come after it.
   */
  ghost predicate Staged(tr: seq<Event>, released: bool) {
    if tr == [] then true
    else
      match tr[0]
      case Activated => !released && Staged(tr[1..], true)
      case Began(c, root) => root == RootOf(released) && (IsPre(c.phase) || released) && Staged(tr[1..], released)
      case Ended(c, _) => (IsPre(c.phase) || released) && Staged(tr[1..], released)
  }

  lemma {:induction false} StagedConcat(xs: seq<Event>, ys: seq<Event>, released: bool)
    ensures Staged(xs + ys, released) <==> Staged(xs, released) && Staged(ys, released || Activated in xs)
  {
    if xs == [] {
      assert xs + ys == ys;
    } else {
      assert (xs + ys)[1..] == xs[1..] + ys;
      assert Activated in xs <==> xs[0] == Activated || Activated in xs[1..];
      StagedConcat(xs[1..], ys, released || xs[0] == Activated);
    }
  }

  /** Work whose phases may run at this stage. */
  ghost predicate Allowed(jobs: seq<Chip>, released: bool) {
    released || forall c :: c in jobs ==> IsPre(c.phase)
  }

  lemma {:induction false} InterleaveStaged(jobs: seq<Chip>, root: Root, ok: nat -> bool, picks: seq<nat>, at: seq<nat>,
                                            released: bool)
    requires |at| == |jobs| && root == RootOf(released) && Allowed(jobs, released)
    ensures Staged(Interleave(jobs, root, ok, picks, at), released)
    ensures Activated !in Interleave(jobs, root, ok, picks, at)
    decreases picks
  {
    if picks == [] {
    } else {
      var j := picks[0];
      if j < |jobs| && at[j] < 2 {
        var e := if at[j] == 0 then Began(jobs[j], root) else Ended(jobs[j], ok(j));
        var rest := Interleave(jobs, root, ok, picks[1..], at[j := at[j] + 1]);
        InterleaveStaged(jobs, root, ok, picks[1..], at[j := at[j] + 1], released);
        assert jobs[j] in jobs;
        assert ([e] + rest)[1..] == rest;
      } else {
        InterleaveStaged(jobs, root, ok, picks[1..], at, released);
      }
    }
  }

  lemma {:induction false} InTurnStaged(jobs: seq<Chip>, ok: nat -> bool, k: nat)
    requires k <= |jobs|
    ensures Staged(InTurn(jobs, ok, k), true)
    ensures Activated !in InTurn(jobs, ok, k)
    decreases |jobs| - k
  {
    if k == |jobs| {
    } else {
      InTurnStaged(jobs, ok, k + 1);
      StagedConcat([Began(jobs[k], Current), Ended(jobs[k], ok(k))], InTurn(jobs, ok, k + 1), true);
    }
  }

  /** Work sorted from tasks of these phases only. */
  ghost predicate WorkAllowed(work: Work, released: bool) {
    released || (Allowed(work.scripts, false) && work.runs == [] && work.starts == [] && work.healths == [])
  }

  lemma ScriptsStaged(world: World, i: nat, released: bool, jobs: seq<Chip>)
    requires Allowed(jobs, released)
    ensures Staged(Scripts(world, i, RootOf(released), jobs), released)
    ensures Activated !in Scripts(world, i, RootOf(released), jobs)
  {
    InterleaveStaged(jobs, RootOf(released), Outcome(world, i, jobs), world.picks(i) + FinishPicks(|jobs|),
                     seq(|jobs|, _ => 0), released);
  }

  lemma TurnStaged(world: World, i: nat, front: seq<Event>, jobs: seq<Chip>)
    requires Staged(front, true) && Activated !in front
    ensures Staged(front + Turn(world, i, jobs), true) && Activated !in front + Turn(world, i, jobs)
  {
    InTurnStaged(jobs, Outcome(world, i, jobs), 0);
    StagedConcat(front, Turn(world, i, jobs), true);
  }

  lemma RunWorkStaged(world: World, i: nat, released: bool, work: Work, up: set<string>)
    requires WorkAllowed(work, released)
    ensures Staged(RunWork(world, i, released, work, up).0, released)
    ensures Activated !in RunWork(world, i, released, work, up).0
    ensures RunWork(world, i, released, work, up).1 != Some(RunNeedsRelease)
    ensures RunWork(world, i, released, work, up).1 != Some(StartNeedsRelease)
  {
    var starts := ToStart(world, i, work, up);
    var s := Scripts(world, i, RootOf(released), work.scripts);
    var r := s + Turn(world, i, work.runs);
    var t := r + Turn(world, i, starts);
    ScriptsStaged(world, i, released, work.scripts);
    if released {
      TurnStaged(world, i, s, work.runs);
      TurnStaged(world, i, r, starts);
      TurnStaged(world, i, t, work.healths);
    } else {
      assert starts == [];
      assert r == s && t == s && t + Turn(world, i, work.healths) == s;
    }
  }

  lemma AddTaskAllowed(host: Host, cmd: Command, app: App, c: Chip, work: Work)
    requires IsPre(c.phase) && WorkAllowed(work, false)
    ensures WorkAllowed(AddTask(host, cmd, app, c, work), false)
  {
  }

  lemma {:induction false} SortAllowed(host: Host, cmd: Command, root: Root, tasks: seq<SpecTask>, work: Work,
                                       released: bool)
    requires released || !NeedsPost(tasks)
    requires WorkAllowed(work, released)
    ensures var sorted := SortTasks(host, cmd, root, tasks, work);
      sorted.Ready? ==> WorkAllowed(sorted.work, released)
    ensures var sorted := SortTasks(host, cmd, root, tasks, work);
      sorted.Rejected? ==> sorted.why.UnknownApp? || sorted.why.UnknownPhase?
    decreases tasks
  {
    if tasks == [] {
    } else {
      var app, p := FindApp(AppsOf(host, cmd, root), tasks[0].app), PhaseOf(tasks[0]);
      if app.Some? && p.Some? {
        var work' := AddTask(host, cmd, app.value, Chip(tasks[0].app, p.value), work);
        if !released {
          assert forall k :: 0 <= k < |tasks[1..]| ==> tasks[1..][k] == tasks[k + 1];
          AddTaskAllowed(host, cmd, app.value, Chip(tasks[0].app, p.value), work);
        }
        SortAllowed(host, cmd, root, tasks[1..], work', released);
      }
    }
  }

  lemma RunWaveStaged(host: Host, cmd: Command, world: World, i: nat, released: bool)
    requires i < |cmd.waves| && (released || !NeedsPost(cmd.waves[i]))
    ensures var (tr, why) := RunWave(host, cmd, world, i, released);
      && Staged(tr, released) && Activated !in tr
      && why != Some(RunNeedsRelease) && why != Some(StartNeedsRelease)
  {
    SortAllowed(host, cmd, RootOf(released), cmd.waves[i], NoWork, released);
    var sorted := SortTasks(host, cmd, RootOf(released), cmd.waves[i], NoWork);
    if sorted.Ready? {
      RunWorkStaged(world, i, released, sorted.work, Up(host, cmd, world, i));
    }
  }

  /** Nothing is launched in a wave that runs before the release is live. */
  lemma LaunchedAsSorted(host: Host, cmd: Command, world: World, i: nat, released: bool)
    requires i < |cmd.waves| && (released || !NeedsPost(cmd.waves[i]))
    ensures var sorted := SortTasks(host, cmd, RootOf(released), cmd.waves[i], NoWork);
      LaunchedBy(host, cmd, world, i) ==
        if sorted.Ready? && AllOk(world, i, sorted.work.scripts) then Launched(world, i, sorted.work.runs) else {}
    ensures var sorted := SortTasks(host, cmd, RootOf(released), cmd.waves[i], NoWork);
      sorted.Ready? && sorted.work.runs != [] ==> released
  {
    if !released {
      SortAllowed(host, cmd, ReleaseDir, cmd.waves[i], NoWork, false);
      SortAllowed(host, cmd, Current, cmd.waves[i], NoWork, false);
    }
  }

  /** A wave without tasks is passed over. */
  lemma EmptyWave(host: Host, cmd: Command, world: World, i: nat, released: bool, failed: nat)
    requires i < |cmd.waves| && cmd.waves[i] == []
    ensures Up(host, cmd, world, i + 1) == Up(host, cmd, world, i)
    ensures RunFrom(host, cmd, world, i + 1, released, failed) == RunFrom(host, cmd, world, i, released, failed)
  {
    UpNext(host, cmd, world, i);
    assert SortTasks(host, cmd, Current, cmd.waves[i], NoWork) == Ready(NoWork);
  }

  // ---- when the release is activated ----

  /** The first wave from i on that passes, or the end. */
  function FirstWave(waves: Spec, test: seq<SpecTask> -> bool, i: nat): (p: nat)
    requires i <= |waves|
    ensures i <= p <= |waves|
    ensures forall k :: i <= k < p ==> !test(waves[k])
    ensures p < |waves| ==> test(waves[p])
    decreases |waves| - i
  {
    if i == |waves| || test(waves[i]) then i else FirstWave(waves, test, i + 1)
  }

  /** The first wave from i on that needs the release. */
  function PostFrom(cmd: Command, i: nat): (p: nat)
    requires i <= |cmd.waves|
    ensures i <= p <= |cmd.waves|
    ensures forall k :: i <= k < p ==> !NeedsPost(cmd.waves[k])
    ensures p < |cmd.waves| ==> NeedsPost(cmd.waves[p])
  {
    FirstWave(cmd.waves, NeedsPost, i)
  }

  /** Wave k, run before activation, ends without a failure. */
  ghost predicate WaveOk(host: Host, cmd: Command, world: World, k: nat)
    requires k < |cmd.waves|
  {
    cmd.waves[k] == [] || RunWave(host, cmd, world, k, false).1.None?
  }

  /** What activation needs: the symlink moves, no mixed wave comes first, and under "stop" no earlier wave failed. */
  ghost predicate Reaches(host: Host, cmd: Command, world: World, i: nat)
    requires i <= |cmd.waves|
  {
    var p := PostFrom(cmd, i);
    && world.swapOk
    && (p < |cmd.waves| ==> !NeedsPre(cmd.waves[p]))
    && (ContinueOnFail(cmd) || forall k :: i <= k < p ==> WaveOk(host, cmd, world, k))
  }

  lemma {:induction false} RunFromStaged(host: Host, cmd: Command, world: World, i: nat, released: bool, failed: nat)
    requires i <= |cmd.waves|
    ensures var (tr, why) := RunFrom(host, cmd, world, i, released, failed);
      && Staged(tr, released)
      && why != Some(RunNeedsRelease) && why != Some(StartNeedsRelease)
      && (Activated in tr <==> !released && Reaches(host, cmd, world, i))
      && (why.None? ==> released || Activated in tr)
    decreases |cmd.waves| - i, 1
  {
    if i == |cmd.waves| {
    } else if cmd.waves[i] == [] {
      RunFromStaged(host, cmd, world, i + 1, released, failed);
      ReachesStep(host, cmd, world, i);
    } else if NeedsPost(cmd.waves[i]) && !released {
      assert PostFrom(cmd, i) == i;
      if !NeedsPre(cmd.waves[i]) && world.swapOk {
        WaveThenRestStaged(host, cmd, world, i, true, failed);
        var (tr, _) := WaveThenRest(host, cmd, world, i, true, failed);
        assert ([Activated] + tr)[1..] == tr && ([Activated] + tr)[0] == Activated;
      }
    } else {
      WaveThenRestStaged(host, cmd, world, i, released, failed);
    }
  }

  lemma ReachesStep(host: Host, cmd: Command, world: World, i: nat)
    requires i < |cmd.waves| && !NeedsPost(cmd.waves[i])
    ensures Reaches(host, cmd, world, i) <==>
      Reaches(host, cmd, world, i + 1) && (ContinueOnFail(cmd) || WaveOk(host, cmd, world, i))
  {
    var p := PostFrom(cmd, i + 1);
    assert PostFrom(cmd, i) == p;
    if ContinueOnFail(cmd) {
    } else if WaveOk(host, cmd, world, i) && (forall k :: i + 1 <= k < p ==> WaveOk(host, cmd, world, k)) {
      forall k | i <= k < p ensures WaveOk(host, cmd, world, k) {
        if k > i {
          assert i + 1 <= k;
        }
      }
    }
  }

  lemma {:induction false} WaveThenRestStaged(host: Host, cmd: Command, world: World, i: nat, released: bool,
                                              failed: nat)
    requires i < |cmd.waves| && cmd.waves[i] != [] && (released || !NeedsPost(cmd.waves[i]))
    ensures var (tr, why) := WaveThenRest(host, cmd, world, i, released, failed);
      && Staged(tr, released)
      && why != Some(RunNeedsRelease) && why != Some(StartNeedsRelease)
      && (Activated in tr <==> !released && Reaches(host, cmd, world, i))
      && (why.None? ==> released || Activated in tr)
    decreases |cmd.waves| - i, 0
  {
    var (events, why) := RunWave(host, cmd, world, i, released);
    RunWaveStaged(host, cmd, world, i, released);
    if !released {
      ReachesStep(host, cmd, world, i);
    }
    if why.None? || ContinueOnFail(cmd) {
      var failed' := if why.Some? then failed + 1 else failed;
      RunFromStaged(host, cmd, world, i + 1, released, failed');
      StagedConcat(events, RunFrom(host, cmd, world, i + 1, released, failed').0, released);
    }
  }

  // ---- the results ----

  function Count(tr: seq<Event>): nat {
    if tr == [] then 0 else (if tr[0] == Activated then 1 else 0) + Count(tr[1..])
  }

  lemma {:induction false} StagedCount(tr: seq<Event>, released: bool)
    requires Staged(tr, released)
    ensures Count(tr) == if Activated in tr then 1 else 0
    ensures released ==> Activated !in tr
  {
    if tr == [] {
    } else {
      StagedCount(tr[1..], released || tr[0] == Activated);
      assert Activated in tr <==> tr[0] == Activated || Activated in tr[1..];
    }
  }

  /**
   * For any flow whatever and any run of it: the release is activated at most once, exactly once
   * when the run succeeds, everything post-release runs after it, scripts work in the right
   * place, and the "requires an activated release" errors never occur.
   */
  lemma SingleActivation(host: Host, cmd: Command, world: World)
    ensures var (tr, why) := RunFlow(host, cmd, world);
      && Staged(tr, false) && Count(tr) <= 1
      && (why.None? ==> Count(tr) == 1)
      && why != Some(RunNeedsRelease) && why != Some(StartNeedsRelease)
  {
    RunFromStaged(host, cmd, world, 0, false, 0);
    StagedCount(RunFlow(host, cmd, world).0, false);
  }

  /** Exactly when a run activates the release. Under "continue" failed waves play no part in it. */
  lemma ActivationExact(host: Host, cmd: Command, world: World)
    ensures Activated in RunFlow(host, cmd, world).0 <==> Reaches(host, cmd, world, 0)
  {
    RunFromStaged(host, cmd, world, 0, false, 0);
  }

  /**
   * Whatever else the policy says, "stop" and nothing at all included: a failure before the first
   * post-release wave leaves the old release live.
   */
  lemma StopKeepsOldRelease(host: Host, cmd: Command, world: World, k: nat)
    requires !SpellsContinue(Trim(cmd.onWaveFailure)) && k < PostFrom(cmd, 0) && !WaveOk(host, cmd, world, k)
    ensures Activated !in RunFlow(host, cmd, world).0
  {
    PolicyText(cmd);
    ActivationExact(host, cmd, world);
  }

  /** Under "continue" no failed wave, not even a failed install, keeps the release from going live. */
  lemma ContinueActivatesAnyway(host: Host, cmd: Command, world: World)
    requires SpellsContinue(Trim(cmd.onWaveFailure)) && world.swapOk
    requires PostFrom(cmd, 0) < |cmd.waves| ==> !NeedsPre(cmd.waves[PostFrom(cmd, 0)])
    ensures Activated in RunFlow(host, cmd, world).0
  {
    PolicyText(cmd);
    ActivationExact(host, cmd, world);
  }
}
