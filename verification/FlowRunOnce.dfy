/** No app is started again once a run task has launched it. */
module FlowRunOnce {
  import opened Seqs
  import opened FlowModel
  import opened FlowRun
  import opened FlowRunStages
  import opened FlowRunOrder

  /** The apps launched after an event, of those launched before it. */
  function UpNow(e: Event, up: set<string>): set<string> {
    if e.Ended? && e.ok && e.chip.phase.Run? then up + {e.chip.owner} else up
  }

  /** Reads a trace with the set of launched apps: a start only begins for an app not in it. */
  ghost predicate Respects(tr: seq<Event>, up: set<string>) {
    tr != [] ==>
      && (tr[0].Began? && tr[0].chip.phase.Start? ==> tr[0].chip.owner !in up)
      && Respects(tr[1..], UpNow(tr[0], up))
  }

  function UpAfter(tr: seq<Event>, up: set<string>): set<string> {
    if tr == [] then up else UpAfter(tr[1..], UpNow(tr[0], up))
  }

  lemma {:induction false} RespectsConcat(xs: seq<Event>, ys: seq<Event>, up: set<string>)
    ensures Respects(xs + ys, up) <==> Respects(xs, up) && Respects(ys, UpAfter(xs, up))
    ensures UpAfter(xs + ys, up) == UpAfter(ys, UpAfter(xs, up))
  {
    if xs == [] {
      assert xs + ys == ys;
    } else {
      assert (xs + ys)[1..] == xs[1..] + ys;
      RespectsConcat(xs[1..], ys, UpNow(xs[0], up));
    }
  }

  // ---- the stages of a wave ----

  /** Events of tasks that neither run nor start anything. */
  ghost predicate Idle(tr: seq<Event>) {
    forall e :: e in tr ==> e.Activated? || (!e.chip.phase.Run? && !e.chip.phase.Start?)
  }

  lemma {:induction false} IdleRespects(tr: seq<Event>, up: set<string>)
    requires Idle(tr)
    ensures Respects(tr, up) && UpAfter(tr, up) == up
  {
    if tr == [] {
    } else {
      assert tr[0] in tr;
      IdleRespects(tr[1..], up);
    }
  }

  lemma {:induction false} MetIdle(tr: seq<Event>)
    requires forall c :: c in Met(tr) ==> !c.phase.Run? && !c.phase.Start?
    ensures Idle(tr)
  {
    if tr == [] {
    } else {
      MetIdle(tr[1..]);
    }
  }

  lemma TurnPair(c: Chip, ok: bool, rest: seq<Event>, up: set<string>)
    ensures var two := [Began(c, Current), Ended(c, ok)];
      && (Respects(two + rest, up) <==> (c.phase.Start? ==> c.owner !in up) && Respects(rest, UpNow(two[1], up)))
      && UpAfter(two + rest, up) == UpAfter(rest, UpNow(two[1], up))
  {
    var two := [Began(c, Current), Ended(c, ok)];
    assert (two + rest)[1..] == [two[1]] + rest && ([two[1]] + rest)[1..] == rest;
  }

  /** The apps of jobs[k..] that come up. */
  function LaunchedFrom(jobs: seq<Chip>, ok: nat -> bool, k: nat): set<string> {
    set m | k <= m < |jobs| && ok(m) :: jobs[m].owner
  }

  lemma {:induction false} RunsRespect(jobs: seq<Chip>, ok: nat -> bool, k: nat, up: set<string>)
    requires k <= |jobs| && forall c :: c in jobs ==> c.phase.Run?
    ensures Respects(InTurn(jobs, ok, k), up)
    ensures UpAfter(InTurn(jobs, ok, k), up) == up + LaunchedFrom(jobs, ok, k)
    decreases |jobs| - k
  {
    if k == |jobs| {
    } else {
      assert jobs[k] in jobs;
      var more := if ok(k) then up + {jobs[k].owner} else up;
      RunsRespect(jobs, ok, k + 1, more);
      TurnPair(jobs[k], ok(k), InTurn(jobs, ok, k + 1), up);
      assert more + LaunchedFrom(jobs, ok, k + 1) == up + LaunchedFrom(jobs, ok, k);
    }
  }

  lemma {:induction false} StartsRespect(jobs: seq<Chip>, ok: nat -> bool, k: nat, up: set<string>)
    requires k <= |jobs| && forall c :: c in jobs ==> c.phase.Start? && c.owner !in up
    ensures Respects(InTurn(jobs, ok, k), up) && UpAfter(InTurn(jobs, ok, k), up) == up
    decreases |jobs| - k
  {
    if k == |jobs| {
    } else {
      assert jobs[k] in jobs;
      StartsRespect(jobs, ok, k + 1, up);
      TurnPair(jobs[k], ok(k), InTurn(jobs, ok, k + 1), up);
    }
  }

  lemma ScriptsIdle(world: World, i: nat, root: Root, jobs: seq<Chip>)
    requires forall c :: c in jobs ==> IsScript(c.phase)
    ensures Idle(Scripts(world, i, root, jobs))
  {
    var ok, picks := Outcome(world, i, jobs), world.picks(i) + FinishPicks(|jobs|);
    InterleaveMeets(jobs, root, ok, picks, seq(|jobs|, _ => 0));
    MetIdle(Scripts(world, i, root, jobs));
  }

  lemma HealthsIdle(world: World, i: nat, jobs: seq<Chip>)
    requires forall c :: c in jobs ==> c.phase.Health?
    ensures Idle(Turn(world, i, jobs))
  {
    InTurnMeets(jobs, Outcome(world, i, jobs), 0);
    MetIdle(Turn(world, i, jobs));
  }

  lemma RunsLaunch(world: World, i: nat, jobs: seq<Chip>, up: set<string>)
    requires forall c :: c in jobs ==> c.phase.Run?
    ensures Leads(Turn(world, i, jobs), up, up + Launched(world, i, jobs))
  {
    RunsRespect(jobs, Outcome(world, i, jobs), 0, up);
    assert LaunchedFrom(jobs, Outcome(world, i, jobs), 0) == Launched(world, i, jobs);
  }

  /** From the apps up before it a trace leads to those up after it. */
  ghost predicate Leads(tr: seq<Event>, up: set<string>, now: set<string>) {
    Respects(tr, up) && UpAfter(tr, up) == now
  }

  /** The four stages one after the other. */
  lemma StagesLead(s: seq<Event>, r: seq<Event>, t: seq<Event>, h: seq<Event>, up: set<string>, now: set<string>)
    requires Idle(s) && Idle(h) && Leads(r, up, now) && Leads(t, now, now)
    ensures Leads(s, up, up) && Leads(s + r, up, now) && Leads(s + r + t, up, now) && Leads(s + r + t + h, up, now)
  {
    IdleRespects(s, up);
    IdleRespects(h, now);
    RespectsConcat(s, r, up);
    RespectsConcat(s + r, t, up);
    RespectsConcat(s + r + t, h, up);
  }

  /** Once the scripts are done the run tasks get their turn. */
  lemma RunsFollow(world: World, i: nat, released: bool, work: Work, up: set<string>)
    requires work.runs != [] ==> released
    ensures var (s, r) := (Scripts(world, i, RootOf(released), work.scripts), Turn(world, i, work.runs));
      var (t, h) := (Turn(world, i, ToStart(world, i, work, up)), Turn(world, i, work.healths));
      var tr := RunWork(world, i, released, work, up).0;
      if AllOk(world, i, work.scripts) then tr == s + r || tr == s + r + t || tr == s + r + t + h else tr == s
  {
  }

  lemma StartsLaunchNothing(world: World, i: nat, work: Work, up: set<string>)
    requires forall c :: c in work.starts ==> c.phase.Start?
    ensures var now := up + Launched(world, i, work.runs);
      Leads(Turn(world, i, ToStart(world, i, work, up)), now, now)
  {
    var starts := ToStart(world, i, work, up);
    StartsRespect(starts, Outcome(world, i, starts), 0, up + Launched(world, i, work.runs));
  }

  lemma RunWorkRespects(world: World, i: nat, released: bool, work: Work, up: set<string>, chips: seq<Chip>)
    requires WorkFrom(work, chips) && (work.runs != [] ==> released)
    ensures Leads(RunWork(world, i, released, work, up).0, up,
                  up + if AllOk(world, i, work.scripts) then Launched(world, i, work.runs) else {})
  {
    ScriptsIdle(world, i, RootOf(released), work.scripts);
    RunsLaunch(world, i, work.runs, up);
    StartsLaunchNothing(world, i, work, up);
    HealthsIdle(world, i, work.healths);
    StagesLead(Scripts(world, i, RootOf(released), work.scripts), Turn(world, i, work.runs),
               Turn(world, i, ToStart(world, i, work, up)), Turn(world, i, work.healths),
               up, up + Launched(world, i, work.runs));
    RunsFollow(world, i, released, work, up);
  }

  lemma RunWaveRespects(host: Host, cmd: Command, world: World, i: nat, released: bool)
    requires i < |cmd.waves| && (released || !NeedsPost(cmd.waves[i]))
    ensures var tr := RunWave(host, cmd, world, i, released).0;
      && Respects(tr, Up(host, cmd, world, i))
      && UpAfter(tr, Up(host, cmd, world, i)) == Up(host, cmd, world, i + 1)
  {
    var tasks := cmd.waves[i];
    SortFrom(host, cmd, RootOf(released), tasks, NoWork, KnownChips(tasks));
    SortAllowed(host, cmd, RootOf(released), tasks, NoWork, released);
    LaunchedAsSorted(host, cmd, world, i, released);
    UpNext(host, cmd, world, i);
    var sorted := SortTasks(host, cmd, RootOf(released), tasks, NoWork);
    if sorted.Ready? {
      RunWorkRespects(world, i, released, sorted.work, Up(host, cmd, world, i), KnownChips(tasks));
    }
  }

  // ---- the whole run ----

  lemma ActivatedRespects(tr: seq<Event>, up: set<string>)
    requires Respects(tr, up)
    ensures Respects([Activated] + tr, up)
  {
    assert ([Activated] + tr)[1..] == tr;
  }

  lemma EndRespects(host: Host, cmd: Command, world: World, released: bool, failed: nat, up: set<string>)
    ensures Respects(RunFrom(host, cmd, world, |cmd.waves|, released, failed).0, up)
  {
    ActivatedRespects([], up);
    assert [Activated] + [] == [Activated];
  }

  lemma {:induction false} RunFromRespects(host: Host, cmd: Command, world: World, i: nat, released: bool, failed: nat)
    requires i <= |cmd.waves|
    ensures Respects(RunFrom(host, cmd, world, i, released, failed).0, Up(host, cmd, world, i))
    decreases |cmd.waves| - i, 1
  {
    if i == |cmd.waves| {
      EndRespects(host, cmd, world, released, failed, Up(host, cmd, world, i));
    } else if cmd.waves[i] == [] {
      RunFromRespects(host, cmd, world, i + 1, released, failed);
      EmptyWave(host, cmd, world, i, released, failed);
    } else if NeedsPost(cmd.waves[i]) && !released {
      WaveThenRestRespects(host, cmd, world, i, true, failed);
      ActivatedRespects(WaveThenRest(host, cmd, world, i, true, failed).0, Up(host, cmd, world, i));
    } else {
      WaveThenRestRespects(host, cmd, world, i, released, failed);
    }
  }

  lemma {:induction false} WaveThenRestRespects(host: Host, cmd: Command, world: World, i: nat, released: bool,
                                                failed: nat)
    requires i < |cmd.waves| && (released || !NeedsPost(cmd.waves[i]))
    ensures Respects(WaveThenRest(host, cmd, world, i, released, failed).0, Up(host, cmd, world, i))
    decreases |cmd.waves| - i, 0
  {
    var (events, why) := RunWave(host, cmd, world, i, released);
    var failed' := if why.Some? then failed + 1 else failed;
    RunWaveRespects(host, cmd, world, i, released);
    RunFromRespects(host, cmd, world, i + 1, released, failed');
    RespectsConcat(events, RunFrom(host, cmd, world, i + 1, released, failed').0, Up(host, cmd, world, i));
  }

  ghost predicate Relaunches(launch: Event, start: Event) {
    && launch.Ended? && launch.ok && launch.chip.phase.Run?
    && start.Began? && start.chip.phase.Start? && start.chip.owner == launch.chip.owner
  }

  lemma {:induction false} UpStays(tr: seq<Event>, up: set<string>, app: string, q: nat)
    requires Respects(tr, up) && app in up && q < |tr|
    ensures tr[q].Began? && tr[q].chip.phase.Start? ==> tr[q].chip.owner != app
  {
    if q > 0 {
      UpStays(tr[1..], UpNow(tr[0], up), app, q - 1);
    }
  }

  lemma {:induction false} NoRelaunch(tr: seq<Event>, up: set<string>, p: nat, q: nat)
    requires Respects(tr, up) && p < q < |tr|
    ensures !Relaunches(tr[p], tr[q])
  {
    if p > 0 {
      NoRelaunch(tr[1..], UpNow(tr[0], up), p - 1, q - 1);
    } else if tr[0].Ended? && tr[0].ok && tr[0].chip.phase.Run? {
      UpStays(tr[1..], UpNow(tr[0], up), tr[0].chip.owner, q - 1);
    }
  }

  /**
   * In every run of every flow, whatever fails and in whichever waves the tasks are: once a run task
   * has launched an app, no later start task launches it a second time.
   */
  lemma LaunchedOnce(host: Host, cmd: Command, world: World, p: nat, q: nat)
    requires p < q < |RunFlow(host, cmd, world).0|
    ensures !Relaunches(RunFlow(host, cmd, world).0[p], RunFlow(host, cmd, world).0[q])
  {
    RunFromRespects(host, cmd, world, 0, false, 0);
    NoRelaunch(RunFlow(host, cmd, world).0, Up(host, cmd, world, 0), p, q);
  }
}
