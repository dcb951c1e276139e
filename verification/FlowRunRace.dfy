/** The editor's check does not see races inside a wave: exactly which checked flows can run out of order. */
module FlowRunRace {
  import opened Seqs
  import opened FlowModel
  import opened FlowWire
  import opened RepairExact
  import opened FlowRun
  import opened FlowRunStages
  import opened FlowRunOrder

  /** Every task names an app of the command and a phase the agent knows. */
  ghost predicate Runnable(host: Host, cmd: Command) {
    cmd.apps != [] && forall i, root :: 0 <= i < |cmd.waves| ==> SortTasks(host, cmd, root, cmd.waves[i], NoWork).Ready?
  }

  /** A run in which everything succeeds and wave i starts job first, to its end, before job second. */
  function RaceWorld(i: nat, first: nat, second: nat): World {
    World(true, true, (_, _, _) => true, k => if k == i then [first, first, second] else [])
  }

  lemma {:induction false} SortSameRoot(host: Host, cmd: Command, tasks: seq<SpecTask>, work: Work, r: Root, r': Root)
    requires cmd.apps != []
    ensures SortTasks(host, cmd, r, tasks, work) == SortTasks(host, cmd, r', tasks, work)
    decreases tasks
  {
    if tasks == [] {
    } else {
      var app, p := FindApp(cmd.apps, tasks[0].app), PhaseOf(tasks[0]);
      if app.Some? && p.Some? {
        SortSameRoot(host, cmd, tasks[1..], AddTask(host, cmd, app.value, Chip(tasks[0].app, p.value), work), r, r');
      }
    }
  }

  /** Two script jobs of one app in different phases, the later phase listed at jd. */
  ghost predicate Races(jobs: seq<Chip>, jc: nat, jd: nat) {
    jc < |jobs| && jd < |jobs| && jobs[jc].owner == jobs[jd].owner && Rank(jobs[jc].phase) < Rank(jobs[jd].phase)
  }

  lemma RaceTrace(jobs: seq<Chip>, root: Root, ok: nat -> bool, jc: nat, jd: nat, more: seq<nat>)
      returns (rest: seq<Event>)
    requires Races(jobs, jc, jd)
    ensures Interleave(jobs, root, ok, [jd, jd, jc] + more, seq(|jobs|, _ => 0)) ==
      [Began(jobs[jd], root), Ended(jobs[jd], ok(jd)), Began(jobs[jc], root)] + rest
  {
    var at0: seq<nat> := seq(|jobs|, _ => 0);
    var at1 := at0[jd := 1];
    var at2 := at1[jd := 2];
    var p := [jd, jd, jc] + more;
    assert p[1..] == [jd, jc] + more && ([jd, jc] + more)[1..] == [jc] + more && ([jc] + more)[1..] == more;
    rest := Interleave(jobs, root, ok, more, at2[jc := 1]);
    assert Interleave(jobs, root, ok, [jc] + more, at2) == [Began(jobs[jc], root)] + rest;
    assert Interleave(jobs, root, ok, [jd, jc] + more, at1) ==
        [Ended(jobs[jd], ok(jd))] + ([Began(jobs[jc], root)] + rest);
  }

  lemma OutOfOrderStart(c: Chip, d: Chip, root: Root, ok: bool, rest: seq<Event>)
    requires c.owner == d.owner && Rank(c.phase) < Rank(d.phase)
    ensures !InOrder(Met([Began(d, root), Ended(d, ok), Began(c, root)] + rest))
  {
    var start := [Began(d, root), Ended(d, ok), Began(c, root)];
    MetConcat(start, rest);
    assert start[1..] == [Ended(d, ok), Began(c, root)] && start[1..][1..] == [Began(c, root)];
    assert Met([Began(c, root)]) == [c] + Met([]);
    assert Met(start) == [d, d, c];
    assert (Met(start) + Met(rest))[0] == d && (Met(start) + Met(rest))[2] == c;
  }

  lemma RaceWaveOutOfOrder(host: Host, cmd: Command, i: nat, released: bool, jc: nat, jd: nat)
    requires i < |cmd.waves| && (released || !NeedsPost(cmd.waves[i]))
    requires var sorted := SortTasks(host, cmd, RootOf(released), cmd.waves[i], NoWork);
      sorted.Ready? && Races(sorted.work.scripts, jc, jd)
    ensures !InOrder(Met(RunWave(host, cmd, RaceWorld(i, jd, jc), i, released).0))
  {
    var world, root := RaceWorld(i, jd, jc), RootOf(released);
    var work := SortTasks(host, cmd, root, cmd.waves[i], NoWork).work;
    var jobs := work.scripts;
    var rest := RaceTrace(jobs, root, Outcome(world, i, jobs), jc, jd, FinishPicks(|jobs|));
    OutOfOrderStart(jobs[jc], jobs[jd], root, Outcome(world, i, jobs)(jd), rest);
    var s, r := Scripts(world, i, root, jobs), Turn(world, i, work.runs);
    var up := Up(host, cmd, world, i);
    var t, h := Turn(world, i, ToStart(world, i, work, up)), Turn(world, i, work.healths);
    StaysOutOfOrder(s, r);
    StaysOutOfOrder(s + r, t);
    StaysOutOfOrder(s + r + t, h);
    RunWorkShape(world, i, released, work, up);
  }

  lemma StaysOutOfOrder(s: seq<Event>, more: seq<Event>)
    requires !InOrder(Met(s))
    ensures !InOrder(Met(s + more))
  {
    MetConcat(s, more);
    InOrderConcat(Met(s), Met(more));
  }

  lemma AllSucceed(host: Host, cmd: Command, i: nat, released: bool, k: nat, first: nat, second: nat)
    requires Runnable(host, cmd) && i < |cmd.waves| && (released || !NeedsPost(cmd.waves[i]))
    ensures RunWave(host, cmd, RaceWorld(k, first, second), i, released).1.None?
  {
    RunWaveStaged(host, cmd, RaceWorld(k, first, second), i, released);
  }

  /** When everything succeeds every wave is run: the trace of wave k is a stretch of the whole trace. */
  lemma {:induction false} Reached(host: Host, cmd: Command, k: nat, first: nat, second: nat, i: nat, released: bool)
      returns (pre: seq<Event>, post: seq<Event>, rel: bool)
    requires Runnable(host, cmd) && i <= k < |cmd.waves| && cmd.waves[k] != [] && OrderOk(Rest(cmd, i))
    ensures rel || !NeedsPost(cmd.waves[k])
    ensures RunFrom(host, cmd, RaceWorld(k, first, second), i, released, 0).0 ==
      pre + RunWave(host, cmd, RaceWorld(k, first, second), k, rel).0 + post
    decreases |cmd.waves| - i
  {
    var world := RaceWorld(k, first, second);
    RestStep(cmd, i);
    OrderOkStep(KnownChips(cmd.waves[i]), Rest(cmd, i + 1));
    if cmd.waves[i] == [] {
      pre, post, rel := Reached(host, cmd, k, first, second, i + 1, released);
    } else {
      var front, now := FirstWave(host, cmd, k, first, second, i, released);
      var events := RunWave(host, cmd, world, i, now).0;
      if i == k {
        pre, post, rel := front, RunFrom(host, cmd, world, i + 1, now, 0).0, now;
      } else {
        pre, post, rel := Reached(host, cmd, k, first, second, i + 1, now);
        Regroup(front + events, pre, RunWave(host, cmd, world, k, rel).0, post);
        pre := front + events + pre;
      }
    }
  }

  lemma FirstWave(host: Host, cmd: Command, k: nat, first: nat, second: nat, i: nat, released: bool)
      returns (front: seq<Event>, now: bool)
    requires Runnable(host, cmd) && i < |cmd.waves| && cmd.waves[i] != [] && !Mixed(KnownChips(cmd.waves[i]))
    ensures now || !NeedsPost(cmd.waves[i])
    ensures var world := RaceWorld(k, first, second);
      RunFrom(host, cmd, world, i, released, 0).0 ==
        front + RunWave(host, cmd, world, i, now).0 + RunFrom(host, cmd, world, i + 1, now, 0).0
  {
    MixedKnown(cmd.waves[i]);
    now := released || NeedsPost(cmd.waves[i]);
    front := if now && !released then [Activated] else [];
    AllSucceed(host, cmd, i, now, k, first, second);
    OneWave(host, cmd, RaceWorld(k, first, second), i, released);
  }

  lemma OneWave(host: Host, cmd: Command, world: World, i: nat, released: bool)
    requires i < |cmd.waves| && cmd.waves[i] != [] && world.swapOk &&
             !(NeedsPost(cmd.waves[i]) && NeedsPre(cmd.waves[i]))
    requires RunWave(host, cmd, world, i, released || NeedsPost(cmd.waves[i])).1.None?
    ensures var now := released || NeedsPost(cmd.waves[i]);
      RunFrom(host, cmd, world, i, released, 0).0 ==
        (if now && !released then [Activated] else []) + RunWave(host, cmd, world, i, now).0
        + RunFrom(host, cmd, world, i + 1, now, 0).0
  {
    var now := released || NeedsPost(cmd.waves[i]);
    WaveAndRest(host, cmd, world, i, now);
    MaybeActivate(host, cmd, world, i, released);
    Reassoc(if now && !released then [Activated] else [], RunWave(host, cmd, world, i, now).0,
            RunFrom(host, cmd, world, i + 1, now, 0).0);
  }

  lemma WaveAndRest(host: Host, cmd: Command, world: World, i: nat, now: bool)
    requires i < |cmd.waves| && RunWave(host, cmd, world, i, now).1.None?
    ensures WaveThenRest(host, cmd, world, i, now, 0).0 ==
      RunWave(host, cmd, world, i, now).0 + RunFrom(host, cmd, world, i + 1, now, 0).0
  {
  }

  lemma MaybeActivate(host: Host, cmd: Command, world: World, i: nat, released: bool)
    requires i < |cmd.waves| && cmd.waves[i] != [] && world.swapOk &&
             !(NeedsPost(cmd.waves[i]) && NeedsPre(cmd.waves[i]))
    ensures var now := released || NeedsPost(cmd.waves[i]);
      RunFrom(host, cmd, world, i, released, 0).0 ==
        (if now && !released then [Activated] else []) + WaveThenRest(host, cmd, world, i, now, 0).0
  {
  }

  lemma Regroup(a: seq<Event>, b: seq<Event>, c: seq<Event>, d: seq<Event>)
    ensures a + (b + c + d) == (a + b) + c + d
  {
  }

  lemma StretchInOrder(pre: seq<Event>, w: seq<Event>, post: seq<Event>)
    requires InOrder(Met(pre + w + post))
    ensures InOrder(Met(w))
  {
    MetConcat(pre + w, post);
    MetConcat(pre, w);
    InOrderConcat(Met(pre) + Met(w), Met(post));
    InOrderConcat(Met(pre), Met(w));
  }

  lemma RaceBreaksOrder(host: Host, cmd: Command, k: nat)
    requires OrderOk(PlanOf(cmd.waves)) && Runnable(host, cmd) && k < |cmd.waves| && !WaveRaceFree(host, cmd, k)
    ensures exists world :: !InOrder(Met(RunFlow(host, cmd, world).0))
  {
    var root :| SortTasks(host, cmd, root, cmd.waves[k], NoWork).Ready? &&
      !RaceFree(SortTasks(host, cmd, root, cmd.waves[k], NoWork).work.scripts);
    var jobs := SortTasks(host, cmd, root, cmd.waves[k], NoWork).work.scripts;
    var jc, jd := FindRace(jobs);
    assert cmd.waves[k] != [];
    assert cmd.waves[0..] == cmd.waves;
    var pre, post, rel := Reached(host, cmd, k, jd, jc, 0, false);
    SortSameRoot(host, cmd, cmd.waves[k], NoWork, root, RootOf(rel));
    RaceWaveOutOfOrder(host, cmd, k, rel, jc, jd);
    var world := RaceWorld(k, jd, jc);
    if InOrder(Met(RunFlow(host, cmd, world).0)) {
      StretchInOrder(pre, RunWave(host, cmd, world, k, rel).0, post);
      assert false;
    }
  }

  lemma FindRace(jobs: seq<Chip>) returns (jc: nat, jd: nat)
    requires !RaceFree(jobs)
    ensures Races(jobs, jc, jd)
  {
    var c, d :| c in jobs && d in jobs && c.owner == d.owner && IsScript(c.phase) && IsScript(d.phase) &&
        c.phase != d.phase;
    jc :| 0 <= jc < |jobs| && jobs[jc] == c;
    jd :| 0 <= jd < |jobs| && jobs[jd] == d;
    if Rank(c.phase) == Rank(d.phase) {
      RankInjective(c.phase, d.phase);
    }
    if Rank(c.phase) > Rank(d.phase) {
      jc, jd := jd, jc;
    }
  }

  /**
   * For a flow that passes the editor's check and names known apps and phases: every run of it
   * keeps every app's phases in order exactly when no wave starts two different script phases
   * of one app.
   */
  lemma RunsInOrderExact(host: Host, cmd: Command)
    requires OrderOk(PlanOf(cmd.waves)) && Runnable(host, cmd)
    ensures (forall world :: InOrder(Met(RunFlow(host, cmd, world).0))) <==> AllRaceFree(host, cmd)
  {
    if AllRaceFree(host, cmd) {
      forall world { RunsInOrder(host, cmd, world); }
    } else {
      var k :| 0 <= k < |cmd.waves| && !WaveRaceFree(host, cmd, k);
      RaceBreaksOrder(host, cmd, k);
    }
  }
}
