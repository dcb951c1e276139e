/** The agent's flow loop as it is written: state updated wave by wave, effects in order. */
module FlowRunner {
  import opened Seqs
  import opened FlowModel
  import opened FlowWire
  import opened FlowRun
  import opened FlowRunStages

  class Runner {
    /** Everything the run has done so far. */
    var trace: seq<Event>
    var released: bool
    /** The apps a run task has launched. */
    var launched: set<string>

    constructor ()
      ensures trace == [] && !released && launched == {}
    {
      trace, released, launched := [], false, {};
    }

    /** Starts all jobs at once and waits for all of them: one failure does not stop the others. */
    method RunAppScripts(world: World, i: nat, root: Root, jobs: seq<Chip>) returns (ok: bool)
      modifies this`trace
      ensures trace == old(trace) + Scripts(world, i, root, jobs)
      ensures ok == AllOk(world, i, jobs)
    {
      var at: seq<nat> := seq(|jobs|, _ => 0);
      var picks := world.picks(i) + FinishPicks(|jobs|);
      var outcome := Outcome(world, i, jobs);
      for k := 0 to |picks|
        invariant |at| == |jobs|
        invariant old(trace) + Scripts(world, i, root, jobs) == trace + Interleave(jobs, root, outcome, picks[k..], at)
      {
        var j := picks[k];
        assert picks[k..][1..] == picks[k + 1..];
        if j < |jobs| && at[j] < 2 {
          trace := trace + [if at[j] == 0 then Began(jobs[j], root) else Ended(jobs[j], outcome(j))];
          at := at[j := at[j] + 1];
        }
      }
      ok := forall k :: 0 <= k < |jobs| ==> world.succeeds(i, jobs[k], k);
    }

    /** Launches apps one after the other, noting those that came up; a failure does not skip the next. */
    method RunApps(world: World, i: nat, jobs: seq<Chip>) returns (ok: bool)
      modifies this`trace, this`launched
      ensures trace == old(trace) + Turn(world, i, jobs)
      ensures launched == old(launched) + Launched(world, i, jobs)
      ensures ok == AllOk(world, i, jobs)
    {
      ok := true;
      var outcome := Outcome(world, i, jobs);
      for k := 0 to |jobs|
        invariant old(trace) + Turn(world, i, jobs) == trace + InTurn(jobs, outcome, k)
        invariant launched == old(launched) + LaunchedTo(world, i, jobs, k)
        invariant ok == forall m :: 0 <= m < k ==> world.succeeds(i, jobs[m], m)
      {
        trace := trace + [Began(jobs[k], Current), Ended(jobs[k], outcome(k))];
        LaunchedNext(world, i, jobs, k);
        if world.succeeds(i, jobs[k], k) {
          launched := launched + {jobs[k].owner};
        } else {
          ok := false;
        }
      }
    }

    /** Starts the apps that no run task has launched; a failure does not skip the next. */
    method StartApps(world: World, i: nat, jobs: seq<Chip>, ghost down: seq<Chip>) returns (ok: bool)
      requires down == Filter(jobs, Down(launched))
      modifies this`trace
      ensures trace == old(trace) + Turn(world, i, down) && ok == AllOk(world, i, down)
    {
      ok := true;
      var n := 0;
      ghost var places := PlacesOf(jobs, launched);
      TurnStart(trace, world, i, down);
      for k := 0 to |jobs|
        invariant n == places[k] <= |down| && TurnedTo(old(trace), trace, world, i, down, n)
        invariant ok == forall m :: 0 <= m < n ==> world.succeeds(i, down[m], m)
      {
        assert Placed(jobs, launched, down, places, k);
        if jobs[k].owner !in launched {
          var started := world.succeeds(i, jobs[k], n);
          TurnNext(old(trace), trace, world, i, down, n, jobs[k], started);
          trace := trace + [Began(jobs[k], Current), Ended(jobs[k], started)];
          ok, n := ok && started, n + 1;
        }
      }
      TurnEnd(old(trace), trace, world, i, down);
    }

    /** Probes apps one after the other; a failure does not skip the next. */
    method CheckHealth(world: World, i: nat, jobs: seq<Chip>) returns (ok: bool)
      modifies this`trace
      ensures trace == old(trace) + Turn(world, i, jobs)
      ensures ok == AllOk(world, i, jobs)
    {
      ok := true;
      var outcome := Outcome(world, i, jobs);
      for k := 0 to |jobs|
        invariant old(trace) + Turn(world, i, jobs) == trace + InTurn(jobs, outcome, k)
        invariant ok == forall m :: 0 <= m < k ==> world.succeeds(i, jobs[m], m)
      {
        trace := trace + [Began(jobs[k], Current), Ended(jobs[k], outcome(k))];
        ok := ok && world.succeeds(i, jobs[k], k);
      }
    }

    method RunFlowWave(host: Host, cmd: Command, world: World, i: nat) returns (why: Option<Failure>)
      requires i < |cmd.waves| && launched == Up(host, cmd, world, i)
      modifies this`trace, this`launched
      ensures trace == old(trace) + RunWave(host, cmd, world, i, released).0
      ensures why == RunWave(host, cmd, world, i, released).1
      ensures released || !NeedsPost(cmd.waves[i]) ==> launched == Up(host, cmd, world, i + 1)
    {
      var sorted := SortWave(host, cmd, RootOf(released), cmd.waves[i]);
      UpNext(host, cmd, world, i);
      if released || !NeedsPost(cmd.waves[i]) {
        LaunchedAsSorted(host, cmd, world, i, released);
      }
      match sorted
      case Rejected(reason) =>
        why := Some(reason);
      case Ready(work) =>
        why := RunStages(world, i, work);
    }

    method SortWave(host: Host, cmd: Command, root: Root, tasks: seq<SpecTask>) returns (sorted: Sorted)
      ensures sorted == SortTasks(host, cmd, root, tasks, NoWork)
    {
      var apps := AppsOf(host, cmd, root);
      var work := NoWork;
      for k := 0 to |tasks|
        invariant SortTasks(host, cmd, root, tasks, NoWork) == SortTasks(host, cmd, root, tasks[k..], work)
      {
        assert tasks[k..][1..] == tasks[k + 1..];
        var app := FindApp(apps, tasks[k].app);
        if app.None? {
          return Rejected(UnknownApp(tasks[k].app));
        }
        var p := PhaseOf(tasks[k]);
        if p.None? {
          return Rejected(UnknownPhase(tasks[k].phase));
        }
        work := AddTask(host, cmd, app.value, Chip(tasks[k].app, p.value), work);
      }
      return Ready(work);
    }

    method RunStages(world: World, i: nat, work: Work) returns (why: Option<Failure>)
      modifies this`trace, this`launched
      ensures trace == old(trace) + RunWork(world, i, released, work, old(launched)).0
      ensures why == RunWork(world, i, released, work, old(launched)).1
      ensures launched == old(launched) +
                          if AllOk(world, i, work.scripts) && released then Launched(world, i, work.runs) else {}
    {
      ghost var starts := ToStart(world, i, work, launched);
      StageTraces(trace, Scripts(world, i, RootOf(released), work.scripts), Turn(world, i, work.runs),
                  Turn(world, i, starts), Turn(world, i, work.healths));
      var ok := RunAppScripts(world, i, RootOf(released), work.scripts);
      if !ok {
        return Some(ScriptsFailed);
      }
      if work.runs != [] && !released {
        return Some(RunNeedsRelease);
      }
      ok := RunApps(world, i, work.runs);
      if !ok {
        return Some(RunFailed);
      }
      if work.starts != [] && !released {
        return Some(StartNeedsRelease);
      }
      assert Filter(work.starts, Down(launched)) == starts;
      ok := StartApps(world, i, work.starts, starts);
      if !ok {
        return Some(StartFailed);
      }
      ok := CheckHealth(world, i, work.healths);
      if !ok {
        return Some(HealthFailed);
      }
      return None;
    }

    method Swap(world: World) returns (ok: bool)
      modifies this`trace, this`released
      ensures ok == world.swapOk
      ensures if ok then trace == old(trace) + [Activated] && released
              else trace == old(trace) && released == old(released)
    {
      ok := world.swapOk;
      if ok {
        trace, released := trace + [Activated], true;
      }
    }

    /** Moves the release into place before the first wave that needs it; such a wave must not also prepare releases. */
    method ActivateFor(cmd: Command, world: World, i: nat) returns (why: Option<Failure>)
      requires i < |cmd.waves|
      modifies this`trace, this`released
      ensures released == (old(released) || (NeedsPost(cmd.waves[i]) && why.None?))
      ensures trace == old(trace) + if released && !old(released) then [Activated] else []
      ensures why == if !NeedsPost(cmd.waves[i]) || old(released) then None
                     else if NeedsPre(cmd.waves[i]) then Some(FlowRun.MixedWave(i))
                     else if !world.swapOk then Some(SwapFailed)
                     else None
    {
      why := None;
      if NeedsPost(cmd.waves[i]) && !released {
        if NeedsPre(cmd.waves[i]) {
          return Some(FlowRun.MixedWave(i));
        }
        var swapped := Swap(world);
        if !swapped {
          return Some(SwapFailed);
        }
      }
    }

    /** One turn of the loop over a wave with tasks. */
    method RunNextWave(host: Host, cmd: Command, world: World, i: nat, failedSoFar: nat)
        returns (stop: bool, why: Option<Failure>, failed: nat)
      requires i < |cmd.waves| && cmd.waves[i] != [] && launched == Up(host, cmd, world, i)
      modifies this
      ensures !stop ==> launched == Up(host, cmd, world, i + 1)
      ensures var whole := RunFrom(host, cmd, world, i, old(released), failedSoFar);
        if stop then
          trace == old(trace) + whole.0 && why == whole.1 && why.Some?
        else
          var rest := RunFrom(host, cmd, world, i + 1, released, failed);
          trace + rest.0 == old(trace) + whole.0 && rest.1 == whole.1
    {
      failed := failedSoFar;
      why := ActivateFor(cmd, world, i);
      if why.Some? {
        return true, why, failed;
      }
      why := RunFlowWave(host, cmd, world, i);
      WaveRun(host, cmd, world, i, old(released), failedSoFar, old(trace), trace);
      if why.Some? && !ContinueOnFail(cmd) {
        return true, why, failed;
      }
      failed := if why.Some? then failed + 1 else failed;
      stop := false;
    }

    /** Before wave i, what the run still has to do completes it to `whole`. */
    ghost predicate OnCourse(whole: (seq<Event>, Option<Failure>), host: Host, cmd: Command, world: World,
                             i: nat, failed: nat)
      requires i <= |cmd.waves|
      reads this
    {
      && launched == Up(host, cmd, world, i)
      && whole.0 == trace + RunFrom(host, cmd, world, i, released, failed).0
      && whole.1 == RunFrom(host, cmd, world, i, released, failed).1
    }

    /** After the last wave: the release is moved into place if no wave needed it. */
    method FinishFlow(host: Host, cmd: Command, world: World, failed: nat, ghost whole: (seq<Event>, Option<Failure>))
        returns (why: Option<Failure>)
      requires OnCourse(whole, host, cmd, world, |cmd.waves|, failed)
      modifies this`trace, this`released
      ensures trace == whole.0 && why == whole.1 && (why.None? ==> released)
    {
      if !released {
        var swapped := Swap(world);
        if !swapped {
          return Some(SwapFailed);
        }
      }
      if !world.persistOk {
        return Some(PersistFailed);
      }
      why := if failed > 0 then Some(WavesFailed(failed)) else None;
    }

    /** One turn of the loop, over any wave. */
    method RunTurn(host: Host, cmd: Command, world: World, i: nat, failedSoFar: nat,
                   ghost whole: (seq<Event>, Option<Failure>))
        returns (stop: bool, why: Option<Failure>, failed: nat)
      requires i < |cmd.waves| && OnCourse(whole, host, cmd, world, i, failedSoFar)
      modifies this
      ensures if stop then trace == whole.0 && why == whole.1 && why.Some?
              else OnCourse(whole, host, cmd, world, i + 1, failed)
    {
      if cmd.waves[i] == [] {
        EmptyWave(host, cmd, world, i, released, failedSoFar);
        return false, None, failedSoFar;
      }
      stop, why, failed := RunNextWave(host, cmd, world, i, failedSoFar);
    }

    method RunTurns(host: Host, cmd: Command, world: World, ghost whole: (seq<Event>, Option<Failure>))
        returns (why: Option<Failure>)
      requires OnCourse(whole, host, cmd, world, 0, 0)
      modifies this
      ensures trace == whole.0 && why == whole.1 && (why.None? ==> released)
    {
      var failed: nat := 0;
      for i := 0 to |cmd.waves|
        invariant OnCourse(whole, host, cmd, world, i, failed)
      {
        var stop;
        stop, why, failed := RunTurn(host, cmd, world, i, failed, whole);
        if stop {
          return;
        }
      }
      why := FinishFlow(host, cmd, world, failed, whole);
    }

    /** The whole flow does exactly what RunFlow says, for every host, command and world. */
    method RunDeployFlow(host: Host, cmd: Command, world: World) returns (why: Option<Failure>)
      requires trace == [] && !released && launched == {}
      modifies this
      ensures trace == RunFlow(host, cmd, world).0 && why == RunFlow(host, cmd, world).1
      ensures why.None? ==> released
    {
      FromNothing(RunFlow(host, cmd, world).0);
      why := RunTurns(host, cmd, world, RunFlow(host, cmd, world));
    }
  }

  lemma FromNothing(events: seq<Event>)
    ensures [] + events == events
  {
  }

  /** The first n jobs have had their turn. */
  ghost predicate TurnedTo(before: seq<Event>, now: seq<Event>, world: World, i: nat, jobs: seq<Chip>, n: nat) {
    n <= |jobs| && before + Turn(world, i, jobs) == now + InTurn(jobs, Outcome(world, i, jobs), n)
  }

  lemma TurnStart(before: seq<Event>, world: World, i: nat, jobs: seq<Chip>)
    ensures TurnedTo(before, before, world, i, jobs, 0)
  {
  }

  lemma TurnNext(before: seq<Event>, now: seq<Event>, world: World, i: nat, jobs: seq<Chip>, n: nat,
                 job: Chip, ok: bool)
    requires TurnedTo(before, now, world, i, jobs, n) && n < |jobs|
    requires job == jobs[n] && ok == world.succeeds(i, job, n)
    ensures TurnedTo(before, now + [Began(job, Current), Ended(job, ok)], world, i, jobs, n + 1)
  {
    Reassoc(now, [Began(job, Current), Ended(job, ok)], InTurn(jobs, Outcome(world, i, jobs), n + 1));
  }

  lemma TurnEnd(before: seq<Event>, now: seq<Event>, world: World, i: nat, jobs: seq<Chip>)
    requires TurnedTo(before, now, world, i, jobs, |jobs|)
    ensures now == before + Turn(world, i, jobs)
  {
  }

  /** Job k, unless its app is up, is where places[k] says among those that are down. */
  ghost predicate Placed(jobs: seq<Chip>, up: set<string>, down: seq<Chip>, places: seq<nat>, k: nat)
    requires k < |jobs| && |places| == |jobs| + 1
  {
    if jobs[k].owner in up then places[k + 1] == places[k]
    else places[k] < |down| && down[places[k]] == jobs[k] && places[k + 1] == places[k] + 1
  }

  lemma {:induction false} PlacesOf(jobs: seq<Chip>, up: set<string>) returns (places: seq<nat>)
    ensures |places| == |jobs| + 1 && places[0] == 0 && places[|jobs|] == |Filter(jobs, Down(up))|
    ensures forall k :: 0 <= k < |jobs| ==> Placed(jobs, up, Filter(jobs, Down(up)), places, k)
  {
    if jobs == [] {
      places := [0];
    } else {
      var n := |jobs| - 1;
      var front := jobs[..n];
      var before := PlacesOf(front, up);
      assert front + [jobs[n]] == jobs;
      DownOne(front, jobs[n], up);
      places := OneMorePlace(front, jobs[n], up, Filter(front, Down(up)), before);
    }
  }

  lemma OneMorePlace(front: seq<Chip>, c: Chip, up: set<string>, down: seq<Chip>, before: seq<nat>)
      returns (places: seq<nat>)
    requires |before| == |front| + 1 && before[0] == 0 && before[|front|] == |down|
    requires forall k :: 0 <= k < |front| ==> Placed(front, up, down, before, k)
    ensures var down' := down + if c.owner in up then [] else [c];
      && |places| == |front| + 2 && places[0] == 0 && places[|front| + 1] == |down'|
      && forall k :: 0 <= k < |front| + 1 ==> Placed(front + [c], up, down', places, k)
  {
    var more: seq<Chip> := if c.owner in up then [] else [c];
    places := before + [|down| + |more|];
    forall k | 0 <= k < |front| + 1 ensures Placed(front + [c], up, down + more, places, k) {
      if k < |front| {
        assert Placed(front, up, down, before, k);
      }
    }
  }

  lemma DownOne(front: seq<Chip>, c: Chip, up: set<string>)
    ensures Filter(front + [c], Down(up)) == Filter(front, Down(up)) + if c.owner in up then [] else [c]
  {
    FilterConcat(front, [c], Down(up));
    FilterOne(c, Down(up));
  }

  lemma StageTraces(before: seq<Event>, s: seq<Event>, r: seq<Event>, t: seq<Event>, h: seq<Event>)
    ensures before + s + r == before + (s + r)
    ensures before + s + r + t == before + (s + r + t)
    ensures before + s + r + t + h == before + (s + r + t + h)
  {
  }

  /** The apps among jobs[..k] that came up. */
  function LaunchedTo(world: World, i: nat, jobs: seq<Chip>, k: nat): set<string>
    requires k <= |jobs|
  {
    set m | 0 <= m < k && world.succeeds(i, jobs[m], m) :: jobs[m].owner
  }

  lemma LaunchedNext(world: World, i: nat, jobs: seq<Chip>, k: nat)
    requires k < |jobs|
    ensures LaunchedTo(world, i, jobs, k + 1) ==
            LaunchedTo(world, i, jobs, k) + if world.succeeds(i, jobs[k], k) then {jobs[k].owner} else {}
  {
  }

  /** What one wave contributes to the whole run, activation included. */
  lemma WaveRun(host: Host, cmd: Command, world: World, i: nat, released: bool, failed: nat, before: seq<Event>,
                after: seq<Event>)
    requires i < |cmd.waves| && cmd.waves[i] != []
    requires NeedsPost(cmd.waves[i]) && !released ==> !NeedsPre(cmd.waves[i]) && world.swapOk
    requires var now := released || NeedsPost(cmd.waves[i]);
      after == before + (if now && !released then [Activated] else []) + RunWave(host, cmd, world, i, now).0
    ensures var now := released || NeedsPost(cmd.waves[i]);
      var why := RunWave(host, cmd, world, i, now).1;
      var whole := RunFrom(host, cmd, world, i, released, failed);
      if why.Some? && !ContinueOnFail(cmd) then
        after == before + whole.0 && why == whole.1
      else
        var rest := RunFrom(host, cmd, world, i + 1, now, if why.Some? then failed + 1 else failed);
        after + rest.0 == before + whole.0 && rest.1 == whole.1
  {
    var now := released || NeedsPost(cmd.waves[i]);
    var front := if now && !released then [Activated] else [];
    var then' := WaveThenRest(host, cmd, world, i, now, failed);
    FromWave(host, cmd, world, i, released, failed);
    Stretch(host, cmd, world, i, now, failed, before + front, after);
    Reassoc(before, front, then'.0);
  }

  lemma Stretch(host: Host, cmd: Command, world: World, i: nat, now: bool, failed: nat, before: seq<Event>,
                after: seq<Event>)
    requires i < |cmd.waves| && after == before + RunWave(host, cmd, world, i, now).0
    ensures var why := RunWave(host, cmd, world, i, now).1;
      var whole := WaveThenRest(host, cmd, world, i, now, failed);
      if why.Some? && !ContinueOnFail(cmd) then
        after == before + whole.0 && why == whole.1
      else
        var rest := RunFrom(host, cmd, world, i + 1, now, if why.Some? then failed + 1 else failed);
        after + rest.0 == before + whole.0 && rest.1 == whole.1
  {
    var (events, why) := RunWave(host, cmd, world, i, now);
    ThenRest(host, cmd, world, i, now, failed);
    if why.None? || ContinueOnFail(cmd) {
      var rest := RunFrom(host, cmd, world, i + 1, now, if why.Some? then failed + 1 else failed).0;
      Reassoc(before, events, rest);
    }
  }

  lemma FromWave(host: Host, cmd: Command, world: World, i: nat, released: bool, failed: nat)
    requires i < |cmd.waves| && cmd.waves[i] != []
    requires NeedsPost(cmd.waves[i]) && !released ==> !NeedsPre(cmd.waves[i]) && world.swapOk
    ensures var activates := NeedsPost(cmd.waves[i]) && !released;
      && RunFrom(host, cmd, world, i, released, failed).0 ==
           (if activates then [Activated] else []) + WaveThenRest(host, cmd, world, i, released || activates, failed).0
      && RunFrom(host, cmd, world, i, released, failed).1 ==
          WaveThenRest(host, cmd, world, i, released || activates, failed).1
  {
  }

  lemma ThenRest(host: Host, cmd: Command, world: World, i: nat, released: bool, failed: nat)
    requires i < |cmd.waves|
    ensures var (events, why) := RunWave(host, cmd, world, i, released);
      var failed' := if why.Some? then failed + 1 else failed;
      if why.Some? && !ContinueOnFail(cmd) then
        WaveThenRest(host, cmd, world, i, released, failed) == (events, why)
      else
        && WaveThenRest(host, cmd, world, i, released, failed).0 ==
            events + RunFrom(host, cmd, world, i + 1, released, failed').0
        && WaveThenRest(host, cmd, world, i, released, failed).1 ==
            RunFrom(host, cmd, world, i + 1, released, failed').1
  {
  }
}
