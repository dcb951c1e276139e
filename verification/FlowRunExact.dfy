/** What a whole run does and reports: how many waves it gets to, and where the release goes live. */
module FlowRunExact {
  import opened Seqs
  import opened Text
  import opened FlowRun
  import opened FlowRunReads
  import opened FlowRunStages

  type Run = (seq<Event>, Option<Failure>)

  /** Waves in a row: whether a failure ends it, which have no tasks, and what each does and reports. */
  datatype Walk = Walk(n: nat, continues: bool, empty: nat -> bool, wave: nat -> Run)

  ghost predicate FailsAt(w: Walk, i: nat) {
    !w.empty(i) && w.wave(i).1.Some?
  }

  /** Of all its waves the first e are run: all of them, or those up to the first one that fails. */
  ghost predicate GetsTo(w: Walk, e: nat) {
    && e <= w.n
    && (w.continues ==> e == w.n)
    && (!w.continues ==> forall j :: 0 <= j < e - 1 ==> !FailsAt(w, j))
    && (e < w.n ==> e > 0 && FailsAt(w, e - 1))
  }

  /** A failure ends it. */
  ghost predicate Stopped(w: Walk, e: nat) {
    !w.continues && e > 0 && FailsAt(w, e - 1)
  }

  /** What waves i up to m do. */
  ghost function Traces(w: Walk, i: nat, m: nat): seq<Event>
    decreases m - i
  {
    if i >= m then [] else (if w.empty(i) then [] else w.wave(i).0) + Traces(w, i + 1, m)
  }

  /** How many of waves i up to m fail. */
  ghost function Failing(w: Walk, i: nat, m: nat): nat
    decreases m - i
  {
    if i >= m then 0 else (if FailsAt(w, i) then 1 else 0) + Failing(w, i + 1, m)
  }

  /** From wave i, with so many failures behind it, the run goes on as the waves up to m say, and then ends so. */
  ghost predicate Steps(w: Walk, run: (nat, nat) -> Run, i: nat, failed: nat) {
    if w.empty(i) then run(i, failed) == run(i + 1, failed)
    else if FailsAt(w, i) && !w.continues then run(i, failed) == w.wave(i)
    else
      var next := run(i + 1, if FailsAt(w, i) then failed + 1 else failed);
      run(i, failed).0 == w.wave(i).0 + next.0 && run(i, failed).1 == next.1
  }

  ghost predicate Walks(w: Walk, run: (nat, nat) -> Run, i: nat, m: nat) {
    i <= m <= w.n && forall k: nat, failed: nat :: i <= k < m ==> Steps(w, run, k, failed)
  }

  lemma {:induction false} Walked(w: Walk, run: (nat, nat) -> Run, i: nat, m: nat, failed: nat, e: nat)
    requires Walks(w, run, i, m) && GetsTo(w, e) && (Stopped(w, e) ==> i < e)
    ensures if Stopped(w, e) && e <= m then run(i, failed) == (Traces(w, i, e), w.wave(e - 1).1)
            else
              var end := run(m, failed + Failing(w, i, m));
              run(i, failed).0 == Traces(w, i, m) + end.0 && run(i, failed).1 == end.1
    decreases m - i
  {
    if i < m {
      assert Steps(w, run, i, failed);
      if Stopped(w, e) && i == e - 1 {
        StopsHere(w, e);
      } else {
        var failed' := if FailsAt(w, i) then failed + 1 else failed;
        assert !(FailsAt(w, i) && !w.continues);
        Walked(w, run, i + 1, m, failed', e);
        if Stopped(w, e) && e <= m {
          assert run(i, failed).0 == (if w.empty(i) then [] else w.wave(i).0) + Traces(w, i + 1, e);
        } else {
          Reassoc(if w.empty(i) then [] else w.wave(i).0, Traces(w, i + 1, m),
                  run(m, failed + Failing(w, i, m)).0);
        }
      }
    }
  }

  lemma StopsHere(w: Walk, e: nat)
    requires e > 0 && !w.empty(e - 1)
    ensures Traces(w, e - 1, e) == w.wave(e - 1).0
  {
    assert Traces(w, e, e) == [];
  }

  /** Every walk gets somewhere, and nowhere else. */
  lemma {:induction false} GetsSomewhere(w: Walk, i: nat) returns (e: nat)
    requires i <= w.n && forall j :: 0 <= j < i ==> !FailsAt(w, j)
    ensures GetsTo(w, e)
    decreases w.n - i
  {
    if w.continues || i == w.n {
      e := w.n;
    } else if FailsAt(w, i) {
      e := i + 1;
    } else {
      e := GetsSomewhere(w, i + 1);
    }
  }

  lemma OneEnd(w: Walk, e: nat, e': nat)
    requires GetsTo(w, e) && GetsTo(w, e')
    ensures e == e'
  {
    NoFurther(w, e, e');
    NoFurther(w, e', e);
  }

  lemma NoFurther(w: Walk, e: nat, e': nat)
    requires GetsTo(w, e) && GetsTo(w, e')
    ensures e' <= e
  {
    assert e < w.n ==> e > 0 && FailsAt(w, e - 1) && !w.continues;
  }

  lemma {:induction false} FailingParts(w: Walk, i: nat, p: nat, m: nat)
    requires i <= p <= m
    ensures Failing(w, i, p) + Failing(w, p, m) == Failing(w, i, m)
    decreases p - i
  {
    if i < p {
      FailingParts(w, i + 1, p, m);
    }
  }

  // ---- a run in two parts ----

  /** At wave p: either this is reported there, or the release goes live and the second run takes over. */
  ghost predicate Turns(before: (nat, nat) -> Run, after: (nat, nat) -> Run, p: nat, gate: Option<Failure>) {
    forall failed: nat ::
      if gate.Some? then before(p, failed) == ([], gate)
      else before(p, failed).0 == [Activated] + after(p, failed).0 && before(p, failed).1 == after(p, failed).1
  }

  ghost predicate Ends(run: (nat, nat) -> Run, n: nat, report: nat -> Option<Failure>) {
    forall failed: nat :: run(n, failed) == ([], report(failed))
  }

  /** What a walk that goes live before wave p and gets to wave e does and reports. */
  ghost predicate Does(w: Walk, p: nat, e: nat, gate: Option<Failure>, report: nat -> Option<Failure>, run: Run) {
    if Stopped(w, e) && e <= p then run == (Traces(w, 0, e), w.wave(e - 1).1)
    else if gate.Some? then run == (Traces(w, 0, p), gate)
    else if Stopped(w, e) then run == (Traces(w, 0, p) + ([Activated] + Traces(w, p, e)), w.wave(e - 1).1)
    else run == (Traces(w, 0, p) + ([Activated] + Traces(w, p, w.n)), report(Failing(w, 0, w.n)))
  }

  lemma BothParts(w: Walk, before: (nat, nat) -> Run, after: (nat, nat) -> Run, p: nat, e: nat,
                  gate: Option<Failure>, report: nat -> Option<Failure>)
    requires Walks(w, before, 0, p) && Walks(w, after, p, w.n) && GetsTo(w, e)
    requires Turns(before, after, p, gate) && Ends(after, w.n, report)
    ensures Does(w, p, e, gate, report, before(0, 0))
  {
    Walked(w, before, 0, p, 0, e);
    FailingParts(w, 0, p, w.n);
    if !(Stopped(w, e) && e <= p) && gate.None? {
      Walked(w, after, p, w.n, Failing(w, 0, p), e);
      assert Traces(w, p, w.n) + [] == Traces(w, p, w.n);
    }
    assert Traces(w, 0, p) + [] == Traces(w, 0, p);
  }

  // ---- the agent's waves ----

  ghost predicate Continues(cmd: Command) {
    SpellsContinue(Trim(cmd.onWaveFailure))
  }

  /** The waves of a command, the release going live before wave p. */
  ghost function WavesOf(host: Host, cmd: Command, world: World, p: nat): Walk {
    Walk(|cmd.waves|, Continues(cmd), (i: nat) => i >= |cmd.waves| || cmd.waves[i] == [],
         (i: nat) => if i < |cmd.waves| then RunWave(host, cmd, world, i, i >= p) else ([], None))
  }

  ghost function RunOf(host: Host, cmd: Command, world: World, released: bool): (nat, nat) -> Run {
    (i: nat, failed: nat) =>
      if i <= |cmd.waves| then RunFrom(host, cmd, world, i, released, failed) else ([], None)
  }

  lemma WaveIs(host: Host, cmd: Command, world: World, p: nat, i: nat, released: bool)
    requires i < |cmd.waves| && released == (i >= p)
    ensures var w := WavesOf(host, cmd, world, p);
      w.wave(i) == RunWave(host, cmd, world, i, released) && w.empty(i) == (cmd.waves[i] == [])
  {
  }

  lemma RunIs(host: Host, cmd: Command, world: World, released: bool, i: nat, failed: nat)
    requires i <= |cmd.waves|
    ensures RunOf(host, cmd, world, released)(i, failed) == RunFrom(host, cmd, world, i, released, failed)
  {
  }

  lemma OneStep(w: Walk, run: (nat, nat) -> Run, i: nat, failed: nat, here: Run, wave: Run, next: Run)
    requires run(i, failed) == here && w.wave(i) == wave
    requires run(i + 1, if FailsAt(w, i) then failed + 1 else failed) == next
    requires if w.empty(i) then here == next
             else if wave.1.Some? && !w.continues then here == wave
             else here.0 == wave.0 + next.0 && here.1 == next.1
    ensures Steps(w, run, i, failed)
  {
  }

  lemma StepsAt(host: Host, cmd: Command, world: World, p: nat, i: nat, failed: nat, released: bool)
    requires i < |cmd.waves| && released == (i >= p) && (released || !NeedsPost(cmd.waves[i]))
    ensures Steps(WavesOf(host, cmd, world, p), RunOf(host, cmd, world, released), i, failed)
  {
    var w := WavesOf(host, cmd, world, p);
    var failed' := if FailsAt(w, i) then failed + 1 else failed;
    PolicyText(cmd);
    StepIs(host, cmd, world, i, released, failed);
    WaveIs(host, cmd, world, p, i, released);
    RunIs(host, cmd, world, released, i, failed);
    RunIs(host, cmd, world, released, i + 1, failed');
    OneStep(w, RunOf(host, cmd, world, released), i, failed, RunFrom(host, cmd, world, i, released, failed),
            RunWave(host, cmd, world, i, released), RunFrom(host, cmd, world, i + 1, released, failed'));
  }

  lemma StepIs(host: Host, cmd: Command, world: World, i: nat, released: bool, failed: nat)
    requires i < |cmd.waves| && (released || !NeedsPost(cmd.waves[i]))
    ensures var (w, run) := (RunWave(host, cmd, world, i, released), RunFrom(host, cmd, world, i, released, failed));
      if cmd.waves[i] == [] then run == RunFrom(host, cmd, world, i + 1, released, failed)
      else if w.1.Some? && !ContinueOnFail(cmd) then run == w
      else
        var next := RunFrom(host, cmd, world, i + 1, released, if w.1.Some? then failed + 1 else failed);
        run.0 == w.0 + next.0 && run.1 == next.1
  {
  }

  /** What is reported at the end: the process managers that were not kept first, then how many waves failed. */
  ghost function Reported(world: World, failing: nat): Option<Failure> {
    if !world.persistOk then Some(PersistFailed) else if failing > 0 then Some(WavesFailed(failing)) else None
  }

  /** Why the release cannot go live before wave p, or at the end. */
  ghost function Gate(cmd: Command, world: World, p: nat): Option<Failure> {
    if p < |cmd.waves| && NeedsPre(cmd.waves[p]) then Some(MixedWave(p))
    else if !world.swapOk then Some(SwapFailed)
    else None
  }

  lemma AtActivation(host: Host, cmd: Command, world: World, failed: nat)
    ensures var p := PostFrom(cmd, 0); var (tr, why) := RunFrom(host, cmd, world, p, false, failed);
      if Gate(cmd, world, p).Some? then tr == [] && why == Gate(cmd, world, p)
      else
        var live := RunFrom(host, cmd, world, p, true, failed);
        tr == [Activated] + live.0 && why == live.1
  {
  }

  lemma TurnsAt(host: Host, cmd: Command, world: World)
    ensures var p := PostFrom(cmd, 0);
      Turns(RunOf(host, cmd, world, false), RunOf(host, cmd, world, true), p, Gate(cmd, world, p))
  {
    forall failed: nat {
      AtActivation(host, cmd, world, failed);
    }
  }

  lemma EndsWith(host: Host, cmd: Command, world: World)
    ensures Ends(RunOf(host, cmd, world, true), |cmd.waves|, (failing: nat) => Reported(world, failing))
  {
  }

  lemma WalksBefore(host: Host, cmd: Command, world: World)
    ensures var p := PostFrom(cmd, 0); Walks(WavesOf(host, cmd, world, p), RunOf(host, cmd, world, false), 0, p)
  {
    var p := PostFrom(cmd, 0);
    forall k: nat, failed: nat | k < p
      ensures Steps(WavesOf(host, cmd, world, p), RunOf(host, cmd, world, false), k, failed)
    {
      StepsAt(host, cmd, world, p, k, failed, false);
    }
  }

  lemma WalksAfter(host: Host, cmd: Command, world: World, p: nat)
    requires p <= |cmd.waves|
    ensures Walks(WavesOf(host, cmd, world, p), RunOf(host, cmd, world, true), p, |cmd.waves|)
  {
    forall k: nat, failed: nat | p <= k < |cmd.waves|
      ensures Steps(WavesOf(host, cmd, world, p), RunOf(host, cmd, world, true), k, failed)
    {
      StepsAt(host, cmd, world, p, k, failed, true);
    }
  }

  /**
   * Every run, whatever fails in it. Under "continue" all waves are run, else those up to the first one
   * that fails, whose failure is reported. The release goes live before the first wave that needs it,
   * or at the end, if the run gets there, the wave is not mixed and the link can be moved.
   */
  lemma RunExact(host: Host, cmd: Command, world: World, e: nat)
    requires GetsTo(WavesOf(host, cmd, world, PostFrom(cmd, 0)), e)
    ensures var p := PostFrom(cmd, 0);
      Does(WavesOf(host, cmd, world, p), p, e, Gate(cmd, world, p), (failing: nat) => Reported(world, failing),
           RunFlow(host, cmd, world))
  {
    var p := PostFrom(cmd, 0);
    WalksBefore(host, cmd, world);
    WalksAfter(host, cmd, world, p);
    TurnsAt(host, cmd, world);
    EndsWith(host, cmd, world);
    BothParts(WavesOf(host, cmd, world, p), RunOf(host, cmd, world, false), RunOf(host, cmd, world, true), p, e,
              Gate(cmd, world, p), (failing: nat) => Reported(world, failing));
  }

  lemma {:induction false} NoneFailing(w: Walk, i: nat, m: nat)
    ensures Failing(w, i, m) == 0 <==> forall k: nat :: i <= k < m ==> !FailsAt(w, k)
    decreases m - i
  {
    if i < m {
      NoneFailing(w, i + 1, m);
    }
  }

  lemma NoReport(w: Walk, p: nat, e: nat, gate: Option<Failure>, world: World, run: Run)
    requires GetsTo(w, e) && Does(w, p, e, gate, (failing: nat) => Reported(world, failing), run)
    ensures run.1.None? <==> gate.None? && world.persistOk && forall i :: 0 <= i < w.n ==> !FailsAt(w, i)
  {
    NoneFailing(w, 0, w.n);
  }

  /** A run succeeds exactly if no wave fails, the release goes live and the process managers are kept. */
  lemma SucceedsExact(host: Host, cmd: Command, world: World)
    ensures var p := PostFrom(cmd, 0); var w := WavesOf(host, cmd, world, p);
      RunFlow(host, cmd, world).1.None? <==>
        Gate(cmd, world, p).None? && world.persistOk && forall i :: 0 <= i < w.n ==> !FailsAt(w, i)
  {
    var p := PostFrom(cmd, 0);
    var w := WavesOf(host, cmd, world, p);
    var e := GetsSomewhere(w, 0);
    RunExact(host, cmd, world, e);
    NoReport(w, p, e, Gate(cmd, world, p), world, RunFlow(host, cmd, world));
  }
}
