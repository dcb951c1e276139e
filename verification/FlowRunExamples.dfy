/** Two commands of one app that do not run as one would expect. */
module FlowRunExamples {
  import opened Seqs
  import opened Text
  import opened Chunks
  import opened ScriptSplit
  import opened FlowModel
  import opened FlowWire
  import opened FlowRun
  import opened FlowRunOrder
  import opened FlowRunReads
  import opened FlowRunRace

  function TaskOf(app: App, p: Phase): SpecTask {
    SpecTask(app.name, PhaseName(p))
  }

  /** The app is the command's only one and has a script for the phase. */
  ghost predicate HasScript(host: Host, cmd: Command, app: App, p: Phase) {
    cmd.apps == [app] && IsScript(p) && Body(host, cmd, app, p) != ""
  }

  lemma SortStep(host: Host, cmd: Command, root: Root, app: App, p: Phase, rest: seq<SpecTask>, work: Work)
    requires HasScript(host, cmd, app, p)
    ensures SortTasks(host, cmd, root, [TaskOf(app, p)] + rest, work) ==
            SortTasks(host, cmd, root, rest, work.(scripts := work.scripts + [Chip(app.name, p)]))
  {
    PhaseOfName(app.name, p);
    assert ([TaskOf(app, p)] + rest)[1..] == rest;
    assert FindApp(cmd.apps, app.name) == Some(app);
  }

  type Sorter = (seq<SpecTask>, Work) -> Sorted

  function SorterOf(host: Host, cmd: Command, root: Root): Sorter {
    (tasks, work) => SortTasks(host, cmd, root, tasks, work)
  }

  /** Meeting the task t first adds the script c. */
  ghost predicate Adds(sort: Sorter, t: SpecTask, c: Chip) {
    forall rest, work :: sort([t] + rest, work) == sort(rest, work.(scripts := work.scripts + [c]))
  }

  ghost predicate EndsReady(sort: Sorter) {
    forall work :: sort([], work) == Ready(work)
  }

  lemma SorterAdds(host: Host, cmd: Command, root: Root, app: App, p: Phase)
    requires HasScript(host, cmd, app, p)
    ensures Adds(SorterOf(host, cmd, root), TaskOf(app, p), Chip(app.name, p))
    ensures EndsReady(SorterOf(host, cmd, root))
  {
    forall rest, work ensures
      SortTasks(host, cmd, root, [TaskOf(app, p)] + rest, work) ==
      SortTasks(host, cmd, root, rest, work.(scripts := work.scripts + [Chip(app.name, p)]))
    {
      SortStep(host, cmd, root, app, p, rest, work);
    }
  }

  lemma SortOne(sort: Sorter, t: SpecTask, c: Chip)
    requires Adds(sort, t, c) && EndsReady(sort)
    ensures sort([t], NoWork) == Ready(Work([c], [], [], []))
  {
    assert [t] == [t] + [] && [] + [c] == [c];
  }

  lemma SortTwo(sort: Sorter, t: SpecTask, u: SpecTask, c: Chip, d: Chip)
    requires Adds(sort, t, c) && Adds(sort, u, d) && EndsReady(sort)
    ensures sort([t, u], NoWork) == Ready(Work([c, d], [], [], []))
  {
    assert [t, u] == [t] + [u] && [u] == [u] + [];
    assert [] + [c] == [c] && [c] + [d] == [c, d];
  }

  // ---- two scripts of one app in one wave ----

  lemma BothSorted(host: Host, cmd: Command, root: Root, app: App, p: Phase, q: Phase)
    requires HasScript(host, cmd, app, p) && HasScript(host, cmd, app, q)
    ensures SortTasks(host, cmd, root, [TaskOf(app, p), TaskOf(app, q)], NoWork) ==
            Ready(Work([Chip(app.name, p), Chip(app.name, q)], [], [], []))
  {
    SorterAdds(host, cmd, root, app, p);
    SorterAdds(host, cmd, root, app, q);
    SortTwo(SorterOf(host, cmd, root), TaskOf(app, p), TaskOf(app, q), Chip(app.name, p), Chip(app.name, q));
  }

  lemma KnownStep(app: App, p: Phase, rest: seq<SpecTask>)
    ensures KnownChips([TaskOf(app, p)] + rest) == [Chip(app.name, p)] + KnownChips(rest)
  {
    PhaseOfName(app.name, p);
    assert ([TaskOf(app, p)] + rest)[1..] == rest;
  }

  lemma KnownTwo(known: seq<SpecTask> -> seq<Chip>, t: SpecTask, u: SpecTask, c: Chip, d: Chip)
    requires known([t] + [u]) == [c] + known([u]) && known([u] + []) == [d] + known([]) && known([]) == []
    ensures known([t, u]) == [c, d]
  {
    assert [t, u] == [t] + [u] && [u] == [u] + [];
  }

  lemma BothKnown(app: App, p: Phase, q: Phase)
    ensures KnownChips([TaskOf(app, p), TaskOf(app, q)]) == [Chip(app.name, p), Chip(app.name, q)]
  {
    KnownStep(app, p, [TaskOf(app, q)]);
    KnownStep(app, q, []);
    KnownTwo(KnownChips, TaskOf(app, p), TaskOf(app, q), Chip(app.name, p), Chip(app.name, q));
  }

  lemma OneWaveInOrder(spec: Spec, wave: seq<Chip>)
    requires |spec| == 1 && KnownChips(spec[0]) == wave && InOrder(wave) && !Mixed(wave)
    ensures OrderOk(PlanOf(spec))
  {
    assert PlanOf(spec) == [wave];
    FlattenOne(wave);
  }

  lemma ScriptsRace(name: string)
    ensures !RaceFree([Chip(name, Install), Chip(name, Cleanup)])
    ensures InOrder([Chip(name, Install), Chip(name, Cleanup)]) && !Mixed([Chip(name, Install), Chip(name, Cleanup)])
  {
    var scripts := [Chip(name, Install), Chip(name, Cleanup)];
    assert scripts[0] in scripts && scripts[1] in scripts;
  }

  lemma RaceInOneWave(host: Host, cmd: Command, scripts: seq<Chip>)
    requires cmd.apps != [] && |cmd.waves| == 1 && OrderOk(PlanOf(cmd.waves)) && !RaceFree(scripts)
    requires forall root :: SortTasks(host, cmd, root, cmd.waves[0], NoWork) == Ready(Work(scripts, [], [], []))
    ensures exists world :: !InOrder(Met(RunFlow(host, cmd, world).0))
  {
    assert SortTasks(host, cmd, Current, cmd.waves[0], NoWork).Ready?;
    RaceBreaksOrder(host, cmd, 0);
  }

  /** Any command of one wave holding the install and the cleanup of one app. */
  lemma SharedWaveRaces(host: Host, cmd: Command, app: App)
    requires HasScript(host, cmd, app, Install) && HasScript(host, cmd, app, Cleanup)
    requires cmd.waves == [[TaskOf(app, Install), TaskOf(app, Cleanup)]]
    ensures OrderOk(PlanOf(cmd.waves))
    ensures exists world :: !InOrder(Met(RunFlow(host, cmd, world).0))
  {
    var scripts := [Chip(app.name, Install), Chip(app.name, Cleanup)];
    ScriptsRace(app.name);
    BothKnown(app, Install, Cleanup);
    OneWaveInOrder(cmd.waves, scripts);
    forall root ensures SortTasks(host, cmd, root, cmd.waves[0], NoWork) == Ready(Work(scripts, [], [], [])) {
      BothSorted(host, cmd, root, app, Install, Cleanup);
    }
    RaceInOneWave(host, cmd, scripts);
  }

  // ---- an install that fails ----

  /** Everything works but the scripts. */
  function ScriptsFail(): World {
    World(true, true, (_, _, _) => false, _ => [])
  }

  lemma OneScript(c: Chip)
    ensures Scripts(ScriptsFail(), 0, ReleaseDir, [c]) == [Began(c, ReleaseDir), Ended(c, false)]
  {
    var picks := FinishPicks(1);
    assert FinishPicks(0) == [] && picks == [0, 0] && [] + picks == picks && picks[1..] == [0] && picks[1..][1..] == [];
    var at := seq(1, _ => 0);
    assert at == [0] && at[0 := 1] == [1] && [1][0 := 2] == [2];
  }

  lemma OneFails(c: Chip, up: set<string>)
    ensures RunWork(ScriptsFail(), 0, false, Work([c], [], [], []), up) ==
            ([Began(c, ReleaseDir), Ended(c, false)], Some(ScriptsFailed))
  {
    OneScript(c);
    assert !AllOk(ScriptsFail(), 0, [c]);
  }

  /** Under "continue" a run goes on after its only wave has failed, and ends with the activation. */
  lemma GoesOn(host: Host, cmd: Command, world: World, events: seq<Event>, why: Failure)
    requires |cmd.waves| == 1 && cmd.waves[0] != [] && !NeedsPost(cmd.waves[0]) && ContinueOnFail(cmd)
    requires world.swapOk && world.persistOk && RunWave(host, cmd, world, 0, false) == (events, Some(why))
    ensures RunFlow(host, cmd, world) == (events + [Activated], Some(WavesFailed(1)))
  {
    assert RunFrom(host, cmd, world, 1, false, 1) == ([Activated], Some(WavesFailed(1)));
    assert WaveThenRest(host, cmd, world, 0, false, 0) == (events + [Activated], Some(WavesFailed(1)));
  }

  lemma InstallFails(host: Host, cmd: Command, app: App)
    requires HasScript(host, cmd, app, Install) && cmd.waves == [[TaskOf(app, Install)]]
    ensures var c := Chip(app.name, Install);
      RunWave(host, cmd, ScriptsFail(), 0, false) == ([Began(c, ReleaseDir), Ended(c, false)], Some(ScriptsFailed))
  {
    SorterAdds(host, cmd, ReleaseDir, app, Install);
    SortOne(SorterOf(host, cmd, ReleaseDir), TaskOf(app, Install), Chip(app.name, Install));
    OneFails(Chip(app.name, Install), Up(host, cmd, ScriptsFail(), 0));
  }

  /** Under any other policy it ends there. */
  lemma StopsThere(host: Host, cmd: Command, world: World, events: seq<Event>, why: Failure)
    requires |cmd.waves| == 1 && cmd.waves[0] != [] && !NeedsPost(cmd.waves[0]) && !ContinueOnFail(cmd)
    requires RunWave(host, cmd, world, 0, false) == (events, Some(why))
    ensures RunFlow(host, cmd, world) == (events, Some(why))
  {
    assert WaveThenRest(host, cmd, world, 0, false, 0) == (events, Some(why));
  }

  /** Any command of one wave holding one install, under "continue". */
  lemma FailureGoesLive(host: Host, cmd: Command, app: App)
    requires HasScript(host, cmd, app, Install) && cmd.waves == [[TaskOf(app, Install)]] && ContinueOnFail(cmd)
    ensures var c := Chip(app.name, Install);
      RunFlow(host, cmd, ScriptsFail()) ==
        ([Began(c, ReleaseDir), Ended(c, false)] + [Activated], Some(WavesFailed(1)))
  {
    PhaseOfName(app.name, Install);
    InstallFails(host, cmd, app);
    assert !NeedsPost(cmd.waves[0]);
    var c := Chip(app.name, Install);
    GoesOn(host, cmd, ScriptsFail(), [Began(c, ReleaseDir), Ended(c, false)], ScriptsFailed);
  }

  /** The same under any other policy. */
  lemma FailureStops(host: Host, cmd: Command, app: App)
    requires HasScript(host, cmd, app, Install) && cmd.waves == [[TaskOf(app, Install)]] && !ContinueOnFail(cmd)
    ensures var c := Chip(app.name, Install);
      RunFlow(host, cmd, ScriptsFail()) == ([Began(c, ReleaseDir), Ended(c, false)], Some(ScriptsFailed))
  {
    PhaseOfName(app.name, Install);
    InstallFails(host, cmd, app);
    assert !NeedsPost(cmd.waves[0]);
    var c := Chip(app.name, Install);
    StopsThere(host, cmd, ScriptsFail(), [Began(c, ReleaseDir), Ended(c, false)], ScriptsFailed);
  }

  // ---- written out ----

  function Api(): App {
    App("api", "i", "c", "", "")
  }

  /** Every command installs. */
  function PlainHost(): Host {
    Host(_ => InstallKind, _ => "", _ => ("", ""))
  }

  function CommandOf(tasks: seq<SpecTask>, policy: string): Command {
    Command([Api()], "", [tasks], policy)
  }

  lemma OneLetter(s: string)
    requires |s| == 1 && !IsSpace(s[0])
    ensures Commands(s) == [s]
  {
    var none: seq<string> := [];
    TrimOfTrimmed(s);
    FindChar(s, '\n');
    PiecesNone(s, "\n");
    assert Split(s, "\n") == [s] by {
      assert none + [s] == [s];
    }
    assert Find(s, "&&").None?;
    assert [s][1..] == none && TrimAll(none) == none && [s] + none == [s];
  }

  lemma OneInstall(c: string, kind: string -> Kind)
    requires kind(c) == InstallKind
    ensures AgentHalves([c], kind, false).0 == [c]
  {
    assert [c][1..] == [] && [c] + [] == [c];
  }

  lemma InstallOf(host: Host, cmd: Command, app: App, c: string)
    requires app.install != "" && Commands(app.install) == [c] && AgentHalves([c], host.kind, false).0 == [c]
    ensures Body(host, cmd, app, Install) == c
  {
  }

  /** Where everything installs, a one-letter install script is an install. */
  lemma LetterInstalls(host: Host, cmd: Command, app: App)
    requires |app.install| == 1 && !IsSpace(app.install[0]) && cmd.apps == [app]
    requires host.kind(app.install) == InstallKind
    ensures HasScript(host, cmd, app, Install)
  {
    OneLetter(app.install);
    OneInstall(app.install, host.kind);
    InstallOf(host, cmd, app, app.install);
  }

  lemma InstallBody(tasks: seq<SpecTask>, policy: string)
    ensures HasScript(PlainHost(), CommandOf(tasks, policy), Api(), Install)
  {
    LetterInstalls(PlainHost(), CommandOf(tasks, policy), Api());
  }

  lemma OwnCleanup(host: Host, cmd: Command, app: App)
    requires Trimmed(app.cleanup) && app.cleanup != ""
    ensures Body(host, cmd, app, Cleanup) == app.cleanup
  {
    TrimOfTrimmed(app.cleanup);
  }

  lemma CleanupBody(tasks: seq<SpecTask>, policy: string)
    ensures HasScript(PlainHost(), CommandOf(tasks, policy), Api(), Cleanup)
  {
    OwnCleanup(PlainHost(), CommandOf(tasks, policy), Api());
  }

  /**
   * The editor's check passes install and cleanup in one wave, and under every policy some run of it
   * takes them in the wrong order.
   */
  lemma CleanupBeforeInstall(policy: string)
    ensures var cmd := CommandOf([TaskOf(Api(), Install), TaskOf(Api(), Cleanup)], policy);
      && OrderOk(PlanOf(cmd.waves))
      && exists world :: !InOrder(Met(RunFlow(PlainHost(), cmd, world).0))
  {
    var tasks := [TaskOf(Api(), Install), TaskOf(Api(), Cleanup)];
    InstallBody(tasks, policy);
    CleanupBody(tasks, policy);
    SharedWaveRaces(PlainHost(), CommandOf(tasks, policy), Api());
  }

  /** Under a policy that reads as "continue" the only install fails, and the release goes live all the same. */
  lemma GoesLiveUnder(policy: string)
    requires ContinueOnFail(CommandOf([TaskOf(Api(), Install)], policy))
    ensures var c := Chip("api", Install);
      RunFlow(PlainHost(), CommandOf([TaskOf(Api(), Install)], policy), ScriptsFail()) ==
        ([Began(c, ReleaseDir), Ended(c, false)] + [Activated], Some(WavesFailed(1)))
  {
    var tasks := [TaskOf(Api(), Install)];
    InstallBody(tasks, policy);
    FailureGoesLive(PlainHost(), CommandOf(tasks, policy), Api());
  }

  lemma StopsUnder(policy: string)
    requires !ContinueOnFail(CommandOf([TaskOf(Api(), Install)], policy))
    ensures var c := Chip("api", Install);
      RunFlow(PlainHost(), CommandOf([TaskOf(Api(), Install)], policy), ScriptsFail()) ==
        ([Began(c, ReleaseDir), Ended(c, false)], Some(ScriptsFailed))
  {
    var tasks := [TaskOf(Api(), Install)];
    InstallBody(tasks, policy);
    FailureStops(PlainHost(), CommandOf(tasks, policy), Api());
  }

  lemma Policy(tasks: seq<SpecTask>, policy: string)
    requires policy == "continue" || policy == "stop"
    ensures ContinueOnFail(CommandOf(tasks, policy)) <==> policy == "continue"
  {
    var go, stop := "continue", "stop";
    assert go[0] == 'c' && go[7] == 'e' && stop[0] == 's' && stop[3] == 'p' && |go| != |stop|;
    TrimOfTrimmed(policy);
  }

  lemma FailedInstallGoesLive()
    ensures var c := Chip("api", Install);
      RunFlow(PlainHost(), CommandOf([TaskOf(Api(), Install)], "continue"), ScriptsFail()) ==
        ([Began(c, ReleaseDir), Ended(c, false)] + [Activated], Some(WavesFailed(1)))
  {
    Policy([TaskOf(Api(), Install)], "continue");
    GoesLiveUnder("continue");
  }

  /** Under "stop" the same install fails, and nothing goes live. */
  lemma FailedInstallStops()
    ensures var c := Chip("api", Install);
      RunFlow(PlainHost(), CommandOf([TaskOf(Api(), Install)], "stop"), ScriptsFail()) ==
        ([Began(c, ReleaseDir), Ended(c, false)], Some(ScriptsFailed))
  {
    Policy([TaskOf(Api(), Install)], "stop");
    StopsUnder("stop");
  }
}
