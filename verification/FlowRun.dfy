/**
 * The agent running a deploy flow: waves one after the other, the scripts of a wave in
 * parallel, and one activation of the release before the first wave that needs it.
 * Everything the host decides (exit statuses, scheduling, whether the symlink moves)
 * comes from a World, so a statement about every World is a statement about every run.
 */
module FlowRun {
  import opened Seqs
  import opened Text
  import opened ScriptSplit
  import opened FlowModel
  import opened FlowWire

  datatype App = App(name: string, install: string, cleanup: string, preStart: string, language: string)

  datatype Command = Command(apps: seq<App>, install: string, waves: Spec, onWaveFailure: string)

  /** Where a script works: inside the new release directory, or through the current link. */
  datatype Root = ReleaseDir | Current

  /**
   * What the host contributes besides outcomes: classification, default cleanups, and how an unnamed app
   * looks on disk.
   */
  datatype Host = Host(kind: string -> Kind, defaultCleanup: string -> string, unnamed: Root -> (string, string))

  /**
   * The outcomes of one run. Job k of wave i ends well when succeeds(i, its chip, k); picks orders the wave's
   * scripts.
   */
  datatype World = World(swapOk: bool, persistOk: bool, succeeds: (nat, Chip, nat) -> bool, picks: nat -> seq<nat>)

  datatype Event = Began(chip: Chip, root: Root) | Ended(chip: Chip, ok: bool) | Activated

  datatype Failure =
    | MixedWave(wave: nat) | SwapFailed | UnknownApp(app: string) | UnknownPhase(phase: string)
    | ScriptsFailed | RunNeedsRelease | RunFailed | StartNeedsRelease | StartFailed | HealthFailed
    | PersistFailed | WavesFailed(failed: nat)

  // ---- reading the command ----

  function LowerChar(c: char): char {
    if 'A' <= c <= 'Z' then (c as int + 32) as char
    else if c == '\U{0130}' then 'i'
    else if c == '\U{212A}' then 'k'
    else c
  }

  function Lower(s: string): string {
    if s == "" then "" else [LowerChar(s[0])] + Lower(s[1..])
  }

  /** Phases are matched trimmed and in lower case. */
  function PhaseOf(t: SpecTask): Option<Phase> {
    ParsePhase(Lower(Trim(t.phase)))
  }

  /** Simple case folding, as far as it meets ASCII: long s and the Kelvin sign fold to letters, dotted I does not. */
  function FoldChar(c: char): char {
    if 'A' <= c <= 'Z' then (c as int + 32) as char
    else if c == '\U{017F}' then 's'
    else if c == '\U{212A}' then 'k'
    else c
  }

  predicate EqualFold(s: string, t: string) {
    |s| == |t| && forall i :: 0 <= i < |s| ==> FoldChar(s[i]) == FoldChar(t[i])
  }

  predicate ContinueOnFail(cmd: Command) {
    EqualFold(Trim(cmd.onWaveFailure), "continue")
  }

  /** A command without apps stands for one app named and detected from the directory it is looked up in. */
  function AppsOf(host: Host, cmd: Command, root: Root): seq<App> {
    if cmd.apps != [] then cmd.apps
    else [App(host.unnamed(root).0, cmd.install, "", "", host.unnamed(root).1)]
  }

  function FindApp(apps: seq<App>, name: string): Option<App> {
    if apps == [] then None
    else if apps[|apps| - 1].name == name then Some(apps[|apps| - 1])
    else FindApp(apps[..|apps| - 1], name)
  }

  predicate IsScript(p: Phase) {
    IsPre(p) || p.PreStart?
  }

  /** The two halves of the app's install script, or of the command's when it has none of its own. */
  function Halves(host: Host, cmd: Command, app: App): (seq<string>, seq<string>) {
    AgentHalves(Commands(if app.install == "" then cmd.install else app.install), host.kind, false)
  }

  function Body(host: Host, cmd: Command, app: App, p: Phase): string {
    match p
    case Install => Join(Halves(host, cmd, app).0, And)
    case Build => Join(Halves(host, cmd, app).1, And)
    case Cleanup => if Trim(app.cleanup) != "" then Trim(app.cleanup) else host.defaultCleanup(app.language)
    case PreStart => Trim(app.preStart)
    case _ => ""
  }

  // ---- one wave ----

  datatype Work = Work(scripts: seq<Chip>, runs: seq<Chip>, starts: seq<Chip>, healths: seq<Chip>)
  datatype Sorted = Ready(work: Work) | Rejected(why: Failure)

  function AddTask(host: Host, cmd: Command, app: App, c: Chip, work: Work): Work {
    match c.phase
    case Run => work.(runs := work.runs + [c])
    case Start => work.(starts := work.starts + [c])
    case Health => work.(healths := work.healths + [c])
    case p => if Body(host, cmd, app, p) == "" then work else work.(scripts := work.scripts + [c])
  }

  /** Sorts a wave's tasks into what to run; the first unknown app or phase rejects the wave before anything runs. */
  function SortTasks(host: Host, cmd: Command, root: Root, tasks: seq<SpecTask>, work: Work): Sorted
    decreases tasks
  {
    if tasks == [] then Ready(work)
    else
      match FindApp(AppsOf(host, cmd, root), tasks[0].app)
      case None => Rejected(UnknownApp(tasks[0].app))
      case Some(app) =>
        match PhaseOf(tasks[0])
        case None => Rejected(UnknownPhase(tasks[0].phase))
        case Some(p) => SortTasks(host, cmd, root, tasks[1..], AddTask(host, cmd, app, Chip(tasks[0].app, p), work))
  }

  const NoWork := Work([], [], [], [])

  /** The steps of parallel jobs in the order they are picked: a job's first pick begins it, its second ends it. */
  function Interleave(jobs: seq<Chip>, root: Root, ok: nat -> bool, picks: seq<nat>, at: seq<nat>): seq<Event>
    requires |at| == |jobs|
    decreases picks
  {
    if picks == [] then []
    else
      var j := picks[0];
      if j < |jobs| && at[j] < 2 then
        [if at[j] == 0 then Began(jobs[j], root) else Ended(jobs[j], ok(j))]
        + Interleave(jobs, root, ok, picks[1..], at[j := at[j] + 1])
      else
        Interleave(jobs, root, ok, picks[1..], at)
  }

  /** Picks that finish whatever a schedule left open. */
  function FinishPicks(n: nat): seq<nat> {
    if n == 0 then [] else FinishPicks(n - 1) + [n - 1, n - 1]
  }

  /** Any schedule, completed: every job begins and ends, in any interleaving a schedule can ask for. */
  function ScriptEvents(jobs: seq<Chip>, root: Root, ok: nat -> bool, picks: seq<nat>): seq<Event> {
    Interleave(jobs, root, ok, picks + FinishPicks(|jobs|), seq(|jobs|, _ => 0))
  }

  /** Jobs one after the other; a failure does not skip the next. */
  function InTurn(jobs: seq<Chip>, ok: nat -> bool, k: nat): seq<Event>
    requires k <= |jobs|
    decreases |jobs| - k
  {
    if k == |jobs| then [] else [Began(jobs[k], Current), Ended(jobs[k], ok(k))] + InTurn(jobs, ok, k + 1)
  }

  predicate AllOk(world: World, i: nat, jobs: seq<Chip>) {
    forall k :: 0 <= k < |jobs| ==> world.succeeds(i, jobs[k], k)
  }

  function Outcome(world: World, i: nat, jobs: seq<Chip>): nat -> bool {
    (k: nat) => k < |jobs| && world.succeeds(i, jobs[k], k)
  }

  function Scripts(world: World, i: nat, root: Root, jobs: seq<Chip>): seq<Event> {
    ScriptEvents(jobs, root, Outcome(world, i, jobs), world.picks(i))
  }

  function Turn(world: World, i: nat, jobs: seq<Chip>): seq<Event> {
    InTurn(jobs, Outcome(world, i, jobs), 0)
  }

  function RootOf(released: bool): Root {
    if released then Current else ReleaseDir
  }

  /** The apps whose run tasks in wave i succeed. */
  function Launched(world: World, i: nat, runs: seq<Chip>): set<string> {
    set k | 0 <= k < |runs| && world.succeeds(i, runs[k], k) :: runs[k].owner
  }

  /** What wave i launches when it is reached: nothing if it is rejected or its scripts fail. */
  function LaunchedBy(host: Host, cmd: Command, world: World, i: nat): set<string>
    requires i < |cmd.waves|
  {
    match SortTasks(host, cmd, Current, cmd.waves[i], NoWork)
    case Ready(work) => if AllOk(world, i, work.scripts) then Launched(world, i, work.runs) else {}
    case Rejected(_) => {}
  }

  function LaunchedIn(host: Host, cmd: Command, world: World): nat -> set<string> {
    (k: nat) => if k < |cmd.waves| then LaunchedBy(host, cmd, world, k) else {}
  }

  function UnionTo(f: nat -> set<string>, n: nat): set<string> {
    set k, app | 0 <= k < n && app in f(k) :: app
  }

  /** The apps that are up before wave i. */
  function Up(host: Host, cmd: Command, world: World, i: nat): set<string> {
    UnionTo(LaunchedIn(host, cmd, world), i)
  }

  lemma UnionNext(f: nat -> set<string>, n: nat)
    ensures UnionTo(f, n + 1) == UnionTo(f, n) + f(n)
  {
  }

  lemma UpNext(host: Host, cmd: Command, world: World, i: nat)
    requires i < |cmd.waves|
    ensures Up(host, cmd, world, i + 1) == Up(host, cmd, world, i) + LaunchedBy(host, cmd, world, i)
  {
    UnionNext(LaunchedIn(host, cmd, world), i);
  }

  function Down(up: set<string>): Chip -> bool {
    (c: Chip) => c.owner !in up
  }

  /** Start only confirms an app that a run task has launched already. */
  function ToStart(world: World, i: nat, work: Work, up: set<string>): seq<Chip> {
    Filter(work.starts, Down(up + Launched(world, i, work.runs)))
  }

  /** Scripts, then run, start and health tasks; the first stage with a failure is the last. */
  function RunWork(world: World, i: nat, released: bool, work: Work, up: set<string>): (seq<Event>, Option<Failure>) {
    var starts := ToStart(world, i, work, up);
    var s := Scripts(world, i, RootOf(released), work.scripts);
    var r := s + Turn(world, i, work.runs);
    var t := r + Turn(world, i, starts);
    var h := t + Turn(world, i, work.healths);
    if !AllOk(world, i, work.scripts) then (s, Some(ScriptsFailed))
    else if work.runs != [] && !released then (s, Some(RunNeedsRelease))
    else if !AllOk(world, i, work.runs) then (r, Some(RunFailed))
    else if work.starts != [] && !released then (r, Some(StartNeedsRelease))
    else if !AllOk(world, i, starts) then (t, Some(StartFailed))
    else if !AllOk(world, i, work.healths) then (h, Some(HealthFailed))
    else (h, None)
  }

  function RunWave(host: Host, cmd: Command, world: World, i: nat, released: bool): (seq<Event>, Option<Failure>)
    requires i < |cmd.waves|
  {
    match SortTasks(host, cmd, RootOf(released), cmd.waves[i], NoWork)
    case Rejected(why) => ([], Some(why))
    case Ready(work) => RunWork(world, i, released, work, Up(host, cmd, world, i))
  }

  // ---- the whole flow ----

  predicate NeedsPost(tasks: seq<SpecTask>) {
    exists k :: 0 <= k < |tasks| && PhaseOf(tasks[k]).Some? && !IsPre(PhaseOf(tasks[k]).value)
  }

  predicate NeedsPre(tasks: seq<SpecTask>) {
    exists k :: 0 <= k < |tasks| && PhaseOf(tasks[k]).Some? && IsPre(PhaseOf(tasks[k]).value)
  }

  function Finish(world: World, failed: nat): Option<Failure> {
    if !world.persistOk then Some(PersistFailed)
    else if failed > 0 then Some(WavesFailed(failed))
    else None
  }

  function RunFrom(host: Host, cmd: Command, world: World, i: nat, released: bool, failed: nat)
      : (seq<Event>, Option<Failure>)
    requires i <= |cmd.waves|
    decreases |cmd.waves| - i, 1
  {
    if i == |cmd.waves| then
      if released then ([], Finish(world, failed))
      else if !world.swapOk then ([], Some(SwapFailed))
      else ([Activated], Finish(world, failed))
    else if cmd.waves[i] == [] then RunFrom(host, cmd, world, i + 1, released, failed)
    else if NeedsPost(cmd.waves[i]) && !released then
      if NeedsPre(cmd.waves[i]) then ([], Some(MixedWave(i)))
      else if !world.swapOk then ([], Some(SwapFailed))
      else
        var (events, why) := WaveThenRest(host, cmd, world, i, true, failed);
        ([Activated] + events, why)
    else WaveThenRest(host, cmd, world, i, released, failed)
  }

  function WaveThenRest(host: Host, cmd: Command, world: World, i: nat, released: bool, failed: nat)
      : (seq<Event>, Option<Failure>)
    requires i < |cmd.waves|
    decreases |cmd.waves| - i, 0
  {
    var (events, why) := RunWave(host, cmd, world, i, released);
    if why.Some? && !ContinueOnFail(cmd) then (events, why)
    else
      var (rest, end) := RunFrom(host, cmd, world, i + 1, released, if why.Some? then failed + 1 else failed);
      (events + rest, end)
  }

  /** The events and the outcome of runDeployFlow. */
  function RunFlow(host: Host, cmd: Command, world: World): (seq<Event>, Option<Failure>) {
    RunFrom(host, cmd, world, 0, false, 0)
  }
}
