/**
 * The live progress rail: what each line of the agent's log does to the steps shown. Recognising a
 * line (patterns, paths, which command a script is) is left to whoever builds the Line values.
 */
module Progress {
  import opened Seqs

  datatype StepState = Pending | Active | Done | Failed | Skipped

  datatype Step = Step(state: StepState, ticks: nat)

  datatype Slot = Cleanup | PreStart | Run | Start | Health

  /** A step's place: shared, a command of a process, or one of a process's other steps. */
  datatype Where = Preflight | Clone | Release | Command(p: nat, i: nat) | InSlot(p: nat, slot: Slot)

  /**
   * `commands` has the number of command steps of each process; `cur` is the step last activated; `pane` the
   * process last shown.
   */
  datatype Rail = Rail(steps: map<Where, Step>, commands: seq<nat>, cur: Option<Where>, failed: bool, pane: Option<nat>)

  const NewStep := Step(Pending, 0)

  // ---- reading the rail ----

  predicate Is(r: Rail, w: Where, s: StepState) {
    w in r.steps && r.steps[w].state == s
  }

  predicate Open(r: Rail, w: Where) {
    Is(r, w, Pending) || Is(r, w, Active)
  }

  function CommandsFrom(commands: seq<nat>, p: nat, i: nat): seq<Where>
    decreases |commands| - p, if p < |commands| then commands[p] - i else 0
  {
    if p >= |commands| then []
    else if i >= commands[p] then CommandsFrom(commands, p + 1, 0)
    else [Command(p, i)] + CommandsFrom(commands, p, i + 1)
  }

  function SlotsFrom(r: Rail, slot: Slot, p: nat): seq<Where>
    decreases |r.commands| - p
  {
    if p >= |r.commands| then []
    else (if InSlot(p, slot) in r.steps then [InSlot(p, slot)] else []) + SlotsFrom(r, slot, p + 1)
  }

  /** Every step in the order shown. */
  function Ordered(r: Rail): seq<Where> {
    [Preflight, Clone] + CommandsFrom(r.commands, 0, 0) + SlotsFrom(r, Cleanup, 0) + [Release]
    + SlotsFrom(r, PreStart, 0) + SlotsFrom(r, Run, 0) + SlotsFrom(r, Start, 0) + SlotsFrom(r, Health, 0)
  }

  /** The first index from i on that passes, -1 if none does. */
  function FindIndex(all: seq<Where>, test: Where -> bool, i: nat): (k: int)
    ensures -1 <= k < |all|
    ensures k >= 0 ==> i <= k && test(all[k]) && forall j :: i <= j < k ==> !test(all[j])
    ensures k < 0 ==> forall j :: i <= j < |all| ==> !test(all[j])
    decreases |all| - i
  {
    if i >= |all| then -1 else if test(all[i]) then i else FindIndex(all, test, i + 1)
  }

  function IndexOf(all: seq<Where>, w: Where): (k: int)
    ensures -1 <= k < |all|
    ensures k >= 0 ==> all[k] == w
    ensures k < 0 ==> w !in all
  {
    FindIndex(all, x => x == w, 0)
  }

  function LastIndex(all: seq<Where>, test: Where -> bool): (k: int)
    ensures -1 <= k < |all|
    ensures k >= 0 ==> test(all[k])
  {
    if all == [] then -1
    else if test(all[|all| - 1]) then |all| - 1
    else LastIndex(all[..|all| - 1], test)
  }

  // ---- changing it ----

  function SetState(r: Rail, w: Where, s: StepState): Rail {
    if w in r.steps then r.(steps := r.steps[w := r.steps[w].(state := s)]) else r
  }

  function Tick(r: Rail, w: Where): Rail {
    if w in r.steps then r.(steps := r.steps[w := r.steps[w].(ticks := r.steps[w].ticks + 1)]) else r
  }

  /** Forgets the current step if it is this one. */
  function Leave(r: Rail, w: Where): Rail {
    if r.cur == Some(w) then r.(cur := None) else r
  }

  predicate IsShared(w: Where) {
    w.Preflight? || w.Clone? || w.Release?
  }

  /**
   * Whether activating `next` closes the current step: within one process, or on leaving or moving within the
   * shared steps.
   */
  predicate Closes(cur: Where, next: Where) {
    if IsShared(cur) then true else !IsShared(next) && cur.p == next.p
  }

  function Activate(r: Rail, w: Where): Rail {
    if r.failed || !Open(r, w) then r
    else
      var closed :=
        if r.cur.Some? && r.cur.value != w && Is(r, r.cur.value, Active) && Closes(r.cur.value, w)
        then SetState(r, r.cur.value, Done) else r;
      SetState(closed, w, Active).(cur := Some(w))
  }

  /** Closes the open command steps of a process: all of them when forced, otherwise only running ones. */
  function CompleteCommands(r: Rail, p: nat, force: bool): (t: Rail)
    ensures t.commands == r.commands
  {
    if r.failed then r
    else
      var steps := map w | w in r.steps ::
        if w.Command? && w.p == p && (Is(r, w, Active) || (force && Is(r, w, Pending)))
        then r.steps[w].(state := Done)
        else r.steps[w];
      var started :=
        force || exists w :: w in r.steps && w.Command? && w.p == p && (Is(r, w, Active) || Is(r, w, Done));
      if !started then r
      else r.(steps := steps, cur := if r.cur.Some? && r.cur.value.Command? && r.cur.value.p == p then None else r.cur)
  }

  function CompleteAll(r: Rail, p: nat): Rail
    decreases |r.commands| - p
  {
    if p >= |r.commands| then r else CompleteAll(CompleteCommands(r, p, true), p + 1)
  }

  /**
   * Where a failure is pinned: the current step, else the first active one, else the one after the last done,
   * else the first open one.
   */
  function FailIndex(r: Rail): (k: int)
    ensures -1 <= k < |Ordered(r)|
  {
    var all := Ordered(r);
    var first := if r.cur.Some? then IndexOf(all, r.cur.value) else FindIndex(all, w => Is(r, w, Active), 0);
    if first >= 0 then first
    else
      var last := LastIndex(all, w => Is(r, w, Done));
      if last >= 0 && last + 1 < |all| && !Is(r, all[last + 1], Done) then last + 1
      else FindIndex(all, w => Open(r, w), 0)
  }

  /** Before the failing step everything counts as done, after it what is open is skipped. */
  function Settled(s: StepState, at: int, i: int): StepState {
    if at < 0 || s == Failed then s
    else if i < at && s != Done then Done
    else if i > at && (s == Pending || s == Active) then Skipped
    else s
  }

  /** Settles every step around one place in the order. */
  function SettleAround(r: Rail, at: int): Rail {
    var all := Ordered(r);
    r.(steps := map w | w in r.steps :: r.steps[w].(state := Settled(r.steps[w].state, at, IndexOf(all, w))),
       failed := true)
  }

  function PinFailure(r: Rail, idx: int): Rail
    requires idx < |Ordered(r)|
  {
    if idx >= 0 && !Is(r, Ordered(r)[idx], Done)
    then SetState(r, Ordered(r)[idx], Failed).(cur := Some(Ordered(r)[idx]))
    else r
  }

  function FailHere(r: Rail): Rail {
    var idx := FailIndex(r);
    var pinned := PinFailure(r, idx);
    SettleAround(pinned, if pinned.cur.Some? then IndexOf(Ordered(pinned), pinned.cur.value) else idx)
  }

  // ---- lines ----

  /** The process a directory belongs to; one that is not known yet is added, without steps. */
  datatype Target = Known(p: nat) | Fresh

  /** A script against the commands a process has: empty, one of them, part of the plan, or `count` new ones. */
  datatype Script = Script(empty: bool, exact: Option<nat>, planned: bool, count: nat)

  datatype Body =
    | Blank
    | FailedLine
    | PreflightLine
    | CloneRemoved
    | CloneLine(ready: bool)
    | InstallCleanup(t: Target)
    | InstallDone(t: Target)
    | InstallScript(t: Target, script: Script)
    | ReleaseCurrent
    | ReleasePruned
    | ReleaseOther
    | PreStartLine(t: Target, over: bool)
    | Healthy
    | HealthSkipped
    | HealthOther
    | SlotLine(slot: Slot, t: Target, over: bool)
    | PhaseOther
    | Pm2Save
    | StartCommand(named: Option<nat>, none: bool)
    | Output(startsNext: bool)

  /** A log line: the process its tag names, if it has one, and the rest. */
  datatype Line = Line(tag: Option<Target>, body: Body)

  function Index(r: Rail, t: Target): nat {
    if t.Known? && t.p < |r.commands| then t.p else |r.commands|
  }

  function Ensure(r: Rail, t: Target): Rail {
    if Index(r, t) < |r.commands| then r else r.(commands := r.commands + [0])
  }

  function EnsureSlot(r: Rail, p: nat, slot: Slot): Rail {
    if InSlot(p, slot) in r.steps || p >= |r.commands| then r else r.(steps := r.steps[InSlot(p, slot) := NewStep])
  }

  /** Gives a process n new command steps in place of those it has. */
  function ReplaceCommands(r: Rail, p: nat, n: nat): Rail
    requires p < |r.commands|
  {
    var added := map i: nat | 0 <= i < n :: Command(p, i) := NewStep;
    var others := map w | w in r.steps && !(w.Command? && w.p == p) :: r.steps[w];
    r.(steps := others + added, commands := r.commands[p := n])
  }

  predicate AllPending(r: Rail, p: nat) {
    forall w :: w in r.steps && w.Command? && w.p == p ==> r.steps[w].state == Pending
  }

  function SetCommands(r: Rail, p: nat, s: Script): Rail
    requires p < |r.commands|
  {
    if s.empty then r
    else if r.commands[p] > 0 && s.exact.Some? && s.exact.value < r.commands[p] then
      Activate(r, Command(p, s.exact.value))
    else if r.commands[p] > 0 && (s.planned || !AllPending(r, p)) then r
    else ReplaceCommands(r, p, s.count)
  }

  predicate HasActiveCommand(r: Rail, p: nat) {
    exists w :: w in r.steps && w.Command? && w.p == p && r.steps[w].state == Active
  }

  function StartScript(r: Rail, p: nat, s: Script): Rail
    requires p < |r.commands|
  {
    var t := SetCommands(r, p, s);
    if HasActiveCommand(t, p) then t else Activate(t, Command(p, 0))
  }

  function CloseRelease(r: Rail): Rail {
    if Is(r, Release, Active) then Leave(SetState(r, Release, Done), Release) else r
  }

  /** Finishes a step that is still open and leaves it. */
  function Finish(r: Rail, w: Where): Rail {
    if Open(r, w) then Leave(SetState(r, w, Done), w) else r
  }

  function FirstOpen(r: Rail, slot: Slot, p: nat): Option<nat>
    decreases |r.commands| - p
  {
    if p >= |r.commands| then None
    else if Open(r, InSlot(p, slot)) then Some(p)
    else FirstOpen(r, slot, p + 1)
  }

  function FirstPendingStart(r: Rail, p: nat): Option<nat>
    decreases |r.commands| - p
  {
    if p >= |r.commands| then None
    else if Is(r, InSlot(p, Start), Pending) then Some(p)
    else FirstPendingStart(r, p + 1)
  }

  /**
   * The process a start command is for: the one it names, if that has a start step, else the first whose
   * start is pending.
   */
  function Claim(r: Rail, named: Option<nat>): Option<nat> {
    if named.Some? && InSlot(named.value, Start) in r.steps then named else FirstPendingStart(r, 0)
  }

  function ActiveCommand(r: Rail, p: nat, i: nat): Option<nat>
    requires p < |r.commands|
    decreases r.commands[p] - i
  {
    if i >= r.commands[p] then None
    else if Is(r, Command(p, i), Active) then Some(i)
    else ActiveCommand(r, p, i + 1)
  }

  function TickSlots(r: Rail, p: nat): Rail {
    if Is(r, InSlot(p, Cleanup), Active) then Tick(r, InSlot(p, Cleanup))
    else if Is(r, InSlot(p, PreStart), Active) then Tick(r, InSlot(p, PreStart))
    else if Is(r, InSlot(p, Run), Active) then Tick(r, InSlot(p, Run))
    else if Is(r, InSlot(p, Start), Active) then Tick(r, InSlot(p, Start))
    else if Is(r, InSlot(p, Health), Active) then Tick(r, InSlot(p, Health))
    else r
  }

  function MaybeAdvance(r: Rail, p: nat, startsNext: bool): Rail
    requires p < |r.commands|
  {
    if r.failed then r
    else match ActiveCommand(r, p, 0)
      case Some(i) =>
        if i + 1 < r.commands[p] && startsNext then Activate(r, Command(p, i + 1)) else Tick(r, Command(p, i))
      case None => TickSlots(r, p)
  }

  function Show(r: Rail, pane: Option<nat>): Rail {
    r.(pane := pane)
  }

  function SlotStep(r: Rail, p: nat, slot: Slot, over: bool): Rail {
    var t := EnsureSlot(r, p, slot);
    var w := InSlot(p, slot);
    if !over then Tick(Activate(t, w), w)
    else if slot == PreStart then Finish(t, w)
    else Leave(if Open(t, w) then SetState(t, w, Done) else t, w)
  }

  function HealthLine(r: Rail, body: Body): Rail {
    match FirstOpen(r, Health, 0)
    case None => Show(r, None)
    case Some(p) =>
      var w := InSlot(p, Health);
      if body.Healthy? then Show(Leave(SetState(Activate(r, w), w, Done), w), Some(p))
      else if body.HealthSkipped? then Show(SetState(r, w, Skipped), None)
      else Show(Tick(Activate(r, w), w), Some(p))
  }

  function StartLine(r: Rail, named: Option<nat>, none: bool): Rail {
    match Claim(r, named)
    case None => r
    case Some(p) =>
      var t := Finish(CloseRelease(r), InSlot(p, PreStart));
      var w := InSlot(p, Start);
      Show(if none then SetState(t, w, Skipped) else Tick(Activate(t, w), w), Some(p))
  }

  function InstallLine(r: Rail, body: Body): Rail
    requires body.InstallCleanup? || body.InstallDone? || body.InstallScript?
  {
    var p := Index(r, body.t);
    var t := Ensure(r, body.t);
    Show(
      match body
      case InstallCleanup(_) => Activate(EnsureSlot(CompleteCommands(t, p, true), p, Cleanup), InSlot(p, Cleanup))
      case InstallDone(_) => CompleteCommands(t, p, false)
      case InstallScript(_, script) => StartScript(t, p, script),
      Some(p))
  }

  function ReleaseLine(r: Rail, current: bool): Rail {
    if current then
      var t := CompleteAll(r, 0);
      Show(if Is(t, Release, Done) then t else Leave(SetState(Activate(t, Release), Release, Done), Release), None)
    else if Is(r, Release, Done) then Show(r, None)
    else Show(Tick(Activate(CompleteAll(r, 0), Release), Release), None)
  }

  function Do(r: Rail, body: Body): Rail {
    match body
    case Blank => r
    case FailedLine => FailHere(r)
    case PreflightLine => Show(Tick(Activate(r, Preflight), Preflight), None)
    case CloneRemoved => Show(r, None)
    case CloneLine(ready) =>
      var t := Activate(r, Clone);
      Show(if ready then Leave(SetState(t, Clone, Done), Clone) else Tick(t, Clone), None)
    case InstallCleanup(_) => InstallLine(r, body)
    case InstallDone(_) => InstallLine(r, body)
    case InstallScript(_, _) => InstallLine(r, body)
    case ReleaseCurrent => ReleaseLine(r, true)
    case ReleasePruned => Show(r, None)
    case ReleaseOther => ReleaseLine(r, false)
    case PreStartLine(t, over) =>
      Show(SlotStep(CloseRelease(Ensure(r, t)), Index(r, t), PreStart, over), Some(Index(r, t)))
    case Healthy => HealthLine(r, body)
    case HealthSkipped => HealthLine(r, body)
    case HealthOther => HealthLine(r, body)
    case SlotLine(slot, t, over) => Show(SlotStep(Ensure(r, t), Index(r, t), slot, over), Some(Index(r, t)))
    case PhaseOther => Show(r, None)
    case Pm2Save => if r.cur.Some? && r.cur.value.InSlot? && r.cur.value.slot == Start then Tick(r, r.cur.value) else r
    case StartCommand(named, none) => StartLine(r, named, none)
    case Output(startsNext) =>
      if r.pane.Some? && r.pane.value < |r.commands| then MaybeAdvance(r, r.pane.value, startsNext)
      else if r.cur.Some? && !r.failed then Tick(r, r.cur.value)
      else r
  }

  function DoLine(r: Rail, l: Line): Rail {
    Do(if l.tag.Some? then Show(Ensure(r, l.tag.value), Some(Index(r, l.tag.value))) else r, l.body)
  }

  function DoAll(r: Rail, log: seq<Line>): Rail
    decreases log
  {
    if log == [] then r else DoAll(DoLine(r, log[0]), log[1..])
  }

  // ---- the view ----

  datatype Status = IsPending | IsRunning | Succeeded | HasFailed | Canceled | AgentOffline

  function CloseOpen(r: Rail, s: StepState, pendingToo: bool): Rail {
    r.(steps := map w | w in r.steps ::
      if Is(r, w, Active) || (pendingToo && Is(r, w, Pending)) then r.steps[w].(state := s) else r.steps[w])
  }

  /**
   * What the status adds when the log has been read: success closes every open step, a terminal failure pins
   * one and settles the rest.
   */
  function Conclude(r: Rail, status: Status): Rail {
    match status
    case Succeeded => CloseOpen(r, Done, true)
    case IsPending => r
    case IsRunning => r
    case _ => CloseOpen(FailHere(r), Failed, false)
  }

  function StepPercent(s: Step): int {
    match s.state
    case Done => 100
    case Pending => 0
    case Skipped => 0
    case _ => Min(92, 18 + 2 * s.ticks)
  }

  function Sum(r: Rail, all: seq<Where>): int {
    if all == [] then 0 else (if all[0] in r.steps then StepPercent(r.steps[all[0]]) else 0) + Sum(r, all[1..])
  }

  /** Rounds half up, like Math.round. */
  function RoundDiv(n: int, d: nat): int
    requires d > 0
  {
    (2 * n + d) / (2 * d)
  }

  function Rollup(r: Rail, all: seq<Where>): int {
    if all == [] then 0 else RoundDiv(Sum(r, all), |all|)
  }

  function Percent(r: Rail, status: Status): int {
    var percent := Rollup(r, Ordered(r));
    if status == Succeeded then 100
    else if (status == IsRunning || status == IsPending) && percent >= 100 then 99
    else percent
  }

  /** Walks the log line by line, then adds what the status says. */
  method BuildDeployLive(start: Rail, log: seq<Line>, status: Status) returns (rail: Rail, percent: int)
    ensures rail == Conclude(DoAll(start, log), status) && percent == Percent(rail, status)
  {
    rail := start;
    assert log[0..] == log;
    for i := 0 to |log|
      invariant DoAll(rail, log[i..]) == DoAll(start, log)
    {
      assert log[i..][1..] == log[i + 1..];
      rail := DoLine(rail, log[i]);
    }
    rail := Conclude(rail, status);
    percent := Percent(rail, status);
  }
}
