/** What every line keeps of the progress rail, and how it ends. */
module ProgressRules {
  import opened Seqs
  import opened Progress

  // ---- well-formed rails ----

  predicate Placed(r: Rail, w: Where) {
    match w
    case Preflight => true
    case Clone => true
    case Release => true
    case Command(p, i) => p < |r.commands| && i < r.commands[p]
    case InSlot(p, _) => p < |r.commands|
  }

  /**
   * Shared and command steps are there, nothing else is but slots of processes; the current step has started;
   * after a failure nothing is active.
   */
  ghost predicate Valid(r: Rail) {
    && (forall w :: w in r.steps ==> Placed(r, w))
    && (forall w :: Placed(r, w) && !w.InSlot? ==> w in r.steps)
    && (r.cur.Some? ==> r.cur.value in r.steps && r.steps[r.cur.value].state != Pending)
    && (r.failed ==> forall w :: w in r.steps ==> r.steps[w].state != Active)
  }

  function Level(s: StepState): nat {
    match s
    case Pending => 0
    case Active => 1
    case _ => 2
  }

  /** A step keeps its place, moves only forward and stays done; only a step that never started may go. */
  predicate Moved(a: Step, w: Where, t: Rail) {
    if w in t.steps then Level(a.state) <= Level(t.steps[w].state) && (a.state == Done ==> t.steps[w].state == Done)
    else a.state == Pending
  }

  ghost predicate Forward(r: Rail, t: Rail) {
    && Valid(t) && (r.failed ==> t.failed) && |r.commands| <= |t.commands|
    && (forall w :: w in r.steps ==> Moved(r.steps[w], w, t))
  }

  lemma ForwardTrans(r: Rail, s: Rail, t: Rail)
    requires Forward(r, s) && Forward(s, t)
    ensures Forward(r, t)
  {
    forall w | w in r.steps ensures Moved(r.steps[w], w, t) {
      assert Moved(r.steps[w], w, s);
      if w in s.steps {
        assert Moved(s.steps[w], w, t);
      }
    }
  }

  // ---- the small changes ----

  lemma SameKeys(r: Rail, t: Rail)
    requires Valid(r) && t.steps.Keys == r.steps.Keys && t.commands == r.commands
    ensures forall w :: w in t.steps ==> Placed(t, w)
    ensures forall w :: Placed(t, w) && !w.InSlot? ==> w in t.steps
  {
    assert forall w :: Placed(t, w) <==> Placed(r, w);
  }

  lemma TickForward(r: Rail, w: Where)
    requires Valid(r)
    ensures Forward(r, Tick(r, w))
  {
    SameKeys(r, Tick(r, w));
  }

  /** Setting a step that is not done to something that is over, or a done one to done. */
  lemma SetForward(r: Rail, w: Where, s: StepState)
    requires Valid(r) && Level(s) == 2 && (Is(r, w, Done) ==> s == Done)
    ensures Forward(r, SetState(r, w, s))
  {
    SameKeys(r, SetState(r, w, s));
  }

  lemma LeaveForward(r: Rail, w: Where)
    requires Valid(r)
    ensures Forward(r, Leave(r, w))
  {
    SameKeys(r, Leave(r, w));
  }

  lemma ShowForward(r: Rail, pane: Option<nat>)
    requires Valid(r)
    ensures Forward(r, Show(r, pane))
  {
    SameKeys(r, Show(r, pane));
  }

  lemma BeginForward(r: Rail, w: Where)
    requires Valid(r) && !r.failed && Open(r, w)
    ensures Forward(r, SetState(r, w, Active).(cur := Some(w)))
  {
    SameKeys(r, SetState(r, w, Active).(cur := Some(w)));
  }

  lemma ActivateForward(r: Rail, w: Where)
    requires Valid(r)
    ensures Forward(r, Activate(r, w))
  {
    SameKeys(r, r);
    if !r.failed && Open(r, w) {
      if r.cur.Some? && r.cur.value != w && Is(r, r.cur.value, Active) && Closes(r.cur.value, w) {
        var closed := SetState(r, r.cur.value, Done);
        SetForward(r, r.cur.value, Done);
        BeginForward(closed, w);
        ForwardTrans(r, closed, Activate(r, w));
      } else {
        BeginForward(r, w);
      }
    }
  }

  lemma CompleteForward(r: Rail, p: nat, force: bool)
    requires Valid(r)
    ensures Forward(r, CompleteCommands(r, p, force)) && CompleteCommands(r, p, force).commands == r.commands
  {
    SameKeys(r, CompleteCommands(r, p, force));
  }

  lemma {:induction false} CompleteAllForward(r: Rail, p: nat)
    requires Valid(r)
    ensures Forward(r, CompleteAll(r, p))
    decreases |r.commands| - p
  {
    if p >= |r.commands| {
      SameKeys(r, r);
    } else {
      var t := CompleteCommands(r, p, true);
      CompleteForward(r, p, true);
      CompleteAllForward(t, p + 1);
      ForwardTrans(r, t, CompleteAll(t, p + 1));
    }
  }

  lemma EnsureForward(r: Rail, t: Target)
    requires Valid(r)
    ensures Forward(r, Ensure(r, t)) && Index(r, t) < |Ensure(r, t).commands|
  {
    var s := Ensure(r, t);
    assert forall w :: Placed(s, w) && !w.InSlot? ==> Placed(r, w);
  }

  lemma EnsureSlotForward(r: Rail, p: nat, slot: Slot)
    requires Valid(r)
    ensures Forward(r, EnsureSlot(r, p, slot))
  {
    var s := EnsureSlot(r, p, slot);
    assert forall w :: Placed(s, w) <==> Placed(r, w);
  }

  lemma ReplaceForward(r: Rail, p: nat, n: nat)
    requires Valid(r) && p < |r.commands| && AllPending(r, p)
    ensures Forward(r, ReplaceCommands(r, p, n))
  {
    var t := ReplaceCommands(r, p, n);
    forall w ensures w in t.steps <==> if w.Command? && w.p == p then w.i < n else w in r.steps {
    }
    forall w | Placed(t, w) && !w.InSlot? ensures w in t.steps {
      assert !(w.Command? && w.p == p) ==> Placed(r, w);
    }
  }

  lemma SetCommandsForward(r: Rail, p: nat, s: Script)
    requires Valid(r) && p < |r.commands|
    ensures Forward(r, SetCommands(r, p, s)) && p < |SetCommands(r, p, s).commands|
  {
    SameKeys(r, r);
    if s.empty {
    } else if r.commands[p] > 0 && s.exact.Some? && s.exact.value < r.commands[p] {
      ActivateForward(r, Command(p, s.exact.value));
    } else if r.commands[p] > 0 && (s.planned || !AllPending(r, p)) {
    } else {
      assert AllPending(r, p) by {
        assert forall w :: w in r.steps && w.Command? && w.p == p ==> Placed(r, w);
      }
      ReplaceForward(r, p, s.count);
    }
  }

  lemma StartScriptForward(r: Rail, p: nat, s: Script)
    requires Valid(r) && p < |r.commands|
    ensures Forward(r, StartScript(r, p, s))
  {
    var t := SetCommands(r, p, s);
    SetCommandsForward(r, p, s);
    ActivateForward(t, Command(p, 0));
    ForwardTrans(r, t, Activate(t, Command(p, 0)));
  }

  lemma SetLeaveForward(r: Rail, w: Where)
    requires Valid(r)
    ensures Forward(r, Leave(SetState(r, w, Done), w))
  {
    var t := SetState(r, w, Done);
    SetForward(r, w, Done);
    LeaveForward(t, w);
    ForwardTrans(r, t, Leave(t, w));
  }

  lemma FinishForward(r: Rail, w: Where)
    requires Valid(r)
    ensures Forward(r, Finish(r, w))
  {
    SameKeys(r, r);
    SetLeaveForward(r, w);
  }

  lemma CloseReleaseForward(r: Rail)
    requires Valid(r)
    ensures Forward(r, CloseRelease(r))
  {
    SameKeys(r, r);
    SetLeaveForward(r, Release);
  }

  lemma ActivateTickForward(r: Rail, w: Where)
    requires Valid(r)
    ensures Forward(r, Tick(Activate(r, w), w))
  {
    var t := Activate(r, w);
    ActivateForward(r, w);
    TickForward(t, w);
    ForwardTrans(r, t, Tick(t, w));
  }

  lemma TickSlotsForward(r: Rail, p: nat)
    requires Valid(r)
    ensures Forward(r, TickSlots(r, p))
  {
    if w :| TickSlots(r, p) == Tick(r, w) {
      TickForward(r, w);
    } else {
      SameKeys(r, r);
    }
  }

  lemma ActivateShowForward(r: Rail, t: Rail, pane: Option<nat>)
    requires Forward(r, t)
    ensures Forward(r, Show(t, pane))
  {
    ShowForward(t, pane);
    ForwardTrans(r, t, Show(t, pane));
  }

  lemma SlotStepForward(r: Rail, p: nat, slot: Slot, over: bool)
    requires Valid(r)
    ensures Forward(r, SlotStep(r, p, slot, over))
  {
    var t := EnsureSlot(r, p, slot);
    var w := InSlot(p, slot);
    EnsureSlotForward(r, p, slot);
    ActivateTickForward(t, w);
    FinishForward(t, w);
    SetLeaveForward(t, w);
    LeaveForward(t, w);
    ForwardTrans(r, t, SlotStep(r, p, slot, over));
  }

  lemma AdvanceIs(r: Rail, p: nat, startsNext: bool) returns (w: Where)
    requires p < |r.commands|
    ensures var t := MaybeAdvance(r, p, startsNext);
      t == r || t == TickSlots(r, p) || t == Activate(r, w) || t == Tick(r, w)
  {
    w := Preflight;
    if !r.failed && ActiveCommand(r, p, 0).Some? {
      var i := ActiveCommand(r, p, 0).value;
      w := if i + 1 < r.commands[p] && startsNext then Command(p, i + 1) else Command(p, i);
    }
  }

  lemma MaybeAdvanceForward(r: Rail, t: Rail, p: nat, startsNext: bool)
    requires Valid(r) && p < |r.commands| && t == MaybeAdvance(r, p, startsNext)
    ensures Forward(r, t)
  {
    var w := AdvanceIs(r, p, startsNext);
    AnyForward(r, t, p, w);
  }

  lemma AnyForward(r: Rail, t: Rail, p: nat, w: Where)
    requires Valid(r) && (t == r || t == TickSlots(r, p) || t == Activate(r, w) || t == Tick(r, w))
    ensures Forward(r, t)
  {
    if t == r {
      SameKeys(r, r);
    } else if t == TickSlots(r, p) {
      TickSlotsForward(r, p);
    } else if t == Activate(r, w) {
      ActivateForward(r, w);
    } else {
      TickForward(r, w);
    }
  }

  // ---- lines ----

  lemma InstallForward(r: Rail, body: Body)
    requires Valid(r) && (body.InstallCleanup? || body.InstallDone? || body.InstallScript?)
    ensures Forward(r, InstallLine(r, body))
  {
    var p, t := Index(r, body.t), Ensure(r, body.t);
    EnsureForward(r, body.t);
    match body
    case InstallCleanup(_) =>
      var u := CompleteCommands(t, p, true);
      var v := EnsureSlot(u, p, Cleanup);
      CompleteForward(t, p, true);
      EnsureSlotForward(u, p, Cleanup);
      ActivateForward(v, InSlot(p, Cleanup));
      ForwardTrans(u, v, Activate(v, InSlot(p, Cleanup)));
      ForwardTrans(t, u, Activate(v, InSlot(p, Cleanup)));
      ForwardTrans(r, t, Activate(v, InSlot(p, Cleanup)));
      ActivateShowForward(r, Activate(v, InSlot(p, Cleanup)), Some(p));
    case InstallDone(_) =>
      CompleteForward(t, p, false);
      ForwardTrans(r, t, CompleteCommands(t, p, false));
      ActivateShowForward(r, CompleteCommands(t, p, false), Some(p));
    case InstallScript(_, script) =>
      StartScriptForward(t, p, script);
      ForwardTrans(r, t, StartScript(t, p, script));
      ActivateShowForward(r, StartScript(t, p, script), Some(p));
  }

  lemma ReleaseForward(r: Rail, current: bool)
    requires Valid(r)
    ensures Forward(r, ReleaseLine(r, current))
  {
    var t := CompleteAll(r, 0);
    CompleteAllForward(r, 0);
    if !current {
      ShowForward(r, None);
      ActivateTickForward(t, Release);
      ForwardTrans(r, t, Tick(Activate(t, Release), Release));
      ActivateShowForward(r, Tick(Activate(t, Release), Release), None);
    } else if Is(t, Release, Done) {
      ActivateShowForward(r, t, None);
    } else {
      var u := Activate(t, Release);
      ActivateForward(t, Release);
      SetLeaveForward(u, Release);
      ForwardTrans(t, u, Leave(SetState(u, Release, Done), Release));
      ForwardTrans(r, t, Leave(SetState(u, Release, Done), Release));
      ActivateShowForward(r, Leave(SetState(u, Release, Done), Release), None);
    }
  }

  lemma {:induction false} FirstOpenIsOpen(r: Rail, slot: Slot, p: nat)
    ensures FirstOpen(r, slot, p).Some? ==> Open(r, InSlot(FirstOpen(r, slot, p).value, slot))
    decreases |r.commands| - p
  {
    if p < |r.commands| && !Open(r, InSlot(p, slot)) {
      FirstOpenIsOpen(r, slot, p + 1);
    }
  }

  lemma HealthForward(r: Rail, body: Body)
    requires Valid(r)
    ensures Forward(r, HealthLine(r, body))
  {
    FirstOpenIsOpen(r, Health, 0);
    ShowForward(r, None);
    match FirstOpen(r, Health, 0)
    case None =>
    case Some(p) =>
      var w := InSlot(p, Health);
      var t := Activate(r, w);
      if body.Healthy? {
        ActivateForward(r, w);
        SetLeaveForward(t, w);
        ForwardTrans(r, t, Leave(SetState(t, w, Done), w));
        ActivateShowForward(r, Leave(SetState(t, w, Done), w), Some(p));
      } else if body.HealthSkipped? {
        SetForward(r, w, Skipped);
        ActivateShowForward(r, SetState(r, w, Skipped), None);
      } else {
        ActivateTickForward(r, w);
        ActivateShowForward(r, Tick(t, w), Some(p));
      }
  }

  /** The line that takes back a done step: `process_manager=none` naming a process whose start is done. */
  predicate Unstarts(r: Rail, body: Body) {
    body.StartCommand? && body.none && body.named.Some? && Is(r, InSlot(body.named.value, Start), Done)
  }

  lemma {:induction false} PendingStartIsPending(r: Rail, p: nat)
    ensures FirstPendingStart(r, p).Some? ==> Is(r, InSlot(FirstPendingStart(r, p).value, Start), Pending)
    decreases |r.commands| - p
  {
    if p < |r.commands| && !Is(r, InSlot(p, Start), Pending) {
      PendingStartIsPending(r, p + 1);
    }
  }

  /** Up to a start step itself, a start line closes the release and the pre-start. */
  function BeforeStart(r: Rail, p: nat): Rail {
    Finish(CloseRelease(r), InSlot(p, PreStart))
  }

  lemma BeforeStartForward(r: Rail, p: nat)
    requires Valid(r)
    ensures Forward(r, BeforeStart(r, p))
  {
    CloseReleaseForward(r);
    FinishForward(CloseRelease(r), InSlot(p, PreStart));
    ForwardTrans(r, CloseRelease(r), BeforeStart(r, p));
  }

  lemma BeforeStartSame(r: Rail, p: nat, s: StepState)
    ensures Is(BeforeStart(r, p), InSlot(p, Start), s) <==> Is(r, InSlot(p, Start), s)
  {
  }

  lemma StartForward(r: Rail, named: Option<nat>, none: bool)
    requires Valid(r) && !Unstarts(r, StartCommand(named, none))
    ensures Forward(r, StartLine(r, named, none))
  {
    SameKeys(r, r);
    PendingStartIsPending(r, 0);
    match Claim(r, named)
    case None =>
    case Some(p) =>
      var t, w := BeforeStart(r, p), InSlot(p, Start);
      BeforeStartForward(r, p);
      BeforeStartSame(r, p, Done);
      var u := if none then SetState(t, w, Skipped) else Tick(Activate(t, w), w);
      if none {
        SetForward(t, w, Skipped);
      } else {
        ActivateTickForward(t, w);
      }
      ForwardTrans(r, t, u);
      ActivateShowForward(r, u, Some(p));
  }

  lemma UnstartValid(r: Rail, named: Option<nat>)
    requires Valid(r) && Unstarts(r, StartCommand(named, true))
    ensures var t := StartLine(r, named, true);
      Valid(t) && (r.failed ==> t.failed) && Is(t, InSlot(named.value, Start), Skipped)
  {
    var p := named.value;
    var t, w := BeforeStart(r, p), InSlot(p, Start);
    BeforeStartForward(r, p);
    BeforeStartSame(r, p, Done);
    SameKeys(t, SetState(t, w, Skipped));
    SameKeys(t, Show(SetState(t, w, Skipped), Some(p)));
  }

  // ---- a failure ----

  predicate CommandFrom(commands: seq<nat>, p: nat, i: nat, w: Where) {
    w.Command? && p <= w.p < |commands| && w.i < commands[w.p] && (w.p == p ==> i <= w.i)
  }

  lemma InCons<T>(x: T, xs: seq<T>, w: T)
    ensures w in [x] + xs <==> w == x || w in xs
  {
  }

  lemma CommandNext(commands: seq<nat>, p: nat, i: nat, w: Where)
    requires p < |commands|
    ensures i < commands[p] ==>
              (CommandFrom(commands, p, i, w) <==> w == Command(p, i) || CommandFrom(commands, p, i + 1, w))
    ensures i >= commands[p] ==> (CommandFrom(commands, p, i, w) <==> CommandFrom(commands, p + 1, 0, w))
  {
  }

  lemma {:induction false} CommandsFromHas(commands: seq<nat>, p: nat, i: nat, w: Where)
    ensures w in CommandsFrom(commands, p, i) <==> CommandFrom(commands, p, i, w)
    decreases |commands| - p, if p < |commands| then commands[p] - i else 0
  {
    if p < |commands| {
      CommandNext(commands, p, i, w);
      if i >= commands[p] {
        CommandsFromHas(commands, p + 1, 0, w);
      } else {
        CommandsFromHas(commands, p, i + 1, w);
        InCons(Command(p, i), CommandsFrom(commands, p, i + 1), w);
      }
    }
  }

  lemma {:induction false} SlotsFromHas(r: Rail, slot: Slot, p: nat, w: Where)
    ensures w in SlotsFrom(r, slot, p) <==> w.InSlot? && w.slot == slot && p <= w.p < |r.commands| && w in r.steps
    decreases |r.commands| - p
  {
    if p < |r.commands| {
      SlotsFromHas(r, slot, p + 1, w);
    }
  }

  /** The order lists exactly the steps there are. */
  lemma OrderedHas(r: Rail, w: Where)
    requires Valid(r)
    ensures w in Ordered(r) <==> w in r.steps
  {
    CommandsFromHas(r.commands, 0, 0, w);
    SlotsFromHas(r, Cleanup, 0, w);
    SlotsFromHas(r, PreStart, 0, w);
    SlotsFromHas(r, Run, 0, w);
    SlotsFromHas(r, Start, 0, w);
    SlotsFromHas(r, Health, 0, w);
    assert w in r.steps ==> Placed(r, w);
    assert Placed(r, w) && !w.InSlot? ==> w in r.steps;
  }

  lemma IndexOfHas(all: seq<Where>, w: Where)
    requires w in all
    ensures 0 <= IndexOf(all, w) && all[IndexOf(all, w)] == w
  {
  }

  lemma FailIndexFound(r: Rail)
    requires Valid(r) && FailIndex(r) < 0
    ensures r.cur.None? && forall w :: w in r.steps ==> !Open(r, w)
  {
    var all := Ordered(r);
    if r.cur.Some? {
      OrderedHas(r, r.cur.value);
      IndexOfHas(all, r.cur.value);
    }
    forall w | w in r.steps ensures !Open(r, w) {
      OrderedHas(r, w);
      var i :| 0 <= i < |all| && all[i] == w;
      assert !(x => Open(r, x))(all[i]);
    }
  }

  /** A failure is pinned on a step that is then the current one, and failed unless it was done. */
  lemma PinFound(r: Rail)
    requires Valid(r) && FailIndex(r) >= 0
    ensures var idx := FailIndex(r); var w := Ordered(r)[idx]; var t := PinFailure(r, idx);
      && w in r.steps && t.cur == Some(w) && t.commands == r.commands && t.failed == r.failed
      && t.steps == (if Is(r, w, Done) then r.steps else SetState(r, w, Failed).steps)
  {
    var all := Ordered(r);
    var w := all[FailIndex(r)];
    OrderedHas(r, w);
    if r.cur.Some? {
      OrderedHas(r, r.cur.value);
      IndexOfHas(all, r.cur.value);
    }
  }

  lemma IndexShown(r: Rail, w: Where)
    requires Valid(r) && w in r.steps
    ensures var i := IndexOf(Ordered(r), w); 0 <= i && Ordered(r)[i] == w
  {
    OrderedHas(r, w);
    IndexOfHas(Ordered(r), w);
  }

  lemma SettledCloses(s: StepState, at: int, i: int)
    requires 0 <= at && (i == at ==> s != Pending && s != Active)
    ensures var t := Settled(s, at, i); t != Pending && t != Active && (s == Done ==> t == Done)
  {
  }

  lemma SettleEach(r: Rail, w0: Where, w: Where)
    requires Valid(r) && w0 in r.steps && !Open(r, w0) && w in r.steps
    ensures var at := IndexOf(Ordered(r), w0); var t := SettleAround(r, at);
      !Open(t, w) && (Is(r, w, Done) ==> Is(t, w, Done))
  {
    IndexShown(r, w0);
    IndexShown(r, w);
    SettledCloses(r.steps[w].state, IndexOf(Ordered(r), w0), IndexOf(Ordered(r), w));
  }

  ghost predicate AllOver(r: Rail) {
    forall w :: !Open(r, w)
  }

  /** Nothing is open any more, nothing done taken back. */
  ghost predicate Settles(r: Rail, t: Rail) {
    Forward(r, t) && t.failed && AllOver(t)
  }

  lemma SettledRail(r: Rail, t: Rail)
    requires Valid(r) && t.steps.Keys == r.steps.Keys && t.commands == r.commands && t.cur == r.cur && t.failed
    requires forall w :: w in r.steps ==> !Open(t, w) && (Is(r, w, Done) ==> Is(t, w, Done))
    ensures Settles(r, t)
  {
    SameKeys(r, t);
    forall w | w in r.steps ensures Moved(r.steps[w], w, t) {
      assert !Open(t, w);
    }
  }

  /** Settling around a step that is over leaves nothing open and takes back nothing done. */
  lemma SettleForward(r: Rail, w0: Where)
    requires Valid(r) && w0 in r.steps && !Open(r, w0)
    ensures Settles(r, SettleAround(r, IndexOf(Ordered(r), w0)))
  {
    var t := SettleAround(r, IndexOf(Ordered(r), w0));
    forall w | w in r.steps ensures !Open(t, w) && (Is(r, w, Done) ==> Is(t, w, Done)) {
      SettleEach(r, w0, w);
    }
    SettledRail(r, t);
  }

  lemma FailNothing(r: Rail)
    requires Valid(r) && forall w :: w in r.steps ==> !Open(r, w)
    ensures Settles(r, SettleAround(r, -1))
  {
    SettledRail(r, SettleAround(r, -1));
  }

  lemma FailFound(r: Rail) returns (t: Rail, w: Where)
    requires Valid(r) && FailIndex(r) >= 0
    ensures Forward(r, t) && w in t.steps && !Open(t, w) && FailHere(r) == SettleAround(t, IndexOf(Ordered(t), w))
  {
    w, t := Ordered(r)[FailIndex(r)], PinFailure(r, FailIndex(r));
    PinFound(r);
    PinForward(r, w, t);
    FailIs(r, t, w);
  }

  lemma FailIsNothing(r: Rail)
    requires Valid(r) && FailIndex(r) < 0
    ensures FailHere(r) == SettleAround(r, -1)
  {
    FailIndexFound(r);
  }

  lemma SettlesAfter(r: Rail, t: Rail, u: Rail)
    requires Forward(r, t) && Settles(t, u)
    ensures Settles(r, u)
  {
    ForwardTrans(r, t, u);
  }

  /** After a failure no step is open, and what was done still is. */
  lemma FailSettles(r: Rail)
    requires Valid(r)
    ensures Forward(r, FailHere(r)) && FailHere(r).failed && AllOver(FailHere(r))
  {
    if FailIndex(r) < 0 {
      FailIndexFound(r);
      FailIsNothing(r);
      FailNothing(r);
    } else {
      var t, w := FailFound(r);
      SettleForward(t, w);
      SettlesAfter(r, t, SettleAround(t, IndexOf(Ordered(t), w)));
    }
  }

  lemma FailIs(r: Rail, t: Rail, w: Where)
    requires t == PinFailure(r, FailIndex(r)) && t.cur == Some(w)
    ensures FailHere(r) == SettleAround(t, IndexOf(Ordered(t), w))
  {
  }

  lemma PinForward(r: Rail, w: Where, t: Rail)
    requires Valid(r) && w in r.steps && t.cur == Some(w) && t.commands == r.commands && t.failed == r.failed
    requires t.steps == (if Is(r, w, Done) then r.steps else SetState(r, w, Failed).steps)
    ensures Forward(r, t) && w in t.steps && !Open(t, w)
  {
    assert t.steps.Keys == r.steps.Keys;
    SameKeys(r, t);
  }

  // ---- every line ----

  lemma CloneForward(r: Rail, ready: bool)
    requires Valid(r)
    ensures Forward(r, Do(r, CloneLine(ready)))
  {
    var t := Activate(r, Clone);
    ActivateForward(r, Clone);
    SetLeaveForward(t, Clone);
    TickForward(t, Clone);
    var u := if ready then Leave(SetState(t, Clone, Done), Clone) else Tick(t, Clone);
    ForwardTrans(r, t, u);
    ActivateShowForward(r, u, None);
  }

  lemma CloseThenStep(r: Rail, p: nat, over: bool)
    requires Valid(r)
    ensures Forward(r, SlotStep(CloseRelease(r), p, PreStart, over))
  {
    CloseReleaseForward(r);
    SlotStepForward(CloseRelease(r), p, PreStart, over);
    ForwardTrans(r, CloseRelease(r), SlotStep(CloseRelease(r), p, PreStart, over));
  }

  lemma PreStartForward(r: Rail, t: Target, over: bool)
    requires Valid(r)
    ensures Forward(r, Do(r, PreStartLine(t, over)))
  {
    var s, p := Ensure(r, t), Index(r, t);
    var v := SlotStep(CloseRelease(s), p, PreStart, over);
    EnsureForward(r, t);
    CloseThenStep(s, p, over);
    ForwardTrans(r, s, v);
    ActivateShowForward(r, v, Some(p));
  }

  lemma SlotForward(r: Rail, slot: Slot, t: Target, over: bool)
    requires Valid(r)
    ensures Forward(r, Do(r, SlotLine(slot, t, over)))
  {
    var s, p := Ensure(r, t), Index(r, t);
    var v := SlotStep(s, p, slot, over);
    EnsureForward(r, t);
    SlotStepForward(s, p, slot, over);
    ForwardTrans(r, s, v);
    ActivateShowForward(r, v, Some(p));
  }

  lemma OutputForward(r: Rail, startsNext: bool)
    requires Valid(r)
    ensures Forward(r, Do(r, Output(startsNext)))
  {
    if r.pane.Some? && r.pane.value < |r.commands| {
      MaybeAdvanceForward(r, Do(r, Output(startsNext)), r.pane.value, startsNext);
    } else if r.cur.Some? && !r.failed {
      TickForward(r, r.cur.value);
    } else {
      SameKeys(r, r);
    }
  }

  lemma QuietForward(r: Rail, body: Body)
    requires Valid(r) && (body.Blank? || body.CloneRemoved? || body.ReleasePruned? || body.PhaseOther? || body.Pm2Save?)
    ensures Forward(r, Do(r, body))
  {
    SameKeys(r, r);
    ShowForward(r, None);
    if r.cur.Some? {
      TickForward(r, r.cur.value);
    }
  }

  lemma PreflightForward(r: Rail)
    requires Valid(r)
    ensures Forward(r, Do(r, PreflightLine))
  {
    ActivateTickForward(r, Preflight);
    ActivateShowForward(r, Tick(Activate(r, Preflight), Preflight), None);
  }

  /** Every line but one that takes back a done start moves the rail only forward. */
  lemma DoForward(r: Rail, body: Body)
    requires Valid(r) && !Unstarts(r, body)
    ensures Forward(r, Do(r, body))
  {
    match body
    case FailedLine => FailSettles(r);
    case PreflightLine => PreflightForward(r);
    case CloneLine(ready) => CloneForward(r, ready);
    case InstallCleanup(_) => InstallForward(r, body);
    case InstallDone(_) => InstallForward(r, body);
    case InstallScript(_, _) => InstallForward(r, body);
    case ReleaseCurrent => ReleaseForward(r, true);
    case ReleaseOther => ReleaseForward(r, false);
    case PreStartLine(t, over) => PreStartForward(r, t, over);
    case Healthy => HealthForward(r, body);
    case HealthSkipped => HealthForward(r, body);
    case HealthOther => HealthForward(r, body);
    case SlotLine(slot, t, over) => SlotForward(r, slot, t, over);
    case StartCommand(named, none) => StartForward(r, named, none);
    case Output(startsNext) => OutputForward(r, startsNext);
    case _ => QuietForward(r, body);
  }

  function Tagged(r: Rail, l: Line): Rail {
    if l.tag.Some? then Show(Ensure(r, l.tag.value), Some(Index(r, l.tag.value))) else r
  }

  lemma TaggedForward(r: Rail, l: Line)
    requires Valid(r)
    ensures Forward(r, Tagged(r, l)) && Tagged(r, l).steps == r.steps
  {
    SameKeys(r, r);
    if l.tag.Some? {
      EnsureForward(r, l.tag.value);
      ActivateShowForward(r, Ensure(r, l.tag.value), Some(Index(r, l.tag.value)));
    }
  }

  ghost predicate KeepsDone(r: Rail, t: Rail) {
    forall w :: Is(r, w, Done) ==> Is(t, w, Done)
  }

  /**
   * A done step stays done under every line, unless the line says no manager is used by a process whose start
   * is done.
   */
  lemma DoneStaysDone(r: Rail, l: Line)
    requires Valid(r)
    ensures KeepsDone(r, DoLine(r, l)) <==> !Unstarts(r, l.body)
    ensures Valid(DoLine(r, l)) && (r.failed ==> DoLine(r, l).failed)
    ensures !Unstarts(r, l.body) ==> Forward(r, DoLine(r, l))
  {
    var t := Tagged(r, l);
    TaggedForward(r, l);
    if Unstarts(r, l.body) {
      UnstartValid(t, l.body.named);
      assert Is(r, InSlot(l.body.named.value, Start), Done);
    } else {
      DoForward(t, l.body);
      ForwardTrans(r, t, Do(t, l.body));
      forall w | Is(r, w, Done) ensures Is(DoLine(r, l), w, Done) {
        assert Moved(r.steps[w], w, DoLine(r, l));
      }
    }
  }

  // ---- whole logs ----

  /** The rail before the first line: nothing has started. */
  ghost predicate Initial(r: Rail) {
    && Valid(r) && r.cur.None? && !r.failed
    && (forall w :: w in r.steps ==> r.steps[w].state == Pending)
  }

  lemma {:induction false} DoAllValid(r: Rail, log: seq<Line>)
    requires Valid(r)
    ensures Valid(DoAll(r, log))
    decreases log
  {
    if log == [] {
    } else {
      DoneStaysDone(r, log[0]);
      DoAllValid(DoLine(r, log[0]), log[1..]);
    }
  }

  /** The pass that fails steps still active after a terminal failure finds none. */
  lemma NothingLeftActive(r: Rail)
    requires Valid(r)
    ensures CloseOpen(FailHere(r), Failed, false) == FailHere(r)
  {
    FailSettles(r);
    var t := FailHere(r);
    assert forall w :: !Is(t, w, Active);
    assert CloseOpen(t, Failed, false).steps == t.steps;
  }

  /**
   * Whatever the log: once the run is over every step is done, failed or skipped, and what the log
   * left done still is. After a success nothing at all is open.
   */
  lemma RailSettles(r: Rail, log: seq<Line>, status: Status)
    requires Initial(r) && !status.IsPending? && !status.IsRunning?
    ensures var t := Conclude(DoAll(r, log), status);
      AllOver(t) && KeepsDone(DoAll(r, log), t)
  {
    var s := DoAll(r, log);
    DoAllValid(r, log);
    if status != Succeeded {
      NothingLeftActive(s);
      FailSettles(s);
      forall w | Is(s, w, Done) ensures Is(FailHere(s), w, Done) {
        assert Moved(s.steps[w], w, FailHere(s));
      }
    }
  }

  // ---- percentages ----

  lemma {:induction false} SumBounded(r: Rail, all: seq<Where>)
    ensures 0 <= Sum(r, all) <= 100 * |all|
  {
    if all == [] {
    } else {
      SumBounded(r, all[1..]);
    }
  }

  lemma RoundDivBounded(n: int, d: nat)
    requires d > 0 && 0 <= n <= 100 * d
    ensures 0 <= RoundDiv(n, d) <= 100
  {
    DivBounded(2 * n + d, 2 * d, 101);
  }

  lemma DivBounded(x: int, y: nat, k: int)
    requires y > 0 && 0 <= x < k * y
    ensures 0 <= x / y < k
  {
    assert x / y * y <= x;
    assert (x / y - k) * y == x / y * y - k * y;
  }

  /** The overall percentage is within 0 and 100, is 100 after a success, and below 100 as long as the run goes on. */
  lemma PercentRange(r: Rail, status: Status)
    ensures 0 <= Percent(r, status) <= 100
    ensures status == Succeeded ==> Percent(r, status) == 100
    ensures status == IsRunning || status == IsPending ==> Percent(r, status) < 100
  {
    var all := Ordered(r);
    SumBounded(r, all);
    RoundDivBounded(Sum(r, all), |all|);
  }

  // ---- a done step taken back ----

  /** One process with a start step. */
  function OneProcess(): Rail {
    Rail(map[Preflight := NewStep, Clone := NewStep, Release := NewStep, InSlot(0, Start) := NewStep], [0],
         None, false, None)
  }

  lemma StartDone(r: Rail)
    requires Is(r, InSlot(0, Start), Pending) && |r.commands| > 0
    ensures Is(DoLine(r, Line(None, SlotLine(Start, Known(0), true))), InSlot(0, Start), Done)
  {
  }

  lemma DoneTaken(r: Rail)
    requires Is(r, InSlot(0, Start), Done)
    ensures Is(DoLine(r, Line(None, StartCommand(Some(0), true))), InSlot(0, Start), Skipped)
  {
    BeforeStartSame(r, 0, Done);
  }

  lemma NothingStarted()
    ensures Initial(OneProcess())
  {
  }

  /** From a rail on which nothing has started, the second of these two lines takes back what the first one did. */
  lemma StartTakenBack()
    ensures Initial(OneProcess())
    ensures var done := Line(None, SlotLine(Start, Known(0), true));
      var none := Line(None, StartCommand(Some(0), true));
      && Is(DoAll(OneProcess(), [done]), InSlot(0, Start), Done)
      && Is(DoAll(OneProcess(), [done, none]), InSlot(0, Start), Skipped)
  {
    var done, none := Line(None, SlotLine(Start, Known(0), true)), Line(None, StartCommand(Some(0), true));
    NothingStarted();
    StartDone(OneProcess());
    DoneTaken(DoLine(OneProcess(), done));
    TwoLines(OneProcess(), done, none);
  }

  lemma TwoLines(r: Rail, a: Line, b: Line)
    ensures DoAll(r, [a]) == DoLine(r, a)
    ensures DoAll(r, [a, b]) == DoLine(DoLine(r, a), b)
  {
    OneLine(r, a);
    OneLine(DoLine(r, a), b);
    assert [a, b][1..] == [b];
  }

  lemma OneLine(r: Rail, a: Line)
    ensures DoAll(r, [a]) == DoLine(r, a)
  {
    assert [a][1..] == [];
  }
}
