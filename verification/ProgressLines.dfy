/** What each kind of log line does to the states of the steps, apart from how it is worked out. */
module ProgressLines {
  import opened Seqs
  import opened Progress
  import opened ProgressRules
  import opened ProgressOrder

  /** The same steps in the same states, and the same current step. */
  ghost predicate Unchanged(r: Rail, t: Rail) {
    t.failed == r.failed && t.cur == r.cur && t.commands == r.commands && SameBut(r, t, {})
  }

  /** Every step but these is there as before, in the state it was in. */
  ghost predicate SameBut(r: Rail, t: Rail, ws: set<Where>) {
    forall v :: v !in ws ==> (v in t.steps <==> v in r.steps) && StateAt(t, v) == StateAt(r, v)
  }

  // ---- turning to a step ----

  /** v is being worked on, and turning to w ends that: within one process, or from a step all processes share. */
  ghost predicate LeftFor(r: Rail, v: Where, w: Where) {
    && r.cur == Some(v) && v != w && Is(r, v, Active)
    && (|| v == Preflight || v == Clone || v == Release
        || (w != Preflight && w != Clone && w != Release && v.p == w.p))
  }

  /**
   * The rail turns to w: after a failure, or when w is over or not there, nothing happens. Otherwise w
   * is active and the current step, and a step this ends is done.
   */
  ghost predicate TurnsTo(r: Rail, t: Rail, w: Where) {
    if r.failed || !Open(r, w) then Unchanged(r, t)
    else
      && t.failed == r.failed && t.commands == r.commands && t.cur == Some(w) && Is(t, w, Active)
      && forall v :: v != w ==>
           (v in t.steps <==> v in r.steps) && StateAt(t, v) == if LeftFor(r, v, w) then Done else StateAt(r, v)
  }

  lemma ActivateTurns(r: Rail, w: Where)
    ensures TurnsTo(r, Activate(r, w), w)
  {
  }

  /** w is brought to state s, and if it was the current step there is none any more. */
  ghost predicate Ends(r: Rail, t: Rail, w: Where, s: StepState) {
    && t.failed == r.failed && t.commands == r.commands && SameBut(r, t, {w})
    && (w in r.steps ==> Is(t, w, s)) && (w in t.steps <==> w in r.steps)
    && t.cur == if r.cur == Some(w) then None else r.cur
  }

  lemma LeaveEnds(r: Rail, w: Where, s: StepState)
    ensures Ends(r, Leave(SetState(r, w, s), w), w, s)
  {
  }

  lemma ShowEnds(r: Rail, t: Rail, w: Where, s: StepState, pane: Option<nat>)
    requires Ends(r, t, w, s)
    ensures Ends(r, Show(t, pane), w, s)
  {
  }

  /** Ticks and panes are not states. */
  lemma Looks(r: Rail, t: Rail, u: Rail, w: Where, pane: Option<nat>)
    requires u == Tick(t, w) || u == Show(t, pane) || u == Show(Tick(t, w), pane)
    ensures TurnsTo(r, t, w) ==> TurnsTo(r, u, w)
    ensures Unchanged(r, t) ==> Unchanged(r, u)
  {
    forall v ensures StateAt(u, v) == StateAt(t, v) && (v in u.steps <==> v in t.steps) {
    }
  }

  // ---- the shared steps ----

  /** A preflight line turns to the preflight, a clone line to the clone. */
  lemma SharedLines(r: Rail)
    ensures TurnsTo(r, Do(r, PreflightLine), Preflight)
    ensures TurnsTo(r, Do(r, CloneLine(false)), Clone)
  {
    ActivateTurns(r, Preflight);
    Looks(r, Activate(r, Preflight), Do(r, PreflightLine), Preflight, None);
    ActivateTurns(r, Clone);
    Looks(r, Activate(r, Clone), Do(r, CloneLine(false)), Clone, None);
  }

  /** A clone line that says it is ready turns to the clone and ends it. */
  lemma CloneReady(r: Rail) returns (mid: Rail)
    ensures TurnsTo(r, mid, Clone) && Ends(mid, Do(r, CloneLine(true)), Clone, Done)
  {
    mid := Activate(r, Clone);
    ActivateTurns(r, Clone);
  }

  /** These lines only choose what is shown, or nothing at all. */
  lemma QuietLines(r: Rail)
    ensures Unchanged(r, Do(r, Blank)) && Unchanged(r, Do(r, CloneRemoved)) && Unchanged(r, Do(r, ReleasePruned))
    ensures Unchanged(r, Do(r, PhaseOther)) && Unchanged(r, Do(r, Pm2Save))
  {
  }

  // ---- commands ----

  /** The current step is a command of a process in this range. */
  ghost predicate AtCommand(r: Rail, from: nat, upTo: nat) {
    r.cur.Some? && r.cur.value.Command? && from <= r.cur.value.p < upTo
  }

  ghost predicate Begun(r: Rail, p: nat) {
    exists v: Where :: v.Command? && v.p == p && (Is(r, v, Active) || Is(r, v, Done))
  }

  /**
   * The command steps of process p that are running, and if so told the pending ones as well, are done;
   * none of them is the current step any more, unless none has begun.
   */
  ghost predicate CommandsClosed(r: Rail, t: Rail, p: nat, all: bool) {
    && t.failed == r.failed && t.commands == r.commands
    && t.cur == (if !r.failed && (all || Begun(r, p)) && AtCommand(r, p, p + 1) then None else r.cur)
    && forall v ::
         && (v in t.steps <==> v in r.steps)
         && StateAt(t, v) ==
              if !r.failed && v in r.steps && v.Command? && v.p == p && (Is(r, v, Active) || (all && Is(r, v, Pending)))
              then Done else StateAt(r, v)
  }

  lemma CompleteCloses(r: Rail, p: nat, all: bool)
    ensures CommandsClosed(r, CompleteCommands(r, p, all), p, all)
  {
  }

  /** "done" after an install ends the commands of that process that are running. */
  lemma InstallDoneLine(r: Rail, p: nat)
    requires p < |r.commands|
    ensures CommandsClosed(r, Do(r, InstallDone(Known(p))), p, false)
  {
    CompleteCloses(r, p, false);
  }

  /** A slot of a known process is listed from here on, keeping the state it had; nothing else changes. */
  lemma SlotThere(r: Rail, p: nat, slot: Slot)
    ensures var t := EnsureSlot(r, p, slot);
      && t.failed == r.failed && t.commands == r.commands && t.cur == r.cur && SameBut(r, t, {InSlot(p, slot)})
      && StateAt(t, InSlot(p, slot)) == StateAt(r, InSlot(p, slot))
      && (InSlot(p, slot) in t.steps <==> InSlot(p, slot) in r.steps || p < |r.commands|)
  {
  }

  /** A cleanup line ends all commands of the process and turns to its cleanup, which is added if it was not listed. */
  lemma CleanupLine(r: Rail, p: nat) returns (closed: Rail, listed: Rail)
    requires p < |r.commands|
    ensures CommandsClosed(r, closed, p, true)
    ensures listed == EnsureSlot(closed, p, Cleanup) && InSlot(p, Cleanup) in listed.steps
    ensures TurnsTo(listed, Do(r, InstallCleanup(Known(p))), InSlot(p, Cleanup))
  {
    closed := CompleteCommands(r, p, true);
    listed := EnsureSlot(closed, p, Cleanup);
    CompleteCloses(r, p, true);
    ActivateTurns(listed, InSlot(p, Cleanup));
    Looks(listed, Activate(listed, InSlot(p, Cleanup)), Do(r, InstallCleanup(Known(p))), InSlot(p, Cleanup), Some(p));
  }

  // ---- the release ----

  /** The commands of all processes from p on are done, and none of them is the current step. */
  ghost predicate AllClosed(r: Rail, t: Rail, p: nat) {
    && t.failed == r.failed && t.commands == r.commands
    && t.cur == (if !r.failed && AtCommand(r, p, |r.commands|) then None else r.cur)
    && forall v ::
         && (v in t.steps <==> v in r.steps)
         && StateAt(t, v) ==
              if !r.failed && v in r.steps && v.Command? && p <= v.p < |r.commands| && Open(r, v) then Done
              else StateAt(r, v)
  }

  lemma {:induction false} CompleteAllCloses(r: Rail, p: nat)
    ensures AllClosed(r, CompleteAll(r, p), p)
    decreases |r.commands| - p
  {
    if p < |r.commands| {
      var t := CompleteCommands(r, p, true);
      CompleteCloses(r, p, true);
      CompleteAllCloses(t, p + 1);
    }
  }

  /** A release line ends all commands and turns to the release, unless that is done. */
  lemma ReleaseLines(r: Rail) returns (closed: Rail)
    ensures AllClosed(r, closed, 0)
    ensures if Is(r, Release, Done) then Unchanged(r, Do(r, ReleaseOther))
            else TurnsTo(closed, Do(r, ReleaseOther), Release)
  {
    closed := CompleteAll(r, 0);
    CompleteAllCloses(r, 0);
    ActivateTurns(closed, Release);
    if !Is(r, Release, Done) {
      Looks(closed, Activate(closed, Release), Do(r, ReleaseOther), Release, None);
    }
  }

  /** Once the link points at it the release is over as well. */
  lemma ReleaseIsCurrent(r: Rail) returns (closed: Rail, mid: Rail)
    ensures AllClosed(r, closed, 0) && TurnsTo(closed, mid, Release)
    ensures if Is(r, Release, Done) then
              closed.cur == Do(r, ReleaseCurrent).cur && SameBut(closed, Do(r, ReleaseCurrent), {})
            else Ends(mid, Do(r, ReleaseCurrent), Release, Done)
  {
    closed := CompleteAll(r, 0);
    mid := Activate(closed, Release);
    CompleteAllCloses(r, 0);
    ActivateTurns(closed, Release);
    CurrentIs(r, closed, mid);
    if !Is(r, Release, Done) {
      var t := Leave(SetState(mid, Release, Done), Release);
      LeaveEnds(mid, Release, Done);
      ShowEnds(mid, t, Release, Done, None);
    }
  }

  lemma CurrentIs(r: Rail, closed: Rail, mid: Rail)
    requires closed == CompleteAll(r, 0) && mid == Activate(closed, Release)
    requires Is(closed, Release, Done) <==> Is(r, Release, Done)
    ensures Do(r, ReleaseCurrent) ==
            Show(if Is(r, Release, Done) then closed else Leave(SetState(mid, Release, Done), Release), None)
  {
  }

  /** A release that is being worked on is over when something after it begins. */
  ghost predicate ReleaseOver(r: Rail, t: Rail) {
    if Is(r, Release, Active) then Ends(r, t, Release, Done) else Unchanged(r, t)
  }

  lemma CloseReleaseEnds(r: Rail)
    ensures ReleaseOver(r, CloseRelease(r))
  {
  }

  // ---- the steps of a process ----

  /** A run or start line turns to that step of its process, added if it was not listed; "done" ends it. */
  lemma SlotLines(r: Rail, slot: Slot, p: nat) returns (listed: Rail)
    requires p < |r.commands| && (slot == Run || slot == Start)
    ensures listed == EnsureSlot(r, p, slot) && InSlot(p, slot) in listed.steps
    ensures TurnsTo(listed, Do(r, SlotLine(slot, Known(p), false)), InSlot(p, slot))
    ensures var w := InSlot(p, slot);
      Ends(listed, Do(r, SlotLine(slot, Known(p), true)), w, if Open(listed, w) then Done else StateAt(listed, w))
  {
    listed := EnsureSlot(r, p, slot);
    StepTurns(r, slot, p);
    SlotLineIs(r, slot, p, false);
    SlotDone(r, slot, p);
  }

  lemma SlotLineIs(r: Rail, slot: Slot, p: nat, over: bool)
    requires p < |r.commands|
    ensures Do(r, SlotLine(slot, Known(p), over)) == Show(SlotStep(r, p, slot, over), Some(p))
  {
  }

  lemma StepTurns(r: Rail, slot: Slot, p: nat)
    ensures TurnsTo(EnsureSlot(r, p, slot), SlotStep(r, p, slot, false), InSlot(p, slot))
    ensures TurnsTo(EnsureSlot(r, p, slot), Show(SlotStep(r, p, slot, false), Some(p)), InSlot(p, slot))
  {
    var t, w := EnsureSlot(r, p, slot), InSlot(p, slot);
    ActivateTurns(t, w);
    Looks(t, Activate(t, w), Tick(Activate(t, w), w), w, None);
    Looks(t, Activate(t, w), Show(Tick(Activate(t, w), w), Some(p)), w, Some(p));
  }

  lemma SlotDone(r: Rail, slot: Slot, p: nat)
    requires p < |r.commands| && (slot == Run || slot == Start)
    ensures var t, w := EnsureSlot(r, p, slot), InSlot(p, slot);
      Ends(t, Do(r, SlotLine(slot, Known(p), true)), w, if Open(t, w) then Done else StateAt(t, w))
  {
    var t, w := EnsureSlot(r, p, slot), InSlot(p, slot);
    SlotLineIs(r, slot, p, true);
    if Open(t, w) {
      LeaveEnds(t, w, Done);
      ShowEnds(t, Leave(SetState(t, w, Done), w), w, Done, Some(p));
    }
  }

  /** A pre-start line ends the release and turns to the pre-start of its process; "done" ends that if it is open. */
  lemma PreStartLines(r: Rail, p: nat) returns (over: Rail, listed: Rail)
    requires p < |r.commands|
    ensures ReleaseOver(r, over) && listed == EnsureSlot(over, p, PreStart)
    ensures TurnsTo(listed, Do(r, PreStartLine(Known(p), false)), InSlot(p, PreStart))
    ensures var w, t := InSlot(p, PreStart), Do(r, PreStartLine(Known(p), true));
      if Open(listed, w) then Ends(listed, t, w, Done) else Unchanged(listed, t)
  {
    over := CloseRelease(r);
    listed := EnsureSlot(over, p, PreStart);
    CloseReleaseEnds(r);
    StepTurns(over, PreStart, p);
    FinishEnds(listed, InSlot(p, PreStart), Some(p));
  }

  lemma FinishEnds(r: Rail, w: Where, pane: Option<nat>)
    ensures if Open(r, w) then Ends(r, Finish(r, w), w, Done) && Ends(r, Show(Finish(r, w), pane), w, Done)
            else Unchanged(r, Finish(r, w)) && Unchanged(r, Show(Finish(r, w), pane))
  {
    LeaveEnds(r, w, Done);
  }

  // ---- health ----

  /** The first process, from p on, whose health step is open. */
  lemma {:induction false} FirstOpenIs(r: Rail, slot: Slot, p: nat)
    ensures match FirstOpen(r, slot, p)
            case None => forall q :: p <= q < |r.commands| ==> !Open(r, InSlot(q, slot))
            case Some(q) => p <= q < |r.commands| && Open(r, InSlot(q, slot)) &&
                            forall k :: p <= k < q ==> !Open(r, InSlot(k, slot))
    decreases |r.commands| - p
  {
    if p < |r.commands| && !Open(r, InSlot(p, slot)) {
      FirstOpenIs(r, slot, p + 1);
    }
  }

  /** The health step a line is about. */
  ghost predicate NextHealth(r: Rail, p: nat) {
    p < |r.commands| && Open(r, InSlot(p, Health)) && forall k :: 0 <= k < p ==> !Open(r, InSlot(k, Health))
  }

  lemma NextHealthFound(r: Rail, p: nat)
    requires NextHealth(r, p)
    ensures FirstOpen(r, Health, 0) == Some(p)
  {
    FirstOpenIs(r, Health, 0);
  }

  /** A health line turns to the first health step that is open. */
  lemma HealthTurns(r: Rail, p: nat)
    requires NextHealth(r, p)
    ensures TurnsTo(r, Do(r, HealthOther), InSlot(p, Health))
  {
    var w := InSlot(p, Health);
    NextHealthFound(r, p);
    ActivateTurns(r, w);
    Looks(r, Activate(r, w), Show(Tick(Activate(r, w), w), Some(p)), w, Some(p));
  }

  /** If it says healthy, it ends it as well. */
  lemma HealthEnds(r: Rail, p: nat) returns (mid: Rail)
    requires NextHealth(r, p)
    ensures TurnsTo(r, mid, InSlot(p, Health)) && Ends(mid, Do(r, Healthy), InSlot(p, Health), Done)
  {
    var w := InSlot(p, Health);
    mid := Activate(r, w);
    NextHealthFound(r, p);
    ActivateTurns(r, w);
    LeaveEnds(mid, w, Done);
    ShowEnds(mid, Leave(SetState(mid, w, Done), w), w, Done, Some(p));
  }

  /** If it says skipped, that step is skipped and nothing else happens. */
  lemma HealthSkips(r: Rail, p: nat)
    requires NextHealth(r, p)
    ensures var t := Do(r, Body.HealthSkipped);
      t.failed == r.failed && t.cur == r.cur && SameBut(r, t, {InSlot(p, Health)}) && Is(t, InSlot(p, Health), Skipped)
  {
    NextHealthFound(r, p);
  }

  lemma NoHealthOpen(r: Rail)
    requires forall k :: 0 <= k < |r.commands| ==> !Open(r, InSlot(k, Health))
    ensures Unchanged(r, Do(r, Healthy)) && Unchanged(r, Do(r, Body.HealthSkipped)) && Unchanged(r, Do(r, HealthOther))
  {
    FirstOpenIs(r, Health, 0);
  }

  // ---- starting ----

  /** The process a start command is for. */
  ghost predicate StartOf(r: Rail, named: Option<nat>, p: nat) {
    if named.Some? && InSlot(named.value, Start) in r.steps then p == named.value
    else
      && p < |r.commands| && Is(r, InSlot(p, Start), Pending)
      && forall k :: 0 <= k < p ==> !Is(r, InSlot(k, Start), Pending)
  }

  lemma {:induction false} FirstPendingIs(r: Rail, p: nat)
    ensures match FirstPendingStart(r, p)
            case None => forall q :: p <= q < |r.commands| ==> !Is(r, InSlot(q, Start), Pending)
            case Some(q) => p <= q < |r.commands| && Is(r, InSlot(q, Start), Pending) &&
                            forall k :: p <= k < q ==> !Is(r, InSlot(k, Start), Pending)
    decreases |r.commands| - p
  {
    if p < |r.commands| && !Is(r, InSlot(p, Start), Pending) {
      FirstPendingIs(r, p + 1);
    }
  }

  lemma ClaimIs(r: Rail, named: Option<nat>, p: nat)
    ensures StartOf(r, named, p) <==> Claim(r, named) == Some(p)
  {
    FirstPendingIs(r, 0);
  }

  /**
   * A start command ends the release and the pre-start of the process it is for, and turns to its
   * start, or skips that where no manager is used.
   */
  lemma StartLines(r: Rail, named: Option<nat>, p: nat) returns (over: Rail, ready: Rail)
    requires StartOf(r, named, p)
    ensures ReleaseOver(r, over)
    ensures if Open(over, InSlot(p, PreStart)) then Ends(over, ready, InSlot(p, PreStart), Done)
            else Unchanged(over, ready)
    ensures TurnsTo(ready, Do(r, StartCommand(named, false)), InSlot(p, Start))
    ensures var t, w := Do(r, StartCommand(named, true)), InSlot(p, Start);
      t.failed == r.failed && t.cur == ready.cur && SameBut(ready, t, {w}) && (w in ready.steps ==> Is(t, w, Skipped))
  {
    over := CloseRelease(r);
    ready := Finish(over, InSlot(p, PreStart));
    CloseReleaseEnds(r);
    FinishEnds(over, InSlot(p, PreStart), None);
    ClaimedLine(r, named, false, p);
    ClaimedLine(r, named, true, p);
    StartTurns(ready, p);
    StartSkips(ready, p);
  }

  lemma ClaimedLine(r: Rail, named: Option<nat>, none: bool, p: nat)
    requires StartOf(r, named, p)
    ensures var ready, w := Finish(CloseRelease(r), InSlot(p, PreStart)), InSlot(p, Start);
      Do(r, StartCommand(named, none)) ==
        Show(if none then SetState(ready, w, Skipped) else Tick(Activate(ready, w), w), Some(p))
  {
    ClaimIs(r, named, p);
  }

  lemma StartTurns(r: Rail, p: nat)
    ensures TurnsTo(r, Show(Tick(Activate(r, InSlot(p, Start)), InSlot(p, Start)), Some(p)), InSlot(p, Start))
  {
    var w := InSlot(p, Start);
    ActivateTurns(r, w);
    Looks(r, Activate(r, w), Show(Tick(Activate(r, w), w), Some(p)), w, Some(p));
  }

  lemma StartSkips(r: Rail, p: nat)
    ensures var t, w := Show(SetState(r, InSlot(p, Start), Skipped), Some(p)), InSlot(p, Start);
      t.failed == r.failed && t.cur == r.cur && SameBut(r, t, {w}) && (w in r.steps ==> Is(t, w, Skipped))
  {
  }

  /** With no such process the command changes nothing. */
  lemma NoStart(r: Rail, named: Option<nat>, none: bool)
    requires forall p :: !StartOf(r, named, p)
    ensures Unchanged(r, Do(r, StartCommand(named, none)))
  {
    if Claim(r, named).Some? {
      ClaimIs(r, named, Claim(r, named).value);
      assert false;
    }
  }

  // ---- output ----

  ghost predicate FirstActive(r: Rail, p: nat, i: nat) {
    && p < |r.commands| && i < r.commands[p] && Is(r, Command(p, i), Active)
    && forall k :: 0 <= k < i ==> !Is(r, Command(p, k), Active)
  }

  lemma {:induction false} ActiveCommandIs(r: Rail, p: nat, from: nat)
    requires p < |r.commands|
    ensures match ActiveCommand(r, p, from)
            case None => forall k :: from <= k < r.commands[p] ==> !Is(r, Command(p, k), Active)
            case Some(i) => from <= i < r.commands[p] && Is(r, Command(p, i), Active) &&
                            forall k :: from <= k < i ==> !Is(r, Command(p, k), Active)
    decreases r.commands[p] - from
  {
    if from < r.commands[p] && !Is(r, Command(p, from), Active) {
      ActiveCommandIs(r, p, from + 1);
    }
  }

  lemma TickSlotsQuiet(r: Rail, p: nat)
    ensures Unchanged(r, TickSlots(r, p))
  {
  }

  /** The command to turn to. */
  ghost predicate NextCommand(r: Rail, p: nat, i: nat) {
    FirstActive(r, p, i) && i + 1 < r.commands[p]
  }

  lemma FirstActiveIs(r: Rail, p: nat, i: nat)
    ensures FirstActive(r, p, i) <==> p < |r.commands| && ActiveCommand(r, p, 0) == Some(i)
  {
    if p < |r.commands| {
      ActiveCommandIs(r, p, 0);
    }
  }

  /** Output that starts the command after the running one of the process shown turns to that command. */
  lemma OutputStarts(r: Rail, p: nat, i: nat)
    requires r.pane == Some(p) && NextCommand(r, p, i)
    ensures TurnsTo(r, Do(r, Output(true)), Command(p, i + 1))
  {
    AdvancesTo(r, p, i);
    ActivateTurns(r, Command(p, i + 1));
  }

  lemma AdvancesTo(r: Rail, p: nat, i: nat)
    requires r.pane == Some(p) && NextCommand(r, p, i)
    ensures Do(r, Output(true)) == Activate(r, Command(p, i + 1))
  {
    FirstActiveIs(r, p, i);
  }

  lemma TickQuiet(r: Rail, w: Where)
    ensures Unchanged(r, Tick(r, w))
  {
  }

  lemma AdvanceNot(r: Rail, p: nat, startsNext: bool)
    requires p < |r.commands| && (startsNext ==> forall i: nat :: !NextCommand(r, p, i))
    ensures Unchanged(r, MaybeAdvance(r, p, startsNext))
  {
    TickSlotsQuiet(r, p);
    if ActiveCommand(r, p, 0).Some? {
      var i := ActiveCommand(r, p, 0).value;
      FirstActiveIs(r, p, i);
      assert startsNext ==> !NextCommand(r, p, i);
      TickQuiet(r, Command(p, i));
    }
  }

  /** Other output changes no state. */
  lemma OtherOutput(r: Rail, startsNext: bool)
    requires startsNext ==> forall p: nat, i: nat :: r.pane == Some(p) ==> !NextCommand(r, p, i)
    ensures Unchanged(r, Do(r, Output(startsNext)))
  {
    if r.pane.Some? && r.pane.value < |r.commands| {
      AdvanceNot(r, r.pane.value, startsNext);
    } else if r.cur.Some? {
      TickQuiet(r, r.cur.value);
    }
  }

  // ---- an install script ----

  ghost predicate Running(r: Rail, p: nat) {
    exists w: Where :: w.Command? && w.p == p && Is(r, w, Active)
  }

  /** The process has `count` new commands, none begun, in place of those it had. */
  ghost predicate Relisted(r: Rail, t: Rail, p: nat, count: nat)
    requires p < |r.commands|
  {
    && t.failed == r.failed && t.cur == r.cur && t.commands == r.commands[p := count]
    && (forall v: Where :: !(v.Command? && v.p == p) ==>
          (v in t.steps <==> v in r.steps) && StateAt(t, v) == StateAt(r, v))
    && (forall v: Where :: v.Command? && v.p == p ==> (v in t.steps <==> v.i < count) && StateAt(t, v) == Pending)
  }

  /**
   * A script begins: if it is one of the commands listed, that one; if it belongs to what is planned,
   * or something has begun already, nothing is listed anew; else its commands replace those listed.
   * Then the first command begins, unless one is running.
   */
  lemma ScriptLines(r: Rail, p: nat, s: Script) returns (listed: Rail)
    requires p < |r.commands|
    ensures var known := r.commands[p] > 0 && s.exact.Some? && s.exact.value < r.commands[p];
      var begun := exists w :: w in r.steps && w.Command? && w.p == p && !Is(r, w, Pending);
      if s.empty then Unchanged(r, listed)
      else if known then TurnsTo(r, listed, Command(p, s.exact.value))
      else if r.commands[p] > 0 && (s.planned || begun) then Unchanged(r, listed)
      else Relisted(r, listed, p, s.count)
    ensures var t := Do(r, InstallScript(Known(p), s));
      if Running(listed, p) then Unchanged(listed, t) else TurnsTo(listed, t, Command(p, 0))
  {
    listed := SetCommands(r, p, s);
    ListsAs(r, p, s);
    BeginsFirst(r, p, s);
  }

  lemma BeginsFirst(r: Rail, p: nat, s: Script)
    requires p < |r.commands|
    ensures var (listed, t) := (SetCommands(r, p, s), Do(r, InstallScript(Known(p), s)));
      if Running(listed, p) then Unchanged(listed, t) else TurnsTo(listed, t, Command(p, 0))
  {
    var listed := SetCommands(r, p, s);
    var first := Activate(listed, Command(p, 0));
    ScriptIs(r, p, s);
    ActivateTurns(listed, Command(p, 0));
    Looks(listed, first, Show(first, Some(p)), Command(p, 0), Some(p));
  }

  lemma ScriptIs(r: Rail, p: nat, s: Script)
    requires p < |r.commands|
    ensures var listed := SetCommands(r, p, s);
      Do(r, InstallScript(Known(p), s)) ==
        Show(if Running(listed, p) then listed else Activate(listed, Command(p, 0)), Some(p))
  {
    var listed := SetCommands(r, p, s);
    assert HasActiveCommand(listed, p) <==> Running(listed, p);
  }

  lemma ListsAs(r: Rail, p: nat, s: Script)
    requires p < |r.commands|
    ensures var listed := SetCommands(r, p, s);
      var known := r.commands[p] > 0 && s.exact.Some? && s.exact.value < r.commands[p];
      var begun := exists w :: w in r.steps && w.Command? && w.p == p && !Is(r, w, Pending);
      if s.empty then Unchanged(r, listed)
      else if known then TurnsTo(r, listed, Command(p, s.exact.value))
      else if r.commands[p] > 0 && (s.planned || begun) then Unchanged(r, listed)
      else Relisted(r, listed, p, s.count)
  {
    if r.commands[p] > 0 && s.exact.Some? {
      ActivateTurns(r, Command(p, s.exact.value));
    }
    ReplaceRelists(r, p, s.count);
  }

  lemma ReplaceRelists(r: Rail, p: nat, count: nat)
    requires p < |r.commands|
    ensures Relisted(r, ReplaceCommands(r, p, count), p, count)
  {
  }

  // ---- tags and new processes ----

  /** A line for a directory not seen before adds a process without commands; nothing else happens to the steps. */
  lemma NewProcess(r: Rail)
    ensures Ensure(r, Fresh).commands == r.commands + [0] && Ensure(r, Fresh).steps == r.steps
    ensures Ensure(r, Fresh).cur == r.cur && Ensure(r, Fresh).failed == r.failed && Index(r, Fresh) == |r.commands|
    ensures forall p: nat :: p < |r.commands| ==> Ensure(r, Known(p)) == r && Index(r, Known(p)) == p
  {
  }

  /** A tag chooses the process shown; what the line does is the same with it. */
  lemma TaggedLine(r: Rail, p: nat, body: Body)
    requires p < |r.commands|
    ensures DoLine(r, Line(Some(Known(p)), body)) == Do(r.(pane := Some(p)), body)
    ensures DoLine(r, Line(None, body)) == Do(r, body)
  {
  }

  // ---- the end ----

  /** A success leaves every step done that was open; a terminal failure is what a failing line makes of it. */
  lemma StatusEnds(r: Rail, status: Status)
    requires Valid(r)
    ensures var t := Conclude(r, status);
      match status
      case Succeeded =>
        t.failed == r.failed && t.cur == r.cur && t.commands == r.commands &&
        forall v :: (v in t.steps <==> v in r.steps) && StateAt(t, v) == if Open(r, v) then Done else StateAt(r, v)
      case IsPending => t == r
      case IsRunning => t == r
      case _ => t == FailHere(r)
  {
    if status.HasFailed? || status.Canceled? || status.AgentOffline? {
      NothingLeftActive(r);
    }
  }
}
