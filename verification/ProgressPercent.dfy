/** How the lines of a log move the percentage. */
module ProgressPercent {
  import opened Seqs
  import opened Progress
  import opened ProgressOrder
  import opened ProgressLines

  /** One more line counted for w, and for no other step; steps that were not listed before start at none. */
  ghost predicate Counted(r: Rail, t: Rail, w: Where) {
    forall v :: v in t.steps ==> t.steps[v].ticks == TicksOf(r, v) + if v == w then 1 else 0
  }

  function TicksOf(r: Rail, v: Where): nat {
    if v in r.steps then r.steps[v].ticks else 0
  }

  lemma ActivateCounts(r: Rail, w: Where)
    ensures forall v :: TicksOf(Activate(r, w), v) == TicksOf(r, v)
    ensures Counted(r, Tick(Activate(r, w), w), w)
  {
  }

  lemma CompleteCounts(r: Rail, p: nat, force: bool)
    ensures forall v :: TicksOf(CompleteCommands(r, p, force), v) == TicksOf(r, v)
  {
  }

  lemma {:induction false} CompleteAllCounts(r: Rail, p: nat)
    ensures forall v :: TicksOf(CompleteAll(r, p), v) == TicksOf(r, v)
    decreases |r.commands| - p
  {
    if p < |r.commands| {
      CompleteCounts(r, p, true);
      CompleteAllCounts(CompleteCommands(r, p, true), p + 1);
    }
  }

  /** Counting for w after a change that counts for nothing; what is shown does not count. */
  lemma CountsOn(r: Rail, s: Rail, t: Rail, w: Where, pane: Option<nat>)
    requires (forall v :: TicksOf(s, v) == TicksOf(r, v)) && Counted(s, t, w)
    ensures Counted(r, t, w) && Counted(r, Show(t, pane), w)
  {
  }

  /** Lines about the shared steps count for the step they are about. */
  lemma SharedCounts(r: Rail)
    ensures Counted(r, Do(r, PreflightLine), Preflight) && Counted(r, Do(r, CloneLine(false)), Clone)
  {
    ActivateCounts(r, Preflight);
    CountsOn(r, r, Tick(Activate(r, Preflight), Preflight), Preflight, None);
    ActivateCounts(r, Clone);
    CountsOn(r, r, Tick(Activate(r, Clone), Clone), Clone, None);
  }

  lemma ReleaseCounts(r: Rail)
    requires !Is(r, Release, Done)
    ensures Counted(r, Do(r, ReleaseOther), Release)
  {
    var s := CompleteAll(r, 0);
    CompleteAllCounts(r, 0);
    ActivateCounts(s, Release);
    CountsOn(r, s, Tick(Activate(s, Release), Release), Release, None);
  }

  lemma SlotStepCounts(r: Rail, p: nat, slot: Slot)
    ensures Counted(r, SlotStep(r, p, slot, false), InSlot(p, slot))
  {
    ActivateCounts(EnsureSlot(r, p, slot), InSlot(p, slot));
  }

  lemma FinishCounts(r: Rail, w: Where)
    ensures forall v :: TicksOf(Finish(r, w), v) == TicksOf(r, v) && TicksOf(CloseRelease(r), v) == TicksOf(r, v)
  {
  }

  /** So do those about a step of a process, other than the ones that end it. */
  lemma StepCounts(r: Rail, p: nat, slot: Slot)
    requires p < |r.commands|
    ensures Counted(r, Do(r, SlotLine(slot, Known(p), false)), InSlot(p, slot))
  {
    SlotStepCounts(r, p, slot);
    CountsOn(r, r, SlotStep(r, p, slot, false), InSlot(p, slot), Some(p));
  }

  lemma PreStartCounts(r: Rail, p: nat)
    requires p < |r.commands|
    ensures Counted(r, Do(r, PreStartLine(Known(p), false)), InSlot(p, PreStart))
  {
    var s := CloseRelease(r);
    FinishCounts(r, Release);
    SlotStepCounts(s, p, PreStart);
    CountsOn(r, s, SlotStep(s, p, PreStart, false), InSlot(p, PreStart), Some(p));
  }

  lemma HealthCounts(r: Rail, p: nat)
    requires NextHealth(r, p)
    ensures Counted(r, Do(r, HealthOther), InSlot(p, Health))
  {
    NextHealthFound(r, p);
    ActivateCounts(r, InSlot(p, Health));
  }

  lemma StartCounts(r: Rail, named: Option<nat>, p: nat)
    requires StartOf(r, named, p)
    ensures Counted(r, Do(r, StartCommand(named, false)), InSlot(p, Start))
  {
    var ready := Finish(CloseRelease(r), InSlot(p, PreStart));
    ClaimedLine(r, named, false, p);
    FinishCounts(r, Release);
    FinishCounts(CloseRelease(r), InSlot(p, PreStart));
    ActivateCounts(ready, InSlot(p, Start));
  }

  /** Output counts for the running command of the process shown, if it does not start the next one. */
  lemma OutputCounts(r: Rail, p: nat, i: nat, startsNext: bool)
    requires r.pane == Some(p) && FirstActive(r, p, i) && !r.failed && !(startsNext && NextCommand(r, p, i))
    ensures Counted(r, Do(r, Output(startsNext)), Command(p, i))
  {
    FirstActiveIs(r, p, i);
  }

  /** When no command is running, for the first step of that process that is, in the order of the rail. */
  lemma SlotOutputCounts(r: Rail, p: nat, slot: Slot, startsNext: bool)
    requires r.pane == Some(p) && p < |r.commands| && !r.failed && forall i: nat :: !FirstActive(r, p, i)
    requires Is(r, InSlot(p, slot), Active)
    requires forall s :: Stage(InSlot(p, s)) < Stage(InSlot(p, slot)) ==> !Is(r, InSlot(p, s), Active)
    ensures Counted(r, Do(r, Output(startsNext)), InSlot(p, slot))
  {
    if ActiveCommand(r, p, 0).Some? {
      FirstActiveIs(r, p, ActiveCommand(r, p, 0).value);
      assert false;
    }
    TicksSlot(r, p, slot);
  }

  lemma TicksSlot(r: Rail, p: nat, slot: Slot)
    requires Is(r, InSlot(p, slot), Active)
    requires forall s :: Stage(InSlot(p, s)) < Stage(InSlot(p, slot)) ==> !Is(r, InSlot(p, s), Active)
    ensures TickSlots(r, p) == Tick(r, InSlot(p, slot))
  {
  }

  /** Where no process is shown, output counts for the current step. After a failure it counts for none. */
  lemma SharedOutputCounts(r: Rail, w: Where, startsNext: bool)
    ensures r.pane == None && r.cur == Some(w) && !r.failed ==> Counted(r, Do(r, Output(startsNext)), w)
    ensures r.failed ==> Do(r, Output(startsNext)) == r
  {
  }

  // ---- the percentage ----

  /** A step done counts in full, one not begun or skipped not at all, and any other by its lines, up to 92. */
  lemma ShareOf(s: Step)
    ensures s.state == Done ==> StepPercent(s) == 100
    ensures s.state == Pending || s.state == Skipped ==> StepPercent(s) == 0
    ensures s.state == Active || s.state == Failed ==>
              StepPercent(s) == if s.ticks <= 37 then 18 + 2 * s.ticks else 92
  {
  }

  /** The shares of two lists of steps add up. */
  lemma {:induction false} SumSplits(r: Rail, xs: seq<Where>, ys: seq<Where>)
    ensures Sum(r, xs + ys) == Sum(r, xs) + Sum(r, ys)
  {
    if xs == [] {
      assert xs + ys == ys;
    } else {
      assert (xs + ys)[1..] == xs[1..] + ys;
      SumSplits(r, xs[1..], ys);
    }
  }

  lemma SumOne(r: Rail, w: Where)
    ensures Sum(r, [w]) == if w in r.steps then StepPercent(r.steps[w]) else 0
  {
    assert [w][1..] == [];
  }

  lemma RoundsHalfUp(n: int, d: nat)
    requires d > 0
    ensures var q := RoundDiv(n, d); 2 * d * q <= 2 * n + d < 2 * d * (q + 1)
  {
    var m, e := 2 * n + d, 2 * d;
    assert m == e * (m / e) + m % e;
    assert e * (m / e + 1) == e * (m / e) + e;
  }

  /**
   * The percentage is 100 for a deploy that succeeded. Otherwise it is the mean of the steps' shares,
   * rounded to the nearest whole number, halves up, but never 100 while the deploy is still going on.
   */
  lemma PercentIs(r: Rail, status: Status)
    ensures status == Status.Succeeded ==> Percent(r, status) == 100
    ensures status != Status.Succeeded ==>
              exists q :: Nearest(Sum(r, Ordered(r)), |Ordered(r)|, q) &&
                Percent(r, status) == if (status == IsRunning || status == IsPending) && q >= 100 then 99 else q
  {
    var all := Ordered(r);
    assert all[0] == Preflight;
    RoundsHalfUp(Sum(r, all), |all|);
    assert Nearest(Sum(r, all), |all|, RoundDiv(Sum(r, all), |all|));
  }

  ghost predicate Nearest(n: int, d: nat, q: int) {
    2 * d * q <= 2 * n + d < 2 * d * (q + 1)
  }
}
