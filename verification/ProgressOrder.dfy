/** The order the rail shows its steps in, and what a failure makes of it. */
module ProgressOrder {
  import opened Seqs
  import opened Progress
  import opened ProgressRules

  // ---- the order ----

  /** The stages of a deploy as the rail lists them. */
  function Stage(w: Where): nat {
    match w
    case Preflight => 0
    case Clone => 1
    case Command(_, _) => 2
    case InSlot(_, Cleanup) => 3
    case Release => 4
    case InSlot(_, PreStart) => 5
    case InSlot(_, Run) => 6
    case InSlot(_, Start) => 7
    case InSlot(_, Health) => 8
  }

  /** v is shown before w: in an earlier stage, or in the same one by process and then by number. */
  predicate Before(v: Where, w: Where) {
    || Stage(v) < Stage(w)
    || (v.Command? && w.Command? && (v.p < w.p || (v.p == w.p && v.i < w.i)))
    || (v.InSlot? && w.InSlot? && v.slot == w.slot && v.p < w.p)
  }

  ghost predicate Sorted(ws: seq<Where>) {
    forall i, j :: 0 <= i < j < |ws| ==> Before(ws[i], ws[j])
  }

  lemma SortedConcat(xs: seq<Where>, ys: seq<Where>)
    requires Sorted(xs) && Sorted(ys) && forall x, y :: x in xs && y in ys ==> Before(x, y)
    ensures Sorted(xs + ys)
  {
  }

  lemma {:induction false} CommandsSorted(commands: seq<nat>, p: nat, i: nat)
    ensures Sorted(CommandsFrom(commands, p, i))
    decreases |commands| - p, if p < |commands| then commands[p] - i else 0
  {
    if p < |commands| {
      if i >= commands[p] {
        CommandsSorted(commands, p + 1, 0);
      } else {
        CommandsSorted(commands, p, i + 1);
        forall w | w in CommandsFrom(commands, p, i + 1) ensures Before(Command(p, i), w) {
          CommandsFromHas(commands, p, i + 1, w);
        }
        SortedConcat([Command(p, i)], CommandsFrom(commands, p, i + 1));
      }
    }
  }

  lemma {:induction false} SlotsSorted(r: Rail, slot: Slot, p: nat)
    ensures Sorted(SlotsFrom(r, slot, p))
    decreases |r.commands| - p
  {
    if p < |r.commands| {
      SlotsSorted(r, slot, p + 1);
      forall w | w in SlotsFrom(r, slot, p + 1) ensures w.InSlot? && w.slot == slot && p < w.p {
        SlotsFromHas(r, slot, p + 1, w);
      }
      SortedConcat(if InSlot(p, slot) in r.steps then [InSlot(p, slot)] else [], SlotsFrom(r, slot, p + 1));
    }
  }

  ghost predicate AtStage(ws: seq<Where>, n: nat) {
    Sorted(ws) && forall w :: w in ws ==> Stage(w) == n
  }

  lemma SlotsAt(r: Rail, slot: Slot)
    ensures AtStage(SlotsFrom(r, slot, 0), Stage(InSlot(0, slot)))
  {
    SlotsSorted(r, slot, 0);
    forall w | w in SlotsFrom(r, slot, 0) ensures Stage(w) == Stage(InSlot(0, slot)) {
      SlotsFromHas(r, slot, 0, w);
    }
  }

  lemma CommandsAt(r: Rail)
    ensures AtStage(CommandsFrom(r.commands, 0, 0), 2)
  {
    CommandsSorted(r.commands, 0, 0);
    forall w | w in CommandsFrom(r.commands, 0, 0) ensures w.Command? {
      CommandsFromHas(r.commands, 0, 0, w);
    }
  }

  /** Sorted, and no stage beyond n. */
  ghost predicate SortedUpTo(ws: seq<Where>, n: nat) {
    Sorted(ws) && forall w :: w in ws ==> Stage(w) <= n
  }

  lemma NextStage(ws: seq<Where>, more: seq<Where>, n: nat, m: nat)
    requires SortedUpTo(ws, n) && AtStage(more, m) && n < m
    ensures SortedUpTo(ws + more, m)
  {
    SortedConcat(ws, more);
  }

  /** The rail lists its steps by stage, and within a stage by process and number, so each of them once. */
  lemma OrderedSorted(r: Rail)
    ensures Sorted(Ordered(r)) && NoDup(Ordered(r))
  {
    var a := [Preflight, Clone];
    var b := a + CommandsFrom(r.commands, 0, 0);
    var c := b + SlotsFrom(r, Cleanup, 0);
    var d := c + [Release];
    var e := d + SlotsFrom(r, PreStart, 0);
    var f := e + SlotsFrom(r, Run, 0);
    var g := f + SlotsFrom(r, Start, 0);
    CommandsAt(r);
    SlotsAt(r, Cleanup);
    SlotsAt(r, PreStart);
    SlotsAt(r, Run);
    SlotsAt(r, Start);
    SlotsAt(r, Health);
    NextStage(a, CommandsFrom(r.commands, 0, 0), 1, 2);
    NextStage(b, SlotsFrom(r, Cleanup, 0), 2, 3);
    NextStage(c, [Release], 3, 4);
    NextStage(d, SlotsFrom(r, PreStart, 0), 4, 5);
    NextStage(e, SlotsFrom(r, Run, 0), 5, 6);
    NextStage(f, SlotsFrom(r, Start, 0), 6, 7);
    NextStage(g, SlotsFrom(r, Health, 0), 7, 8);
    SortedIsNoDup(Ordered(r));
  }

  lemma SortedIsNoDup(ws: seq<Where>)
    requires Sorted(ws)
    ensures NoDup(ws)
  {
    forall i, j | 0 <= i < j < |ws| ensures ws[i] != ws[j] {
      assert Before(ws[i], ws[j]);
    }
  }

  // ---- a failure ----

  /** The step at place k is the one a failure is pinned on. */
  ghost predicate Fails(r: Rail, k: nat) {
    var all := Ordered(r);
    && k < |all|
    && if r.cur.Some? then all[k] == r.cur.value
       else if exists w :: Is(r, w, Active) then
         Is(r, all[k], Active) && forall i :: 0 <= i < k ==> !Is(r, all[i], Active)
       else if exists m :: LastDone(r, m) && m + 1 < |all| then
         k > 0 && LastDone(r, k - 1)
       else
         Open(r, all[k]) && forall i :: 0 <= i < k ==> !Open(r, all[i])
  }

  /** The step at place m is the last one done. */
  ghost predicate LastDone(r: Rail, m: int) {
    var all := Ordered(r);
    0 <= m < |all| && Is(r, all[m], Done) && forall i :: m < i < |all| ==> !Is(r, all[i], Done)
  }

  lemma IndexOfAt(all: seq<Where>, k: nat)
    requires NoDup(all) && k < |all|
    ensures IndexOf(all, all[k]) == k
  {
  }

  lemma {:induction false} LastIndexIs(all: seq<Where>, test: Where -> bool)
    ensures var m := LastIndex(all, test);
      if m < 0 then forall i :: 0 <= i < |all| ==> !test(all[i])
      else test(all[m]) && forall i :: m < i < |all| ==> !test(all[i])
  {
    if all == [] {
    } else if test(all[|all| - 1]) {
    } else {
      LastIndexIs(all[..|all| - 1], test);
    }
  }

  /** What becomes of the step at place i when the one at place k fails. */
  predicate MarkedAs(was: StepState, now: StepState, i: nat, k: nat) {
    now ==
    if i < k then (if was == Failed then Failed else Done)
    else if i == k then (if was == Done then Done else Failed)
    else if was == Pending || was == Active then Skipped
    else was
  }

  ghost predicate Marked(r: Rail, t: Rail, k: nat)
    requires k < |Ordered(r)|
  {
    && t.cur == Some(Ordered(r)[k]) && t.failed && t.commands == r.commands && t.steps.Keys == r.steps.Keys
    && forall i :: 0 <= i < |Ordered(r)| ==> MarkedAs(StateAt(r, Ordered(r)[i]), StateAt(t, Ordered(r)[i]), i, k)
  }

  ghost predicate SameStep(r: Rail, t: Rail, w: Where) {
    w in r.steps && w in t.steps && t.steps[w].state == r.steps[w].state
  }

  lemma FindsActive(r: Rail)
    requires Valid(r)
    ensures (exists w :: Is(r, w, Active)) <==> exists i :: 0 <= i < |Ordered(r)| && Is(r, Ordered(r)[i], Active)
  {
    if w :| Is(r, w, Active) {
      OrderedHas(r, w);
    }
  }

  /** The first place from 0 on that passes. */
  lemma FirstIs(all: seq<Where>, test: Where -> bool, k: nat)
    requires k < |all|
    ensures FindIndex(all, test, 0) == k <==> test(all[k]) && forall i :: 0 <= i < k ==> !test(all[i])
  {
  }

  lemma LastDoneIs(r: Rail, m: int)
    ensures LastDone(r, m) <==> m >= 0 && m == LastIndex(Ordered(r), w => Is(r, w, Done))
  {
    LastIndexIs(Ordered(r), w => Is(r, w, Done));
  }

  /** With a current step, the failure is pinned on that. */
  lemma FailsCurrent(r: Rail, k: nat)
    requires Valid(r) && r.cur.Some?
    ensures Fails(r, k) <==> k == FailIndex(r)
  {
    var all := Ordered(r);
    OrderedHas(r, r.cur.value);
    IndexOfHas(all, r.cur.value);
    OrderedSorted(r);
    if k < |all| {
      IndexOfAt(all, k);
    }
  }

  lemma FailsActive(r: Rail, k: nat)
    requires Valid(r) && r.cur.None? && exists w :: Is(r, w, Active)
    ensures Fails(r, k) <==> k == FailIndex(r)
  {
    var all := Ordered(r);
    FindsActive(r);
    if k < |all| {
      FirstIs(all, w => Is(r, w, Active), k);
    }
  }

  lemma FailsLater(r: Rail, k: nat)
    requires Valid(r) && r.cur.None? && !exists w :: Is(r, w, Active)
    ensures Fails(r, k) <==> k == FailIndex(r)
  {
    var all := Ordered(r);
    var last := LastIndex(all, w => Is(r, w, Done));
    assert FindIndex(all, w => Is(r, w, Active), 0) < 0;
    LastDoneIs(r, last);
    LastDoneIs(r, k - 1);
    forall m ensures LastDone(r, m) <==> m >= 0 && m == last {
      LastDoneIs(r, m);
    }
    if k < |all| {
      FirstIs(all, w => Open(r, w), k);
    }
  }

  /** Which step a failure is pinned on. */
  lemma FailsExact(r: Rail, k: nat)
    requires Valid(r)
    ensures Fails(r, k) <==> k == FailIndex(r)
  {
    if r.cur.Some? {
      FailsCurrent(r, k);
    } else if exists w :: Is(r, w, Active) {
      FailsActive(r, k);
    } else {
      FailsLater(r, k);
    }
  }

  function PinnedAs(s: StepState, here: bool): StepState {
    if here && s != Done then Failed else s
  }

  lemma {:induction false} SameSlots(r: Rail, t: Rail, slot: Slot, p: nat)
    requires t.steps.Keys == r.steps.Keys && t.commands == r.commands
    ensures SlotsFrom(t, slot, p) == SlotsFrom(r, slot, p)
    decreases |r.commands| - p
  {
    if p < |r.commands| {
      assert InSlot(p, slot) in t.steps.Keys <==> InSlot(p, slot) in r.steps.Keys;
      SameSlots(r, t, slot, p + 1);
    }
  }

  lemma SameOrder(r: Rail, t: Rail)
    requires t.steps.Keys == r.steps.Keys && t.commands == r.commands
    ensures Ordered(t) == Ordered(r)
  {
    SameSlots(r, t, Cleanup, 0);
    SameSlots(r, t, PreStart, 0);
    SameSlots(r, t, Run, 0);
    SameSlots(r, t, Start, 0);
    SameSlots(r, t, Health, 0);
  }

  function StateAt(r: Rail, w: Where): StepState {
    if w in r.steps then r.steps[w].state else Pending
  }

  /** The rail once its failing step is marked. */
  lemma Pinned(r: Rail, k: nat) returns (t: Rail)
    requires Valid(r) && Fails(r, k)
    ensures t.cur == Some(Ordered(r)[k]) && t.commands == r.commands && t.steps.Keys == r.steps.Keys
    ensures Ordered(t) == Ordered(r) && FailHere(r) == SettleAround(t, k)
    ensures forall w :: w in r.steps ==> StateAt(t, w) == PinnedAs(StateAt(r, w), w == Ordered(r)[k])
  {
    FailsExact(r, k);
    t := PinFailure(r, k);
    PinFound(r);
    assert t.steps.Keys == r.steps.Keys;
    SameOrder(r, t);
    FailIs(r, t, Ordered(r)[k]);
    OrderedSorted(r);
    IndexOfAt(Ordered(r), k);
  }

  lemma SettledAt(r: Rail, t: Rail, k: nat, i: nat)
    requires Valid(r) && t.steps.Keys == r.steps.Keys && Ordered(t) == Ordered(r) && i < |Ordered(r)|
    ensures Ordered(r)[i] in r.steps
    ensures StateAt(SettleAround(t, k), Ordered(r)[i]) == Settled(StateAt(t, Ordered(r)[i]), k, i)
  {
    OrderedHas(r, Ordered(r)[i]);
    OrderedSorted(r);
    IndexOfAt(Ordered(r), i);
  }

  /** What a failure at place k makes of the step at place i. */
  lemma MarkedAt(r: Rail, k: nat, i: nat)
    requires Valid(r) && Fails(r, k) && i < |Ordered(r)|
    ensures var (was, now) := (StateAt(r, Ordered(r)[i]), StateAt(FailHere(r), Ordered(r)[i]));
      MarkedAs(was, now, i, k)
  {
    var t := Pinned(r, k);
    SettledAt(r, t, k, i);
    OrderedSorted(r);
    assert Ordered(r)[i] == Ordered(r)[k] <==> i == k;
  }

  lemma FailKeeps(r: Rail, k: nat)
    requires Valid(r) && Fails(r, k)
    ensures var t := FailHere(r);
      t.cur == Some(Ordered(r)[k]) && t.failed && t.commands == r.commands && t.steps.Keys == r.steps.Keys
  {
    var t := Pinned(r, k);
  }

  /**
   * After a failure: the failing step is failed, unless it was done, and is the current one; every step
   * shown before it is done, unless it had failed; of those after it, the open ones are skipped and
   * the others as they were. Steps neither before nor after there are none.
   */
  lemma FailMarks(r: Rail, k: nat)
    requires Valid(r) && Fails(r, k)
    ensures Marked(r, FailHere(r), k)
  {
    FailKeeps(r, k);
    forall i | 0 <= i < |Ordered(r)|
      ensures MarkedAs(StateAt(r, Ordered(r)[i]), StateAt(FailHere(r), Ordered(r)[i]), i, k)
    {
      MarkedAt(r, k, i);
    }
  }

  /** When nothing is open there is no step to pin a failure on, and the rail only remembers that it failed. */
  lemma FailsNowhere(r: Rail)
    requires Valid(r) && forall k: nat :: !Fails(r, k)
    ensures var t := FailHere(r);
      t.failed && t.cur == r.cur && t.commands == r.commands && t.steps.Keys == r.steps.Keys &&
      forall w :: w in r.steps ==> SameStep(r, t, w)
  {
    if FailIndex(r) >= 0 {
      FailsExact(r, FailIndex(r));
      assert false;
    }
    FailIsNothing(r);
  }
}
