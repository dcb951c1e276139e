/** A successful run does all its work, once and in the right place, and nothing else. */
module FlowRunWork {
  import opened Seqs
  import opened FlowModel
  import opened FlowRun
  import opened FlowRunStages

  // ---- every job begins once and ends once ----

  /** The steps jobs[..n] still have to take. */
  function Left(jobs: seq<Chip>, root: Root, ok: nat -> bool, at: seq<nat>, n: nat): multiset<Event>
    requires |at| == |jobs| && n <= |jobs|
  {
    if n == 0 then multiset{}
    else Left(jobs, root, ok, at, n - 1) + StepsLeft(jobs[n - 1], root, ok(n - 1), at[n - 1])
  }

  function StepsLeft(c: Chip, root: Root, ok: bool, at: nat): multiset<Event> {
    if at == 0 then multiset{Began(c, root), Ended(c, ok)}
    else if at == 1 then multiset{Ended(c, ok)}
    else multiset{}
  }

  /** How far each job has got once the picks are used up. */
  function After(picks: seq<nat>, at: seq<nat>): (r: seq<nat>)
    ensures |r| == |at| && forall j :: 0 <= j < |at| ==> r[j] >= at[j]
    decreases picks
  {
    if picks == [] then at
    else if picks[0] < |at| && at[picks[0]] < 2 then After(picks[1..], at[picks[0] := at[picks[0]] + 1])
    else After(picks[1..], at)
  }

  lemma {:induction false} LeftSame(jobs: seq<Chip>, root: Root, ok: nat -> bool, at: seq<nat>, at': seq<nat>, n: nat)
    requires |at| == |at'| == |jobs| && n <= |jobs| && forall j :: 0 <= j < n ==> at[j] == at'[j]
    ensures Left(jobs, root, ok, at, n) == Left(jobs, root, ok, at', n)
  {
    if n == 0 {
    } else {
      LeftSame(jobs, root, ok, at, at', n - 1);
    }
  }

  function NextStep(jobs: seq<Chip>, root: Root, ok: nat -> bool, at: seq<nat>, j: nat): Event
    requires |at| == |jobs| && j < |jobs|
  {
    if at[j] == 0 then Began(jobs[j], root) else Ended(jobs[j], ok(j))
  }

  /** at' is at with job j one step further. */
  ghost predicate Steps(at: seq<nat>, at': seq<nat>, j: nat) {
    && |at'| == |at| && j < |at| && at[j] < 2 && at'[j] == at[j] + 1
    && forall k :: 0 <= k < |at| && k != j ==> at'[k] == at[k]
  }

  /** At at', one step less is left of jobs[..n] than at at: e. */
  ghost predicate OneLess(jobs: seq<Chip>, root: Root, ok: nat -> bool, at: seq<nat>, at': seq<nat>, n: nat, e: Event) {
    && |at| == |at'| == |jobs| && n <= |jobs|
    && Left(jobs, root, ok, at, n) == multiset{e} + Left(jobs, root, ok, at', n)
  }

  lemma StepHere(jobs: seq<Chip>, root: Root, ok: nat -> bool, at: seq<nat>, at': seq<nat>, j: nat)
    requires |at| == |jobs| && Steps(at, at', j)
    ensures OneLess(jobs, root, ok, at, at', j + 1, NextStep(jobs, root, ok, at, j))
  {
    LeftSame(jobs, root, ok, at, at', j);
    StepTaken(jobs[j], root, ok(j), at[j]);
    TakeLast(Left(jobs, root, ok, at, j), StepsLeft(jobs[j], root, ok(j), at[j]),
             StepsLeft(jobs[j], root, ok(j), at'[j]), NextStep(jobs, root, ok, at, j));
  }

  lemma StepOver(jobs: seq<Chip>, root: Root, ok: nat -> bool, at: seq<nat>, at': seq<nat>, m: nat, e: Event)
    requires m < |jobs| && OneLess(jobs, root, ok, at, at', m, e) && at'[m] == at[m]
    ensures OneLess(jobs, root, ok, at, at', m + 1, e)
  {
    TakeFirst(Left(jobs, root, ok, at, m), Left(jobs, root, ok, at', m), StepsLeft(jobs[m], root, ok(m), at[m]), e);
  }

  lemma {:induction false} CarriesOn(holds: nat -> bool, m: nat, n: nat)
    requires m <= n && holds(m) && forall k :: m <= k < n && holds(k) ==> holds(k + 1)
    ensures holds(n)
  {
    if m < n {
      CarriesOn(holds, m, n - 1);
    }
  }

  ghost function LessUpTo(jobs: seq<Chip>, root: Root, ok: nat -> bool, at: seq<nat>, at': seq<nat>, e: Event)
      : nat -> bool {
    (n: nat) => OneLess(jobs, root, ok, at, at', n, e)
  }

  lemma LessCarries(jobs: seq<Chip>, root: Root, ok: nat -> bool, at: seq<nat>, at': seq<nat>, j: nat)
    requires |at| == |jobs| && Steps(at, at', j)
    ensures var less := LessUpTo(jobs, root, ok, at, at', NextStep(jobs, root, ok, at, j));
      less(j + 1) && forall k :: j + 1 <= k < |jobs| && less(k) ==> less(k + 1)
  {
    var e := NextStep(jobs, root, ok, at, j);
    StepHere(jobs, root, ok, at, at', j);
    forall k: nat | j < k < |jobs| && OneLess(jobs, root, ok, at, at', k, e)
      ensures OneLess(jobs, root, ok, at, at', k + 1, e)
    {
      StepOver(jobs, root, ok, at, at', k, e);
    }
  }

  lemma LeftStep(jobs: seq<Chip>, root: Root, ok: nat -> bool, at: seq<nat>, at': seq<nat>, j: nat)
    requires |at| == |jobs| && Steps(at, at', j)
    ensures OneLess(jobs, root, ok, at, at', |jobs|, NextStep(jobs, root, ok, at, j))
  {
    var less := LessUpTo(jobs, root, ok, at, at', NextStep(jobs, root, ok, at, j));
    LessCarries(jobs, root, ok, at, at', j);
    CarriesOn(less, j + 1, |jobs|);
  }

  lemma StepTaken(c: Chip, root: Root, ok: bool, a: nat)
    requires a < 2
    ensures StepsLeft(c, root, ok, a) ==
            multiset{if a == 0 then Began(c, root) else Ended(c, ok)} + StepsLeft(c, root, ok, a + 1)
  {
  }

  lemma TakeLast(a: multiset<Event>, b: multiset<Event>, b': multiset<Event>, e: Event)
    requires b == multiset{e} + b'
    ensures a + b == multiset{e} + (a + b')
  {
  }

  lemma TakeFirst(a: multiset<Event>, a': multiset<Event>, b: multiset<Event>, e: Event)
    requires a == multiset{e} + a'
    ensures a + b == multiset{e} + (a' + b)
  {
  }

  lemma InterleaveStep(jobs: seq<Chip>, root: Root, ok: nat -> bool, picks: seq<nat>, at: seq<nat>)
    requires |at| == |jobs| && picks != [] && picks[0] < |jobs| && at[picks[0]] < 2
    ensures var at' := at[picks[0] := at[picks[0]] + 1];
      && Interleave(jobs, root, ok, picks, at) ==
           [NextStep(jobs, root, ok, at, picks[0])] + Interleave(jobs, root, ok, picks[1..], at')
      && After(picks, at) == After(picks[1..], at')
      && Steps(at, at', picks[0])
  {
  }

  /** What the picks run and what they leave undone is together what was to be done. */
  ghost predicate Accounts(jobs: seq<Chip>, root: Root, ok: nat -> bool, tr: seq<Event>, end: seq<nat>, at: seq<nat>)
    requires |at| == |end| == |jobs|
  {
    multiset(tr) + Left(jobs, root, ok, end, |jobs|) == Left(jobs, root, ok, at, |jobs|)
  }

  lemma AccountsStep(jobs: seq<Chip>, root: Root, ok: nat -> bool, j: nat, rest: seq<Event>, end: seq<nat>,
                     at: seq<nat>, at': seq<nat>)
    requires |at| == |at'| == |end| == |jobs| && Steps(at, at', j)
    requires Accounts(jobs, root, ok, rest, end, at')
    ensures Accounts(jobs, root, ok, [NextStep(jobs, root, ok, at, j)] + rest, end, at)
  {
    LeftStep(jobs, root, ok, at, at', j);
    Regroup(NextStep(jobs, root, ok, at, j), rest, Left(jobs, root, ok, end, |jobs|),
            Left(jobs, root, ok, at', |jobs|));
  }

  lemma {:induction false} InterleaveBag(jobs: seq<Chip>, root: Root, ok: nat -> bool, picks: seq<nat>, at: seq<nat>)
    requires |at| == |jobs|
    ensures Accounts(jobs, root, ok, Interleave(jobs, root, ok, picks, at), After(picks, at), at)
    decreases picks
  {
    if picks == [] {
    } else if picks[0] < |jobs| && at[picks[0]] < 2 {
      var at' := at[picks[0] := at[picks[0]] + 1];
      InterleaveBag(jobs, root, ok, picks[1..], at');
      InterleaveStep(jobs, root, ok, picks, at);
      AccountsStep(jobs, root, ok, picks[0], Interleave(jobs, root, ok, picks[1..], at'), After(picks[1..], at'),
                   at, at');
    } else {
      InterleaveBag(jobs, root, ok, picks[1..], at);
    }
  }

  lemma Regroup(e: Event, rest: seq<Event>, end: multiset<Event>, left: multiset<Event>)
    requires multiset(rest) + end == left
    ensures multiset([e] + rest) + end == multiset{e} + left
  {
    assert multiset([e] + rest) == multiset{e} + multiset(rest);
  }

  lemma {:induction false} AfterConcat(xs: seq<nat>, ys: seq<nat>, at: seq<nat>)
    ensures After(xs + ys, at) == After(ys, After(xs, at))
    decreases xs
  {
    if xs == [] {
      assert xs + ys == ys;
    } else {
      assert (xs + ys)[1..] == xs[1..] + ys;
      if xs[0] < |at| && at[xs[0]] < 2 {
        AfterConcat(xs[1..], ys, at[xs[0] := at[xs[0]] + 1]);
      } else {
        AfterConcat(xs[1..], ys, at);
      }
    }
  }

  lemma {:induction false} FinishAll(n: nat, at: seq<nat>)
    requires n <= |at|
    ensures forall j :: 0 <= j < n ==> After(FinishPicks(n), at)[j] >= 2
  {
    if n == 0 {
    } else {
      FinishAll(n - 1, at);
      var mid := After(FinishPicks(n - 1), at);
      AfterConcat(FinishPicks(n - 1), [n - 1, n - 1], at);
      AfterTwo(n - 1, mid);
    }
  }

  lemma AfterOne(j: nat, more: seq<nat>, at: seq<nat>) returns (at': seq<nat>)
    requires j < |at|
    ensures |at'| == |at| && at'[j] == if at[j] < 2 then at[j] + 1 else at[j]
    ensures After([j] + more, at) == After(more, at')
  {
    at' := if at[j] < 2 then at[j := at[j] + 1] else at;
    assert ([j] + more)[1..] == more;
  }

  lemma AfterTwo(j: nat, at: seq<nat>)
    requires j < |at|
    ensures After([j, j], at)[j] >= 2
  {
    var at1 := AfterOne(j, [j], at);
    var at2 := AfterOne(j, [], at1);
    assert [j] + [j] == [j, j] && [j] + [] == [j];
  }

  lemma {:induction false} NothingLeft(jobs: seq<Chip>, root: Root, ok: nat -> bool, at: seq<nat>, n: nat)
    requires |at| == |jobs| && n <= |jobs| && forall j :: 0 <= j < n ==> at[j] >= 2
    ensures Left(jobs, root, ok, at, n) == multiset{}
  {
    if n == 0 {
    } else {
      NothingLeft(jobs, root, ok, at, n - 1);
    }
  }

  function Once(c: Chip, root: Root): multiset<Event> {
    multiset{Began(c, root), Ended(c, true)}
  }

  /** Each of jobs[..n] begun once in its place and ended once, well. */
  function DoneTo(jobs: seq<Chip>, root: Root, n: nat): multiset<Event>
    requires n <= |jobs|
  {
    if n == 0 then multiset{} else DoneTo(jobs, root, n - 1) + Once(jobs[n - 1], root)
  }

  function Done(jobs: seq<Chip>, root: Root): multiset<Event> {
    DoneTo(jobs, root, |jobs|)
  }

  lemma {:induction false} AllLeft(jobs: seq<Chip>, root: Root, ok: nat -> bool, at: seq<nat>, n: nat)
    requires |at| == |jobs| && n <= |jobs| && forall j :: 0 <= j < n ==> at[j] == 0 && ok(j)
    ensures Left(jobs, root, ok, at, n) == DoneTo(jobs, root, n)
  {
    if n == 0 {
    } else {
      AllLeft(jobs, root, ok, at, n - 1);
    }
  }

  /** Whatever the schedule, parallel scripts that all succeed are each run exactly once. */
  lemma ScriptsDone(world: World, i: nat, root: Root, jobs: seq<Chip>)
    requires AllOk(world, i, jobs)
    ensures multiset(Scripts(world, i, root, jobs)) == Done(jobs, root)
  {
    var ok, at, picks := Outcome(world, i, jobs), seq(|jobs|, _ => 0), world.picks(i);
    InterleaveBag(jobs, root, ok, picks + FinishPicks(|jobs|), at);
    AfterConcat(picks, FinishPicks(|jobs|), at);
    FinishAll(|jobs|, After(picks, at));
    NothingLeft(jobs, root, ok, After(picks + FinishPicks(|jobs|), at), |jobs|);
    AllLeft(jobs, root, ok, at, |jobs|);
  }

  /** With jobs[..k] done, what is run next completes the list. */
  ghost predicate Completes(jobs: seq<Chip>, k: nat, tr: seq<Event>)
    requires k <= |jobs|
  {
    DoneTo(jobs, Current, k) + multiset(tr) == Done(jobs, Current)
  }

  lemma {:induction false} InTurnBag(jobs: seq<Chip>, ok: nat -> bool, k: nat)
    requires k <= |jobs| && forall j: nat :: j < |jobs| ==> ok(j)
    ensures Completes(jobs, k, InTurn(jobs, ok, k))
    decreases |jobs| - k
  {
    if k == |jobs| {
      NothingMore(jobs);
    } else {
      InTurnBag(jobs, ok, k + 1);
      TwoMore(jobs, ok, k, InTurn(jobs, ok, k + 1));
    }
  }

  lemma NothingMore(jobs: seq<Chip>)
    ensures Completes(jobs, |jobs|, [])
  {
  }

  lemma TwoMore(jobs: seq<Chip>, ok: nat -> bool, k: nat, rest: seq<Event>)
    requires k < |jobs| && ok(k) && Completes(jobs, k + 1, rest)
    ensures Completes(jobs, k, [Began(jobs[k], Current), Ended(jobs[k], ok(k))] + rest)
  {
    var two := [Began(jobs[k], Current), Ended(jobs[k], ok(k))];
    assert multiset(two) == Once(jobs[k], Current);
    assert multiset(two + rest) == multiset(two) + multiset(rest);
  }

  lemma TurnDone(world: World, i: nat, jobs: seq<Chip>)
    requires AllOk(world, i, jobs)
    ensures multiset(Turn(world, i, jobs)) == Done(jobs, Current)
  {
    InTurnBag(jobs, Outcome(world, i, jobs), 0);
  }

  function WorkDone(work: Work, starts: seq<Chip>, released: bool): multiset<Event> {
    Done(work.scripts, RootOf(released)) + Done(work.runs, Current) +
    Done(starts, Current) + Done(work.healths, Current)
  }

  lemma RunWorkDone(world: World, i: nat, released: bool, work: Work, up: set<string>)
    requires RunWork(world, i, released, work, up).1.None?
    ensures multiset(RunWork(world, i, released, work, up).0) == WorkDone(work, ToStart(world, i, work, up), released)
  {
    ScriptsDone(world, i, RootOf(released), work.scripts);
    TurnDone(world, i, work.runs);
    TurnDone(world, i, ToStart(world, i, work, up));
    TurnDone(world, i, work.healths);
  }

  /** All the work of wave i, but for starting apps that are up. */
  function WaveDone(host: Host, cmd: Command, world: World, i: nat, released: bool): multiset<Event>
    requires i < |cmd.waves|
  {
    match SortTasks(host, cmd, RootOf(released), cmd.waves[i], NoWork)
    case Ready(work) => WorkDone(work, ToStart(world, i, work, Up(host, cmd, world, i)), released)
    case Rejected(_) => multiset{}
  }

  /** All the work of waves i onwards, the release being activated at wave p. */
  function FlowDone(host: Host, cmd: Command, world: World, i: nat, p: nat): multiset<Event>
    requires i <= |cmd.waves|
    decreases |cmd.waves| - i
  {
    if i == |cmd.waves| then multiset{}
    else WaveDone(host, cmd, world, i, i >= p) + FlowDone(host, cmd, world, i + 1, p)
  }

  lemma {:induction false} RunFromDone(host: Host, cmd: Command, world: World, i: nat, released: bool, failed: nat,
                                       p: nat)
    requires i <= |cmd.waves|
    requires if released then p <= i else p == PostFrom(cmd, i)
    requires RunFrom(host, cmd, world, i, released, failed).1.None?
    ensures failed == 0
    ensures multiset(RunFrom(host, cmd, world, i, released, failed).0) ==
      FlowDone(host, cmd, world, i, p) + if released then multiset{} else multiset{Activated}
    decreases |cmd.waves| - i, 1
  {
    if i == |cmd.waves| {
    } else if cmd.waves[i] == [] {
      RunFromDone(host, cmd, world, i + 1, released, failed, p);
      EmptyWaveDone(host, cmd, world, i, p);
    } else if NeedsPost(cmd.waves[i]) && !released {
      WaveThenRestDone(host, cmd, world, i, true, failed, p);
      ActivateDone(host, cmd, world, i, failed, FlowDone(host, cmd, world, i, p));
    } else {
      WaveThenRestDone(host, cmd, world, i, released, failed, p);
    }
  }

  lemma EmptyWaveDone(host: Host, cmd: Command, world: World, i: nat, p: nat)
    requires i < |cmd.waves| && cmd.waves[i] == []
    ensures FlowDone(host, cmd, world, i, p) == FlowDone(host, cmd, world, i + 1, p)
  {
    assert WaveDone(host, cmd, world, i, i >= p) == multiset{};
  }

  lemma ActivateDone(host: Host, cmd: Command, world: World, i: nat, failed: nat, work: multiset<Event>)
    requires i < |cmd.waves| && cmd.waves[i] != [] && NeedsPost(cmd.waves[i])
    requires RunFrom(host, cmd, world, i, false, failed).1.None?
    requires multiset(WaveThenRest(host, cmd, world, i, true, failed).0) == work
    ensures multiset(RunFrom(host, cmd, world, i, false, failed).0) == work + multiset{Activated}
  {
    var rest := WaveThenRest(host, cmd, world, i, true, failed).0;
    assert RunFrom(host, cmd, world, i, false, failed).0 == [Activated] + rest;
    AddUp([Activated], rest, multiset{Activated}, work, multiset{});
  }

  lemma {:induction false} WaveThenRestDone(host: Host, cmd: Command, world: World, i: nat, released: bool, failed: nat,
                                            p: nat)
    requires i < |cmd.waves|
    requires if released then p <= i else p == PostFrom(cmd, i) && !NeedsPost(cmd.waves[i])
    requires WaveThenRest(host, cmd, world, i, released, failed).1.None?
    ensures failed == 0
    ensures multiset(WaveThenRest(host, cmd, world, i, released, failed).0) ==
      FlowDone(host, cmd, world, i, p) + if released then multiset{} else multiset{Activated}
    decreases |cmd.waves| - i, 0
  {
    var (events, why) := RunWave(host, cmd, world, i, released);
    RunFromDone(host, cmd, world, i + 1, released, if why.Some? then failed + 1 else failed, p);
    var sorted := SortTasks(host, cmd, RootOf(released), cmd.waves[i], NoWork);
    RunWorkDone(world, i, released, sorted.work, Up(host, cmd, world, i));
    var rest := RunFrom(host, cmd, world, i + 1, released, 0).0;
    assert WaveThenRest(host, cmd, world, i, released, failed).0 == events + rest;
    AddUp(events, rest, WaveDone(host, cmd, world, i, released), FlowDone(host, cmd, world, i + 1, p),
          if released then multiset{} else multiset{Activated});
    assert (i >= p) == released;
  }

  lemma AddUp(xs: seq<Event>, ys: seq<Event>, a: multiset<Event>, b: multiset<Event>, c: multiset<Event>)
    requires multiset(xs) == a && multiset(ys) == b + c
    ensures multiset(xs + ys) == (a + b) + c
  {
  }

  /**
   * A run that reports success ran every task of every wave that has something to run, each
   * exactly once and in the right place, activated the release once, and did nothing else.
   */
  lemma SuccessDidEverything(host: Host, cmd: Command, world: World)
    requires RunFlow(host, cmd, world).1.None?
    ensures multiset(RunFlow(host, cmd, world).0) ==
            FlowDone(host, cmd, world, 0, PostFrom(cmd, 0)) + multiset{Activated}
  {
    RunFromDone(host, cmd, world, 0, false, 0, PostFrom(cmd, 0));
  }
}
