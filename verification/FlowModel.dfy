/**
 * Deploy flows as the editor sees them: ordered waves of tasks, a task being one
 * deploy phase of one process. What a task asks for, without its drag-and-drop id,
 * is a Chip; a Plan is a flow reduced to its chips.
 */
module FlowModel {
  import opened Seqs

  datatype Phase = Install | Build | Cleanup | PreStart | Run | Start | Health

  /** Position of a phase in the order every single app must keep. */
  function Rank(p: Phase): nat {
    match p
    case Install => 0
    case Build => 1
    case Cleanup => 2
    case PreStart => 3
    case Run => 4
    case Start => 5
    case Health => 6
  }

  /** Phases that run before the release is activated; the other four run after. */
  predicate IsPre(p: Phase) {
    p.Install? || p.Build? || p.Cleanup?
  }

  lemma RankInjective(p: Phase, q: Phase)
    requires Rank(p) == Rank(q)
    ensures p == q
  {
  }

  /** Ids come from a generator that never repeats: a counter g, every id in use below it. */
  type Id = nat

  datatype Task = Task(id: Id, block: string, phase: Phase)
  datatype Wave = Wave(id: Id, tasks: seq<Task>)
  type Flow = seq<Wave>

  datatype Chip = Chip(owner: string, phase: Phase)
  type Plan = seq<seq<Chip>>

  function ChipOf(t: Task): Chip {
    Chip(t.block, t.phase)
  }

  function Chips(tasks: seq<Task>): seq<Chip> {
    Map(ChipOf, tasks)
  }

  /** The content of a flow, with ids forgotten (`flowSignature` in the source). */
  function Signature(flow: Flow): (p: Plan)
    ensures |p| == |flow|
    ensures forall i :: 0 <= i < |flow| ==> p[i] == Chips(flow[i].tasks)
  {
    Map((w: Wave) => Chips(w.tasks), flow)
  }

  // ---- what "in order" means ----

  predicate Mixed(wave: seq<Chip>) {
    (exists c :: c in wave && IsPre(c.phase)) && (exists c :: c in wave && !IsPre(c.phase))
  }

  /** No chip of `early` belongs after a chip of `late` of the same app. */
  ghost predicate Precedes(early: seq<Chip>, late: seq<Chip>) {
    forall c, d :: c in early && d in late && c.owner == d.owner ==> Rank(c.phase) <= Rank(d.phase)
  }

  /** Every app meets its phases in rank order. */
  ghost predicate InOrder(chips: seq<Chip>) {
    forall i, j :: 0 <= i < j < |chips| && chips[i].owner == chips[j].owner ==>
      Rank(chips[i].phase) <= Rank(chips[j].phase)
  }

  ghost predicate Unmixed(plan: Plan) {
    forall i :: 0 <= i < |plan| ==> !Mixed(plan[i])
  }

  ghost predicate OrderOk(plan: Plan) {
    Unmixed(plan) && InOrder(Flatten(plan))
  }

  lemma InOrderConcat(xs: seq<Chip>, ys: seq<Chip>)
    ensures InOrder(xs + ys) <==> InOrder(xs) && InOrder(ys) && Precedes(xs, ys)
  {
    var zs := xs + ys;
    if InOrder(zs) {
      forall i, j | 0 <= i < j < |xs| && xs[i].owner == xs[j].owner ensures Rank(xs[i].phase) <= Rank(xs[j].phase) {
        assert zs[i] == xs[i] && zs[j] == xs[j];
      }
      forall i, j | 0 <= i < j < |ys| && ys[i].owner == ys[j].owner ensures Rank(ys[i].phase) <= Rank(ys[j].phase) {
        assert zs[|xs| + i] == ys[i] && zs[|xs| + j] == ys[j];
      }
      forall c, d | c in xs && d in ys && c.owner == d.owner ensures Rank(c.phase) <= Rank(d.phase) {
        var i :| 0 <= i < |xs| && xs[i] == c;
        var j :| 0 <= j < |ys| && ys[j] == d;
        assert zs[i] == c && zs[|xs| + j] == d;
      }
    }
  }

  lemma InOrderSplit(plan: Plan, i: nat)
    requires i <= |plan|
    ensures InOrder(Flatten(plan)) <==>
      InOrder(Flatten(plan[..i])) && InOrder(Flatten(plan[i..])) && Precedes(Flatten(plan[..i]), Flatten(plan[i..]))
  {
    FlattenSplit(plan, i);
    InOrderConcat(Flatten(plan[..i]), Flatten(plan[i..]));
  }

  lemma SignatureConcat(f: Flow, g: Flow)
    ensures Signature(f + g) == Signature(f) + Signature(g)
  {
  }
}
