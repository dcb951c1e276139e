/** Flows on the wire: waves of {app, phase} names, as the API and croncompose.yml carry them. */
module FlowWire {
  import opened Seqs
  import opened FlowModel
  import opened FlowRepair
  import opened FlowBlocks
  import opened FlowDefault
  import opened RepairExact
  import opened RepairStable

  datatype SpecTask = SpecTask(app: string, phase: string)
  type Spec = seq<seq<SpecTask>>

  function PhaseName(p: Phase): string {
    match p
    case Install => "install"
    case Build => "build"
    case Cleanup => "cleanup"
    case PreStart => "pre_start"
    case Run => "run"
    case Start => "start"
    case Health => "health"
  }

  function ParsePhase(s: string): (r: Option<Phase>)
    ensures r.Some? ==> PhaseName(r.value) == s
    ensures r.None? ==> forall p :: PhaseName(p) != s
  {
    if s == "install" then Some(Install)
    else if s == "build" then Some(Build)
    else if s == "cleanup" then Some(Cleanup)
    else if s == "pre_start" then Some(PreStart)
    else if s == "run" then Some(Run)
    else if s == "start" then Some(Start)
    else if s == "health" then Some(Health)
    else None
  }

  lemma PhaseNameInjective(p: Phase, q: Phase)
    requires PhaseName(p) == PhaseName(q)
    ensures p == q
  {
    assert PhaseName(p)[0] == PhaseName(q)[0];
    if PhaseName(p)[0] == 'b' || PhaseName(p)[0] == 's' {
    }
  }

  // ---- names ----

  /** Lookup by id in a map filled block by block: a later block with the same id wins. */
  function NameOf(blocks: seq<Block>, id: string): string {
    if blocks == [] then "app"
    else
      var last := blocks[|blocks| - 1];
      if last.id == id then (if last.name == "" then "app" else last.name) else NameOf(blocks[..|blocks| - 1], id)
  }

  function ByName(blocks: seq<Block>, name: string): Option<Block> {
    if blocks == [] then None
    else
      var last := blocks[|blocks| - 1];
      if last.name == name then Some(last) else ByName(blocks[..|blocks| - 1], name)
  }

  /** The name the wire gives an app leads back to that app. */
  ghost predicate Resolves(blocks: seq<Block>, id: string) {
    ByName(blocks, NameOf(blocks, id)).Some? && ByName(blocks, NameOf(blocks, id)).value.id == id
  }

  ghost predicate NamesResolve(blocks: seq<Block>, chips: seq<Chip>) {
    forall c :: c in chips ==> Resolves(blocks, c.owner)
  }

  /** Distinct ids and distinct nonempty names are enough for every block's name to lead back to it. */
  lemma {:induction false} DistinctNamesResolve(blocks: seq<Block>, i: nat)
    requires i < |blocks| && blocks[i].name != ""
    requires DistinctIds(blocks) && forall j, k :: 0 <= j < k < |blocks| ==> blocks[j].name != blocks[k].name
    ensures NameOf(blocks, blocks[i].id) == blocks[i].name
    ensures ByName(blocks, blocks[i].name) == Some(blocks[i])
  {
    var n := |blocks| - 1;
    if i < n {
      DistinctNamesResolve(blocks[..n], i);
    }
  }

  /** Block i is the last one with its id: its name goes on the wire, "app" if it has none. */
  lemma {:induction false} NameIs(blocks: seq<Block>, i: nat)
    requires i < |blocks| && forall j :: i < j < |blocks| ==> blocks[j].id != blocks[i].id
    ensures blocks[i].name != "" ==> NameOf(blocks, blocks[i].id) == blocks[i].name
    ensures blocks[i].name == "" ==> NameOf(blocks, blocks[i].id) == "app"
  {
    if i < |blocks| - 1 {
      NameIs(blocks[..|blocks| - 1], i);
    }
  }

  lemma {:induction false} NameOfNone(blocks: seq<Block>, id: string)
    requires forall b :: b in blocks ==> b.id != id
    ensures NameOf(blocks, id) == "app"
  {
    if blocks != [] {
      NameOfNone(blocks[..|blocks| - 1], id);
    }
  }

  /** Of blocks with one name the wire leads back to the last. */
  lemma {:induction false} ByNameIs(blocks: seq<Block>, i: nat)
    requires i < |blocks| && forall j :: i < j < |blocks| ==> blocks[j].name != blocks[i].name
    ensures ByName(blocks, blocks[i].name) == Some(blocks[i])
  {
    if i < |blocks| - 1 {
      ByNameIs(blocks[..|blocks| - 1], i);
    }
  }

  // ---- to the wire and back ----

  function ToWire(blocks: seq<Block>, chips: seq<Chip>): seq<SpecTask> {
    Map((c: Chip) => SpecTask(NameOf(blocks, c.owner), PhaseName(c.phase)), chips)
  }

  function FlowToSpec(blocks: seq<Block>, flow: Flow): Spec {
    PlanToSpec(blocks, NonEmpty(Signature(flow)))
  }

  function PlanToSpec(blocks: seq<Block>, plan: Plan): Spec {
    Map((w: seq<Chip>) => ToWire(blocks, w), plan)
  }

  function SpecToPlan(blocks: seq<Block>, spec: Spec): Plan {
    Map((w: seq<SpecTask>) => FromWire(blocks, w), spec)
  }

  /** Unknown apps and unknown phases are dropped. */
  function FromWire(blocks: seq<Block>, wave: seq<SpecTask>): seq<Chip> {
    if wave == [] then []
    else
      var (block, phase) := (ByName(blocks, wave[0].app), ParsePhase(wave[0].phase));
      (if block.Some? && phase.Some? then [Chip(block.value.id, phase.value)] else []) + FromWire(blocks, wave[1..])
  }

  /** The repair of a plan's waves, freshly numbered. */
  function Load(expected: seq<Chip>, plan: Plan, g: Id): Flow {
    Reconcile(expected, Number(plan, g), g + |Flatten(plan)| + |plan|)
  }

  function FlowFromSpec(blocks: seq<Block>, tasksOf: Asks, spec: Spec, g: Id): Option<Flow> {
    if spec == [] then None else Some(Load(Expected(blocks, tasksOf), SpecToPlan(blocks, spec), g))
  }

  lemma {:induction false} WaveRoundTrip(blocks: seq<Block>, chips: seq<Chip>)
    requires NamesResolve(blocks, chips)
    ensures FromWire(blocks, ToWire(blocks, chips)) == chips
  {
    if chips == [] {
    } else {
      assert ToWire(blocks, chips)[1..] == ToWire(blocks, chips[1..]);
      assert Resolves(blocks, chips[0].owner);
      PhaseRoundTrip(chips[0].phase);
      WaveRoundTrip(blocks, chips[1..]);
    }
  }

  /** A task is loaded if some block has its name and its phase is known, and left out otherwise. */
  lemma LoadsOne(blocks: seq<Block>, t: SpecTask)
    ensures FromWire(blocks, [t]) ==
            if ByName(blocks, t.app).Some? && exists p :: PhaseName(p) == t.phase
            then [Chip(ByName(blocks, t.app).value.id, ParsePhase(t.phase).value)] else []
    ensures ByName(blocks, t.app).Some? <==> exists b :: b in blocks && b.name == t.app
  {
    assert [t][1..] == [];
    ParsesNames(t.phase);
    ByNameFinds(blocks, t.app);
  }

  /** What is loaded of a wave is what is loaded of its tasks, in their order. */
  lemma {:induction false} LoadsEach(blocks: seq<Block>, xs: seq<SpecTask>, ys: seq<SpecTask>)
    ensures FromWire(blocks, xs + ys) == FromWire(blocks, xs) + FromWire(blocks, ys)
  {
    if xs == [] {
      assert xs + ys == ys;
    } else {
      assert (xs + ys)[1..] == xs[1..] + ys;
      LoadsEach(blocks, xs[1..], ys);
    }
  }

  lemma ParsesNames(s: string)
    ensures ParsePhase(s).Some? <==> exists p :: PhaseName(p) == s
    ensures forall p :: PhaseName(p) == s ==> ParsePhase(s) == Some(p)
  {
    forall p: Phase {
      PhaseRoundTrip(p);
    }
  }

  lemma {:induction false} ByNameFinds(blocks: seq<Block>, name: string)
    ensures ByName(blocks, name).Some? <==> exists b :: b in blocks && b.name == name
    ensures ByName(blocks, name).Some? ==>
              ByName(blocks, name).value in blocks && ByName(blocks, name).value.name == name
  {
    if blocks == [] {
    } else {
      var n := |blocks| - 1;
      ByNameFinds(blocks[..n], name);
      assert blocks == blocks[..n] + [blocks[n]];
    }
  }

  lemma PhaseRoundTrip(p: Phase)
    ensures ParsePhase(PhaseName(p)) == Some(p)
  {
    PhaseNameInjective(p, ParsePhase(PhaseName(p)).value);
  }

  /**
   * Saving a complete flow and loading it again gives a complete flow unless there was nothing to
   * save, and the same content, minus its empty waves, when every name leads back to its block.
   */
  lemma WireRoundTrip(blocks: seq<Block>, tasksOf: Asks, flow: Flow, g: Id)
    requires Complete(Expected(blocks, tasksOf), flow)
    ensures var r := FlowFromSpec(blocks, tasksOf, FlowToSpec(blocks, flow), g);
      && (r.Some? <==> Flat(flow) != [])
      && (r.Some? ==> Complete(Expected(blocks, tasksOf), r.value))
      && (r.Some? && NamesResolve(blocks, Flat(flow)) ==> Signature(r.value) == NonEmpty(Signature(flow)))
  {
    var sig := NonEmpty(Signature(flow));
    NonEmptyFlatten(Signature(flow));
    if Flat(flow) == [] {
      NothingToSave(Signature(flow));
    } else {
      LoadsComplete(blocks, tasksOf, FlowToSpec(blocks, flow), g);
      if NamesResolve(blocks, Flat(flow)) {
        PlanRoundTrip(blocks, sig);
        PlanReload(blocks, tasksOf, PlanToSpec(blocks, sig), sig, g);
      }
    }
  }

  lemma {:induction false} NothingToSave(plan: Plan)
    requires Flatten(plan) == []
    ensures NonEmpty(plan) == []
  {
    if plan == [] {
    } else {
      NothingToSave(plan[1..]);
    }
  }

  lemma LoadIsComplete(expected: seq<Chip>, plan: Plan, g: Id)
    requires NoDup(expected)
    ensures Complete(expected, Load(expected, plan, g))
  {
    RepairIsExact(expected, Number(plan, g), g + |Flatten(plan)| + |plan|);
  }

  /** Whatever the spec says, loading it gives a complete flow. */
  lemma LoadsComplete(blocks: seq<Block>, tasksOf: Asks, spec: Spec, g: Id)
    requires spec != []
    ensures var r := FlowFromSpec(blocks, tasksOf, spec, g);
      r.Some? && Complete(Expected(blocks, tasksOf), r.value)
  {
    ExpectedSpec(blocks, tasksOf);
    LoadIsComplete(Expected(blocks, tasksOf), SpecToPlan(blocks, spec), g);
  }

  lemma LoadKeeps(expected: seq<Chip>, plan: Plan, g: Id)
    requires NoDup(expected) && plan != []
    requires NoDup(Flatten(plan)) && forall c :: c in Flatten(plan) <==> c in expected
    ensures Signature(Load(expected, plan, g)) == plan
  {
    NumberSignature(plan, g);
    RepairFixpoint(expected, Number(plan, g), g + |Flatten(plan)| + |plan|);
  }

  lemma PlanReload(blocks: seq<Block>, tasksOf: Asks, spec: Spec, plan: Plan, g: Id)
    requires spec != [] && SpecToPlan(blocks, spec) == plan
    requires NoDup(Flatten(plan)) && forall c :: c in Flatten(plan) <==> c in Expected(blocks, tasksOf)
    ensures var r := FlowFromSpec(blocks, tasksOf, spec, g);
      r.Some? && Signature(r.value) == plan
  {
    ExpectedSpec(blocks, tasksOf);
    LoadKeeps(Expected(blocks, tasksOf), plan, g);
  }

  lemma PlanRoundTrip(blocks: seq<Block>, sig: Plan)
    requires NamesResolve(blocks, Flatten(sig))
    ensures SpecToPlan(blocks, PlanToSpec(blocks, sig)) == sig
  {
    forall i | 0 <= i < |sig| ensures FromWire(blocks, ToWire(blocks, sig[i])) == sig[i] {
      forall c | c in sig[i] ensures c in Flatten(sig) {
        FlattenMember(sig, c);
      }
      WaveRoundTrip(blocks, sig[i]);
    }
  }

  /**
   * In particular every repaired flow survives the wire, when block ids are distinct and names distinct and
   * nonempty.
   */
  lemma RepairedWireRoundTrip(blocks: seq<Block>, tasksOf: Asks, flow: Flow, g: Id, g': Id)
    requires WellAsked(tasksOf) && DistinctIds(blocks) && Expected(blocks, tasksOf) != []
    requires forall i :: 0 <= i < |blocks| ==> blocks[i].name != ""
    requires forall i, j :: 0 <= i < j < |blocks| ==> blocks[i].name != blocks[j].name
    ensures var saved := Reconcile(Expected(blocks, tasksOf), flow, g);
      var r := FlowFromSpec(blocks, tasksOf, FlowToSpec(blocks, saved), g');
      r.Some? && Signature(r.value) == NonEmpty(Signature(saved))
  {
    var saved := Reconcile(Expected(blocks, tasksOf), flow, g);
    ExpectedSpec(blocks, tasksOf);
    RepairIsExact(Expected(blocks, tasksOf), flow, g);
    assert Expected(blocks, tasksOf)[0] in Flat(saved);
    forall c | c in Flat(saved) ensures Resolves(blocks, c.owner) {
      var i := AskedOwner(c, blocks, tasksOf);
      DistinctNamesResolve(blocks, i);
    }
    WireRoundTrip(blocks, tasksOf, saved, g');
  }

  // ---- order by app name, as the agent sees it ----

  function Named(blocks: seq<Block>, c: Chip): Chip {
    Chip(NameOf(blocks, c.owner), c.phase)
  }

  function NamedWave(blocks: seq<Block>, chips: seq<Chip>): (r: seq<Chip>)
    ensures |r| == |chips| && forall i :: 0 <= i < |chips| ==> r[i] == Named(blocks, chips[i])
  {
    if chips == [] then [] else [Named(blocks, chips[0])] + NamedWave(blocks, chips[1..])
  }

  /** The chips a spec carries, owners being app names. */
  function NamedPlan(blocks: seq<Block>, plan: Plan): (r: Plan)
    ensures |r| == |plan| && forall i :: 0 <= i < |plan| ==> r[i] == NamedWave(blocks, plan[i])
  {
    if plan == [] then [] else [NamedWave(blocks, plan[0])] + NamedPlan(blocks, plan[1..])
  }

  lemma {:induction false} NamedFlatten(blocks: seq<Block>, plan: Plan)
    ensures Flatten(NamedPlan(blocks, plan)) == NamedWave(blocks, Flatten(plan))
  {
    if plan == [] {
    } else {
      NamedFlatten(blocks, plan[1..]);
    }
  }

  /** A flow in order by block id is in order by app name. */
  lemma NamedOrder(blocks: seq<Block>, plan: Plan)
    requires OrderOk(plan) && NamesResolve(blocks, Flatten(plan))
    ensures OrderOk(NamedPlan(blocks, plan))
  {
    var flat, named := Flatten(plan), Flatten(NamedPlan(blocks, plan));
    NamedFlatten(blocks, plan);
    forall i, j | 0 <= i < j < |named| && named[i].owner == named[j].owner
      ensures Rank(named[i].phase) <= Rank(named[j].phase)
    {
      assert flat[i] in flat && flat[j] in flat;
      assert Resolves(blocks, flat[i].owner) && Resolves(blocks, flat[j].owner);
    }
    forall i | 0 <= i < |plan| ensures !Mixed(NamedPlan(blocks, plan)[i]) {
      assert !Mixed(plan[i]);
      NamedMixed(blocks, plan[i]);
    }
  }

  lemma NamedMixed(blocks: seq<Block>, wave: seq<Chip>)
    ensures Mixed(NamedWave(blocks, wave)) <==> Mixed(wave)
  {
    var named := NamedWave(blocks, wave);
    forall m | 0 <= m < |wave| ensures named[m] in named && wave[m] in wave && named[m].phase == wave[m].phase {}
  }
}
