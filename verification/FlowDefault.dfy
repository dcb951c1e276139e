/** The flow a project starts from, and the tasks its blocks ask for. */
module FlowDefault {
  import opened Seqs
  import opened FlowModel
  import opened FlowBlocks
  import opened RepairOrder
  import opened RepairStable
  import opened FlowRepair
  import Grouping

  // ---- what the blocks expect ----

  /** The tasks each block contributes. */
  type Asks = Block -> seq<Chip>

  /** Every block asks for distinct phases of its own app, in rank order. */
  ghost predicate WellAsked(tasksOf: Asks) {
    forall b :: Agenda(tasksOf(b)) && forall c :: c in tasksOf(b) ==> c.owner == b.id
  }

  /** Insertion into an ordered map: a key already present keeps its place. */
  function AddAll(acc: seq<Chip>, chips: seq<Chip>): seq<Chip>
    decreases chips
  {
    if chips == [] then acc
    else AddAll(if chips[0] in acc then acc else acc + [chips[0]], chips[1..])
  }

  function ExpectedFrom(acc: seq<Chip>, blocks: seq<Block>, tasksOf: Asks): seq<Chip>
    decreases blocks
  {
    if blocks == [] then acc
    else ExpectedFrom(AddAll(acc, tasksOf(blocks[0])), blocks[1..], tasksOf)
  }

  function Expected(blocks: seq<Block>, tasksOf: Asks): seq<Chip> {
    ExpectedFrom([], blocks, tasksOf)
  }

  ghost predicate DistinctIds(blocks: seq<Block>) {
    forall i, j :: 0 <= i < j < |blocks| ==> blocks[i].id != blocks[j].id
  }

  ghost predicate AskedBy(c: Chip, blocks: seq<Block>, tasksOf: Asks) {
    exists i :: 0 <= i < |blocks| && c in tasksOf(blocks[i])
  }

  lemma {:induction false} AddAllSpec(acc: seq<Chip>, chips: seq<Chip>)
    ensures NoDup(acc) ==> NoDup(AddAll(acc, chips))
    ensures forall c :: c in AddAll(acc, chips) <==> c in acc || c in chips
    decreases chips
  {
    if chips == [] {
    } else {
      NoDupConcat(acc, [chips[0]]);
      AddAllSpec(if chips[0] in acc then acc else acc + [chips[0]], chips[1..]);
    }
  }

  lemma AskedByFirst(c: Chip, blocks: seq<Block>, tasksOf: Asks)
    requires blocks != []
    ensures AskedBy(c, blocks, tasksOf) <==> c in tasksOf(blocks[0]) || AskedBy(c, blocks[1..], tasksOf)
  {
    if AskedBy(c, blocks[1..], tasksOf) {
      var i :| 0 <= i < |blocks[1..]| && c in tasksOf(blocks[1..][i]);
      assert blocks[i + 1] == blocks[1..][i];
    }
    if i :| 0 <= i < |blocks| && c in tasksOf(blocks[i]) {
      if i > 0 {
        assert blocks[i] == blocks[1..][i - 1];
      }
    }
  }

  lemma {:induction false} ExpectedFromSpec(acc: seq<Chip>, blocks: seq<Block>, tasksOf: Asks)
    requires NoDup(acc)
    ensures NoDup(ExpectedFrom(acc, blocks, tasksOf))
    ensures forall c :: c in ExpectedFrom(acc, blocks, tasksOf) <==> c in acc || AskedBy(c, blocks, tasksOf)
    decreases blocks
  {
    if blocks == [] {
    } else {
      var chips := tasksOf(blocks[0]);
      AddAllSpec(acc, chips);
      ExpectedFromSpec(AddAll(acc, chips), blocks[1..], tasksOf);
      forall c { AskedByFirst(c, blocks, tasksOf); }
    }
  }

  lemma {:induction false} AddAllAgenda(acc: seq<Chip>, chips: seq<Chip>)
    requires Agenda(acc + chips)
    ensures AddAll(acc, chips) == acc + chips
    decreases chips
  {
    if chips == [] {
    } else {
      var c := chips[0];
      forall i | 0 <= i < |acc| ensures acc[i] != c {
        assert (acc + chips)[i] == acc[i] && (acc + chips)[|acc|] == c;
      }
      assert acc + chips == (acc + [c]) + chips[1..];
      AddAllAgenda(acc + [c], chips[1..]);
    }
  }

  lemma {:induction false} ExpectedFromAgenda(acc: seq<Chip>, blocks: seq<Block>, tasksOf: Asks)
    requires WellAsked(tasksOf)
    requires Agenda(acc) && DistinctIds(blocks)
    requires forall c, i :: c in acc && 0 <= i < |blocks| ==> c.owner != blocks[i].id
    ensures Agenda(ExpectedFrom(acc, blocks, tasksOf))
    decreases blocks
  {
    if blocks == [] {
    } else {
      var chips := tasksOf(blocks[0]);

      AddAllAgenda(acc, chips);
      ExpectedFromAgenda(acc + chips, blocks[1..], tasksOf);
    }
  }

  /** No chip is expected twice; with distinct block ids, each app's chips are listed in rank order. */
  lemma ExpectedSpec(blocks: seq<Block>, tasksOf: Asks)
    ensures NoDup(Expected(blocks, tasksOf))
    ensures forall c :: c in Expected(blocks, tasksOf) <==> AskedBy(c, blocks, tasksOf)
    ensures WellAsked(tasksOf) && DistinctIds(blocks) ==> Agenda(Expected(blocks, tasksOf))
  {
    ExpectedFromSpec([], blocks, tasksOf);
    if WellAsked(tasksOf) && DistinctIds(blocks) {
      ExpectedFromAgenda([], blocks, tasksOf);
    }
  }

  // ---- the default flow ----

  function OfPhase(chips: seq<Chip>, p: Phase): (r: seq<Chip>)
    ensures forall c :: c in r <==> c in chips && c.phase == p
  {
    if chips == [] then []
    else (if chips[0].phase == p then [chips[0]] else []) + OfPhase(chips[1..], p)
  }

  function PhaseTasks(blocks: seq<Block>, tasksOf: Asks, p: Phase): seq<Chip> {
    if blocks == [] then []
    else OfPhase(tasksOf(blocks[0]), p) + PhaseTasks(blocks[1..], tasksOf, p)
  }

  /** One wave per phase that has tasks. */
  function PhaseWaves(blocks: seq<Block>, tasksOf: Asks, phases: seq<Phase>): Plan {
    if phases == [] then []
    else
      var tasks := PhaseTasks(blocks, tasksOf, phases[0]);
      (if tasks != [] then [tasks] else []) + PhaseWaves(blocks, tasksOf, phases[1..])
  }

  /** The start group rounded down, 0 when it is not a positive number. */
  function GroupOf(b: Block): (g: nat)
    ensures b.startGroup.Some? && b.startGroup.value > 0.0 ==> g as real <= b.startGroup.value < (g + 1) as real
    ensures b.startGroup.None? || b.startGroup.value <= 0.0 ==> g == 0
  {
    match b.startGroup
    case Some(g) => if g > 0.0 then g.Floor else 0
    case None => 0
  }

  const PreRelease: seq<Phase> := [Install, Build, Cleanup]
  const PostRelease: seq<Phase> := [PreStart, Run, Start, Health]

  function GroupWaves(groups: seq<seq<Block>>, tasksOf: Asks): Plan {
    if groups == [] then []
    else PhaseWaves(groups[0], tasksOf, PostRelease) + GroupWaves(groups[1..], tasksOf)
  }

  function DefaultPlan(blocks: seq<Block>, tasksOf: Asks): Plan {
    if blocks == [] then []
    else
      var waves := PhaseWaves(blocks, tasksOf, PreRelease) + GroupWaves(Grouping.Waves(blocks, GroupOf), tasksOf);
      if waves != [] then waves else [[]]
  }

  // ---- numbering a plan ----

  function NumberTasks(chips: seq<Chip>, g: Id): seq<Task> {
    if chips == [] then []
    else [Task(g, chips[0].owner, chips[0].phase)] + NumberTasks(chips[1..], g + 1)
  }

  /** A flow with the given content and fresh ids from g on. */
  function Number(plan: Plan, g: Id): Flow
    decreases plan
  {
    if plan == [] then []
    else [Wave(g, NumberTasks(plan[0], g + 1))] + Number(plan[1..], g + 1 + |plan[0]|)
  }

  function DefaultFlow(blocks: seq<Block>, tasksOf: Asks, g: Id): Flow {
    Number(DefaultPlan(blocks, tasksOf), g)
  }

  lemma {:induction false} NumberTasksChips(chips: seq<Chip>, g: Id)
    ensures Chips(NumberTasks(chips, g)) == chips
  {
    if chips == [] {
    } else {
      NumberTasksChips(chips[1..], g + 1);
      var rest := NumberTasks(chips[1..], g + 1);
      assert Chips([Task(g, chips[0].owner, chips[0].phase)] + rest) == [chips[0]] + Chips(rest);
    }
  }

  lemma {:induction false} NumberSignature(plan: Plan, g: Id)
    ensures Signature(Number(plan, g)) == plan
    decreases plan
  {
    if plan == [] {
    } else {
      NumberTasksChips(plan[0], g + 1);
      NumberSignature(plan[1..], g + 1 + |plan[0]|);
      SignatureConcat([Wave(g, NumberTasks(plan[0], g + 1))], Number(plan[1..], g + 1 + |plan[0]|));
    }
  }

  // ---- the default flow is complete and in order ----

  lemma {:induction false} OfPhaseNoDup(chips: seq<Chip>, p: Phase)
    requires Agenda(chips)
    ensures NoDup(OfPhase(chips, p))
  {
    if chips == [] {
    } else {
      assert Agenda(chips[1..]) by {
        forall i, j | 0 <= i < j < |chips[1..]| && chips[1..][i].owner == chips[1..][j].owner
          ensures Rank(chips[1..][i].phase) < Rank(chips[1..][j].phase)
        {
          assert chips[1..][i] == chips[i + 1] && chips[1..][j] == chips[j + 1];
        }
      }
      OfPhaseNoDup(chips[1..], p);
      if chips[0].phase == p {
        forall j | 0 <= j < |chips[1..]| ensures chips[1..][j] != chips[0] {
          assert chips[j + 1] == chips[1..][j];
        }
        NoDupConcat([chips[0]], OfPhase(chips[1..], p));
      }
    }
  }

  lemma {:induction false} PhaseTasksSpec(blocks: seq<Block>, tasksOf: Asks, p: Phase)
    requires WellAsked(tasksOf)
    ensures forall c :: c in PhaseTasks(blocks, tasksOf, p) <==> c.phase == p && AskedBy(c, blocks, tasksOf)
    ensures DistinctIds(blocks) ==> NoDup(PhaseTasks(blocks, tasksOf, p))
  {
    if blocks == [] {
    } else {
      var first, rest := OfPhase(tasksOf(blocks[0]), p), PhaseTasks(blocks[1..], tasksOf, p);
      PhaseTasksSpec(blocks[1..], tasksOf, p);
      forall c { AskedByFirst(c, blocks, tasksOf); }

      OfPhaseNoDup(tasksOf(blocks[0]), p);
      NoDupConcat(first, rest);
      if DistinctIds(blocks) {
        forall c | c in rest ensures c !in first {
          var _ := AskedOwner(c, blocks[1..], tasksOf);
        }
      }
    }
  }

  lemma AskedOwner(c: Chip, blocks: seq<Block>, tasksOf: Asks) returns (i: nat)
    requires WellAsked(tasksOf)
    requires AskedBy(c, blocks, tasksOf)
    ensures i < |blocks| && c.owner == blocks[i].id && c in tasksOf(blocks[i])
  {
    i :| 0 <= i < |blocks| && c in tasksOf(blocks[i]);
  }

  /** A stretch of a plan that is in order and repeats nothing. */
  ghost predicate Sound(plan: Plan) {
    OrderOk(plan) && NoDup(Flatten(plan))
  }

  lemma SoundConcat(p: Plan, q: Plan)
    requires Sound(p) && Sound(q)
    requires Precedes(Flatten(p), Flatten(q)) && Disjoint(Flatten(p), Flatten(q))
    ensures Sound(p + q)
  {
    FlattenConcat(p, q);
    InOrderConcat(Flatten(p), Flatten(q));
    NoDupConcat(Flatten(p), Flatten(q));
  }

  lemma SoundWave(tasks: seq<Chip>, p: Phase)
    requires NoDup(tasks) && forall c :: c in tasks ==> c.phase == p
    ensures Sound([tasks])
  {
    FlattenOne(tasks);
  }

  lemma {:induction false} PhaseWavesSpec(blocks: seq<Block>, tasksOf: Asks, phases: seq<Phase>)
    requires WellAsked(tasksOf)
    requires DistinctIds(blocks)
    requires forall i, j :: 0 <= i < j < |phases| ==> Rank(phases[i]) < Rank(phases[j])
    ensures Sound(PhaseWaves(blocks, tasksOf, phases))
    ensures forall c :: c in Flatten(PhaseWaves(blocks, tasksOf, phases)) <==>
            c.phase in phases && AskedBy(c, blocks, tasksOf)
  {
    if phases == [] {
    } else {
      var tasks, rest := PhaseTasks(blocks, tasksOf, phases[0]), PhaseWaves(blocks, tasksOf, phases[1..]);
      PhaseTasksSpec(blocks, tasksOf, phases[0]);
      PhaseWavesSpec(blocks, tasksOf, phases[1..]);
      assert forall p: Phase :: p in phases <==> p == phases[0] || p in phases[1..];
      if tasks != [] {
        SoundWave(tasks, phases[0]);
        FlattenOne(tasks);
        FlattenConcat([tasks], rest);
        SoundConcat([tasks], rest);
      } else {
        assert [] + rest == rest;
      }
    }
  }

  /** Groups whose blocks have distinct ids, within a group and across groups. */
  ghost predicate DistinctGroups(groups: seq<seq<Block>>) {
    && (forall i :: 0 <= i < |groups| ==> DistinctIds(groups[i]))
    && (forall i, j, b, b' :: 0 <= i < j < |groups| && b in groups[i] && b' in groups[j] ==> b.id != b'.id)
  }

  ghost predicate AskedByGroups(c: Chip, groups: seq<seq<Block>>, tasksOf: Asks) {
    exists i :: 0 <= i < |groups| && AskedBy(c, groups[i], tasksOf)
  }

  lemma AskedByGroupsFirst(c: Chip, groups: seq<seq<Block>>, tasksOf: Asks)
    requires groups != []
    ensures AskedByGroups(c, groups, tasksOf) <==>
            AskedBy(c, groups[0], tasksOf) || AskedByGroups(c, groups[1..], tasksOf)
  {
    if AskedByGroups(c, groups[1..], tasksOf) {
      var i :| 0 <= i < |groups[1..]| && AskedBy(c, groups[1..][i], tasksOf);
      assert groups[i + 1] == groups[1..][i];
    }
    if i :| 0 <= i < |groups| && AskedBy(c, groups[i], tasksOf) {
      if i > 0 {
        assert groups[i] == groups[1..][i - 1];
      }
    }
  }

  lemma OwnersApart(groups: seq<seq<Block>>, c: Chip, d: Chip, tasksOf: Asks)
    requires WellAsked(tasksOf) && DistinctGroups(groups) && groups != []
    requires AskedBy(c, groups[0], tasksOf) && AskedByGroups(d, groups[1..], tasksOf)
    ensures c.owner != d.owner
  {
    var i := AskedOwner(c, groups[0], tasksOf);
    var j :| 0 <= j < |groups[1..]| && AskedBy(d, groups[1..][j], tasksOf);
    var k := AskedOwner(d, groups[1..][j], tasksOf);
    assert groups[0][i] in groups[0] && groups[1..][j][k] in groups[j + 1];
  }

  lemma {:induction false} GroupWavesSpec(groups: seq<seq<Block>>, tasksOf: Asks)
    requires WellAsked(tasksOf)
    requires DistinctGroups(groups)
    ensures Sound(GroupWaves(groups, tasksOf))
    ensures forall c :: c in Flatten(GroupWaves(groups, tasksOf)) <==>
            !IsPre(c.phase) && AskedByGroups(c, groups, tasksOf)
  {
    if groups == [] {
    } else {
      var first, rest := PhaseWaves(groups[0], tasksOf, PostRelease), GroupWaves(groups[1..], tasksOf);
      PhaseWavesSpec(groups[0], tasksOf, PostRelease);
      GroupWavesSpec(groups[1..], tasksOf);
      PostPhases();
      forall c { AskedByGroupsFirst(c, groups, tasksOf); }
      forall c: Chip, d: Chip | c in Flatten(first) && d in Flatten(rest) ensures c.owner != d.owner {
        OwnersApart(groups, c, d, tasksOf);
      }
      SoundConcat(first, rest);
      FlattenConcat(first, rest);
    }
  }

  lemma PostPhases()
    ensures forall p: Phase :: p in PostRelease <==> !IsPre(p)
    ensures forall p: Phase :: p in PreRelease <==> IsPre(p)
  {
    assert PostRelease[0] == PreStart && PostRelease[1] == Run && PostRelease[2] == Start && PostRelease[3] == Health;
    assert PreRelease[0] == Install && PreRelease[1] == Build && PreRelease[2] == Cleanup;
  }

  lemma {:induction false} BucketDistinct(blocks: seq<Block>, k: nat)
    requires DistinctIds(blocks)
    ensures DistinctIds(Grouping.Bucket(blocks, GroupOf, k))
  {
    if blocks == [] {
    } else {
      var rest := Grouping.Bucket(blocks[1..], GroupOf, k);
      BucketDistinct(blocks[1..], k);
      forall j | 0 <= j < |rest| ensures rest[j].id != blocks[0].id {
        assert rest[j] in rest;
        var m :| 0 <= m < |blocks[1..]| && blocks[1..][m] == rest[j];
        assert blocks[m + 1] == rest[j];
      }
    }
  }

  lemma GroupsDistinct(blocks: seq<Block>)
    requires DistinctIds(blocks)
    ensures DistinctGroups(Grouping.Waves(blocks, GroupOf))
  {
    var groups := Grouping.Waves(blocks, GroupOf);
    Grouping.WavesSorted(blocks, GroupOf);
    forall i | 0 <= i < |groups| ensures DistinctIds(groups[i]) {
      BucketDistinct(blocks, Grouping.Keys(blocks, GroupOf)[i]);
    }
    forall i, j, b: Block, b': Block | 0 <= i < j < |groups| && b in groups[i] && b' in groups[j]
      ensures b.id != b'.id
    {
      assert GroupOf(b) < GroupOf(b');
      var m :| 0 <= m < |blocks| && blocks[m] == b;
      var n :| 0 <= n < |blocks| && blocks[n] == b';
    }
  }

  /** Grouping the blocks neither loses nor invents one. */
  lemma GroupsHold(blocks: seq<Block>, b: Block)
    ensures b in blocks <==>
            exists i :: 0 <= i < |Grouping.Waves(blocks, GroupOf)| && b in Grouping.Waves(blocks, GroupOf)[i]
  {
    var ks := Grouping.Keys(blocks, GroupOf);
    if b in blocks {
      var m :| 0 <= m < |blocks| && blocks[m] == b;
      Grouping.SortSorts(Map(GroupOf, blocks));
      assert Map(GroupOf, blocks)[m] == GroupOf(b);
      assert GroupOf(b) in Map(GroupOf, blocks);
      assert GroupOf(b) in ks;
      var i :| 0 <= i < |ks| && ks[i] == GroupOf(b);
      Grouping.BucketHas(blocks, GroupOf, m);
      assert b in Grouping.Waves(blocks, GroupOf)[i];
    }
  }

  lemma AskedByMember(c: Chip, blocks: seq<Block>, tasksOf: Asks)
    ensures AskedBy(c, blocks, tasksOf) <==> exists b :: b in blocks && c in tasksOf(b)
  {
    if b :| b in blocks && c in tasksOf(b) {
      var m :| 0 <= m < |blocks| && blocks[m] == b;
    }
    if AskedBy(c, blocks, tasksOf) {
      var m :| 0 <= m < |blocks| && c in tasksOf(blocks[m]);
      assert blocks[m] in blocks;
    }
  }

  lemma GroupsCover(c: Chip, blocks: seq<Block>, tasksOf: Asks)
    ensures AskedByGroups(c, Grouping.Waves(blocks, GroupOf), tasksOf) <==> AskedBy(c, blocks, tasksOf)
  {
    var groups := Grouping.Waves(blocks, GroupOf);
    AskedByMember(c, blocks, tasksOf);
    if AskedBy(c, blocks, tasksOf) {
      var b :| b in blocks && c in tasksOf(b);
      GroupsHold(blocks, b);
      var i :| 0 <= i < |groups| && b in groups[i];
      AskedByMember(c, groups[i], tasksOf);
    }
    if AskedByGroups(c, groups, tasksOf) {
      var i :| 0 <= i < |groups| && AskedBy(c, groups[i], tasksOf);
      AskedByMember(c, groups[i], tasksOf);
      var b :| b in groups[i] && c in tasksOf(b);
      GroupsHold(blocks, b);
    }
  }

  /** The default flow is in order and holds every expected chip once, so a repair leaves it untouched. */
  lemma DefaultFlowSound(blocks: seq<Block>, tasksOf: Asks, g: Id, g': Id)
    requires WellAsked(tasksOf) && DistinctIds(blocks)
    ensures OrderOk(Signature(DefaultFlow(blocks, tasksOf, g)))
    ensures Complete(Expected(blocks, tasksOf), DefaultFlow(blocks, tasksOf, g))
    ensures blocks != [] ==>
      Reconcile(Expected(blocks, tasksOf), DefaultFlow(blocks, tasksOf, g), g') == DefaultFlow(blocks, tasksOf, g)
  {
    var flow := DefaultFlow(blocks, tasksOf, g);
    NumberSignature(DefaultPlan(blocks, tasksOf), g);
    ExpectedSpec(blocks, tasksOf);
    if blocks != [] {
      DefaultPlanSound(blocks, tasksOf);
      RepairFixpoint(Expected(blocks, tasksOf), flow, g');
    }
  }

  lemma DefaultPlanSound(blocks: seq<Block>, tasksOf: Asks)
    requires WellAsked(tasksOf)
    requires DistinctIds(blocks) && blocks != []
    ensures Sound(DefaultPlan(blocks, tasksOf))
    ensures forall c :: c in Flatten(DefaultPlan(blocks, tasksOf)) <==> AskedBy(c, blocks, tasksOf)
  {
    var groups := Grouping.Waves(blocks, GroupOf);
    var pre, post := PhaseWaves(blocks, tasksOf, PreRelease), GroupWaves(groups, tasksOf);
    PhaseWavesSpec(blocks, tasksOf, PreRelease);
    GroupsDistinct(blocks);
    GroupWavesSpec(groups, tasksOf);
    PostPhases();
    forall c ensures AskedByGroups(c, groups, tasksOf) <==> AskedBy(c, blocks, tasksOf) {
      GroupsCover(c, blocks, tasksOf);
    }
    BothSides(pre, post, tasksOf, blocks);
  }

  lemma BothSides(pre: Plan, post: Plan, tasksOf: Asks, blocks: seq<Block>)
    requires Sound(pre) && Sound(post)
    requires forall c :: c in Flatten(pre) <==> IsPre(c.phase) && AskedBy(c, blocks, tasksOf)
    requires forall c :: c in Flatten(post) <==> !IsPre(c.phase) && AskedBy(c, blocks, tasksOf)
    ensures var plan := if pre + post != [] then pre + post else [[]];
      Sound(plan) && forall c :: c in Flatten(plan) <==> AskedBy(c, blocks, tasksOf)
  {
    forall p: Phase, q: Phase ensures IsPre(p) && !IsPre(q) ==> Rank(p) < Rank(q) {}
    SoundConcat(pre, post);
    FlattenConcat(pre, post);
    FlattenOne<Chip>([]);
    SoundWave([], Install);
  }

  /** The tasks blocks really contribute, for one classification of install commands. */
  function AsksOf(kind: Kinds): Asks {
    b => TasksForBlock(b, kind)
  }

  /** They are what the repair and the default flow rely on: distinct phases of the block's own app, in rank order. */
  lemma BlocksAskWell(kind: Kinds)
    ensures WellAsked(AsksOf(kind))
  {
    forall b: Block ensures Agenda(AsksOf(kind)(b)) && forall c :: c in AsksOf(kind)(b) ==> c.owner == b.id {
      TasksAgenda(b, kind);
    }
  }
}
