/** Where each task stands in the default flow, and in the list of what blocks expect. */
module FlowDefaultOrder {
  import opened Seqs
  import opened FlowModel
  import opened FlowBlocks
  import opened FlowDefault
  import opened RepairOrder
  import Grouping

  // ---- plans by level ----

  /** All of a wave on one level, later waves on higher ones. */
  ghost predicate Leveled(plan: Plan, level: Chip -> nat) {
    && (forall i, c, d :: 0 <= i < |plan| && c in plan[i] && d in plan[i] ==> level(c) == level(d))
    && (forall i, j, c, d :: 0 <= i < j < |plan| && c in plan[i] && d in plan[j] ==> level(c) < level(d))
  }

  /** Every wave goes through the blocks in their order. */
  ghost predicate AllRise(plan: Plan, place: string -> nat) {
    forall i :: 0 <= i < |plan| ==> Rises(plan[i], place)
  }

  ghost predicate Rises(chips: seq<Chip>, place: string -> nat) {
    forall i, j :: 0 <= i < j < |chips| ==> place(chips[i].owner) < place(chips[j].owner)
  }

  ghost predicate BlocksRise(blocks: seq<Block>, place: string -> nat) {
    forall i, j :: 0 <= i < j < |blocks| ==> place(blocks[i].id) < place(blocks[j].id)
  }

  lemma InWave(plan: Plan, i: nat, c: Chip)
    requires i < |plan| && c in plan[i]
    ensures c in Flatten(plan)
  {
    FlattenMember(plan, c);
  }

  lemma LeveledConcat(p: Plan, q: Plan, level: Chip -> nat)
    requires Leveled(p, level) && Leveled(q, level)
    requires forall c, d :: c in Flatten(p) && d in Flatten(q) ==> level(c) < level(d)
    ensures Leveled(p + q, level)
  {
    var r := p + q;
    forall i, c | 0 <= i < |p| && c in p[i] ensures c in Flatten(p) {
      InWave(p, i, c);
    }
    forall i, c | 0 <= i < |q| && c in q[i] ensures c in Flatten(q) {
      InWave(q, i, c);
    }
    forall i, j, c, d | 0 <= i < j < |r| && c in r[i] && d in r[j] ensures level(c) < level(d) {
      if i < |p| <= j {
        assert c in p[i] && d in q[j - |p|];
      }
    }
  }

  // ---- one phase after the other ----

  lemma {:induction false} OfPhaseMembers(chips: seq<Chip>, p: Phase, c: Chip)
    ensures c in OfPhase(chips, p) <==> c in chips && c.phase == p
  {
    if chips == [] {
    } else {
      OfPhaseMembers(chips[1..], p, c);
    }
  }

  lemma FirstTwo<T>(xs: seq<T>)
    requires NoDup(xs)
    ensures |xs| > 1 ==> xs[0] != xs[1]
  {
  }

  /** A block contributes at most one task of a phase. */
  lemma OneOfPhase(b: Block, tasksOf: Asks, p: Phase)
    requires WellAsked(tasksOf)
    ensures |OfPhase(tasksOf(b), p)| <= 1
  {
    var all := OfPhase(tasksOf(b), p);
    OfPhaseNoDup(tasksOf(b), p);
    forall i | 0 <= i < |all| ensures all[i] == Chip(b.id, p) {
      OfPhaseMembers(tasksOf(b), p, all[i]);
    }
    FirstTwo(all);
  }

  lemma {:induction false} PhaseTasksRise(blocks: seq<Block>, tasksOf: Asks, p: Phase, place: string -> nat)
    requires WellAsked(tasksOf) && BlocksRise(blocks, place)
    ensures Rises(PhaseTasks(blocks, tasksOf, p), place)
    ensures forall c :: c in PhaseTasks(blocks, tasksOf, p) ==>
              c.phase == p && exists b :: b in blocks && b.id == c.owner
  {
    if blocks == [] {
    } else {
      var first, rest := OfPhase(tasksOf(blocks[0]), p), PhaseTasks(blocks[1..], tasksOf, p);
      PhaseTasksRise(blocks[1..], tasksOf, p, place);
      OneOfPhase(blocks[0], tasksOf, p);
      forall c | c in first ensures c == Chip(blocks[0].id, p) {
        OfPhaseMembers(tasksOf(blocks[0]), p, c);
      }
      forall c | c in rest ensures place(blocks[0].id) < place(c.owner) {
        var b :| b in blocks[1..] && b.id == c.owner;
        var i :| 0 <= i < |blocks[1..]| && blocks[1..][i] == b;
        assert blocks[i + 1] == b;
      }
      RisesConcat(first, rest, place);
    }
  }

  lemma RisesConcat(first: seq<Chip>, rest: seq<Chip>, place: string -> nat)
    requires Rises(first, place) && Rises(rest, place)
    requires forall c, d :: c in first && d in rest ==> place(c.owner) < place(d.owner)
    ensures Rises(first + rest, place)
  {
  }

  /** Chips of these blocks, in these phases. */
  ghost predicate Within(plan: Plan, blocks: seq<Block>, phases: seq<Phase>) {
    forall c :: c in Flatten(plan) ==> c.phase in phases && exists b :: b in blocks && b.id == c.owner
  }

  /** The level of a chip goes by its phase, for chips of these blocks. */
  ghost predicate ByPhase(blocks: seq<Block>, phases: seq<Phase>, level: Chip -> nat, base: nat) {
    forall b, p :: b in blocks && p in phases ==> level(Chip(b.id, p)) == base + Rank(p)
  }

  lemma {:induction false} PhaseWavesLeveled(blocks: seq<Block>, tasksOf: Asks, phases: seq<Phase>,
                                             place: string -> nat, level: Chip -> nat, base: nat)
    requires WellAsked(tasksOf) && BlocksRise(blocks, place) && ByPhase(blocks, phases, level, base)
    requires forall i, j :: 0 <= i < j < |phases| ==> Rank(phases[i]) < Rank(phases[j])
    ensures var plan := PhaseWaves(blocks, tasksOf, phases);
      Leveled(plan, level) && AllRise(plan, place) && Within(plan, blocks, phases)
  {
    if phases == [] {
    } else {
      var tasks, rest := PhaseTasks(blocks, tasksOf, phases[0]), PhaseWaves(blocks, tasksOf, phases[1..]);
      PhaseTasksRise(blocks, tasksOf, phases[0], place);
      PhaseWavesLeveled(blocks, tasksOf, phases[1..], place, level, base);
      FirstPhase(blocks, tasks, rest, phases, level, base);
      if tasks == [] {
        assert [] + rest == rest;
      }
    }
  }

  /** A chip of these blocks in one of the phases after the first. */
  lemma LaterPhase(blocks: seq<Block>, phases: seq<Phase>, level: Chip -> nat, base: nat, c: Chip)
    requires phases != [] && ByPhase(blocks, phases, level, base) && c.phase in phases[1..]
    requires exists b :: b in blocks && b.id == c.owner
    requires forall i, j :: 0 <= i < j < |phases| ==> Rank(phases[i]) < Rank(phases[j])
    ensures c.phase in phases && level(c) > base + Rank(phases[0])
  {
    var i :| 0 <= i < |phases[1..]| && phases[1..][i] == c.phase;
    LevelOf(blocks, phases, level, base, c, i + 1);
  }

  lemma LevelFirst(tasks: seq<Chip>, rest: Plan, level: Chip -> nat, n: nat)
    requires Leveled(rest, level) && forall c :: c in tasks ==> level(c) == n
    requires forall c :: c in Flatten(rest) ==> level(c) > n
    ensures Leveled([tasks] + rest, level)
  {
    FlattenOne(tasks);
    LeveledConcat([tasks], rest, level);
  }

  lemma FirstPhase(blocks: seq<Block>, tasks: seq<Chip>, rest: Plan, phases: seq<Phase>, level: Chip -> nat, base: nat)
    requires phases != [] && ByPhase(blocks, phases, level, base) && Leveled(rest, level)
    requires Within(rest, blocks, phases[1..])
    requires forall c :: c in tasks ==> c.phase == phases[0] && exists b :: b in blocks && b.id == c.owner
    requires forall i, j :: 0 <= i < j < |phases| ==> Rank(phases[i]) < Rank(phases[j])
    ensures Leveled([tasks] + rest, level) && Within([tasks] + rest, blocks, phases) && Within(rest, blocks, phases)
  {
    FlattenOne(tasks);
    FlattenConcat([tasks], rest);
    forall c | c in tasks ensures c.phase in phases && level(c) == base + Rank(phases[0]) {
      LevelOf(blocks, phases, level, base, c, 0);
    }
    forall c | c in Flatten(rest) ensures c.phase in phases && level(c) > base + Rank(phases[0]) {
      LaterPhase(blocks, phases, level, base, c);
    }
    LevelFirst(tasks, rest, level, base + Rank(phases[0]));
  }

  lemma LevelOf(blocks: seq<Block>, phases: seq<Phase>, level: Chip -> nat, base: nat, c: Chip, i: nat)
    requires ByPhase(blocks, phases, level, base) && i < |phases| && c.phase == phases[i]
    requires exists b :: b in blocks && b.id == c.owner
    ensures c.phase in phases && level(c) == base + Rank(phases[i])
  {
    var b :| b in blocks && b.id == c.owner;
    assert c == Chip(b.id, phases[i]);
  }

  // ---- one group after the other ----

  ghost function Place(blocks: seq<Block>, id: string): nat {
    if blocks == [] then 0 else if blocks[0].id == id then 0 else 1 + Place(blocks[1..], id)
  }

  /** The start group of the block with this id. */
  ghost function GroupFor(blocks: seq<Block>, id: string): nat {
    if Place(blocks, id) < |blocks| then GroupOf(blocks[Place(blocks, id)]) else 0
  }

  lemma {:induction false} PlaceIs(blocks: seq<Block>, i: nat)
    requires DistinctIds(blocks) && i < |blocks|
    ensures Place(blocks, blocks[i].id) == i
  {
    if i > 0 {
      PlaceIs(blocks[1..], i - 1);
    }
  }

  ghost function PlaceIn(blocks: seq<Block>): string -> nat {
    id => Place(blocks, id)
  }

  /** Phases before the release first, each on a level of its own; then group by group the phases after it. */
  ghost function LevelIn(blocks: seq<Block>): Chip -> nat {
    (c: Chip) => if IsPre(c.phase) then Rank(c.phase) else 7 * (1 + GroupFor(blocks, c.owner)) + Rank(c.phase)
  }

  lemma BlocksInOrder(blocks: seq<Block>)
    requires DistinctIds(blocks)
    ensures BlocksRise(blocks, PlaceIn(blocks))
  {
    forall i | 0 <= i < |blocks| ensures Place(blocks, blocks[i].id) == i {
      PlaceIs(blocks, i);
    }
  }

  lemma {:induction false} BucketRises(xs: seq<Block>, place: string -> nat, k: nat)
    requires BlocksRise(xs, place)
    ensures BlocksRise(Grouping.Bucket(xs, GroupOf, k), place)
  {
    if xs == [] {
    } else {
      var rest := Grouping.Bucket(xs[1..], GroupOf, k);
      BucketRises(xs[1..], place, k);
      forall j | 0 <= j < |rest| ensures place(xs[0].id) < place(rest[j].id) {
        assert rest[j] in rest;
        var m :| 0 <= m < |xs[1..]| && xs[1..][m] == rest[j];
        assert xs[m + 1] == rest[j];
      }
    }
  }

  /** Groups of blocks, each in order, with strictly increasing numbers. */
  ghost predicate GroupsRise(groups: seq<seq<Block>>, blocks: seq<Block>) {
    && (forall i :: 0 <= i < |groups| ==> BlocksRise(groups[i], PlaceIn(blocks)))
    && (forall i, b, b' :: 0 <= i < |groups| && b in groups[i] && b' in groups[i] ==> GroupOf(b) == GroupOf(b'))
    && (forall i, j, b, b' :: 0 <= i < j < |groups| && b in groups[i] && b' in groups[j] ==> GroupOf(b) < GroupOf(b'))
    && (forall i, b :: 0 <= i < |groups| && b in groups[i] ==> b in blocks)
  }

  lemma GroupIs(blocks: seq<Block>, b: Block)
    requires DistinctIds(blocks) && b in blocks
    ensures GroupFor(blocks, b.id) == GroupOf(b)
  {
    var i :| 0 <= i < |blocks| && blocks[i] == b;
    PlaceIs(blocks, i);
  }

  lemma PostRanks(p: Phase)
    ensures p in PostRelease <==> !IsPre(p)
    ensures Rank(p) < 7
  {
    PostPhases();
  }

  lemma GroupLevel(group: seq<Block>, blocks: seq<Block>, g: nat)
    requires DistinctIds(blocks) && forall b :: b in group ==> b in blocks && GroupOf(b) == g
    ensures ByPhase(group, PostRelease, LevelIn(blocks), 7 * (1 + g))
  {
    forall b, p | b in group && p in PostRelease ensures LevelIn(blocks)(Chip(b.id, p)) == 7 * (1 + g) + Rank(p) {
      GroupIs(blocks, b);
      PostRanks(p);
    }
  }

  ghost predicate OfGroups(plan: Plan, groups: seq<seq<Block>>) {
    forall c :: c in Flatten(plan) ==>
      !IsPre(c.phase) && InGroups(groups, c)
  }

  lemma GroupsTail(groups: seq<seq<Block>>, blocks: seq<Block>)
    requires groups != [] && GroupsRise(groups, blocks)
    ensures GroupsRise(groups[1..], blocks)
  {
  }

  lemma {:induction false} GroupWavesLeveled(groups: seq<seq<Block>>, tasksOf: Asks, blocks: seq<Block>)
    requires WellAsked(tasksOf) && DistinctIds(blocks) && GroupsRise(groups, blocks)
    ensures var plan := GroupWaves(groups, tasksOf);
      Leveled(plan, LevelIn(blocks)) && AllRise(plan, PlaceIn(blocks)) && OfGroups(plan, groups)
  {
    if groups == [] {
    } else {
      var g := if groups[0] == [] then 0 else GroupOf(groups[0][0]);
      GroupsTail(groups, blocks);
      GroupWavesLeveled(groups[1..], tasksOf, blocks);
      OneGroupLeveled(groups, tasksOf, blocks, g);
      FirstGroup(groups, blocks, PhaseWaves(groups[0], tasksOf, PostRelease), GroupWaves(groups[1..], tasksOf), g);
    }
  }

  lemma OneGroupLeveled(groups: seq<seq<Block>>, tasksOf: Asks, blocks: seq<Block>, g: nat)
    requires WellAsked(tasksOf) && DistinctIds(blocks) && groups != [] && GroupsRise(groups, blocks)
    requires groups[0] != [] ==> g == GroupOf(groups[0][0])
    ensures var plan := PhaseWaves(groups[0], tasksOf, PostRelease);
      Leveled(plan, LevelIn(blocks)) && AllRise(plan, PlaceIn(blocks)) && Within(plan, groups[0], PostRelease)
    ensures forall b :: b in groups[0] ==> GroupOf(b) == g
  {
    forall b | b in groups[0] ensures b in blocks && GroupOf(b) == g {
      assert groups[0][0] in groups[0];
    }
    GroupLevel(groups[0], blocks, g);
    PostRise();
    PhaseWavesLeveled(groups[0], tasksOf, PostRelease, PlaceIn(blocks), LevelIn(blocks), 7 * (1 + g));
  }

  lemma PostRise()
    ensures forall i, j :: 0 <= i < j < |PostRelease| ==> Rank(PostRelease[i]) < Rank(PostRelease[j])
    ensures forall i, j :: 0 <= i < j < |PreRelease| ==> Rank(PreRelease[i]) < Rank(PreRelease[j])
  {
  }

  ghost predicate InGroups(groups: seq<seq<Block>>, c: Chip) {
    exists i, b :: 0 <= i < |groups| && b in groups[i] && b.id == c.owner
  }

  /** A chip of the first group. */
  lemma FirstLevel(groups: seq<seq<Block>>, blocks: seq<Block>, c: Chip, g: nat)
    requires groups != [] && DistinctIds(blocks) && GroupsRise(groups, blocks)
    requires forall b :: b in groups[0] ==> GroupOf(b) == g
    requires c.phase in PostRelease && exists b :: b in groups[0] && b.id == c.owner
    ensures !IsPre(c.phase) && LevelIn(blocks)(c) < 7 * (2 + g) && InGroups(groups, c) && groups[0] != []
  {
    var b :| b in groups[0] && b.id == c.owner;
    PostRanks(c.phase);
    GroupIs(blocks, b);
  }

  /** A chip of a later one. */
  lemma LaterLevel(groups: seq<seq<Block>>, blocks: seq<Block>, c: Chip, g: nat)
    requires groups != [] && DistinctIds(blocks) && GroupsRise(groups, blocks)
    requires forall b :: b in groups[0] ==> GroupOf(b) == g
    requires !IsPre(c.phase) && InGroups(groups[1..], c)
    ensures InGroups(groups, c) && (groups[0] != [] ==> LevelIn(blocks)(c) >= 7 * (2 + g))
  {
    var i, b :| 0 <= i < |groups[1..]| && b in groups[1..][i] && b.id == c.owner;
    assert b in groups[i + 1];
    GroupIs(blocks, b);
    if groups[0] != [] {
      assert groups[0][0] in groups[0] && GroupOf(groups[0][0]) < GroupOf(b);
    }
  }

  lemma FirstGroup(groups: seq<seq<Block>>, blocks: seq<Block>, first: Plan, rest: Plan, g: nat)
    requires groups != [] && DistinctIds(blocks) && GroupsRise(groups, blocks)
    requires forall b :: b in groups[0] ==> GroupOf(b) == g
    requires Leveled(first, LevelIn(blocks)) && Leveled(rest, LevelIn(blocks))
    requires Within(first, groups[0], PostRelease) && OfGroups(rest, groups[1..])
    ensures Leveled(first + rest, LevelIn(blocks)) && OfGroups(first + rest, groups)
  {
    FlattenConcat(first, rest);
    forall c | c in Flatten(first)
      ensures !IsPre(c.phase) && LevelIn(blocks)(c) < 7 * (2 + g) && InGroups(groups, c) && groups[0] != []
    {
      FirstLevel(groups, blocks, c, g);
    }
    forall c | c in Flatten(rest)
      ensures InGroups(groups, c) && (groups[0] != [] ==> LevelIn(blocks)(c) >= 7 * (2 + g))
    {
      LaterLevel(groups, blocks, c, g);
    }
    LeveledConcat(first, rest, LevelIn(blocks));
  }

  lemma WavesRise(blocks: seq<Block>)
    requires DistinctIds(blocks)
    ensures GroupsRise(Grouping.Waves(blocks, GroupOf), blocks)
  {
    var groups := Grouping.Waves(blocks, GroupOf);
    Grouping.WavesSorted(blocks, GroupOf);
    BlocksInOrder(blocks);
    forall i | 0 <= i < |groups| ensures BlocksRise(groups[i], PlaceIn(blocks)) {
      BucketRises(blocks, PlaceIn(blocks), Grouping.Keys(blocks, GroupOf)[i]);
    }
    forall i, b | 0 <= i < |groups| && b in groups[i] ensures b in blocks {
      GroupsHold(blocks, b);
    }
  }

  // ---- the default flow ----

  /** One task belongs in an earlier wave of the default flow than another. */
  ghost predicate Earlier(blocks: seq<Block>, c: Chip, d: Chip) {
    if IsPre(c.phase) then !IsPre(d.phase) || Rank(c.phase) < Rank(d.phase)
    else
      && !IsPre(d.phase)
      && var (g, h) := (GroupFor(blocks, c.owner), GroupFor(blocks, d.owner));
         g < h || (g == h && Rank(c.phase) < Rank(d.phase))
  }

  lemma LevelMeans(blocks: seq<Block>, c: Chip, d: Chip)
    ensures LevelIn(blocks)(c) < LevelIn(blocks)(d) <==> Earlier(blocks, c, d)
  {
    PostRanks(c.phase);
    PostRanks(d.phase);
  }

  lemma PreLeveled(blocks: seq<Block>, tasksOf: Asks)
    requires WellAsked(tasksOf) && DistinctIds(blocks)
    ensures var plan := PhaseWaves(blocks, tasksOf, PreRelease);
      Leveled(plan, LevelIn(blocks)) && AllRise(plan, PlaceIn(blocks)) && Within(plan, blocks, PreRelease)
  {
    BlocksInOrder(blocks);
    PostRise();
    PreLevel(blocks);
    PhaseWavesLeveled(blocks, tasksOf, PreRelease, PlaceIn(blocks), LevelIn(blocks), 0);
  }

  lemma PreThenPost(pre: Plan, post: Plan, blocks: seq<Block>, groups: seq<seq<Block>>)
    requires Leveled(pre, LevelIn(blocks)) && Within(pre, blocks, PreRelease)
    requires Leveled(post, LevelIn(blocks)) && OfGroups(post, groups)
    ensures Leveled(pre + post, LevelIn(blocks))
  {
    forall c, d | c in Flatten(pre) && d in Flatten(post) ensures LevelIn(blocks)(c) < LevelIn(blocks)(d) {
      PostRanks(c.phase);
      PostPhases();
    }
    LeveledConcat(pre, post, LevelIn(blocks));
  }

  lemma DefaultIs(blocks: seq<Block>, tasksOf: Asks)
    ensures var plan := PhaseWaves(blocks, tasksOf, PreRelease) + GroupWaves(Grouping.Waves(blocks, GroupOf), tasksOf);
      DefaultPlan(blocks, tasksOf) == if blocks == [] then [] else if plan != [] then plan else [[]]
  {
  }

  ghost predicate InDefaultOrder(plan: Plan, blocks: seq<Block>) {
    Leveled(plan, LevelIn(blocks)) && AllRise(plan, PlaceIn(blocks))
  }

  lemma EmptyInOrder(blocks: seq<Block>)
    ensures InDefaultOrder([], blocks) && InDefaultOrder([[]], blocks)
  {
  }

  lemma WavesInOrder(blocks: seq<Block>, tasksOf: Asks)
    requires WellAsked(tasksOf) && DistinctIds(blocks)
    ensures InDefaultOrder(PhaseWaves(blocks, tasksOf, PreRelease) +
                           GroupWaves(Grouping.Waves(blocks, GroupOf), tasksOf), blocks)
  {
    var groups := Grouping.Waves(blocks, GroupOf);
    WavesRise(blocks);
    PreLeveled(blocks, tasksOf);
    GroupWavesLeveled(groups, tasksOf, blocks);
    PreThenPost(PhaseWaves(blocks, tasksOf, PreRelease), GroupWaves(groups, tasksOf), blocks, groups);
    AllRiseConcat(PhaseWaves(blocks, tasksOf, PreRelease), GroupWaves(groups, tasksOf), PlaceIn(blocks));
  }

  lemma AllRiseConcat(p: Plan, q: Plan, place: string -> nat)
    requires AllRise(p, place) && AllRise(q, place)
    ensures AllRise(p + q, place)
  {
  }

  lemma DefaultLeveled(blocks: seq<Block>, tasksOf: Asks)
    requires WellAsked(tasksOf) && DistinctIds(blocks)
    ensures InDefaultOrder(DefaultPlan(blocks, tasksOf), blocks)
  {
    DefaultIs(blocks, tasksOf);
    EmptyInOrder(blocks);
    WavesInOrder(blocks, tasksOf);
  }

  lemma PreLevel(blocks: seq<Block>)
    ensures ByPhase(blocks, PreRelease, LevelIn(blocks), 0)
  {
    PostPhases();
  }

  /**
   * The default flow puts one task in an earlier wave than another exactly when its phase comes
   * before the release and the other's after it, or both come before it and its phase is earlier,
   * or both come after it and its block's start group is lower, or the same with the phase earlier.
   * Within a wave tasks follow the order of the blocks.
   */
  lemma DefaultOrder(blocks: seq<Block>, tasksOf: Asks, i: nat, j: nat, k: nat, l: nat)
    requires WellAsked(tasksOf) && DistinctIds(blocks)
    requires i < |DefaultPlan(blocks, tasksOf)| && k < |DefaultPlan(blocks, tasksOf)[i]|
    requires j < |DefaultPlan(blocks, tasksOf)| && l < |DefaultPlan(blocks, tasksOf)[j]|
    ensures var plan := DefaultPlan(blocks, tasksOf); var (c, d) := (plan[i][k], plan[j][l]);
      && (i < j <==> Earlier(blocks, c, d))
      && (i == j ==> (k < l <==> Place(blocks, c.owner) < Place(blocks, d.owner)))
  {
    DefaultLeveled(blocks, tasksOf);
    Stands(DefaultPlan(blocks, tasksOf), LevelIn(blocks), PlaceIn(blocks), i, j, k, l);
    LevelMeans(blocks, DefaultPlan(blocks, tasksOf)[i][k], DefaultPlan(blocks, tasksOf)[j][l]);
  }

  lemma Stands(plan: Plan, level: Chip -> nat, place: string -> nat, i: nat, j: nat, k: nat, l: nat)
    requires Leveled(plan, level) && AllRise(plan, place)
    requires i < |plan| && k < |plan[i]| && j < |plan| && l < |plan[j]|
    ensures i < j <==> level(plan[i][k]) < level(plan[j][l])
    ensures i == j ==> (k < l <==> place(plan[i][k].owner) < place(plan[j][l].owner))
  {
    var c, d := plan[i][k], plan[j][l];
    assert c in plan[i] && d in plan[j];
    assert Rises(plan[i], place);
  }

  // ---- what blocks expect ----

  lemma {:induction false} AddAllNew(acc: seq<Chip>, chips: seq<Chip>)
    requires NoDup(chips) && forall c :: c in chips ==> c !in acc
    ensures AddAll(acc, chips) == acc + chips
    decreases chips
  {
    if chips == [] {
      assert acc + [] == acc;
    } else {
      AddAllNew(acc + [chips[0]], chips[1..]);
      assert acc + [chips[0]] + chips[1..] == acc + chips;
    }
  }

  lemma {:induction false} ExpectedFromNew(acc: seq<Chip>, blocks: seq<Block>, tasksOf: Asks)
    requires WellAsked(tasksOf) && DistinctIds(blocks)
    requires forall c, b :: c in acc && b in blocks ==> c.owner != b.id
    ensures ExpectedFrom(acc, blocks, tasksOf) == acc + Flatten(Map(tasksOf, blocks))
    decreases blocks
  {
    if blocks == [] {
      assert Map(tasksOf, blocks) == [];
    } else {
      var first := tasksOf(blocks[0]);
      AgendaNoDup(first);
      AddAllNew(acc, first);
      forall c, b | c in acc + first && b in blocks[1..] ensures c.owner != b.id {
        var m :| 0 <= m < |blocks[1..]| && blocks[1..][m] == b;
        assert blocks[m + 1] == b;
      }
      ExpectedFromNew(acc + first, blocks[1..], tasksOf);
      assert Map(tasksOf, blocks) == [first] + Map(tasksOf, blocks[1..]);
      Reassoc(acc, first, Flatten(Map(tasksOf, blocks[1..])));
    }
  }

  lemma AgendaNoDup(chips: seq<Chip>)
    requires Agenda(chips)
    ensures NoDup(chips)
  {
  }

  /** Blocks expect their own tasks, block after block. */
  lemma ExpectedInOrder(blocks: seq<Block>, tasksOf: Asks)
    requires WellAsked(tasksOf) && DistinctIds(blocks)
    ensures Expected(blocks, tasksOf) == Flatten(Map(tasksOf, blocks))
  {
    ExpectedFromNew([], blocks, tasksOf);
  }
}
