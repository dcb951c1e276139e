/** The start-order board: apps in waves, kept as a group number on every block. */
module DeployOrder {
  import opened Seqs
  import opened FlowBlocks
  import opened FlowDefault
  import Grouping

  /** A wave lists block ids; its group is its place. */
  type Board = seq<seq<string>>

  function IdsOf(blocks: seq<Block>): (r: seq<string>)
    ensures |r| == |blocks| && forall i :: 0 <= i < |blocks| ==> r[i] == blocks[i].id
  {
    if blocks == [] then [] else [blocks[0].id] + IdsOf(blocks[1..])
  }

  function BoardOf(groups: seq<seq<Block>>): (r: Board)
    ensures |r| == |groups| && forall i :: 0 <= i < |groups| ==> r[i] == IdsOf(groups[i])
  {
    if groups == [] then [] else [IdsOf(groups[0])] + BoardOf(groups[1..])
  }

  function WavesFromBlocks(blocks: seq<Block>): Board {
    BoardOf(Grouping.Waves(blocks, GroupOf))
  }

  /** The last block with an id. */
  function BlockOf(blocks: seq<Block>, id: string): (r: Option<Block>)
    ensures r.Some? ==> r.value in blocks && r.value.id == id
    ensures r.None? ==> forall b :: b in blocks ==> b.id != id
  {
    if blocks == [] then None
    else
      var n := |blocks| - 1;
      assert blocks == blocks[..n] + [blocks[n]];
      if blocks[n].id == id then Some(blocks[n]) else BlockOf(blocks[..n], id)
  }

  function Stamp(b: Block, i: nat): Block {
    b.(startGroup := Some(i as real))
  }

  /** The blocks of one wave, unknown ids and ids seen before left out. */
  function PlaceIds(blocks: seq<Block>, ids: seq<string>, i: nat, seen: set<string>): seq<Block>
    decreases ids
  {
    if ids == [] then []
    else if ids[0] in seen || BlockOf(blocks, ids[0]).None? then PlaceIds(blocks, ids[1..], i, seen)
    else [Stamp(BlockOf(blocks, ids[0]).value, i)] + PlaceIds(blocks, ids[1..], i, seen + {ids[0]})
  }

  function SeenAfter(blocks: seq<Block>, ids: seq<string>, seen: set<string>): set<string> {
    seen + set id | id in ids && BlockOf(blocks, id).Some?
  }

  function PlaceWaves(blocks: seq<Block>, waves: Board, i: nat, seen: set<string>): seq<Block>
    decreases waves
  {
    if waves == [] then []
    else PlaceIds(blocks, waves[0], i, seen) + PlaceWaves(blocks, waves[1..], i + 1, SeenAfter(blocks, waves[0], seen))
  }

  function Leftover(blocks: seq<Block>, seen: set<string>, i: nat): seq<Block> {
    if blocks == [] then []
    else (if blocks[0].id in seen then [] else [Stamp(blocks[0], i)]) + Leftover(blocks[1..], seen, i)
  }

  /** Writes the board back onto the blocks; a block no wave has goes after the last wave. */
  function BlocksWithWaves(blocks: seq<Block>, waves: Board): seq<Block> {
    PlaceWaves(blocks, waves, 0, {}) + Leftover(blocks, SeenAfter(blocks, Flatten(waves), {}), |waves|)
  }

  method WriteWaves(blocks: seq<Block>, waves: Board) returns (out: seq<Block>)
    ensures out == BlocksWithWaves(blocks, waves)
  {
    var seen;
    out, seen := WriteBoard(blocks, waves);
    var rest := WriteLeftover(blocks, seen, |waves|);
    out := out + rest;
  }

  method WriteBoard(blocks: seq<Block>, waves: Board) returns (out: seq<Block>, seen: set<string>)
    ensures out == PlaceWaves(blocks, waves, 0, {}) && seen == SeenAfter(blocks, Flatten(waves), {})
  {
    out, seen := [], {};
    assert waves[0..] == waves;
    for i := 0 to |waves|
      invariant out + PlaceWaves(blocks, waves[i..], i, seen) == PlaceWaves(blocks, waves, 0, {})
      invariant seen == SeenAfter(blocks, Flatten(waves[..i]), {})
    {
      assert waves[i..][0] == waves[i] && waves[i..][1..] == waves[i + 1..];
      SeenGrows(blocks, waves, i);
      ghost var later := PlaceWaves(blocks, waves[i + 1..], i + 1, SeenAfter(blocks, waves[i], seen));
      var placed;
      placed, seen := WriteWave(blocks, waves[i], i, seen);
      Reassoc(out, placed, later);
      out := out + placed;
    }
    assert waves[..|waves|] == waves;
  }

  method WriteLeftover(blocks: seq<Block>, seen: set<string>, i: nat) returns (out: seq<Block>)
    ensures out == Leftover(blocks, seen, i)
  {
    out := [];
    assert blocks[0..] == blocks;
    for j := 0 to |blocks|
      invariant out + Leftover(blocks[j..], seen, i) == Leftover(blocks, seen, i)
    {
      assert blocks[j..][1..] == blocks[j + 1..];
      if blocks[j].id !in seen {
        out := out + [Stamp(blocks[j], i)];
      }
    }
  }

  lemma SeenGrows(blocks: seq<Block>, waves: Board, i: nat)
    requires i < |waves|
    ensures SeenAfter(blocks, Flatten(waves[..i + 1]), {}) ==
            SeenAfter(blocks, waves[i], SeenAfter(blocks, Flatten(waves[..i]), {}))
  {
    assert waves[..i + 1] == waves[..i] + [waves[i]];
    FlattenConcat(waves[..i], [waves[i]]);
    FlattenOne(waves[i]);
  }

  method WriteWave(blocks: seq<Block>, ids: seq<string>, i: nat, seen0: set<string>)
      returns (out: seq<Block>, seen: set<string>)
    ensures out == PlaceIds(blocks, ids, i, seen0) && seen == SeenAfter(blocks, ids, seen0)
  {
    out, seen := [], seen0;
    assert ids[0..] == ids;
    for j := 0 to |ids|
      invariant out + PlaceIds(blocks, ids[j..], i, seen) == PlaceIds(blocks, ids, i, seen0)
      invariant seen == SeenAfter(blocks, ids[..j], seen0)
    {
      assert ids[j..][1..] == ids[j + 1..];
      var b := BlockOf(blocks, ids[j]);
      if b.Some? && ids[j] !in seen {
        seen := seen + {ids[j]};
        out := out + [Stamp(b.value, i)];
      }
    }
  }

  // ---- boards and blocks carry the same information ----

  /** Every id in exactly one place, and no wave empty. */
  ghost predicate Partition(waves: Board, ids: set<string>) {
    NoDup(Flatten(waves)) && Elems(Flatten(waves)) == ids && forall i :: 0 <= i < |waves| ==> waves[i] != []
  }

  function IdSet(blocks: seq<Block>): set<string> {
    Elems(IdsOf(blocks))
  }

  // sufficiency

  function StampWave(blocks: seq<Block>, ids: seq<string>, i: nat): seq<Block> {
    if ids == [] then []
    else match BlockOf(blocks, ids[0])
      case None => StampWave(blocks, ids[1..], i)
      case Some(b) => [Stamp(b, i)] + StampWave(blocks, ids[1..], i)
  }

  function StampAll(blocks: seq<Block>, waves: Board, i: nat): (r: seq<seq<Block>>)
    ensures |r| == |waves| && forall k :: 0 <= k < |waves| ==> r[k] == StampWave(blocks, waves[k], i + k)
    decreases waves
  {
    if waves == [] then [] else [StampWave(blocks, waves[0], i)] + StampAll(blocks, waves[1..], i + 1)
  }

  ghost predicate KnownIn(blocks: seq<Block>, ids: seq<string>) {
    forall id :: id in ids ==> BlockOf(blocks, id).Some?
  }

  lemma {:induction false} StampedWave(blocks: seq<Block>, ids: seq<string>, i: nat)
    requires KnownIn(blocks, ids)
    ensures IdsOf(StampWave(blocks, ids, i)) == ids
    ensures forall b :: b in StampWave(blocks, ids, i) ==> GroupOf(b) == i
  {
    if ids == [] {
    } else {
      assert (i as real).Floor == i;
      StampedWave(blocks, ids[1..], i);
    }
  }

  lemma {:induction false} PlaceIdsClean(blocks: seq<Block>, ids: seq<string>, i: nat, seen: set<string>)
    requires NoDup(ids) && KnownIn(blocks, ids) && forall id :: id in ids ==> id !in seen
    ensures PlaceIds(blocks, ids, i, seen) == StampWave(blocks, ids, i)
    decreases ids
  {
    if ids == [] {
    } else {
      assert ids[0] in ids;
      PlaceIdsClean(blocks, ids[1..], i, seen + {ids[0]});
    }
  }

  lemma {:induction false} PlaceWavesClean(blocks: seq<Block>, waves: Board, i: nat, seen: set<string>)
    requires NoDup(Flatten(waves)) && forall id :: id in Flatten(waves) ==> id !in seen
    requires KnownIn(blocks, Flatten(waves))
    ensures PlaceWaves(blocks, waves, i, seen) == Flatten(StampAll(blocks, waves, i))
    decreases waves
  {
    if waves == [] {
    } else {
      NoDupConcat(waves[0], Flatten(waves[1..]));
      PlaceIdsClean(blocks, waves[0], i, seen);
      PlaceWavesClean(blocks, waves[1..], i + 1, SeenAfter(blocks, waves[0], seen));
    }
  }

  lemma {:induction false} NothingLeft(blocks: seq<Block>, seen: set<string>, i: nat)
    requires forall b :: b in blocks ==> b.id in seen
    ensures Leftover(blocks, seen, i) == []
  {
    if blocks != [] {
      NothingLeft(blocks[1..], seen, i);
    }
  }

  lemma IdsHave(blocks: seq<Block>, id: string)
    ensures id in IdsOf(blocks) <==> exists b :: b in blocks && b.id == id
  {
    if id in IdsOf(blocks) {
      var m :| 0 <= m < |blocks| && IdsOf(blocks)[m] == id;
      assert blocks[m] in blocks;
    }
    if b :| b in blocks && b.id == id {
      var m :| 0 <= m < |blocks| && blocks[m] == b;
      assert IdsOf(blocks)[m] == id;
    }
  }

  lemma KnownIds(blocks: seq<Block>, waves: Board)
    requires Partition(waves, IdSet(blocks))
    ensures KnownIn(blocks, Flatten(waves))
    ensures forall b :: b in blocks ==> b.id in SeenAfter(blocks, Flatten(waves), {})
  {
    forall id | id in Flatten(waves) ensures BlockOf(blocks, id).Some? {
      assert id in Elems(Flatten(waves)) && id in IdSet(blocks);
      IdsHave(blocks, id);
    }
    forall b | b in blocks ensures b.id in SeenAfter(blocks, Flatten(waves), {}) {
      IdsHave(blocks, b.id);
      assert b.id in IdSet(blocks) && b.id in Elems(Flatten(waves));
    }
  }

  /** A board without empty waves that has every block once comes back from the blocks it was written to. */
  lemma BoardComesBack(blocks: seq<Block>, waves: Board)
    requires Partition(waves, IdSet(blocks))
    ensures WavesFromBlocks(BlocksWithWaves(blocks, waves)) == waves
  {
    KnownIds(blocks, waves);
    var all := StampAll(blocks, waves, 0);
    PlaceWavesClean(blocks, waves, 0, {});
    NothingLeft(blocks, SeenAfter(blocks, Flatten(waves), {}), |waves|);
    assert BlocksWithWaves(blocks, waves) == Flatten(all);
    forall k | 0 <= k < |all| ensures IdsOf(all[k]) == waves[k] && forall b :: b in all[k] ==> GroupOf(b) == k {
      forall id | id in waves[k] ensures id in Flatten(waves) {
        FlattenMember(waves, id);
      }
      StampedWave(blocks, waves[k], k);
    }
    Grouping.WavesOfWaves(all, GroupOf);
    assert BoardOf(all) == waves;
  }

  // necessity

  lemma DistinctConcat(xs: seq<Block>, ys: seq<Block>)
    requires DistinctIds(xs) && DistinctIds(ys) && IdSet(xs) !! IdSet(ys)
    ensures DistinctIds(xs + ys) && IdSet(xs + ys) == IdSet(xs) + IdSet(ys)
  {
    var zs := xs + ys;
    forall i, j | 0 <= i < j < |zs| ensures zs[i].id != zs[j].id {
      if i < |xs| <= j {
        assert IdsOf(xs)[i] in IdSet(xs) && IdsOf(ys)[j - |xs|] in IdSet(ys);
      }
    }
    IdsConcat(xs, ys);
  }

  lemma IdsConcat(xs: seq<Block>, ys: seq<Block>)
    ensures IdsOf(xs + ys) == IdsOf(xs) + IdsOf(ys)
  {
  }

  lemma OneBlock(b: Block)
    ensures DistinctIds([b]) && IdSet([b]) == {b.id}
  {
    assert IdsOf([b]) == [b.id];
  }

  lemma {:induction false} PlaceIdsSpec(blocks: seq<Block>, ids: seq<string>, i: nat, seen: set<string>)
    ensures DistinctIds(PlaceIds(blocks, ids, i, seen))
    ensures IdSet(PlaceIds(blocks, ids, i, seen)) == SeenAfter(blocks, ids, seen) - seen
    decreases ids
  {
    if ids == [] {
    } else if ids[0] in seen || BlockOf(blocks, ids[0]).None? {
      PlaceIdsSpec(blocks, ids[1..], i, seen);
      assert ids == [ids[0]] + ids[1..];
    } else {
      var b := Stamp(BlockOf(blocks, ids[0]).value, i);
      PlaceIdsSpec(blocks, ids[1..], i, seen + {ids[0]});
      assert ids == [ids[0]] + ids[1..];
      OneBlock(b);
      DistinctConcat([b], PlaceIds(blocks, ids[1..], i, seen + {ids[0]}));
    }
  }

  lemma {:induction false} PlaceWavesSpec(blocks: seq<Block>, waves: Board, i: nat, seen: set<string>)
    ensures DistinctIds(PlaceWaves(blocks, waves, i, seen))
    ensures IdSet(PlaceWaves(blocks, waves, i, seen)) == SeenAfter(blocks, Flatten(waves), seen) - seen
    decreases waves
  {
    if waves == [] {
    } else {
      var next := SeenAfter(blocks, waves[0], seen);
      PlaceIdsSpec(blocks, waves[0], i, seen);
      PlaceWavesSpec(blocks, waves[1..], i + 1, next);
      DistinctConcat(PlaceIds(blocks, waves[0], i, seen), PlaceWaves(blocks, waves[1..], i + 1, next));
    }
  }

  lemma {:induction false} LeftoverSpec(blocks: seq<Block>, seen: set<string>, i: nat)
    requires DistinctIds(blocks)
    ensures DistinctIds(Leftover(blocks, seen, i)) && IdSet(Leftover(blocks, seen, i)) == IdSet(blocks) - seen
  {
    if blocks == [] {
    } else {
      var b, rest := Stamp(blocks[0], i), Leftover(blocks[1..], seen, i);
      LeftoverSpec(blocks[1..], seen, i);
      IdSetFirst(blocks);
      if blocks[0].id !in seen {
        OneBlock(b);
        FirstIsNew(blocks);
        DistinctConcat([b], rest);
      } else {
        assert Leftover(blocks, seen, i) == rest;
      }
    }
  }

  lemma IdSetFirst(blocks: seq<Block>)
    requires blocks != []
    ensures IdSet(blocks) == {blocks[0].id} + IdSet(blocks[1..])
  {
    assert IdsOf(blocks) == [blocks[0].id] + IdsOf(blocks[1..]);
  }

  lemma FirstIsNew(blocks: seq<Block>)
    requires DistinctIds(blocks) && blocks != []
    ensures blocks[0].id !in IdSet(blocks[1..])
  {
  }

  lemma SeenIsKnown(blocks: seq<Block>, ids: seq<string>)
    ensures SeenAfter(blocks, ids, {}) <= IdSet(blocks)
  {
    forall id | id in SeenAfter(blocks, ids, {}) ensures id in IdSet(blocks) {
      var b := BlockOf(blocks, id).value;
      var m :| 0 <= m < |blocks| && blocks[m] == b;
      assert IdsOf(blocks)[m] == id;
    }
  }

  /** Writing a board keeps every block, once. */
  lemma WritingKeepsBlocks(blocks: seq<Block>, waves: Board)
    requires DistinctIds(blocks)
    ensures DistinctIds(BlocksWithWaves(blocks, waves)) && IdSet(BlocksWithWaves(blocks, waves)) == IdSet(blocks)
  {
    var seen := SeenAfter(blocks, Flatten(waves), {});
    PlaceWavesSpec(blocks, waves, 0, {});
    LeftoverSpec(blocks, seen, |waves|);
    SeenIsKnown(blocks, Flatten(waves));
    DistinctConcat(PlaceWaves(blocks, waves, 0, {}), Leftover(blocks, seen, |waves|));
  }

  lemma IdsNoDup(blocks: seq<Block>)
    requires DistinctIds(blocks)
    ensures NoDup(IdsOf(blocks))
  {
  }

  lemma {:induction false} BoardNoDup(groups: seq<seq<Block>>)
    requires DistinctGroups(groups)
    ensures NoDup(Flatten(BoardOf(groups)))
  {
    if groups == [] {
    } else {
      assert DistinctGroups(groups[1..]) by {
        assert forall i :: 0 <= i < |groups[1..]| ==> groups[1..][i] == groups[i + 1];
      }
      BoardNoDup(groups[1..]);
      IdsNoDup(groups[0]);
      forall id | id in IdsOf(groups[0]) ensures id !in Flatten(BoardOf(groups[1..])) {
        NotLater(groups, id);
      }
      NoDupConcat(IdsOf(groups[0]), Flatten(BoardOf(groups[1..])));
    }
  }

  lemma NotLater(groups: seq<seq<Block>>, id: string)
    requires groups != [] && DistinctGroups(groups) && id in IdsOf(groups[0])
    ensures id !in Flatten(BoardOf(groups[1..]))
  {
    FlattenMember(BoardOf(groups[1..]), id);
    IdsHave(groups[0], id);
    forall i | 0 <= i < |groups[1..]| ensures id !in BoardOf(groups[1..])[i] {
      assert groups[1..][i] == groups[i + 1];
      IdsHave(groups[i + 1], id);
    }
  }

  lemma BoardHas(blocks: seq<Block>, id: string)
    ensures id in Flatten(WavesFromBlocks(blocks)) <==> id in IdsOf(blocks)
  {
    var groups := Grouping.Waves(blocks, GroupOf);
    FlattenMember(BoardOf(groups), id);
    IdsHave(blocks, id);
    if id in IdsOf(blocks) {
      var b :| b in blocks && b.id == id;
      GroupsHold(blocks, b);
      var i :| 0 <= i < |groups| && b in groups[i];
      IdsHave(groups[i], id);
      assert id in BoardOf(groups)[i];
    }
    if i :| 0 <= i < |groups| && id in BoardOf(groups)[i] {
      IdsHave(groups[i], id);
      var b: Block :| b in groups[i] && b.id == id;
      GroupsHold(blocks, b);
    }
  }

  /** The board read from blocks with distinct ids has every block once and no empty wave. */
  lemma BoardIsPartition(blocks: seq<Block>)
    requires DistinctIds(blocks)
    ensures Partition(WavesFromBlocks(blocks), IdSet(blocks))
  {
    var groups := Grouping.Waves(blocks, GroupOf);
    GroupsDistinct(blocks);
    BoardNoDup(groups);
    Grouping.WavesSorted(blocks, GroupOf);
    forall id ensures id in Elems(Flatten(WavesFromBlocks(blocks))) <==> id in IdSet(blocks) {
      BoardHas(blocks, id);
    }
  }

  /** A board comes back from the blocks it was written to exactly when it has every block once and no empty wave. */
  lemma BoardRoundTrip(blocks: seq<Block>, waves: Board)
    requires DistinctIds(blocks)
    ensures WavesFromBlocks(BlocksWithWaves(blocks, waves)) == waves <==> Partition(waves, IdSet(blocks))
  {
    WritingKeepsBlocks(blocks, waves);
    BoardIsPartition(BlocksWithWaves(blocks, waves));
    if Partition(waves, IdSet(blocks)) {
      BoardComesBack(blocks, waves);
    }
  }
}
