/** Moving one block on the start-order board. */
module BoardMove {
  import opened Seqs
  import opened DeployOrder

  function Without(ids: seq<string>, id: string): seq<string> {
    if ids == [] then [] else (if ids[0] == id then [] else [ids[0]]) + Without(ids[1..], id)
  }

  function Strip(waves: Board, id: string): (r: Board)
    ensures |r| == |waves| && forall i :: 0 <= i < |waves| ==> r[i] == Without(waves[i], id)
  {
    if waves == [] then [] else [Without(waves[0], id)] + Strip(waves[1..], id)
  }

  /** At least n + 1 waves. */
  function Pad(waves: Board, n: nat): (r: Board)
    ensures |r| > n && waves <= r && forall i :: |waves| <= i < |r| ==> r[i] == []
    decreases n + 1 - |waves|
  {
    if |waves| > n then waves else Pad(waves + [[]], n)
  }

  function Insert(ids: seq<string>, id: string, before: string): seq<string> {
    if ids == [] then [id]
    else if ids[0] == before then [id] + ids
    else [ids[0]] + Insert(ids[1..], id, before)
  }

  /** Before the given block if the wave has it, otherwise at the end; no block has an empty id. */
  function Land(ids: seq<string>, id: string, before: Option<string>): seq<string> {
    if before.Some? && before.value != "" then Insert(ids, id, before.value) else ids + [id]
  }

  function Opened(waves: Board, id: string, to: nat): (r: Board)
    ensures |r| > to
  {
    Pad(Strip(waves, id), to)
  }

  /** Takes the block out of every wave, puts it into one, and drops waves left empty. */
  function MoveBlock(waves: Board, id: string, to: nat, before: Option<string>): Board {
    var open := Opened(waves, id, to);
    NonEmpty(open[to := Land(open[to], id, before)])
  }

  method MoveBlockToWave(waves: Board, id: string, to: nat, before: Option<string>) returns (moved: Board)
    ensures moved == MoveBlock(waves, id, to, before)
  {
    var cleaned := Strip(waves, id);
    while |cleaned| <= to
      invariant Pad(cleaned, to) == Opened(waves, id, to)
      decreases 1 + to - |cleaned|
    {
      cleaned := cleaned + [[]];
    }
    cleaned := cleaned[to := Land(cleaned[to], id, before)];
    moved := DropEmpty(cleaned);
  }

  method DropEmpty(waves: Board) returns (kept: Board)
    ensures kept == NonEmpty(waves)
  {
    kept := [];
    assert waves[0..] == waves;
    for i := 0 to |waves|
      invariant kept + NonEmpty(waves[i..]) == NonEmpty(waves)
    {
      assert waves[i..][1..] == waves[i + 1..];
      if waves[i] != [] {
        kept := kept + [waves[i]];
      }
    }
  }

  // ---- what is on the board ----

  function Bag(waves: Board): multiset<string> {
    multiset(Flatten(waves))
  }

  lemma Counted(xs: seq<string>)
    ensures NoDup(xs) <==> forall x :: multiset(xs)[x] <= 1
  {
    if i, j :| 0 <= i < j < |xs| && xs[i] == xs[j] {
      assert xs == xs[..i] + [xs[i]] + xs[i + 1..j] + [xs[j]] + xs[j + 1..];
      assert multiset(xs)[xs[i]] >= 2;
    }
    if NoDup(xs) {
      CountedOnce(xs);
    }
  }

  lemma {:induction false} CountedOnce(xs: seq<string>)
    requires NoDup(xs)
    ensures forall x :: multiset(xs)[x] <= 1
  {
    if xs == [] {
    } else {
      CountedOnce(xs[1..]);
      assert xs == [xs[0]] + xs[1..];
      assert xs[0] !in xs[1..];
    }
  }

  lemma {:induction false} WithoutBag(ids: seq<string>, id: string)
    ensures multiset(Without(ids, id)) == multiset(ids)[id := 0]
  {
    if ids == [] {
    } else {
      WithoutBag(ids[1..], id);
      assert ids == [ids[0]] + ids[1..];
    }
  }

  lemma {:induction false} StripBag(waves: Board, id: string)
    ensures Bag(Strip(waves, id)) == Bag(waves)[id := 0]
  {
    if waves == [] {
    } else {
      StripBag(waves[1..], id);
      WithoutBag(waves[0], id);
    }
  }

  lemma {:induction false} PadBag(waves: Board, n: nat)
    ensures Flatten(Pad(waves, n)) == Flatten(waves)
    decreases n + 1 - |waves|
  {
    if |waves| <= n {
      FlattenConcat(waves, [[]]);
      FlattenOne<string>([]);
      PadBag(waves + [[]], n);
    }
  }

  lemma {:induction false} InsertBag(ids: seq<string>, id: string, before: string)
    ensures multiset(Insert(ids, id, before)) == multiset(ids) + multiset{id}
    ensures Without(Insert(ids, id, before), id) == Without(ids, id)
  {
    if ids == [] {
    } else {
      assert ids == [ids[0]] + ids[1..];
      if ids[0] != before {
        InsertBag(ids[1..], id, before);
      }
    }
  }

  lemma {:induction false} WithoutConcat(xs: seq<string>, ys: seq<string>, id: string)
    ensures Without(xs + ys, id) == Without(xs, id) + Without(ys, id)
  {
    if xs == [] {
      assert xs + ys == ys;
    } else {
      assert (xs + ys)[1..] == xs[1..] + ys;
      WithoutConcat(xs[1..], ys, id);
    }
  }

  lemma LandBag(ids: seq<string>, id: string, before: Option<string>)
    ensures multiset(Land(ids, id, before)) == multiset(ids) + multiset{id}
    ensures Without(Land(ids, id, before), id) == Without(ids, id)
  {
    if before.Some? {
      InsertBag(ids, id, before.value);
    }
    WithoutConcat(ids, [id], id);
    assert [id][1..] == [];
    assert Without(ids, id) + [] == Without(ids, id);
  }

  lemma UpdateBag(waves: Board, i: nat, wave: seq<string>, id: string)
    requires i < |waves| && multiset(wave) == multiset(waves[i]) + multiset{id}
    ensures Bag(waves[i := wave]) == Bag(waves) + multiset{id}
  {
    var front, back := waves[..i], waves[i + 1..];
    assert waves == front + [waves[i]] + back && waves[i := wave] == front + [wave] + back;
    FlattenConcat(front + [waves[i]], back);
    FlattenConcat(front, [waves[i]]);
    FlattenOne(waves[i]);
    FlattenConcat(front + [wave], back);
    FlattenConcat(front, [wave]);
    FlattenOne(wave);
  }

  lemma MoveBag(waves: Board, id: string, to: nat, before: Option<string>)
    ensures Bag(MoveBlock(waves, id, to, before)) == Bag(waves)[id := 1]
  {
    var open := Opened(waves, id, to);
    StripBag(waves, id);
    PadBag(Strip(waves, id), to);
    LandBag(open[to], id, before);
    UpdateBag(open, to, Land(open[to], id, before), id);
    NonEmptyFlatten(open[to := Land(open[to], id, before)]);
  }

  /** A move keeps the board a partition without empty waves; a block it did not have is added. */
  lemma MoveKeepsPartition(waves: Board, id: string, to: nat, before: Option<string>, ids: set<string>)
    requires Partition(waves, ids)
    ensures Partition(MoveBlock(waves, id, to, before), ids + {id})
  {
    var open, moved := Opened(waves, id, to), MoveBlock(waves, id, to, before);
    MoveBag(waves, id, to, before);
    NonEmptyFlatten(open[to := Land(open[to], id, before)]);
    OnceEach(Flatten(waves), ids);
    assert multiset(ids)[id := 1] == multiset(ids + {id});
    OnceEach(Flatten(moved), ids + {id});
  }

  lemma OnceEach(xs: seq<string>, ids: set<string>)
    ensures NoDup(xs) && Elems(xs) == ids <==> multiset(xs) == multiset(ids)
  {
    Counted(xs);
    if multiset(xs) == multiset(ids) {
      forall x ensures x in Elems(xs) <==> x in ids {
        assert x in xs <==> x in multiset(xs);
        assert x in ids <==> x in multiset(ids);
      }
    }
    if NoDup(xs) && Elems(xs) == ids {
      forall x: string ensures multiset(xs)[x] == multiset(ids)[x] {
        assert x in xs <==> x in multiset(xs);
      }
    }
  }

  // ---- what a move leaves alone ----

  lemma {:induction false} WithoutTwice(ids: seq<string>, id: string)
    ensures Without(Without(ids, id), id) == Without(ids, id)
  {
    if ids == [] {
    } else {
      WithoutTwice(ids[1..], id);
      WithoutConcat(if ids[0] == id then [] else [ids[0]], Without(ids[1..], id), id);
      assert [ids[0]][1..] == [];
    }
  }

  /** Apart from one block and empty waves. */
  function Others(waves: Board, id: string): Board {
    NonEmpty(Strip(waves, id))
  }

  lemma {:induction false} OthersSame(xs: Board, ys: Board, id: string)
    requires |xs| == |ys| && forall i :: 0 <= i < |xs| ==> Without(xs[i], id) == Without(ys[i], id)
    ensures Others(xs, id) == Others(ys, id)
  {
    if xs == [] {
    } else {
      assert forall i :: 0 <= i < |xs[1..]| ==> xs[1..][i] == xs[i + 1] && ys[1..][i] == ys[i + 1];
      OthersSame(xs[1..], ys[1..], id);
    }
  }

  lemma {:induction false} OthersConcat(xs: Board, ys: Board, id: string)
    ensures Others(xs + ys, id) == Others(xs, id) + Others(ys, id)
  {
    if xs == [] {
      assert xs + ys == ys;
    } else {
      assert (xs + ys)[1..] == xs[1..] + ys;
      OthersConcat(xs[1..], ys, id);
    }
  }

  lemma OthersOne(wave: seq<string>, id: string)
    ensures Others([wave], id) == if Without(wave, id) == [] then [] else [Without(wave, id)]
  {
    assert [wave][1..] == [] && Strip([wave], id) == [Without(wave, id)];
    NonEmptyOne(Without(wave, id));
  }

  lemma NonEmptyOne(wave: seq<string>)
    ensures NonEmpty([wave]) == if wave == [] then [] else [wave]
  {
    assert [wave][1..] == [];
    assert NonEmpty([wave]) == (if wave == [] then [] else [wave]) + NonEmpty([]);
  }

  lemma {:induction false} OthersPad(waves: Board, n: nat, id: string)
    ensures Others(Pad(waves, n), id) == Others(waves, id)
    decreases n + 1 - |waves|
  {
    if |waves| <= n {
      OthersConcat(waves, [[]], id);
      OthersOne([], id);
      OthersPad(waves + [[]], n, id);
    }
  }

  lemma {:induction false} OthersNonEmpty(waves: Board, id: string)
    ensures Others(NonEmpty(waves), id) == Others(waves, id)
  {
    if waves == [] {
    } else {
      var rest := NonEmpty(waves[1..]);
      OthersNonEmpty(waves[1..], id);
      assert waves == [waves[0]] + waves[1..];
      OthersConcat([waves[0]], waves[1..], id);
      OthersConcat([waves[0]], rest, id);
      OthersOne(waves[0], id);
      if waves[0] == [] {
        assert NonEmpty(waves) == rest && Others([waves[0]], id) == [];
      } else {
        assert NonEmpty(waves) == [waves[0]] + rest;
      }
    }
  }

  /** Every other block keeps its wave-mates and its place among them, and the block ends up in the wave asked for. */
  lemma MoveFrame(waves: Board, id: string, to: nat, before: Option<string>)
    ensures Others(MoveBlock(waves, id, to, before), id) == Others(waves, id)
    ensures Land(Opened(waves, id, to)[to], id, before) in MoveBlock(waves, id, to, before)
  {
    var stripped, open := Strip(waves, id), Opened(waves, id, to);
    var landed := open[to := Land(open[to], id, before)];
    LandBag(open[to], id, before);
    forall i | 0 <= i < |waves| ensures Without(stripped[i], id) == Without(waves[i], id) {
      WithoutTwice(waves[i], id);
    }
    OthersSame(stripped, waves, id);
    OthersPad(stripped, to, id);
    OthersSame(landed, open, id);
    OthersNonEmpty(landed, id);
    assert multiset(landed[to])[id] >= 1;
    StaysIn(landed, to);
  }

  lemma {:induction false} StaysIn(waves: Board, i: nat)
    requires i < |waves| && waves[i] != []
    ensures waves[i] in NonEmpty(waves)
  {
    if i > 0 {
      StaysIn(waves[1..], i - 1);
    }
  }

  // ---- where the block lands ----

  /** Where in a wave a block is put: before the one asked for if that is there, else at the end. */
  ghost predicate LandsAt(ids: seq<string>, before: Option<string>, k: nat) {
    if before.Some? && before.value != "" && before.value in ids then
      k < |ids| && ids[k] == before.value && before.value !in ids[..k]
    else k == |ids|
  }

  lemma {:induction false} InsertAt(ids: seq<string>, id: string, before: string, k: nat)
    requires if before in ids then k < |ids| && ids[k] == before && before !in ids[..k] else k == |ids|
    ensures Insert(ids, id, before) == ids[..k] + [id] + ids[k..]
  {
    if k > 0 {
      assert ids[0] in ids[..k] || k == |ids|;
      assert ids[0] != before && ids == [ids[0]] + ids[1..];
      if before in ids {
        assert ids[..k] == [ids[0]] + ids[1..][..k - 1];
      }
      InsertAt(ids[1..], id, before, k - 1);
      assert ids[..k] == [ids[0]] + ids[1..][..k - 1] && ids[k..] == ids[1..][k - 1..];
    }
  }

  lemma LandIs(ids: seq<string>, id: string, before: Option<string>, k: nat)
    requires LandsAt(ids, before, k)
    ensures Land(ids, id, before) == ids[..k] + [id] + ids[k..]
  {
    if before.Some? && before.value != "" {
      InsertAt(ids, id, before.value, k);
    }
  }

  /** The wave asked for without the block; one beyond the last is empty. */
  function Target(waves: Board, id: string, to: nat): seq<string> {
    if to < |waves| then Without(waves[to], id) else []
  }

  lemma {:induction false} PadParts(waves: Board, n: nat)
    ensures var open := Pad(waves, n);
      && open[n] == (if n < |waves| then waves[n] else [])
      && NonEmpty(open[..n]) == NonEmpty(if n < |waves| then waves[..n] else waves)
      && open[n + 1..] == if n < |waves| then waves[n + 1..] else []
    decreases n + 1 - |waves|
  {
    if |waves| <= n {
      var more := waves + [[]];
      PadParts(more, n);
      NonEmptyConcat(waves, [[]]);
      assert NonEmpty([[]]) == NonEmpty(more[1..][|waves|..]);
      if n < |more| {
        assert more[..n] == waves && Pad(more, n) == more;
      } else {
        assert NonEmpty(more) == NonEmpty(waves);
      }
    }
  }

  /**
   * A move takes the block out of every wave and puts it into the one asked for, at the place asked
   * for; the waves before and after that one stay before and after it, in their order, and those
   * left empty are dropped.
   */
  lemma MoveIs(waves: Board, id: string, to: nat, before: Option<string>, k: nat)
    requires LandsAt(Target(waves, id, to), before, k)
    ensures var (rest, target) := (Strip(waves, id), Target(waves, id, to));
      MoveBlock(waves, id, to, before) ==
        NonEmpty(if to < |waves| then rest[..to] else rest) + [target[..k] + [id] + target[k..]] +
        NonEmpty(if to < |waves| then rest[to + 1..] else [])
  {
    var rest, target := Strip(waves, id), Target(waves, id, to);
    var open := Opened(waves, id, to);
    PadParts(rest, to);
    LandIs(target, id, before, k);
    AroundWave(open, to, target[..k] + [id] + target[k..]);
  }

  lemma AroundWave(open: Board, to: nat, wave: seq<string>)
    requires to < |open| && wave != []
    ensures NonEmpty(open[to := wave]) == NonEmpty(open[..to]) + [wave] + NonEmpty(open[to + 1..])
  {
    assert open[to := wave] == open[..to] + [wave] + open[to + 1..];
    NonEmptyConcat(open[..to] + [wave], open[to + 1..]);
    NonEmptyConcat(open[..to], [wave]);
    NonEmptyOne(wave);
  }

  lemma {:induction false} NonEmptyConcat(xs: Board, ys: Board)
    ensures NonEmpty(xs + ys) == NonEmpty(xs) + NonEmpty(ys)
  {
    if xs == [] {
      assert xs + ys == ys;
    } else {
      assert (xs + ys)[1..] == xs[1..] + ys;
      NonEmptyConcat(xs[1..], ys);
    }
  }
}
