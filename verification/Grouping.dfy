/**
 * Bucketing by a numeric group: the shape shared by the agent's start waves, the editor's
 * default flow and the start-order board.
 */
module Grouping {
  import opened Seqs

  ghost predicate Increasing(ks: seq<nat>) {
    forall i, j :: 0 <= i < j < |ks| ==> ks[i] < ks[j]
  }

  function InsertKey(ks: seq<nat>, k: nat): seq<nat> {
    if ks == [] then [k]
    else if k < ks[0] then [k] + ks
    else if k == ks[0] then ks
    else [ks[0]] + InsertKey(ks[1..], k)
  }

  /** The distinct values of ks in increasing order. */
  function Sort(ks: seq<nat>): seq<nat> {
    if ks == [] then [] else InsertKey(Sort(ks[1..]), ks[0])
  }

  function Keys<T>(xs: seq<T>, key: T -> nat): seq<nat> {
    Sort(Map(key, xs))
  }

  function Bucket<T>(xs: seq<T>, key: T -> nat, k: nat): (r: seq<T>)
    ensures forall x :: x in r ==> x in xs && key(x) == k
  {
    if xs == [] then []
    else (if key(xs[0]) == k then [xs[0]] else []) + Bucket(xs[1..], key, k)
  }

  function BucketsFor<T>(xs: seq<T>, key: T -> nat, ks: seq<nat>): (r: seq<seq<T>>)
    ensures |r| == |ks| && forall i :: 0 <= i < |ks| ==> r[i] == Bucket(xs, key, ks[i])
  {
    if ks == [] then [] else [Bucket(xs, key, ks[0])] + BucketsFor(xs, key, ks[1..])
  }

  /** One wave per group that occurs, lowest group first, members in their given order. */
  function Waves<T>(xs: seq<T>, key: T -> nat): seq<seq<T>> {
    BucketsFor(xs, key, Keys(xs, key))
  }

  // ---- keys ----

  lemma {:induction false} InsertKeySorted(ks: seq<nat>, k: nat)
    requires Increasing(ks)
    ensures Increasing(InsertKey(ks, k))
    ensures forall x :: x in InsertKey(ks, k) <==> x in ks || x == k
  {
    if ks == [] || k <= ks[0] {
    } else {
      InsertKeySorted(ks[1..], k);
      var rest := InsertKey(ks[1..], k);
      forall j | 0 <= j < |rest| ensures ks[0] < rest[j] {
        assert rest[j] in rest;
        if rest[j] in ks[1..] {
          var m :| 0 <= m < |ks[1..]| && ks[1..][m] == rest[j];
        }
      }
    }
  }

  lemma {:induction false} SortSorts(ks: seq<nat>)
    ensures Increasing(Sort(ks))
    ensures forall x :: x in Sort(ks) <==> x in ks
  {
    if ks == [] {
    } else {
      SortSorts(ks[1..]);
      InsertKeySorted(Sort(ks[1..]), ks[0]);
    }
  }

  lemma {:induction false} IncreasingUnique(ks: seq<nat>, ls: seq<nat>)
    requires Increasing(ks) && Increasing(ls) && forall x :: x in ks <==> x in ls
    ensures ks == ls
  {
    if ks == [] {
      HasMember(ls);
    } else if ls == [] {
      HasMember(ks);
    } else {
      assert ks[0] in ls && ls[0] in ks;
      assert ks[0] == ls[0];
      forall x ensures x in ks[1..] <==> x in ls[1..] {
        if x in ks[1..] {
          var i :| 0 <= i < |ks[1..]| && ks[1..][i] == x;
          assert ks[i + 1] == x && x in ks && x != ls[0];
        }
        if x in ls[1..] {
          var i :| 0 <= i < |ls[1..]| && ls[1..][i] == x;
          assert ls[i + 1] == x && x in ls && x != ks[0];
        }
      }
      IncreasingUnique(ks[1..], ls[1..]);
    }
  }

  // ---- buckets ----

  lemma {:induction false} BucketAppend<T>(xs: seq<T>, ys: seq<T>, key: T -> nat, k: nat)
    ensures Bucket(xs + ys, key, k) == Bucket(xs, key, k) + Bucket(ys, key, k)
  {
    if xs == [] {
      assert xs + ys == ys;
    } else {
      assert (xs + ys)[1..] == xs[1..] + ys;
      BucketAppend(xs[1..], ys, key, k);
    }
  }

  /** Buckets of one map, filled as the items come, then read in sorted key order. */
  method GroupByKey<T>(xs: seq<T>, key: T -> nat) returns (waves: seq<seq<T>>)
    ensures waves == Waves(xs, key)
  {
    var order, buckets := FillBuckets(xs, key);
    assert forall k :: k in order <==> k in Elems(order);
    assert forall k :: k in Map(key, xs) <==> k in buckets.Keys;
    SameSort(order, Map(key, xs));
    SortSorts(order);
    var sorted := Sort(order);
    waves := [];
    for i := 0 to |sorted|
      invariant waves == BucketsFor(xs, key, sorted)[..i]
    {
      assert sorted[i] in order;
      waves := waves + [buckets[sorted[i]]];
    }
  }

  method FillBuckets<T>(xs: seq<T>, key: T -> nat) returns (order: seq<nat>, buckets: map<nat, seq<T>>)
    ensures buckets == BucketMap(xs, key) && Elems(order) == buckets.Keys
  {
    order, buckets := [], map[];
    for i := 0 to |xs|
      invariant buckets == BucketMap(xs[..i], key) && Elems(order) == buckets.Keys
    {
      var g := key(xs[i]);
      BucketMapStep(xs[..i], xs[i], key);
      assert xs[..i + 1] == xs[..i] + [xs[i]];
      var list := if g in buckets then buckets[g] else [];
      if g !in buckets {
        order := order + [g];
      }
      buckets := buckets[g := list + [xs[i]]];
    }
    assert xs[..|xs|] == xs;
  }

  function BucketMap<T>(xs: seq<T>, key: T -> nat): map<nat, seq<T>> {
    map k | k in Elems(Map(key, xs)) :: Bucket(xs, key, k)
  }

  lemma BucketStep<T>(xs: seq<T>, x: T, key: T -> nat, k: nat)
    ensures Bucket(xs + [x], key, k) == Bucket(xs, key, k) + if key(x) == k then [x] else []
    ensures k !in Map(key, xs) ==> Bucket(xs, key, k) == []
  {
    BucketAppend(xs, [x], key, k);
    assert [x][1..] == [];
    if k !in Map(key, xs) {
      NoBucket(xs, key, k);
    }
  }

  lemma BucketKeys<T>(xs: seq<T>, x: T, key: T -> nat)
    ensures Elems(Map(key, xs + [x])) == Elems(Map(key, xs)) + {key(x)}
  {
    assert Map(key, xs + [x]) == Map(key, xs) + [key(x)];
  }

  lemma BucketMapStep<T>(xs: seq<T>, x: T, key: T -> nat)
    ensures var (g, before) := (key(x), BucketMap(xs, key));
      BucketMap(xs + [x], key) == before[g := (if g in before then before[g] else []) + [x]]
  {
    var g, before, after := key(x), BucketMap(xs, key), BucketMap(xs + [x], key);
    var stepped := before[g := (if g in before then before[g] else []) + [x]];
    BucketKeys(xs, x, key);
    assert after.Keys == stepped.Keys;
    forall k | k in after.Keys ensures after[k] == stepped[k] {
      BucketStep(xs, x, key, k);
    }
  }

  lemma SameSort(ks: seq<nat>, ls: seq<nat>)
    requires forall x :: x in ks <==> x in ls
    ensures Sort(ks) == Sort(ls)
  {
    SortSorts(ks);
    SortSorts(ls);
    IncreasingUnique(Sort(ks), Sort(ls));
  }

  lemma {:induction false} NoBucket<T>(xs: seq<T>, key: T -> nat, k: nat)
    requires k !in Map(key, xs)
    ensures Bucket(xs, key, k) == []
  {
    if xs == [] {
    } else {
      assert Map(key, xs) == [key(xs[0])] + Map(key, xs[1..]);
      NoBucket(xs[1..], key, k);
    }
  }

  // ---- the waves are a stable sort, cut where the group changes ----

  lemma {:induction false} BucketOfBucket<T>(xs: seq<T>, key: T -> nat, k: nat, l: nat)
    ensures Bucket(Bucket(xs, key, k), key, l) == if k == l then Bucket(xs, key, l) else []
  {
    if xs == [] {
    } else {
      BucketAppend(if key(xs[0]) == k then [xs[0]] else [], Bucket(xs[1..], key, k), key, l);
      BucketOfBucket(xs[1..], key, k, l);
    }
  }

  lemma {:induction false} BucketOfFlatten<T>(xs: seq<T>, key: T -> nat, ks: seq<nat>, l: nat)
    requires Increasing(ks)
    ensures Bucket(Flatten(BucketsFor(xs, key, ks)), key, l) == if l in ks then Bucket(xs, key, l) else []
  {
    if ks == [] {
    } else {
      var first, rest := Bucket(xs, key, ks[0]), Flatten(BucketsFor(xs, key, ks[1..]));
      BucketOfFlatten(xs, key, ks[1..], l);
      BucketAppend(first, rest, key, l);
      BucketOfBucket(xs, key, ks[0], l);
      assert ks == [ks[0]] + ks[1..];
    }
  }

  /** Flattened, the waves keep every group's members in their given order, and nothing else is in them. */
  lemma WavesStable<T>(xs: seq<T>, key: T -> nat, k: nat)
    ensures Bucket(Flatten(Waves(xs, key)), key, k) == Bucket(xs, key, k)
  {
    SortSorts(Map(key, xs));
    BucketOfFlatten(xs, key, Keys(xs, key), k);
    if k !in Keys(xs, key) {
      NoBucket(xs, key, k);
    }
  }

  lemma {:induction false} BucketHas<T>(xs: seq<T>, key: T -> nat, m: nat)
    requires m < |xs|
    ensures xs[m] in Bucket(xs, key, key(xs[m]))
  {
    if m > 0 {
      BucketHas(xs[1..], key, m - 1);
    }
  }

  /** Waves are never empty, each holds one group, and groups increase from wave to wave. */
  lemma WavesSorted<T>(xs: seq<T>, key: T -> nat)
    ensures forall i :: 0 <= i < |Waves(xs, key)| ==> Waves(xs, key)[i] != []
    ensures forall i, x, y :: 0 <= i < |Waves(xs, key)| && x in Waves(xs, key)[i] && y in Waves(xs, key)[i] ==>
            key(x) == key(y)
    ensures forall i, j, x, y :: 0 <= i < j < |Waves(xs, key)| && x in Waves(xs, key)[i] && y in Waves(xs, key)[j] ==>
            key(x) < key(y)
  {
    var ks, ws := Keys(xs, key), Waves(xs, key);
    SortSorts(Map(key, xs));
    forall i | 0 <= i < |ws| ensures ws[i] != [] {
      assert ks[i] in ks;
      var m :| 0 <= m < |xs| && Map(key, xs)[m] == ks[i];
      BucketHas(xs, key, m);
    }
  }

  // ---- a list already in waves ----

  lemma {:induction false} BucketAll<T>(xs: seq<T>, key: T -> nat, k: nat, l: nat)
    requires forall x :: x in xs ==> key(x) == k
    ensures Bucket(xs, key, l) == if k == l then xs else []
  {
    if xs == [] {
    } else {
      assert xs[0] in xs;
      BucketAll(xs[1..], key, k, l);
    }
  }

  lemma {:induction false} BucketOfWaves<T>(ws: seq<seq<T>>, key: T -> nat, from: nat, l: nat)
    requires forall i, x :: 0 <= i < |ws| && x in ws[i] ==> key(x) == from + i
    ensures Bucket(Flatten(ws), key, l) == if from <= l < from + |ws| then ws[l - from] else []
  {
    if ws == [] {
    } else {
      assert forall i, x :: 0 <= i < |ws[1..]| && x in ws[1..][i] ==> x in ws[i + 1];
      BucketOfWaves(ws[1..], key, from + 1, l);
      BucketAppend(ws[0], Flatten(ws[1..]), key, l);
      BucketAll(ws[0], key, from, l);
    }
  }

  function UpTo(n: nat): (r: seq<nat>)
    ensures |r| == n && forall i :: 0 <= i < n ==> r[i] == i
  {
    if n == 0 then [] else UpTo(n - 1) + [n - 1]
  }

  lemma KeysOfWaves<T>(ws: seq<seq<T>>, key: T -> nat)
    requires forall i, x :: 0 <= i < |ws| && x in ws[i] ==> key(x) == i
    requires forall i :: 0 <= i < |ws| ==> ws[i] != []
    ensures Keys(Flatten(ws), key) == UpTo(|ws|)
  {
    var xs := Flatten(ws);
    SortSorts(Map(key, xs));
    forall k ensures k in Keys(xs, key) <==> k in UpTo(|ws|) {
      if k in Keys(xs, key) {
        var m :| 0 <= m < |xs| && Map(key, xs)[m] == k;
        FlattenMember(ws, xs[m]);
        var i :| 0 <= i < |ws| && xs[m] in ws[i];
        assert UpTo(|ws|)[i] == k;
      }
      if k in UpTo(|ws|) {
        var x := ws[k][0];
        FlattenMember(ws, x);
        var m :| 0 <= m < |xs| && xs[m] == x;
        assert Map(key, xs)[m] == k;
      }
    }
    IncreasingUnique(Keys(xs, key), UpTo(|ws|));
  }

  /** Nonempty waves whose members carry their wave's number come back from grouping their concatenation. */
  lemma WavesOfWaves<T>(ws: seq<seq<T>>, key: T -> nat)
    requires forall i, x :: 0 <= i < |ws| && x in ws[i] ==> key(x) == i
    requires forall i :: 0 <= i < |ws| ==> ws[i] != []
    ensures Waves(Flatten(ws), key) == ws
  {
    KeysOfWaves(ws, key);
    BucketsOfWaves(ws, key, Flatten(ws), UpTo(|ws|));
  }

  lemma SameBuckets<T>(xs: seq<T>, key: T -> nat, ks: seq<nat>, ws: seq<seq<T>>)
    requires |ks| == |ws| && forall i :: 0 <= i < |ws| ==> ks[i] == i && Bucket(xs, key, i) == ws[i]
    ensures BucketsFor(xs, key, ks) == ws
  {
  }

  lemma BucketsOfWaves<T>(ws: seq<seq<T>>, key: T -> nat, xs: seq<T>, ks: seq<nat>)
    requires forall i, x :: 0 <= i < |ws| && x in ws[i] ==> key(x) == i
    requires xs == Flatten(ws) && |ks| == |ws| && forall i :: 0 <= i < |ks| ==> ks[i] == i
    ensures BucketsFor(xs, key, ks) == ws
  {
    forall i | 0 <= i < |ws| ensures Bucket(xs, key, i) == ws[i] {
      BucketOfWaves(ws, key, 0, i);
    }
    SameBuckets(xs, key, ks, ws);
  }
}
