/** The editor's order check, run on every edit before a flow may be saved. */
module FlowOrder {
  import opened Seqs
  import opened FlowModel

  /** Where the check stopped: the offending wave and, for an app out of order, the offending task. */
  datatype OrderError = MixedWave(wave: nat) | OutOfOrder(wave: nat, task: nat)

  /** The chips the check has read when it reaches task j of wave i. */
  ghost function Read(flow: Flow, i: nat, j: nat): seq<Chip>
    requires i < |flow| && j <= |flow[i].tasks|
  {
    Flatten(Signature(flow[..i])) + Chips(flow[i].tasks[..j])
  }

  /** lastIdx records exactly the highest rank met so far of every app met so far. */
  ghost predicate Records(lastIdx: map<string, nat>, read: seq<Chip>) {
    && (forall c :: c in read ==> c.owner in lastIdx && Rank(c.phase) <= lastIdx[c.owner])
    && (forall o :: o in lastIdx ==> exists c :: c in read && c.owner == o && Rank(c.phase) == lastIdx[o])
  }

  /**
   * Reports the first violation. The check passes exactly on the flows that are in order, and
   * a reported position is a genuine one: everything read before it was fine.
   */
  method FlowOrderError(flow: Flow) returns (err: Option<OrderError>)
    ensures err.None? <==> OrderOk(Signature(flow))
    ensures err.Some? ==> err.value.wave < |flow| && OrderOk(Signature(flow[..err.value.wave]))
    ensures err.Some? && err.value.MixedWave? ==> Mixed(Chips(flow[err.value.wave].tasks))
    ensures err.Some? && err.value.OutOfOrder? ==>
      !Mixed(Chips(flow[err.value.wave].tasks)) && FirstOutOfOrder(flow, err.value.wave, err.value.task)
  {
    var lastIdx: map<string, nat> := map[];
    for i := 0 to |flow|
      invariant OrderOk(Signature(flow[..i]))
      invariant Records(lastIdx, Flatten(Signature(flow[..i])))
    {
      var tasks := flow[i].tasks;
      var hasPre := exists k :: 0 <= k < |tasks| && IsPre(tasks[k].phase);
      var hasPost := exists k :: 0 <= k < |tasks| && !IsPre(tasks[k].phase);
      MixedByTask(flow, i);
      if hasPre && hasPost {
        return Some(MixedWave(i));
      }
      PrefixExtends(flow, i);
      var bad;
      bad, lastIdx := ScanWave(flow, i, lastIdx);
      if bad.Some? {
        return Some(OutOfOrder(i, bad.value));
      }
    }
    assert flow[..|flow|] == flow;
    return None;
  }

  function Max(a: int, b: nat): nat {
    if a <= b then b else a
  }

  /** Task j of wave i is the first whose app has already met a later phase. */
  ghost predicate FirstOutOfOrder(flow: Flow, i: nat, j: nat)
    requires i < |flow|
  {
    && j < |flow[i].tasks|
    && InOrder(Read(flow, i, j))
    && !Precedes(Read(flow, i, j), [ChipOf(flow[i].tasks[j])])
  }

  /** The inner loop of the check: the tasks of one wave. */
  method ScanWave(flow: Flow, i: nat, seen: map<string, nat>) returns (bad: Option<nat>, lastIdx: map<string, nat>)
    requires i < |flow|
    requires InOrder(Read(flow, i, 0)) && Records(seen, Read(flow, i, 0))
    ensures bad.Some? ==> FirstOutOfOrder(flow, i, bad.value) && !OrderOk(Signature(flow))
    ensures bad.None? ==> InOrder(Read(flow, i, |flow[i].tasks|)) && Records(lastIdx, Read(flow, i, |flow[i].tasks|))
  {
    lastIdx := seen;
    var tasks := flow[i].tasks;
    for j := 0 to |tasks|
      invariant InOrder(Read(flow, i, j)) && Records(lastIdx, Read(flow, i, j))
    {
      var t := tasks[j];
      var idx := Rank(t.phase);
      if t.block in lastIdx && idx < lastIdx[t.block] {
        OutOfOrderFound(flow, i, j, lastIdx);
        return Some(j), lastIdx;
      }
      ReadExtends(flow, i, j);
      RecordsExtends(lastIdx, Read(flow, i, j), ChipOf(t));
      lastIdx := lastIdx[t.block := Max(if t.block in lastIdx then lastIdx[t.block] else -1, idx)];
    }
    return None, lastIdx;
  }

  lemma MixedByTask(flow: Flow, i: nat)
    requires i < |flow|
    ensures Mixed(Chips(flow[i].tasks)) <==>
      && (exists k :: 0 <= k < |flow[i].tasks| && IsPre(flow[i].tasks[k].phase))
      && (exists k :: 0 <= k < |flow[i].tasks| && !IsPre(flow[i].tasks[k].phase))
    ensures Mixed(Chips(flow[i].tasks)) ==> !OrderOk(Signature(flow))
    ensures OrderOk(Signature(flow[..i])) && !Mixed(Chips(flow[i].tasks)) ==> Unmixed(Signature(flow[..i + 1]))
  {
    var cs := Chips(flow[i].tasks);
    forall k | 0 <= k < |cs| ensures cs[k] == ChipOf(flow[i].tasks[k]) && cs[k] in cs {}
    assert Signature(flow)[i] == cs;
  }

  lemma OutOfOrderFound(flow: Flow, i: nat, j: nat, lastIdx: map<string, nat>)
    requires i < |flow| && j < |flow[i].tasks|
    requires Records(lastIdx, Read(flow, i, j))
    requires flow[i].tasks[j].block in lastIdx && Rank(flow[i].tasks[j].phase) < lastIdx[flow[i].tasks[j].block]
    ensures !Precedes(Read(flow, i, j), [ChipOf(flow[i].tasks[j])])
    ensures !OrderOk(Signature(flow))
  {
    var t := flow[i].tasks[j];
    var c :| c in Read(flow, i, j) && c.owner == t.block && Rank(c.phase) == lastIdx[t.block];
    assert ChipOf(t) in [ChipOf(t)];
    ReadExtends(flow, i, j);
    ReadIsPrefix(flow, i, j);
  }

  lemma PrefixExtends(flow: Flow, i: nat)
    requires i < |flow|
    ensures Read(flow, i, 0) == Flatten(Signature(flow[..i]))
    ensures Read(flow, i, |flow[i].tasks|) == Flatten(Signature(flow[..i + 1]))
    ensures Signature(flow[..i + 1]) == Signature(flow[..i]) + [Chips(flow[i].tasks)]
  {
    assert flow[..i + 1] == flow[..i] + [flow[i]];
    assert flow[i].tasks[..|flow[i].tasks|] == flow[i].tasks;
    FlattenConcat(Signature(flow[..i]), [Chips(flow[i].tasks)]);
    FlattenOne(Chips(flow[i].tasks));
    assert Signature(flow[..i + 1]) == Signature(flow[..i]) + [Chips(flow[i].tasks)];
  }

  lemma ReadExtends(flow: Flow, i: nat, j: nat)
    requires i < |flow| && j < |flow[i].tasks|
    ensures Read(flow, i, j + 1) == Read(flow, i, j) + [ChipOf(flow[i].tasks[j])]
    ensures InOrder(Read(flow, i, j + 1)) <==>
            InOrder(Read(flow, i, j)) && Precedes(Read(flow, i, j), [ChipOf(flow[i].tasks[j])])
  {
    var ts := flow[i].tasks;
    assert Chips(ts[..j + 1]) == Chips(ts[..j]) + [ChipOf(ts[j])];
    InOrderConcat(Read(flow, i, j), [ChipOf(ts[j])]);
    assert InOrder([ChipOf(ts[j])]);
  }

  lemma ReadOn(flow: Flow, i: nat, j: nat)
    requires i < |flow| && j < |flow[i].tasks|
    ensures Read(flow, i, |flow[i].tasks|) == Read(flow, i, j + 1) + Chips(flow[i].tasks[j + 1..])
  {
    var ts := flow[i].tasks;
    assert ts[..|ts|] == ts;
    ChipsSplit(ts, j + 1);
    Reassoc(Flatten(Signature(flow[..i])), Chips(ts[..j + 1]), Chips(ts[j + 1..]));
  }

  lemma ChipsSplit(ts: seq<Task>, k: nat)
    requires k <= |ts|
    ensures Chips(ts) == Chips(ts[..k]) + Chips(ts[k..])
  {
  }

  lemma ReadIsPrefix(flow: Flow, i: nat, j: nat)
    requires i < |flow| && j < |flow[i].tasks|
    ensures InOrder(Flatten(Signature(flow))) ==> InOrder(Read(flow, i, j + 1))
  {
    PrefixExtends(flow, i);
    ReadOn(flow, i, j);
    InOrderConcat(Read(flow, i, j + 1), Chips(flow[i].tasks[j + 1..]));
    assert Signature(flow)[..i + 1] == Signature(flow[..i + 1]);
    InOrderSplit(Signature(flow), i + 1);
  }

  lemma RecordsExtends(lastIdx: map<string, nat>, read: seq<Chip>, c: Chip)
    requires Records(lastIdx, read)
    requires c.owner in lastIdx ==> lastIdx[c.owner] <= Rank(c.phase)
    ensures Precedes(read, [c])
    ensures Records(lastIdx[c.owner := Rank(c.phase)], read + [c])
  {
    var after := lastIdx[c.owner := Rank(c.phase)];
    assert c in read + [c];
    forall o | o in after ensures exists d :: d in read + [c] && d.owner == o && Rank(d.phase) == after[o] {
      if o != c.owner {
        var d :| d in read && d.owner == o && Rank(d.phase) == lastIdx[o];
        assert d in read + [c];
      }
    }
  }
}
