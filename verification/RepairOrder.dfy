/** When repairing a flow leaves it in order: the exact condition. */
module RepairOrder {
  import opened Seqs
  import opened FlowModel
  import opened FlowRepair

  ghost predicate HoldsEarlier(wave: seq<Chip>, c: Chip) {
    exists e :: e in wave && e.owner == c.owner && Rank(e.phase) < Rank(c.phase)
  }

  ghost predicate HoldsLater(wave: seq<Chip>, c: Chip) {
    exists l :: l in wave && l.owner == c.owner && Rank(l.phase) > Rank(c.phase)
  }

  /** One wave already holds an earlier and a later phase of the app that lacks chip c. */
  ghost predicate Straddles(wave: seq<Chip>, c: Chip) {
    HoldsEarlier(wave, c) && HoldsLater(wave, c)
  }

  ghost predicate Straddled(plan: Plan, c: Chip) {
    exists i :: 0 <= i < |plan| && Straddles(plan[i], c)
  }

  /** The chips still to place, in the order the blocks list them: each app's in rank order, none repeated. */
  ghost predicate Agenda(missing: seq<Chip>) {
    forall i, j :: 0 <= i < j < |missing| && missing[i].owner == missing[j].owner ==>
      Rank(missing[i].phase) < Rank(missing[j].phase)
  }

  // ---- one insertion, on plans ----

  ghost predicate SameSide(wave: seq<Chip>, c: Chip) {
    forall d :: d in wave ==> (IsPre(d.phase) <==> IsPre(c.phase))
  }

  function JoinWave(sig: Plan, i: nat, c: Chip): Plan
    requires i < |sig|
  {
    sig[..i] + [sig[i] + [c]] + sig[i + 1..]
  }

  function OpenWave(sig: Plan, k: nat, c: Chip): Plan
    requires k <= |sig|
  {
    sig[..k] + [[c]] + sig[k..]
  }

  /** k is the first wave with a later phase of c's app, or the end of the plan. */
  ghost predicate CutsAt(sig: Plan, c: Chip, k: nat) {
    && k <= |sig|
    && (forall i :: 0 <= i < k ==> !HoldsLater(sig[i], c))
    && (k < |sig| ==> HoldsLater(sig[k], c))
  }

  /** c joined the wave before the cut if that is on c's side of the release, else it got a wave of its own there. */
  ghost predicate Inserted(sig: Plan, sig': Plan, c: Chip, k: nat) {
    && CutsAt(sig, c, k)
    && sig' == if k > 0 && SameSide(sig[k - 1], c) then JoinWave(sig, k - 1, c) else OpenWave(sig, k, c)
  }

  lemma LaterInWave(w: Wave, t: Task)
    ensures HasLater(w, t) <==> HoldsLater(Chips(w.tasks), ChipOf(t))
  {
    var cs := Chips(w.tasks);
    forall j | 0 <= j < |cs| ensures cs[j] == ChipOf(w.tasks[j]) && cs[j] in cs {}
  }

  lemma CompatibleSide(w: Wave, t: Task)
    ensures Compatible(w, t) <==> SameSide(Chips(w.tasks), ChipOf(t))
  {
    var cs := Chips(w.tasks);
    forall i | 0 <= i < |cs| ensures cs[i].phase == w.tasks[i].phase && cs[i] in cs {
      assert cs[i] == ChipOf(w.tasks[i]);
    }
  }

  /** The wave before the cut is on t's side of the release. */
  ghost predicate Joins(flow: Flow, t: Task) {
    var k := Cut(flow, t);
    k > 0 && SameSide(Chips(flow[k - 1].tasks), ChipOf(t))
  }

  function Cut(flow: Flow, t: Task): (k: nat)
    ensures k <= |flow|
  {
    var before := FirstLaterFrom(flow, t, 0);
    if before >= 0 then before else |flow|
  }

  lemma CutIsFirst(flow: Flow, t: Task)
    ensures CutsAt(Signature(flow), ChipOf(t), Cut(flow, t))
  {
    forall i | 0 <= i < |flow| ensures HasLater(flow[i], t) <==> HoldsLater(Signature(flow)[i], ChipOf(t)) {
      LaterInWave(flow[i], t);
    }
  }

  lemma InsertAppends(flow: Flow, t: Task, waveId: Id)
    requires Joins(flow, t)
    ensures InsertMissing(flow, t, waveId) == AppendTo(flow, Cut(flow, t) - 1, t)
  {
    CompatibleSide(flow[Cut(flow, t) - 1], t);
  }

  lemma InsertSplices(flow: Flow, t: Task, waveId: Id)
    requires !Joins(flow, t)
    ensures InsertMissing(flow, t, waveId) == Splice(flow, Cut(flow, t), Wave(waveId, [t]))
  {
    if Cut(flow, t) > 0 {
      CompatibleSide(flow[Cut(flow, t) - 1], t);
    }
  }

  /**
   * A missing task joins the wave before the first one with a later phase of its app, or the last
   * wave, exactly when all of that wave is on its side of the release; else it gets its own wave there.
   */
  lemma InsertShape(flow: Flow, t: Task, waveId: Id)
    ensures Inserted(Signature(flow), Signature(InsertMissing(flow, t, waveId)), ChipOf(t), Cut(flow, t))
  {
    var k := Cut(flow, t);
    CutIsFirst(flow, t);
    if Joins(flow, t) {
      InsertAppends(flow, t, waveId);
      AppendSignature(flow, k - 1, t);
    } else {
      InsertSplices(flow, t, waveId);
      SpliceSignature(flow, k, t, waveId);
    }
  }

  lemma SpliceSignature(flow: Flow, k: nat, t: Task, waveId: Id)
    requires k <= |flow|
    ensures Signature(Splice(flow, k, Wave(waveId, [t]))) == OpenWave(Signature(flow), k, ChipOf(t))
  {
    assert Chips([t]) == [ChipOf(t)];
  }

  lemma AppendSignature(flow: Flow, i: nat, t: Task)
    requires i < |flow|
    ensures Signature(AppendTo(flow, i, t)) == JoinWave(Signature(flow), i, ChipOf(t))
  {
    assert Chips(flow[i].tasks + [t]) == Chips(flow[i].tasks) + [ChipOf(t)];
  }

  lemma FlattenInto<T>(xss: seq<seq<T>>, ys: seq<T>, zss: seq<seq<T>>)
    ensures Flatten(xss + [ys] + zss) == Flatten(xss) + ys + Flatten(zss)
  {
    FlattenConcat(xss + [ys], zss);
    FlattenConcat(xss, [ys]);
    FlattenOne(ys);
  }

  /** Either way the flattened plan gains exactly the new chip, at the cut. */
  lemma InsertedFlat(sig: Plan, sig': Plan, c: Chip, k: nat)
    requires Inserted(sig, sig', c, k)
    ensures Flatten(sig') == Flatten(sig[..k]) + [c] + Flatten(sig[k..])
  {
    if k > 0 && SameSide(sig[k - 1], c) {
      JoinedFlat(sig, c, k);
    } else {
      FlattenInto(sig[..k], [c], sig[k..]);
    }
  }

  lemma JoinedFlat(sig: Plan, c: Chip, k: nat)
    requires 0 < k <= |sig|
    ensures Flatten(JoinWave(sig, k - 1, c)) == Flatten(sig[..k]) + [c] + Flatten(sig[k..])
  {
    var front, w := sig[..k - 1], sig[k - 1];
    FlattenInto(front, w + [c], sig[k..]);
    FlattenInto(front, w, []);
    assert front + [w] + [] == sig[..k];
    assert Flatten(sig[..k]) == Flatten(front) + w + [];
    assert Flatten(front) + (w + [c]) == Flatten(front) + w + [c];
  }

  /** Every old wave survives as the beginning of a new one. */
  lemma OldWave(sig: Plan, sig': Plan, c: Chip, k: nat, j: nat) returns (i: nat)
    requires Inserted(sig, sig', c, k) && j < |sig|
    ensures i < |sig'| && sig[j] <= sig'[i]
  {
    if sig' == OpenWave(sig, k, c) {
      i := if j < k then j else j + 1;
    } else {
      i := j;
    }
  }

  /** Every new wave is an old one, the new chip alone, or an old one before the cut with the new chip joined. */
  lemma NewWave(sig: Plan, sig': Plan, c: Chip, k: nat, i: nat) returns (j: nat)
    requires Inserted(sig, sig', c, k) && i < |sig'|
    ensures || sig'[i] == [c]
            || (j < |sig| && sig'[i] == sig[j])
            || (j < |sig| && sig'[i] == sig[j] + [c] && SameSide(sig[j], c) && !HoldsLater(sig[j], c))
  {
    if sig' == OpenWave(sig, k, c) {
      j := if i < k then i else if i == k then 0 else i - 1;
    } else {
      j := i;
    }
  }

  lemma InsertUnmixed(sig: Plan, sig': Plan, c: Chip, k: nat)
    requires Inserted(sig, sig', c, k)
    ensures Unmixed(sig') <==> Unmixed(sig)
  {
    if Unmixed(sig') {
      forall j | 0 <= j < |sig| ensures !Mixed(sig[j]) {
        var i := OldWave(sig, sig', c, k, j);
        assert forall d :: d in sig[j] ==> d in sig'[i];
      }
    }
    if Unmixed(sig) {
      forall i | 0 <= i < |sig'| ensures !Mixed(sig'[i]) {
        var j := NewWave(sig, sig', c, k, i);
      }
    }
  }

  /** The new chip is behind everything before the cut, so only what comes after it matters. */
  lemma InsertInOrder(sig: Plan, sig': Plan, c: Chip, k: nat)
    requires Inserted(sig, sig', c, k)
    ensures InOrder(Flatten(sig')) <==> InOrder(Flatten(sig)) && Precedes([c], Flatten(sig[k..]))
  {
    var front, back := Flatten(sig[..k]), Flatten(sig[k..]);
    InsertedFlat(sig, sig', c, k);
    InOrderConcat(front + [c], back);
    InOrderConcat(front, [c]);
    InOrderSplit(sig, k);
    NothingLaterBefore(sig, c, k);
    PrecedesConcat(front, [c], back);
  }

  lemma PrecedesConcat(xs: seq<Chip>, ys: seq<Chip>, zs: seq<Chip>)
    ensures Precedes(xs + ys, zs) <==> Precedes(xs, zs) && Precedes(ys, zs)
  {
    assert forall d :: d in xs + ys <==> d in xs || d in ys;
  }

  lemma NothingLaterBefore(sig: Plan, c: Chip, k: nat)
    requires CutsAt(sig, c, k)
    ensures Precedes(Flatten(sig[..k]), [c])
  {
    forall d: Chip | d in Flatten(sig[..k]) && d.owner == c.owner ensures Rank(d.phase) <= Rank(c.phase) {
      FlattenMember(sig[..k], d);
      var i :| 0 <= i < k && d in sig[..k][i];
      assert !HoldsLater(sig[i], c);
    }
  }

  /** An ordered plan stays ordered exactly when no wave straddles the new chip. */
  lemma InsertOrder(sig: Plan, sig': Plan, c: Chip, k: nat)
    requires Inserted(sig, sig', c, k) && InOrder(Flatten(sig))
    ensures InOrder(Flatten(sig')) <==> !Straddled(sig, c)
  {
    InsertInOrder(sig, sig', c, k);
    if Straddled(sig, c) {
      var i :| 0 <= i < |sig| && Straddles(sig[i], c);
      var e: Chip :| e in sig[i] && e.owner == c.owner && Rank(e.phase) < Rank(c.phase);
      assert k <= i;
      assert sig[k..][i - k] == sig[i];
      FlattenMember(sig[k..], e);
      assert c in [c];
    } else if k < |sig| {
      assert !Straddles(sig[k], c);
      NothingEarlierAfter(sig, k, c);
    }
  }

  lemma NothingEarlierAfter(sig: Plan, k: nat, c: Chip)
    requires k < |sig| && InOrder(Flatten(sig))
    requires HoldsLater(sig[k], c) && !HoldsEarlier(sig[k], c)
    ensures Precedes([c], Flatten(sig[k..]))
  {
    var back := Flatten(sig[k..]);
    assert back == sig[k] + Flatten(sig[k + 1..]) by {
      assert sig[k..][1..] == sig[k + 1..];
    }
    assert InOrder(back) by {
      InOrderSplit(sig, k);
    }
    PastLater(sig[k], Flatten(sig[k + 1..]), c);
  }

  lemma PastLater(wave: seq<Chip>, after: seq<Chip>, c: Chip)
    requires InOrder(wave + after)
    requires HoldsLater(wave, c) && !HoldsEarlier(wave, c)
    ensures Precedes([c], wave + after)
  {
    var l: Chip :| l in wave && l.owner == c.owner && Rank(l.phase) > Rank(c.phase);
    InOrderConcat(wave, after);
    forall d: Chip | d in wave + after && d.owner == c.owner ensures Rank(c.phase) <= Rank(d.phase) {
      assert d in wave || d in after;
    }
  }

  /** An insertion neither hides nor creates a straddled gap for the chips placed after it. */
  lemma InsertStraddle(sig: Plan, sig': Plan, t: Chip, k: nat, c: Chip)
    requires Inserted(sig, sig', t, k)
    requires c.owner == t.owner ==> Rank(t.phase) < Rank(c.phase)
    ensures Straddled(sig', c) <==> Straddled(sig, c)
  {
    if Straddled(sig, c) {
      var j :| 0 <= j < |sig| && Straddles(sig[j], c);
      var i := OldWave(sig, sig', t, k, j);
      assert forall d :: d in sig[j] ==> d in sig'[i];
      assert Straddles(sig'[i], c);
    }
    if Straddled(sig', c) {
      var i :| 0 <= i < |sig'| && Straddles(sig'[i], c);
      var j := NewWave(sig, sig', t, k, i);
      if j < |sig| && sig'[i] == sig[j] + [t] && !HoldsLater(sig[j], t) {
        JoinStraddle(sig[j], t, c);
      }
      assert Straddles(sig[j], c);
    }
  }

  lemma JoinStraddle(wave: seq<Chip>, t: Chip, c: Chip)
    requires c.owner == t.owner ==> Rank(t.phase) < Rank(c.phase)
    requires !HoldsLater(wave, t)
    requires Straddles(wave + [t], c)
    ensures Straddles(wave, c)
  {
    var e: Chip :| e in wave + [t] && e.owner == c.owner && Rank(e.phase) < Rank(c.phase);
    var l: Chip :| l in wave + [t] && l.owner == c.owner && Rank(l.phase) > Rank(c.phase);
    assert l in wave;
    assert e in wave;
  }

  /**
   * Any number of insertions, wherever they splice waves: the filled-in flow is in order
   * exactly when the flow was and none of its waves straddles a missing task.
   */
  lemma {:induction false} FillInOrder(flow: Flow, missing: seq<Chip>, g: Id)
    requires Agenda(missing)
    ensures OrderOk(Signature(FillIn(flow, missing, g))) <==>
      OrderOk(Signature(flow)) && NoneStraddled(Signature(flow), missing)
    decreases missing
  {
    if missing == [] {
    } else {
      var t, rest := Task(g, missing[0].owner, missing[0].phase), missing[1..];
      var flow', k := InsertMissing(flow, t, g + 1), Cut(flow, t);
      var sig, sig' := Signature(flow), Signature(flow');
      FillInOrder(flow', rest, g + 2);
      InsertShape(flow, t, g + 1);
      InsertUnmixed(sig, sig', missing[0], k);
      InsertInOrder(sig, sig', missing[0], k);
      if InOrder(Flatten(sig)) {
        InsertOrder(sig, sig', missing[0], k);
      }
      StraddleStep(sig, sig', missing, k);
    }
  }

  ghost predicate NoneStraddled(plan: Plan, missing: seq<Chip>) {
    forall c :: c in missing ==> !Straddled(plan, c)
  }

  lemma StraddleStep(sig: Plan, sig': Plan, missing: seq<Chip>, k: nat)
    requires Agenda(missing) && missing != [] && Inserted(sig, sig', missing[0], k)
    ensures NoneStraddled(sig, missing) <==> !Straddled(sig, missing[0]) && NoneStraddled(sig', missing[1..])
    ensures Agenda(missing[1..])
  {
    var rest := missing[1..];
    forall i | 0 <= i < |rest|
      ensures rest[i] == missing[i + 1] && (Straddled(sig', rest[i]) <==> Straddled(sig, rest[i]))
    {
      InsertStraddle(sig, sig', missing[0], k, rest[i]);
    }
    assert missing == [missing[0]] + rest;
  }

  lemma InsertJoins(flow: Flow, t: Task, waveId: Id)
    requires Joins(flow, t)
    ensures var k := Cut(flow, t); var w := flow[k - 1];
      InsertMissing(flow, t, waveId) == flow[..k - 1] + [Wave(w.id, w.tasks + [t])] + flow[k..]
  {
    InsertAppends(flow, t, waveId);
  }

  lemma SplitAround(flow: Flow, k: nat)
    requires 0 < k <= |flow|
    ensures flow == flow[..k - 1] + [flow[k - 1]] + flow[k..]
  {
  }
}
