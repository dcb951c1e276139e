/** When the outbox keeps its messages in order: as long as the drainer that read last is the one that sends. */
module OutboxDrainers {
  import opened Seqs
  import opened OutboxKeys
  import opened OutboxProtocol

  /** Starts at the first message and then repeats the last one or moves to the next. */
  ghost predicate Steady(sends: seq<nat>) {
    && (sends != [] ==> sends[0] == 0)
    && (forall p, q :: 0 <= p < q < |sends| && q == p + 1 ==> sends[p] <= sends[q] <= sends[p] + 1)
  }

  // ---- the drainer that read last ----

  /** The read gets an entry: the drainer held none, and there is one. */
  predicate Takes<Msg>(s: State<Msg>, a: Action<Msg>) {
    a.Read? && a.drainer !in s.holds && a.drainer in DoRead(s, a.drainer).holds
  }

  function Latest<Msg>(actions: seq<Action<Msg>>): Option<nat> {
    if actions == [] then None
    else
      var n := |actions| - 1;
      if Takes(Run(actions[..n]), actions[n]) then Some(actions[n].drainer) else Latest(actions[..n])
  }

  /** The send goes out. */
  predicate GoesOut<Msg>(s: State<Msg>, a: Action<Msg>) {
    a.Send? && a.accepted && a.drainer in s.holds && !s.holds[a.drainer].sent
  }

  /** Between a drainer's read and its accepted send no other drainer reads. */
  ghost predicate LatestSends<Msg>(actions: seq<Action<Msg>>) {
    forall i :: 0 <= i < |actions| && GoesOut(Run(actions[..i]), actions[i]) ==>
      Latest(actions[..i]) == Some(actions[i].drainer)
  }

  // ---- what it keeps ----

  function Last<Msg>(s: State<Msg>): int {
    if s.sends == [] then -1 else s.sends[|s.sends| - 1]
  }

  /**
   * Where an entry stands against the last one sent: not after it, once it is sent itself; and that
   * one or the next, if it may still be sent.
   */
  ghost predicate Near<Msg>(s: State<Msg>, d: nat, latest: Option<nat>)
    requires d in s.holds
  {
    var h := s.holds[d];
    (h.sent ==> h.at <= Last(s)) && (!h.sent && latest == Some(d) ==> Last(s) <= h.at <= Last(s) + 1)
  }

  /** However many drainers still have something to send or delete, at most the last message sent is left to delete. */
  ghost predicate Calm<Msg>(s: State<Msg>, latest: Option<nat>) {
    && Steady(s.sends)
    && Gone(s) - 1 <= Last(s) <= Gone(s)
    && (forall d :: d in s.holds ==> Near(s, d, latest))
  }

  /** What is held, sent and gone stays as it was. */
  lemma CalmStays<Msg>(s: State<Msg>, t: State<Msg>, latest: Option<nat>)
    requires Calm(s, latest) && t.sends == s.sends && Gone(t) == Gone(s)
    requires forall d :: d in t.holds ==> d in s.holds && t.holds[d] == s.holds[d]
    ensures Calm(t, latest)
  {
    forall d | d in t.holds ensures Near(t, d, latest) {
      assert Near(s, d, latest);
    }
  }

  lemma CalmEnqueue<Msg>(s: State<Msg>, latest: Option<nat>, msg: Msg, commits: bool)
    requires Inv(s) && Calm(s, latest) && s.next < KeyLimit
    ensures Calm(DoEnqueue(s, msg, commits), latest)
  {
    if commits {
      PutGreatest(s.store, s.next, msg);
    }
    CalmStays(s, DoEnqueue(s, msg, commits), latest);
  }

  lemma CalmRead<Msg>(s: State<Msg>, latest: Option<nat>, d: nat)
    requires Calm(s, latest)
    ensures Calm(DoRead(s, d), if Takes(s, Read(d)) then Some(d) else latest)
  {
    var t, next := DoRead(s, d), if Takes(s, Read(d)) then Some(d) else latest;
    forall e | e in t.holds ensures Near(t, e, next) {
      assert e in s.holds ==> Near(s, e, latest);
    }
  }

  lemma SteadyOn(sends: seq<nat>, at: nat)
    requires Steady(sends)
    requires if sends == [] then at == 0 else sends[|sends| - 1] <= at <= sends[|sends| - 1] + 1
    ensures Steady(sends + [at])
  {
  }

  /** Sending what may be sent. */
  lemma CalmGoesOut<Msg>(s: State<Msg>, d: nat)
    requires Calm(s, Some(d)) && GoesOut(s, Send(d, true)) && s.holds[d].at <= Gone(s)
    ensures Calm(DoSend(s, d, true), Some(d))
  {
    var t := DoSend(s, d, true);
    assert Near(s, d, Some(d));
    SteadyOn(s.sends, s.holds[d].at);
    assert Last(t) == s.holds[d].at && Gone(t) == Gone(s);
    forall e | e in t.holds ensures Near(t, e, Some(d)) {
      assert Near(s, e, Some(d));
    }
  }

  lemma CalmSend<Msg>(s: State<Msg>, latest: Option<nat>, d: nat, accepted: bool)
    requires Inv(s) && Calm(s, latest) && (GoesOut(s, Send(d, accepted)) ==> latest == Some(d))
    ensures Calm(DoSend(s, d, accepted), latest)
  {
    if GoesOut(s, Send(d, accepted)) {
      assert HoldOk(s, s.holds[d]);
      CalmGoesOut(s, d);
    } else {
      CalmStays(s, DoSend(s, d, accepted), latest);
    }
  }

  lemma CalmRemove<Msg>(s: State<Msg>, latest: Option<nat>, d: nat, commits: bool)
    requires Inv(s) && Calm(s, latest)
    ensures Calm(DoRemove(s, d, commits), latest)
  {
    var t := DoRemove(s, d, commits);
    if d in s.holds && s.holds[d].sent && commits {
      assert Near(s, d, latest) && HoldOk(s, s.holds[d]);
      if s.holds[d].at == Gone(s) {
        RemoveFront(s, d);
      } else {
        DeleteAbsent(s.store, s.holds[d].id);
      }
    }
    forall e | e in t.holds ensures Near(t, e, latest) {
      assert Near(s, e, latest);
    }
  }

  lemma CalmCrash<Msg>(s: State<Msg>, latest: Option<nat>)
    requires Calm(s, latest)
    ensures Calm(DoCrash(s), latest)
  {
  }

  lemma CalmStep<Msg>(s: State<Msg>, latest: Option<nat>, a: Action<Msg>)
    requires Inv(s) && Calm(s, latest) && s.next + 1 < KeyLimit && (GoesOut(s, a) ==> latest == Some(a.drainer))
    ensures Calm(Do(s, a), if Takes(s, a) then Some(a.drainer) else latest)
  {
    match a
    case Enqueue(msg, commits) => CalmEnqueue(s, latest, msg, commits);
    case Read(d) => CalmRead(s, latest, d);
    case Send(d, accepted) => CalmSend(s, latest, d, accepted);
    case Remove(d, commits) => CalmRemove(s, latest, d, commits);
    case Crash => CalmCrash(s, latest);
  }

  lemma EarlierToo<Msg>(actions: seq<Action<Msg>>)
    requires actions != [] && LatestSends(actions)
    ensures LatestSends(actions[..|actions| - 1])
  {
    var earlier := actions[..|actions| - 1];
    forall i | 0 <= i < |earlier| && GoesOut(Run(earlier[..i]), earlier[i])
      ensures Latest(earlier[..i]) == Some(earlier[i].drainer)
    {
      assert earlier[..i] == actions[..i];
    }
  }

  lemma {:induction false} CalmRun<Msg>(actions: seq<Action<Msg>>)
    requires |actions| < KeyLimit && LatestSends(actions)
    ensures Calm(Run(actions), Latest(actions))
  {
    if actions == [] {
    } else {
      var n := |actions| - 1;
      RunKeeps(actions[..n]);
      EarlierToo(actions);
      CalmRun(actions[..n]);
      CalmStep(Run(actions[..n]), Latest(actions[..n]), actions[n]);
    }
  }

  /**
   * As long as no other drainer reads between a drainer's read and its accepted send, the sends follow
   * the commit order with only adjacent repeats, however many drainers there are, however late their
   * deletions come, and whatever fails or crashes in between.
   */
  lemma SentInOrder<Msg>(actions: seq<Action<Msg>>)
    requires |actions| < KeyLimit && LatestSends(actions)
    ensures Steady(Run(actions).sends)
  {
    CalmRun(actions);
  }

  // ---- a set of drainers ----

  function Drainers<Msg>(a: Action<Msg>): set<nat> {
    match a
    case Read(d) => {d}
    case Send(d, _) => {d}
    case Remove(d, _) => {d}
    case _ => {}
  }

  /** No drainer outside D takes part. */
  ghost predicate Uses<Msg>(actions: seq<Action<Msg>>, D: set<nat>) {
    forall i :: 0 <= i < |actions| ==> Drainers(actions[i]) <= D
  }

  lemma SameDrainer(D: set<nat>, d: nat, e: nat)
    requires |D| <= 1 && d in D && e in D
    ensures d == e
  {
    SubsetSize({d, e}, D);
  }

  /** Whoever holds an entry has read it, so some drainer read last, and it is one of D. */
  ghost predicate ReadWithin<Msg>(s: State<Msg>, latest: Option<nat>, D: set<nat>) {
    (latest.Some? ==> latest.value in D) && (s.holds != map[] ==> latest.Some?)
  }

  lemma ReadStep<Msg>(s: State<Msg>, latest: Option<nat>, a: Action<Msg>, D: set<nat>)
    requires ReadWithin(s, latest, D) && Drainers(a) <= D
    ensures ReadWithin(Do(s, a), if Takes(s, a) then Some(a.drainer) else latest, D)
  {
    if s.holds == map[] && !Takes(s, a) {
      assert Do(s, a).holds == map[];
    }
  }

  lemma {:induction false} ReadRun<Msg>(actions: seq<Action<Msg>>, D: set<nat>)
    requires Uses(actions, D)
    ensures ReadWithin(Run(actions), Latest(actions), D)
  {
    if actions == [] {
    } else {
      var n := |actions| - 1;
      ReadRun(actions[..n], D);
      ReadStep(Run(actions[..n]), Latest(actions[..n]), actions[n], D);
    }
  }

  /** A lone drainer is always the one that read last. */
  lemma LoneSends<Msg>(actions: seq<Action<Msg>>, D: set<nat>)
    requires |D| <= 1 && Uses(actions, D)
    ensures LatestSends(actions)
  {
    forall i | 0 <= i < |actions| && GoesOut(Run(actions[..i]), actions[i])
      ensures Latest(actions[..i]) == Some(actions[i].drainer)
    {
      ReadRun(actions[..i], D);
      assert actions[i].drainer in Drainers(actions[i]);
      SameDrainer(D, Latest(actions[..i]).value, actions[i].drainer);
    }
  }

  /** What two drainers do when one of them reads, falls behind, and sends after the other has moved on. */
  function Overlap<Msg>(d: nat, e: nat, m: Msg): seq<Action<Msg>> {
    [Enqueue(m, true), Enqueue(m, true), Read(d), Read(e), Send(e, true), Remove(e, true),
     Read(e), Send(e, true), Send(d, true)]
  }

  lemma RunTo<Msg>(actions: seq<Action<Msg>>, i: nat, s: State<Msg>)
    requires i < |actions| && Do(Run(actions[..i]), actions[i]) == s
    ensures Run(actions[..i + 1]) == s
  {
    assert actions[..i + 1][..i] == actions[..i];
  }

  /** The first message goes out again after the second. */
  lemma OverlapReorders<Msg>(d: nat, e: nat, m: Msg)
    requires d != e
    ensures Run(Overlap(d, e, m)).sends == [0, 1, 0] && !Steady(Run(Overlap(d, e, m)).sends)
  {
    var actions := Overlap(d, e, m);
    OverlapRun(actions, d, e, m);
    assert actions[..9] == actions;
    var sends := Run(actions).sends;
    assert sends[2] < sends[1];
  }

  lemma OverlapRun<Msg>(actions: seq<Action<Msg>>, d: nat, e: nat, m: Msg)
    requires d != e && actions == Overlap(d, e, m)
    ensures Run(actions[..9]).sends == [0, 1, 0]
  {
    var a, b := Row(0, m), Row(1, m);
    TwoCommits(actions, m);
    FirstSend(actions, d, e, a, b);
    MoveOn(actions, d, e, a, b);
    SecondSend(actions, d, e, Run(actions[..7]));
  }

  lemma TwoCommits<Msg>(actions: seq<Action<Msg>>, m: Msg)
    requires |actions| >= 2 && actions[0] == actions[1] == Enqueue(m, true)
    ensures Run(actions[..2]) == State([Row(0, m), Row(1, m)], 2, map[], [Row(0, m), Row(1, m)], [])
  {
    var a, b := Row(0, m), Row(1, m);
    assert actions[..0] == [];
    RunTo(actions, 0, State([a], 1, map[], [a], []));
    assert PutRow([a], 1, m) == [a, b];
    RunTo(actions, 1, State([a, b], 2, map[], [a, b], []));
  }

  /** Both drainers read the first row, and one of them sends it. */
  lemma FirstSend<Msg>(actions: seq<Action<Msg>>, d: nat, e: nat, a: Row<Msg>, b: Row<Msg>)
    requires d != e && |actions| >= 5
    requires Run(actions[..2]) == State([a, b], 2, map[], [a, b], [])
    requires actions[2] == Read(d) && actions[3] == Read(e) && actions[4] == Send(e, true)
    ensures Run(actions[..5]) ==
            State([a, b], 2, map[d := Hold(a.id, a.msg, 0, false), e := Hold(a.id, a.msg, 0, true)], [a, b], [0])
  {
    var h := Hold(a.id, a.msg, 0, false);
    RunTo(actions, 2, State([a, b], 2, map[d := h], [a, b], []));
    RunTo(actions, 3, State([a, b], 2, map[d := h, e := h], [a, b], []));
    RunTo(actions, 4, State([a, b], 2, map[d := h, e := h.(sent := true)], [a, b], [0]));
  }

  /** It deletes the row and reads the second one. */
  lemma MoveOn<Msg>(actions: seq<Action<Msg>>, d: nat, e: nat, a: Row<Msg>, b: Row<Msg>)
    requires d != e && |actions| >= 7
    requires Run(actions[..5]) ==
             State([a, b], 2, map[d := Hold(a.id, a.msg, 0, false), e := Hold(a.id, a.msg, 0, true)], [a, b], [0])
    requires actions[5] == Remove(e, true) && actions[6] == Read(e)
    ensures Run(actions[..7]) ==
            State([b], 2, map[d := Hold(a.id, a.msg, 0, false), e := Hold(b.id, b.msg, 1, false)], [a, b], [0])
  {
    var h, g := Hold(a.id, a.msg, 0, false), Hold(b.id, b.msg, 1, false);
    assert map[d := h, e := h.(sent := true)] - {e} == map[d := h];
    RunTo(actions, 5, State([b], 2, map[d := h], [a, b], [0]));
    RunTo(actions, 6, State([b], 2, map[d := h, e := g], [a, b], [0]));
  }

  lemma SendHeld<Msg>(s: State<Msg>, d: nat, e: nat)
    requires d != e && d in s.holds && e in s.holds && !s.holds[e].sent
    ensures Do(s, Send(e, true)).sends == s.sends + [s.holds[e].at]
    ensures d in Do(s, Send(e, true)).holds && Do(s, Send(e, true)).holds[d] == s.holds[d]
  {
  }

  /** Then it sends the second row, and the other drainer the first. */
  lemma SecondSend<Msg>(actions: seq<Action<Msg>>, d: nat, e: nat, s: State<Msg>)
    requires d != e && |actions| >= 9 && Run(actions[..7]) == s && s.sends == [0]
    requires d in s.holds && s.holds[d].at == 0 && !s.holds[d].sent
    requires e in s.holds && s.holds[e].at == 1 && !s.holds[e].sent
    requires actions[7] == Send(e, true) && actions[8] == Send(d, true)
    ensures Run(actions[..9]).sends == [0, 1, 0]
  {
    var t := Do(s, Send(e, true));
    SendHeld(s, d, e);
    RunTo(actions, 7, t);
    assert e in t.holds;
    SendHeld(t, e, d);
    RunTo(actions, 8, Do(t, Send(d, true)));
  }

  lemma TwoMembers(D: set<nat>) returns (d: nat, e: nat)
    requires |D| > 1
    ensures d in D && e in D && d != e
  {
    d :| d in D;
    assert |D - {d}| == |D| - 1;
    e :| e in D - {d};
  }

  /**
   * A set of drainers always sends in commit order with only adjacent repeats, whatever it does and
   * whatever fails, exactly when it has at most one member.
   */
  lemma OneDrainerExact<Msg>(D: set<nat>, m: Msg)
    ensures (forall actions: seq<Action<Msg>> :: |actions| < KeyLimit && Uses(actions, D) ==>
               Steady(Run(actions).sends)) <==> |D| <= 1
  {
    if |D| <= 1 {
      forall actions: seq<Action<Msg>> | |actions| < KeyLimit && Uses(actions, D)
        ensures Steady(Run(actions).sends)
      {
        LoneSends(actions, D);
        SentInOrder(actions);
      }
    } else {
      var d, e := TwoMembers(D);
      OverlapReorders(d, e, m);
      assert Uses(Overlap(d, e, m), D);
    }
  }
}
