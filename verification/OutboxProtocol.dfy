/**
 * The outbox under concurrency: enqueuers, any number of overlapping drainers, failed sends, failed
 * deletions and crashes, as a state machine. The store is the ordered store with its keys read as
 * the counts they encode (see OutboxDisk).
 */
module OutboxProtocol {
  import opened OutboxKeys
  import opened Outbox

  datatype Row<Msg> = Row(id: nat, msg: Msg)

  type Rows<Msg> = seq<Row<Msg>>

  function PutRow<Msg>(s: Rows<Msg>, id: nat, msg: Msg): Rows<Msg> {
    if s == [] then [Row(id, msg)]
    else if id == s[0].id then [Row(id, msg)] + s[1..]
    else if id < s[0].id then [Row(id, msg)] + s
    else [s[0]] + PutRow(s[1..], id, msg)
  }

  function DeleteRow<Msg>(s: Rows<Msg>, id: nat): Rows<Msg> {
    if s == [] then []
    else if s[0].id == id then s[1..]
    else [s[0]] + DeleteRow(s[1..], id)
  }

  function OnDisk<Msg>(s: Rows<Msg>): Store<Msg> {
    if s == [] then [] else [Entry(KeyOf(s[0].id), s[0].msg)] + OnDisk(s[1..])
  }

  /** On disk, putting and deleting by encoded key is putting and deleting by count. */
  lemma {:induction false} SameStore<Msg>(s: Rows<Msg>, id: nat, msg: Msg)
    requires id < KeyLimit && forall i :: 0 <= i < |s| ==> s[i].id < KeyLimit
    ensures OnDisk(PutRow(s, id, msg)) == Put(OnDisk(s), KeyOf(id), msg)
    ensures OnDisk(DeleteRow(s, id)) == Delete(OnDisk(s), KeyOf(id))
  {
    if s == [] {
    } else {
      KeyOrder(id, s[0].id);
      SameStore(s[1..], id, msg);
      assert OnDisk(s)[1..] == OnDisk(s[1..]);
    }
  }

  /** What a drainer holds between reading the first row and deleting it. `at` is the row's place in the log. */
  datatype Hold<Msg> = Hold(id: nat, msg: Msg, at: nat, sent: bool)

  /** `log` (every commit so far, in order) and `sends` (places in it, in sending order) are history. */
  datatype State<Msg> = State(store: Rows<Msg>, next: nat, holds: map<nat, Hold<Msg>>, log: Rows<Msg>, sends: seq<nat>)

  datatype Action<Msg> =
    | Enqueue(msg: Msg, commits: bool)
    | Read(drainer: nat)
    | Send(drainer: nat, accepted: bool)
    | Remove(drainer: nat, commits: bool)
    | Crash

  function Start<Msg>(): State<Msg> {
    State([], 0, map[], [], [])
  }

  /** The counter Open resumes with. */
  function Resume<Msg>(store: Rows<Msg>): nat {
    if store == [] then 0 else store[|store| - 1].id + 1
  }

  function Bodies<Msg>(s: Rows<Msg>): (r: seq<Msg>)
    ensures |r| == |s|
  {
    if s == [] then [] else [s[0].msg] + Bodies(s[1..])
  }

  function DoEnqueue<Msg>(s: State<Msg>, msg: Msg, commits: bool): State<Msg> {
    var t := s.(next := (s.next + 1) % KeyLimit);
    if commits then t.(store := PutRow(s.store, s.next, msg), log := s.log + [Row(s.next, msg)]) else t
  }

  function DoRead<Msg>(s: State<Msg>, d: nat): State<Msg> {
    if d in s.holds || s.store == [] || Gone(s) < 0 then s
    else s.(holds := s.holds[d := Hold(s.store[0].id, s.store[0].msg, Gone(s), false)])
  }

  function DoSend<Msg>(s: State<Msg>, d: nat, accepted: bool): State<Msg> {
    if d !in s.holds || s.holds[d].sent then s
    else if accepted then s.(holds := s.holds[d := s.holds[d].(sent := true)], sends := s.sends + [s.holds[d].at])
    else s.(holds := s.holds - {d})
  }

  function DoRemove<Msg>(s: State<Msg>, d: nat, commits: bool): State<Msg> {
    if d !in s.holds || !s.holds[d].sent then s
    else s.(store := if commits then DeleteRow(s.store, s.holds[d].id) else s.store, holds := s.holds - {d})
  }

  function DoCrash<Msg>(s: State<Msg>): State<Msg> {
    s.(holds := map[], next := Resume(s.store))
  }

  function Do<Msg>(s: State<Msg>, a: Action<Msg>): State<Msg> {
    match a
    case Enqueue(msg, commits) => DoEnqueue(s, msg, commits)
    case Read(d) => DoRead(s, d)
    case Send(d, accepted) => DoSend(s, d, accepted)
    case Remove(d, commits) => DoRemove(s, d, commits)
    case Crash => DoCrash(s)
  }

  function Run<Msg>(actions: seq<Action<Msg>>): State<Msg> {
    if actions == [] then Start() else Do(Run(actions[..|actions| - 1]), actions[|actions| - 1])
  }

  /** How many committed messages are no longer in the store. */
  function Gone<Msg>(s: State<Msg>): int {
    |s.log| - |s.store|
  }

  /** What enqueuers were told is safe, in order. */
  function Commits<Msg>(actions: seq<Action<Msg>>): seq<Msg> {
    if actions == [] then []
    else
      var a := actions[|actions| - 1];
      Commits(actions[..|actions| - 1]) + if a.Enqueue? && a.commits then [a.msg] else []
  }

  // ---- the invariant ----

  ghost predicate Increasing<Msg>(s: Rows<Msg>, n: nat) {
    && (forall i :: 0 <= i < |s| ==> s[i].id < n)
    && (forall i, j :: 0 <= i < j < |s| ==> s[i].id < s[j].id)
  }

  ghost predicate HoldOk<Msg>(s: State<Msg>, h: Hold<Msg>) {
    && h.id < s.next
    && h.at <= Gone(s) && h.at < |s.log| && s.log[h.at] == Row(h.id, h.msg)
    && (h.at < Gone(s) ==> forall i :: 0 <= i < |s.store| ==> s.store[i].id != h.id)
    && (h.sent ==> h.at in s.sends)
  }

  ghost predicate IsTail<T>(store: seq<T>, log: seq<T>) {
    |store| <= |log| && store == log[|log| - |store|..]
  }

  ghost predicate Inv<Msg>(s: State<Msg>) {
    && Increasing(s.store, s.next)
    && IsTail(s.store, s.log)
    && (forall d :: d in s.holds ==> HoldOk(s, s.holds[d]))
    && (forall i :: 0 <= i < Gone(s) ==> i in s.sends)
  }

  /** The first time a message goes out, every earlier one has already gone out. */
  ghost predicate FirstSendsInOrder(sends: seq<nat>) {
    forall p :: 0 <= p < |sends| ==> EarlierSent(sends, p)
  }

  ghost predicate EarlierSent(sends: seq<nat>, p: nat)
    requires p < |sends|
  {
    forall i :: 0 <= i < sends[p] ==> i in sends[..p]
  }

  lemma {:induction false} PutGreatest<Msg>(s: Rows<Msg>, id: nat, msg: Msg)
    requires forall i :: 0 <= i < |s| ==> s[i].id < id
    ensures PutRow(s, id, msg) == s + [Row(id, msg)]
  {
    if s == [] {
    } else {
      PutGreatest(s[1..], id, msg);
    }
  }

  lemma {:induction false} DeleteAbsent<Msg>(s: Rows<Msg>, id: nat)
    requires forall i :: 0 <= i < |s| ==> s[i].id != id
    ensures DeleteRow(s, id) == s
  {
    if s == [] {
    } else {
      DeleteAbsent(s[1..], id);
    }
  }

  lemma AppendTail<T>(log: seq<T>, store: seq<T>, e: T)
    requires IsTail(store, log)
    ensures IsTail(store + [e], log + [e])
  {
  }

  lemma OkAfterEnqueue<Msg>(s: State<Msg>, t: State<Msg>, e: Row<Msg>, h: Hold<Msg>)
    requires HoldOk(s, h) && e.id == s.next && t.next == s.next + 1 && t.sends == s.sends
    requires t.log == s.log + [e] && t.store == s.store + [e]
    ensures HoldOk(t, h)
  {
    assert t.log[h.at] == s.log[h.at];
  }

  lemma EnqueueKeeps<Msg>(s: State<Msg>, msg: Msg, commits: bool)
    requires Inv(s) && s.next + 1 < KeyLimit
    ensures Inv(DoEnqueue(s, msg, commits))
  {
    if commits {
      PutGreatest(s.store, s.next, msg);
      AppendTail(s.log, s.store, Row(s.next, msg));
      EnqueueKeepsHolds(s, DoEnqueue(s, msg, commits), Row(s.next, msg));
    }
  }

  lemma EnqueueKeepsHolds<Msg>(s: State<Msg>, t: State<Msg>, e: Row<Msg>)
    requires Inv(s) && e.id == s.next && t.next == s.next + 1 && t.sends == s.sends && t.holds == s.holds
    requires t.log == s.log + [e] && t.store == s.store + [e]
    ensures forall d :: d in t.holds ==> HoldOk(t, t.holds[d])
  {
    forall d | d in t.holds ensures HoldOk(t, t.holds[d]) {
      OkAfterEnqueue(s, t, e, s.holds[d]);
    }
  }

  lemma StillOk<Msg>(s: State<Msg>, t: State<Msg>, h: Hold<Msg>)
    requires Inv(s) && HoldOk(s, h) && t.log == s.log && t.next == s.next
    requires t.store == s.store || (s.store != [] && t.store == s.store[1..])
    requires forall i :: i in s.sends ==> i in t.sends
    ensures HoldOk(t, h)
  {
    assert h.at == Gone(s) < |s.log| ==> s.store[0] == s.log[h.at];
  }

  lemma RemoveFront<Msg>(s: State<Msg>, d: nat)
    requires Inv(s) && d in s.holds && s.holds[d].sent && s.holds[d].at == Gone(s)
    ensures Inv(DoRemove(s, d, true)) && DoRemove(s, d, true).store == s.store[1..]
  {
    var t := DoRemove(s, d, true);
    assert s.store[0] == s.log[Gone(s)];
    forall e | e in t.holds ensures HoldOk(t, t.holds[e]) {
      StillOk(s, t, s.holds[e]);
    }
  }

  lemma RemoveKeeps<Msg>(s: State<Msg>, d: nat, commits: bool)
    requires Inv(s)
    ensures Inv(DoRemove(s, d, commits))
  {
    if d in s.holds && s.holds[d].sent && commits {
      var h := s.holds[d];
      if h.at == Gone(s) {
        RemoveFront(s, d);
      } else {
        DeleteAbsent(s.store, h.id);
        assert DoRemove(s, d, commits) == s.(holds := s.holds - {d});
      }
    }
  }

  lemma CrashKeeps<Msg>(s: State<Msg>)
    requires Inv(s)
    ensures Inv(DoCrash(s)) && DoCrash(s).next <= s.next
  {
  }

  lemma SendKeeps<Msg>(s: State<Msg>, d: nat, accepted: bool)
    requires Inv(s)
    ensures Inv(DoSend(s, d, accepted))
  {
    var t := DoSend(s, d, accepted);
    assert forall i :: i in s.sends ==> i in t.sends;
    if d in s.holds && !s.holds[d].sent && accepted {
      assert t.sends[|s.sends|] == s.holds[d].at;
      forall e | e in t.holds && e != d ensures HoldOk(t, t.holds[e]) {
        StillOk(s, t, s.holds[e]);
      }
    }
  }

  lemma OneMoreSend(sends: seq<nat>, at: nat)
    requires FirstSendsInOrder(sends) && forall i :: 0 <= i < at ==> i in sends
    ensures FirstSendsInOrder(sends + [at])
  {
    var after := sends + [at];
    forall p | 0 <= p < |after| ensures EarlierSent(after, p) {
      if p < |sends| {
        assert EarlierSent(sends, p) && after[..p] == sends[..p];
      } else {
        assert after[..p] == sends;
      }
    }
  }

  lemma SendsStayOrdered<Msg>(s: State<Msg>, a: Action<Msg>)
    requires Inv(s) && FirstSendsInOrder(s.sends)
    ensures FirstSendsInOrder(Do(s, a).sends)
  {
    if a.Send? && a.drainer in s.holds {
      OneMoreSend(s.sends, s.holds[a.drainer].at);
    }
  }

  lemma ReadKeeps<Msg>(s: State<Msg>, d: nat)
    requires Inv(s)
    ensures Inv(DoRead(s, d))
  {
    var t := DoRead(s, d);
    forall e | e in t.holds ensures HoldOk(t, t.holds[e]) {
      if e in s.holds {
        StillOk(s, t, s.holds[e]);
      } else {
        assert s.store[0] == s.log[Gone(s)];
      }
    }
  }

  lemma NextGrows<Msg>(s: State<Msg>, a: Action<Msg>)
    requires Inv(s) && s.next + 1 < KeyLimit
    ensures Do(s, a).next <= s.next + 1
  {
    if a.Crash? {
      CrashKeeps(s);
    }
  }

  lemma StepKeeps<Msg>(s: State<Msg>, a: Action<Msg>)
    requires Inv(s) && s.next + 1 < KeyLimit
    ensures Inv(Do(s, a))
  {
    match a
    case Enqueue(msg, commits) => EnqueueKeeps(s, msg, commits);
    case Read(d) => ReadKeeps(s, d);
    case Send(d, accepted) => SendKeeps(s, d, accepted);
    case Remove(d, commits) => RemoveKeeps(s, d, commits);
    case Crash => CrashKeeps(s);
  }

  lemma {:induction false} RunKeeps<Msg>(actions: seq<Action<Msg>>)
    requires |actions| < KeyLimit
    ensures Inv(Run(actions)) && FirstSendsInOrder(Run(actions).sends)
    ensures Run(actions).next <= |actions|
  {
    if actions == [] {
    } else {
      var n := |actions| - 1;
      RunKeeps(actions[..n]);
      StepKeeps(Run(actions[..n]), actions[n]);
      NextGrows(Run(actions[..n]), actions[n]);
      SendsStayOrdered(Run(actions[..n]), actions[n]);
    }
  }

  lemma {:induction false} BodiesConcat<Msg>(a: Rows<Msg>, b: Rows<Msg>)
    ensures Bodies(a + b) == Bodies(a) + Bodies(b)
  {
    if a == [] {
      assert a + b == b;
    } else {
      assert (a + b)[1..] == a[1..] + b;
      BodiesConcat(a[1..], b);
    }
  }

  lemma {:induction false} LogIsCommits<Msg>(actions: seq<Action<Msg>>)
    ensures Bodies(Run(actions).log) == Commits(actions)
  {
    if actions == [] {
    } else {
      var n := |actions| - 1;
      var s := Run(actions[..n]);
      LogIsCommits(actions[..n]);
      if actions[n].Enqueue? && actions[n].commits {
        BodiesConcat(s.log, [Row(s.next, actions[n].msg)]);
      }
    }
  }

  /**
   * Whatever the interleaving, the store holds exactly the last of the committed messages in commit
   * order, each of the others has been sent, and no message is sent for the first time before an
   * earlier one. In particular an empty store means everything committed was sent.
   */
  lemma NothingLost<Msg>(actions: seq<Action<Msg>>)
    requires |actions| < KeyLimit
    ensures var s := Run(actions); var gone := |Commits(actions)| - |s.store|;
      && 0 <= gone && Bodies(s.store) == Commits(actions)[gone..]
      && (forall i :: 0 <= i < gone ==> i in s.sends)
      && FirstSendsInOrder(s.sends)
  {
    RunKeeps(actions);
    LogIsCommits(actions);
    var s := Run(actions);
    BodiesConcat(s.log[..Gone(s)], s.store);
    assert s.log == s.log[..Gone(s)] + s.store;
  }
}
