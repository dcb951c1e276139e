/**
 * The outbox protocol on the store as it is, keyed by bytes: the run over counted rows is what
 * happens on disk.
 */
module OutboxDisk {
  import opened OutboxKeys
  import opened Outbox
  import opened OutboxProtocol

  /** What a drainer remembers of the entry it is sending. */
  datatype Claim<Msg> = Claim(key: Key, msg: Msg, sent: bool)

  datatype Disk<Msg> = Disk(store: Store<Msg>, next: nat, claims: map<nat, Claim<Msg>>, sent: seq<Msg>)

  function DiskEnqueue<Msg>(t: Disk<Msg>, msg: Msg, commits: bool): Disk<Msg> {
    var u := t.(next := (t.next + 1) % KeyLimit);
    if commits then u.(store := Put(t.store, KeyOf(t.next), msg)) else u
  }

  function DiskRead<Msg>(t: Disk<Msg>, d: nat): Disk<Msg> {
    if d in t.claims || t.store == [] then t
    else t.(claims := t.claims[d := Claim(t.store[0].key, t.store[0].msg, false)])
  }

  function DiskSend<Msg>(t: Disk<Msg>, d: nat, accepted: bool): Disk<Msg> {
    if d !in t.claims || t.claims[d].sent then t
    else if accepted then
      t.(claims := t.claims[d := t.claims[d].(sent := true)], sent := t.sent + [t.claims[d].msg])
    else t.(claims := t.claims - {d})
  }

  function DiskRemove<Msg>(t: Disk<Msg>, d: nat, commits: bool): Disk<Msg> {
    if d !in t.claims || !t.claims[d].sent then t
    else t.(store := if commits then Delete(t.store, t.claims[d].key) else t.store, claims := t.claims - {d})
  }

  function DiskCrash<Msg>(t: Disk<Msg>): Disk<Msg> {
    t.(claims := map[], next := Reopen(t.store))
  }

  function DiskDo<Msg>(t: Disk<Msg>, a: Action<Msg>): Disk<Msg> {
    match a
    case Enqueue(msg, commits) => DiskEnqueue(t, msg, commits)
    case Read(d) => DiskRead(t, d)
    case Send(d, accepted) => DiskSend(t, d, accepted)
    case Remove(d, commits) => DiskRemove(t, d, commits)
    case Crash => DiskCrash(t)
  }

  function DiskRun<Msg>(actions: seq<Action<Msg>>): Disk<Msg> {
    if actions == [] then Disk([], 0, map[], [])
    else DiskDo(DiskRun(actions[..|actions| - 1]), actions[|actions| - 1])
  }

  // ---- the refinement ----

  ghost predicate SameClaim<Msg>(h: Hold<Msg>, c: Claim<Msg>) {
    c == Claim(KeyOf(h.id), h.msg, h.sent)
  }

  ghost predicate SameClaims<Msg>(s: State<Msg>, t: Disk<Msg>) {
    t.claims.Keys == s.holds.Keys && forall d :: d in s.holds ==> SameClaim(s.holds[d], t.claims[d])
  }

  /** The messages sent are those at the places `sends` lists. */
  ghost predicate SameSends<Msg>(log: Rows<Msg>, sends: seq<nat>, sent: seq<Msg>) {
    |sent| == |sends| && forall i :: 0 <= i < |sends| ==> sends[i] < |log| && sent[i] == log[sends[i]].msg
  }

  ghost predicate Refines<Msg>(s: State<Msg>, t: Disk<Msg>) {
    t.store == OnDisk(s.store) && t.next == s.next && SameClaims(s, t) && SameSends(s.log, s.sends, t.sent)
  }

  ghost predicate Small<Msg>(s: Rows<Msg>) {
    forall i :: 0 <= i < |s| ==> s[i].id < KeyLimit
  }

  lemma {:induction false} OnDiskAt<Msg>(s: Rows<Msg>, i: nat)
    requires i < |s|
    ensures |OnDisk(s)| == |s| && OnDisk(s)[i] == Entry(KeyOf(s[i].id), s[i].msg)
  {
    if s[1..] == [] {
      assert OnDisk(s[1..]) == [];
    } else {
      OnDiskAt(s[1..], if i == 0 then 0 else i - 1);
    }
  }

  /** Opening reads the counter off the last key. */
  lemma SameCounter<Msg>(s: Rows<Msg>)
    requires Small(s)
    ensures Reopen(OnDisk(s)) == Resume(s)
  {
    if s != [] {
      var n := |s| - 1;
      OnDiskAt(s, n);
      KeyOrder(s[n].id, s[n].id);
    }
  }

  lemma EnqueueRefines<Msg>(s: State<Msg>, t: Disk<Msg>, msg: Msg, commits: bool)
    requires Refines(s, t) && Small(s.store) && s.next < KeyLimit
    ensures Refines(DoEnqueue(s, msg, commits), DiskEnqueue(t, msg, commits))
  {
    SameStore(s.store, s.next, msg);
  }

  lemma ReadRefines<Msg>(s: State<Msg>, t: Disk<Msg>, d: nat)
    requires Refines(s, t) && Gone(s) >= 0
    ensures Refines(DoRead(s, d), DiskRead(t, d))
  {
  }

  lemma SendRefines<Msg>(s: State<Msg>, t: Disk<Msg>, d: nat, accepted: bool)
    requires Refines(s, t) && Inv(s)
    ensures Refines(DoSend(s, d, accepted), DiskSend(t, d, accepted))
  {
  }

  lemma RemoveRefines<Msg>(s: State<Msg>, t: Disk<Msg>, d: nat, commits: bool)
    requires Refines(s, t) && Inv(s) && Small(s.store) && s.next < KeyLimit
    ensures Refines(DoRemove(s, d, commits), DiskRemove(t, d, commits))
  {
    if d in s.holds {
      assert HoldOk(s, s.holds[d]);
      SameStore(s.store, s.holds[d].id, s.holds[d].msg);
    }
  }

  lemma StepRefines<Msg>(s: State<Msg>, t: Disk<Msg>, a: Action<Msg>)
    requires Refines(s, t) && Inv(s) && s.next < KeyLimit
    ensures Refines(Do(s, a), DiskDo(t, a))
  {
    assert Small(s.store);
    match a
    case Enqueue(msg, commits) => EnqueueRefines(s, t, msg, commits);
    case Read(d) => ReadRefines(s, t, d);
    case Send(d, accepted) => SendRefines(s, t, d, accepted);
    case Remove(d, commits) => RemoveRefines(s, t, d, commits);
    case Crash => SameCounter(s.store);
  }

  lemma {:induction false} RunRefines<Msg>(actions: seq<Action<Msg>>)
    requires |actions| < KeyLimit
    ensures Refines(Run(actions), DiskRun(actions))
  {
    if actions == [] {
    } else {
      var n := |actions| - 1;
      RunKeeps(actions[..n]);
      RunRefines(actions[..n]);
      StepRefines(Run(actions[..n]), DiskRun(actions[..n]), actions[n]);
    }
  }

  lemma {:induction false} MessagesOnDisk<Msg>(s: Rows<Msg>)
    ensures Messages(OnDisk(s)) == Bodies(s)
  {
    if s == [] {
    } else {
      MessagesOnDisk(s[1..]);
      assert OnDisk(s)[1..] == OnDisk(s[1..]);
    }
  }

  lemma {:induction false} BodyAt<Msg>(s: Rows<Msg>, i: nat)
    requires i < |s|
    ensures Bodies(s)[i] == s[i].msg
  {
    if i > 0 {
      BodyAt(s[1..], i - 1);
    }
  }

  lemma SentAt<Msg>(log: Rows<Msg>, sends: seq<nat>, sent: seq<Msg>, i: nat)
    requires SameSends(log, sends, sent) && i in sends
    ensures i < |log| && Bodies(log)[i] in sent
  {
    var p :| 0 <= p < |sends| && sends[p] == i;
    BodyAt(log, i);
    assert sent[p] == log[i].msg;
  }

  lemma AllSent<Msg>(log: Rows<Msg>, sends: seq<nat>, sent: seq<Msg>, gone: nat)
    requires SameSends(log, sends, sent) && gone <= |log| && forall i :: 0 <= i < gone ==> i in sends
    ensures forall i :: 0 <= i < gone ==> Bodies(log)[i] in sent
  {
    forall i | 0 <= i < gone ensures Bodies(log)[i] in sent {
      SentAt(log, sends, sent, i);
    }
  }

  /** So the keyed store holds the last of the commits in order, and every commit before those was sent. */
  lemma NothingLostOnDisk<Msg>(actions: seq<Action<Msg>>)
    requires |actions| < KeyLimit
    ensures var t, all := DiskRun(actions), Commits(actions); var gone := |all| - |t.store|;
      && 0 <= gone && Messages(t.store) == all[gone..]
      && forall i :: 0 <= i < gone ==> all[i] in t.sent
  {
    var s, t := Run(actions), DiskRun(actions);
    RunRefines(actions);
    NothingLost(actions);
    LogIsCommits(actions);
    MessagesOnDisk(s.store);
    AllSent(s.log, s.sends, t.sent, |Commits(actions)| - |s.store|);
  }
}
