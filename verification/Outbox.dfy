/** The agent's persistent queue: an ordered store on disk and a counter in memory. */
module Outbox {
  import opened OutboxKeys

  // ---- the ordered store ----

  datatype Entry<Msg> = Entry(key: Key, msg: Msg)

  /** A bucket: entries in key order. */
  type Store<Msg> = seq<Entry<Msg>>

  function Put<Msg>(s: Store<Msg>, k: Key, msg: Msg): Store<Msg> {
    if s == [] then [Entry(k, msg)]
    else if k == s[0].key then [Entry(k, msg)] + s[1..]
    else if Less(k, s[0].key) then [Entry(k, msg)] + s
    else [s[0]] + Put(s[1..], k, msg)
  }

  function Delete<Msg>(s: Store<Msg>, k: Key): Store<Msg> {
    if s == [] then []
    else if s[0].key == k then s[1..]
    else [s[0]] + Delete(s[1..], k)
  }

  function Messages<Msg>(s: Store<Msg>): (r: seq<Msg>)
    ensures |r| == |s| && forall i :: 0 <= i < |s| ==> r[i] == s[i].msg
  {
    if s == [] then [] else [s[0].msg] + Messages(s[1..])
  }

  /** Eight-byte keys in strictly increasing key order, all counting below n. */
  ghost predicate Ordered<Msg>(s: Store<Msg>, n: nat) {
    && (forall i :: 0 <= i < |s| ==> |s[i].key| == KeyBytes && Value(s[i].key) < n)
    && (forall i, j :: 0 <= i < j < |s| ==> Less(s[i].key, s[j].key))
  }

  lemma {:induction false} PutLast<Msg>(s: Store<Msg>, n: nat, msg: Msg)
    requires Ordered(s, n) && n < KeyLimit
    ensures Put(s, KeyOf(n), msg) == s + [Entry(KeyOf(n), msg)]
    ensures Ordered(s + [Entry(KeyOf(n), msg)], n + 1)
  {
    KeyOrder(n, n);
    forall i | 0 <= i < |s| ensures Less(s[i].key, KeyOf(n)) && !Less(KeyOf(n), s[i].key) && s[i].key != KeyOf(n) {
      LessIsNumeric(s[i].key, KeyOf(n));
      LessIsNumeric(KeyOf(n), s[i].key);
    }
    AppendGreatest(s, KeyOf(n), msg);
  }

  lemma {:induction false} AppendGreatest<Msg>(s: Store<Msg>, k: Key, msg: Msg)
    requires forall i :: 0 <= i < |s| ==> s[i].key != k && !Less(k, s[i].key)
    ensures Put(s, k, msg) == s + [Entry(k, msg)]
  {
    if s == [] {
    } else {
      AppendGreatest(s[1..], k, msg);
    }
  }

  /** One past the highest key, or 0 if there is none. */
  function Reopen<Msg>(disk: Store<Msg>): nat {
    if disk == [] then 0 else Value(disk[|disk| - 1].key) + 1
  }

  lemma DropFirst<Msg>(s: Store<Msg>, n: nat)
    requires Ordered(s, n) && s != []
    ensures Ordered(s[1..], n) && Delete(s, s[0].key) == s[1..]
  {
  }

  lemma MessagesFrom<Msg>(s: Store<Msg>, k: nat)
    requires k <= |s|
    ensures Messages(s[k..]) == Messages(s)[k..]
  {
  }

  /** What went out is the front of the store, what is left the rest of it. */
  ghost predicate SentFrom<Msg>(before: Store<Msg>, sent: seq<Msg>, left: Store<Msg>) {
    |sent| <= |before| && left == before[|sent|..] && sent == Messages(before)[..|sent|]
  }

  lemma SendOne<Msg>(before: Store<Msg>, sent: seq<Msg>, left: Store<Msg>)
    requires SentFrom(before, sent, left) && left != []
    ensures SentFrom(before, sent + [left[0].msg], left[1..])
  {
    assert left[0] == before[|sent|];
  }

  // ---- the queue ----

  datatype DrainEnd = Empty | SendFailed | DeleteFailed

  class Outbox<Msg> {
    var store: Store<Msg>
    var next: nat

    ghost predicate Valid()
      reads this
    {
      next <= KeyLimit && Ordered(store, next)
    }

    function Contents(): seq<Msg>
      reads this
    {
      Messages(store)
    }

    /** Opens what an earlier process left: the counter resumes past the highest key. */
    constructor Open(disk: Store<Msg>)
      requires Ordered(disk, KeyLimit)
      ensures Valid() && store == disk && next == Reopen(disk)
    {
      store := disk;
      next := Reopen(disk);
      new;
      forall i | 0 <= i < |disk| ensures Value(disk[i].key) < next {
        LessIsNumeric(disk[i].key, disk[|disk| - 1].key);
      }
    }

    /** Appends at the end of the queue; a commit that fails only spends its count. */
    method Enqueue(msg: Msg, commits: bool) returns (ok: bool)
      requires Valid() && next < KeyLimit
      modifies this
      ensures Valid() && ok == commits && next == old(next) + 1
      ensures Contents() == if ok then old(Contents()) + [msg] else old(Contents())
      ensures !ok ==> store == old(store)
    {
      var key := next;
      next := next + 1;
      ok := commits;
      if ok {
        PutLast(store, key, msg);
        store := Put(store, KeyOf(key), msg);
      }
    }

    /**
     * Sends from the front and deletes what was sent, until the queue is empty or something fails.
     * What went out is exactly the front of the queue; what the store confirmed is gone and the
     * rest is untouched. Only a send whose deletion failed leaves its message behind.
     */
    method Drain(sends: nat -> bool, deletes: nat -> bool) returns (end: DrainEnd, sent: seq<Msg>)
      requires Valid()
      modifies this`store
      ensures Valid()
      ensures |sent| <= |old(Contents())| && sent == old(Contents())[..|sent|]
      ensures forall i :: 0 <= i < |sent| ==> sends(i)
      ensures match end
              case Empty => sent == old(Contents()) && Contents() == []
              case SendFailed => |sent| < |old(Contents())| && !sends(|sent|) && Contents() == old(Contents())[|sent|..]
              case DeleteFailed => sent != [] && !deletes(|sent| - 1) && Contents() == old(Contents())[|sent| - 1..]
    {
      sent := [];
      ghost var before := store;
      while true
        invariant Valid() && SentFrom(before, sent, store)
        invariant forall i :: 0 <= i < |sent| ==> sends(i)
        decreases |store|
      {
        MessagesFrom(before, |sent|);
        if store == [] {
          return Empty, sent;
        }
        var key, msg := store[0].key, store[0].msg;
        if !sends(|sent|) {
          return SendFailed, sent;
        }
        SendOne(before, sent, store);
        sent := sent + [msg];
        if !deletes(|sent| - 1) {
          return DeleteFailed, sent;
        }
        DropFirst(store, next);
        store := Delete(store, key);
      }
    }
  }
}
