/** Which log chunks of a run collide, and which of them are lost. */
module RunKeysKept {
  import opened Seqs
  import opened RunKeys

  // ---- attempts ----

  /** At most one attempt more than retries allowed; every attempt but the last failed and was waited for. */
  lemma {:induction false} AttemptsBounded(attempts: nat -> Attempt, waits: nat -> bool, maxRetries: int, k: nat)
    ensures var n := Count(attempts, waits, maxRetries, k);
      && k < n && (n == k + 1 || n <= maxRetries + 1)
      && (forall i :: k <= i < n - 1 ==> StatusOf(attempts(i)) == Failed && waits(i))
      && Stops(attempts, waits, maxRetries, n - 1)
    decreases maxRetries - k
  {
    if !Stops(attempts, waits, maxRetries, k) {
      AttemptsBounded(attempts, waits, maxRetries, k + 1);
    }
  }

  /** Whether attempt i is followed by another: it failed, retries are left, and the wait is not cut short. */
  predicate Retried(attempts: nat -> Attempt, waits: nat -> bool, maxRetries: int, i: nat) {
    var a := attempts(i);
    (a.Refused? || a.NotStarted? || a.status == Failed) && i < maxRetries && waits(i)
  }

  /** There are n attempts exactly when each of the first n - 1 is retried and the n-th is not. */
  lemma AttemptsExact(attempts: nat -> Attempt, waits: nat -> bool, maxRetries: int, n: nat)
    ensures Count(attempts, waits, maxRetries, 0) == n <==>
            && n > 0 && (forall i :: 0 <= i < n - 1 ==> Retried(attempts, waits, maxRetries, i))
            && !Retried(attempts, waits, maxRetries, n - 1)
  {
    AttemptsFrom(attempts, waits, maxRetries, 0);
    var last := Count(attempts, waits, maxRetries, 0) - 1;
    assert !Retried(attempts, waits, maxRetries, last);
  }

  lemma {:induction false} AttemptsFrom(attempts: nat -> Attempt, waits: nat -> bool, maxRetries: int, k: nat)
    ensures var n := Count(attempts, waits, maxRetries, k);
      && n > k && (forall i :: k <= i < n - 1 ==> Retried(attempts, waits, maxRetries, i))
      && !Retried(attempts, waits, maxRetries, n - 1)
    decreases maxRetries - k
  {
    if !Stops(attempts, waits, maxRetries, k) {
      AttemptsFrom(attempts, waits, maxRetries, k + 1);
    }
  }

  // ---- keys ----

  function Tally(lines: seq<Stream>, s: Stream): nat {
    if lines == [] then 0 else (if lines[0] == s then 1 else 0) + Tally(lines[1..], s)
  }

  /** How many items an attempt puts on a stream, its retry notice aside. */
  function Items(a: Attempt, s: Stream): nat {
    (if s == Stderr then NotesOf(a) else 0) + Tally(LinesOf(a), s)
  }

  /** No stream gets more than a block's worth of items in one attempt. */
  ghost predicate Small(a: Attempt) {
    Items(a, Stdout) <= SeqBlock && Items(a, Stderr) <= SeqBlock
  }

  const MaxRetriesSafe := 2146

  /** Below the block size and the retry limit, keys stay under the sentinel and tell chunks apart. */
  lemma KeysInRange(c: Chunk, d: Chunk)
    requires c.local < SeqBlock && c.attempt <= MaxRetriesSafe
    requires d.local < SeqBlock && d.attempt <= MaxRetriesSafe
    ensures 0 <= KeyOf(c).seqNo < MaxInt32
    ensures KeyOf(c) == KeyOf(d) <==> c.stream == d.stream && c.attempt == d.attempt && c.local == d.local
  {
    var x, y := c.attempt * SeqBlock + c.local, d.attempt * SeqBlock + d.local;
    assert 0 <= x < MaxInt32 && 0 <= y < MaxInt32;
    assert Int32(x) == x && Int32(y) == y;
  }

  /** The first stderr item of a retried attempt, which the retry notice shares its number with. */
  predicate Shadowed(c: Chunk) {
    c.attempt > 0 && !c.notice && c.stream == Stderr && c.local == 0
  }

  /** No chunk twice, a notice before the chunk it shadows and after all earlier attempts. */
  ghost predicate Orderly(cs: seq<Chunk>) {
    && NoDup(cs)
    && (forall p :: 0 <= p < |cs| && Shadowed(cs[p]) ==> NoticeOf(cs[p].attempt) in cs[..p])
    && (forall q, p :: 0 <= q < p < |cs| && cs[p].notice ==> cs[q].attempt < cs[p].attempt)
  }

  // ---- what one attempt emits ----

  lemma {:induction false} NotesShape(k: nat, from: nat, upTo: nat)
    ensures var r := Notes(k, from, upTo);
      NoDup(r) && forall c :: c in r <==> from <= c.local < upTo && c == Chunk(k, Stderr, c.local, false)
    decreases upTo - from
  {
    if from < upTo {
      NotesShape(k, from + 1, upTo);
    }
  }

  lemma NoDupCons<T>(x: T, xs: seq<T>)
    requires NoDup(xs) && x !in xs
    ensures NoDup([x] + xs)
  {
  }

  predicate InRun(c: Chunk, k: nat, out: nat, err: nat, lines: seq<Stream>) {
    var start := if c.stream == Stdout then out else err;
    c.attempt == k && !c.notice && start <= c.local < start + Tally(lines, c.stream)
  }

  lemma {:induction false} PumpedShape(k: nat, lines: seq<Stream>, out: nat, err: nat)
    ensures var r := Pumped(k, lines, out, err);
      NoDup(r) && forall c :: c in r <==> InRun(c, k, out, err, lines)
  {
    if lines == [] {
    } else if lines[0] == Stdout {
      PumpedShape(k, lines[1..], out + 1, err);
      NoDupCons(Chunk(k, Stdout, out, false), Pumped(k, lines[1..], out + 1, err));
    } else {
      PumpedShape(k, lines[1..], out, err + 1);
      NoDupCons(Chunk(k, Stderr, err, false), Pumped(k, lines[1..], out, err + 1));
    }
  }

  ghost predicate AreItems(r: seq<Chunk>, k: nat, a: Attempt) {
    NoDup(r) && forall c :: c in r <==> c.attempt == k && !c.notice && c.local < Items(a, c.stream)
  }

  /** The items of an attempt: on each stream, the numbers from 0 up, each once. */
  lemma ItemsShape(k: nat, a: Attempt)
    ensures AreItems(Executed(k, a), k, a)
  {
    var notes, lines := Notes(k, 0, NotesOf(a)), Pumped(k, LinesOf(a), 0, NotesOf(a));
    NotesShape(k, 0, NotesOf(a));
    PumpedShape(k, LinesOf(a), 0, NotesOf(a));
    NoDupConcat(notes, lines);
  }

  lemma NoticeInFront(k: nat, items: seq<Chunk>)
    requires k > 0 && NoDup(items) && forall c :: c in items ==> c.attempt == k && !c.notice
    ensures Orderly([NoticeOf(k)] + items)
  {
    var all := [NoticeOf(k)] + items;
    NoDupConcat([NoticeOf(k)], items);
    forall p | 0 < p < |all| ensures all[p].attempt == k && !all[p].notice && NoticeOf(k) in all[..p] {
      assert all[p] in items;
      assert all[..p][0] == NoticeOf(k);
    }
  }

  lemma NoticeFirst(k: nat, items: seq<Chunk>)
    requires NoDup(items) && forall c :: c in items ==> c.attempt == k && !c.notice
    ensures Orderly(Announced(k) + items)
  {
    if k == 0 {
      assert Announced(k) + items == items;
    } else {
      NoticeInFront(k, items);
    }
  }

  lemma EmittedOrderly(k: nat, a: Attempt)
    ensures Orderly(Emitted(k, a))
  {
    ItemsShape(k, a);
    NoticeFirst(k, Executed(k, a));
  }

  predicate Plausible(c: Chunk) {
    c.local < SeqBlock && (c.notice ==> c.attempt > 0 && c == NoticeOf(c.attempt))
  }

  lemma EmittedRange(k: nat, a: Attempt)
    requires Small(a)
    ensures forall c :: c in Emitted(k, a) ==> c.attempt == k && Plausible(c)
  {
    ItemsShape(k, a);
  }

  lemma EmittedShadows(k: nat, a: Attempt)
    ensures (exists c :: c in Emitted(k, a) && Shadowed(c)) <==> k > 0 && Items(a, Stderr) > 0
  {
    ItemsShape(k, a);
    if k > 0 && Items(a, Stderr) > 0 {
      var c := Chunk(k, Stderr, 0, false);
      assert c in Executed(k, a);
      assert c in Emitted(k, a) && Shadowed(c);
    }
  }

  // ---- what all of them emit ----

  lemma OrderlyConcat(xs: seq<Chunk>, ys: seq<Chunk>, n: nat)
    requires Orderly(xs) && Orderly(ys)
    requires (forall c :: c in xs ==> c.attempt < n) && (forall c :: c in ys ==> c.attempt == n)
    ensures Orderly(xs + ys)
  {
    var zs := xs + ys;
    NoDupConcat(xs, ys);
    forall p | 0 <= p < |zs| && Shadowed(zs[p]) ensures NoticeOf(zs[p].attempt) in zs[..p] {
      if p < |xs| {
        assert zs[..p] == xs[..p];
      } else {
        assert zs[..p] == xs + ys[..p - |xs|];
      }
    }
    forall q, p | 0 <= q < p < |zs| && zs[p].notice ensures zs[q].attempt < zs[p].attempt {
      if q < |xs| <= p {
        assert xs[q] in xs && ys[p - |xs|] in ys;
      }
    }
  }

  ghost predicate AllSmall(attempts: nat -> Attempt, n: nat) {
    forall k :: 0 <= k < n ==> Small(attempts(k))
  }

  lemma {:induction false} AllOrderly(attempts: nat -> Attempt, n: nat)
    requires AllSmall(attempts, n)
    ensures Orderly(All(attempts, n))
    ensures forall c :: c in All(attempts, n) ==> c.attempt < n && Plausible(c)
  {
    if n > 0 {
      AllOrderly(attempts, n - 1);
      EmittedOrderly(n - 1, attempts(n - 1));
      EmittedRange(n - 1, attempts(n - 1));
      OrderlyConcat(All(attempts, n - 1), Emitted(n - 1, attempts(n - 1)), n - 1);
    }
  }

  lemma {:induction false} AllShadows(attempts: nat -> Attempt, n: nat)
    ensures (exists c :: c in All(attempts, n) && Shadowed(c)) <==>
            exists k :: 0 < k < n && Items(attempts(k), Stderr) > 0
  {
    if n > 0 {
      AllShadows(attempts, n - 1);
      EmittedShadows(n - 1, attempts(n - 1));
    }
  }

  // ---- what is stored ----

  predicate HasKey(cs: seq<Chunk>, key: Key) {
    exists c :: c in cs && KeyOf(c) == key
  }

  /** The control plane keeps the first chunk under each key and ignores the rest. */
  function Stored(cs: seq<Chunk>): seq<Chunk> {
    if cs == [] then []
    else
      var n := |cs| - 1;
      Stored(cs[..n]) + if HasKey(cs[..n], KeyOf(cs[n])) then [] else [cs[n]]
  }

  ghost predicate InRange(cs: seq<Chunk>) {
    forall c :: c in cs ==> c.attempt <= MaxRetriesSafe && Plausible(c)
  }

  lemma LastCollides(cs: seq<Chunk>)
    requires cs != [] && Orderly(cs) && InRange(cs)
    ensures HasKey(cs[..|cs| - 1], KeyOf(cs[|cs| - 1])) <==> Shadowed(cs[|cs| - 1])
  {
    var n := |cs| - 1;
    var d := cs[n];
    assert d in cs;
    if Shadowed(d) {
      var c := NoticeOf(d.attempt);
      assert c in cs[..n];
      assert c in cs;
      KeysInRange(c, d);
    }
    forall i | 0 <= i < n && KeyOf(cs[i]) == KeyOf(d) ensures Shadowed(d) {
      assert cs[i] in cs;
      KeysInRange(cs[i], d);
    }
  }

  predicate Kept(c: Chunk) {
    !Shadowed(c)
  }

  lemma FilterSnoc<T(!new)>(front: seq<T>, x: T, keep: T -> bool)
    ensures Filter(front + [x], keep) == Filter(front, keep) + if keep(x) then [x] else []
  {
    FilterConcat(front, [x], keep);
    FilterOne(x, keep);
  }

  lemma OrderlyPrefix(cs: seq<Chunk>, n: nat)
    requires Orderly(cs) && InRange(cs) && n <= |cs|
    ensures Orderly(cs[..n]) && InRange(cs[..n])
  {
    assert forall p :: 0 <= p < n ==> cs[..n][..p] == cs[..p];
  }

  /** From the first n elements to the first n + 1, f adds the new one if it is to be kept. */
  ghost predicate Grows<T>(f: seq<T> -> seq<T>, xs: seq<T>, keep: T -> bool, n: nat)
    requires n < |xs|
  {
    f(xs[..n + 1]) == f(xs[..n]) + if keep(xs[n]) then [xs[n]] else []
  }

  lemma {:induction false} GrownIsFilter<T(!new)>(f: seq<T> -> seq<T>, xs: seq<T>, keep: T -> bool, n: nat)
    requires f([]) == [] && n <= |xs| && forall i :: 0 <= i < n ==> Grows(f, xs, keep, i)
    ensures f(xs[..n]) == Filter(xs[..n], keep)
  {
    if n > 0 {
      GrownIsFilter(f, xs, keep, n - 1);
      assert Grows(f, xs, keep, n - 1);
      FilterSnoc(xs[..n - 1], xs[n - 1], keep);
      assert xs[..n] == xs[..n - 1] + [xs[n - 1]];
    }
  }

  lemma StoredNext(cs: seq<Chunk>, n: nat)
    requires Orderly(cs) && InRange(cs) && n < |cs|
    ensures Stored(cs[..n + 1]) == Stored(cs[..n]) + if Kept(cs[n]) then [cs[n]] else []
  {
    var begun := cs[..n + 1];
    OrderlyPrefix(cs, n + 1);
    assert begun[..n] == cs[..n] && begun[n] == cs[n];
    LastCollides(begun);
  }

  lemma StoredIs(cs: seq<Chunk>)
    requires Orderly(cs) && InRange(cs)
    ensures Stored(cs) == Filter(cs, Kept)
  {
    forall n | 0 <= n < |cs| ensures Grows(Stored, cs, Kept, n) {
      StoredNext(cs, n);
    }
    GrownIsFilter(Stored, cs, Kept, |cs|);
    assert cs[..|cs|] == cs;
  }

  /**
   * With at most 2146 retries and at most a block of items a stream an attempt: every key is below
   * the truncation notice's, and what the control plane stores is everything but the first stderr
   * item of each retried attempt, whose number the retry notice took. So nothing is lost exactly
   * when no retried attempt wrote to stderr.
   */
  lemma LostExactly(attempts: nat -> Attempt, waits: nat -> bool, maxRetries: int)
    requires maxRetries <= MaxRetriesSafe && AllSmall(attempts, Count(attempts, waits, maxRetries, 0))
    ensures var n := Count(attempts, waits, maxRetries, 0); var sent := All(attempts, n);
      && (forall c :: c in sent ==> 0 <= KeyOf(c).seqNo < MaxInt32)
      && Stored(sent) == Filter(sent, Kept)
      && (Stored(sent) == sent <==> forall k :: 0 < k < n ==> Items(attempts(k), Stderr) == 0)
  {
    var n := Count(attempts, waits, maxRetries, 0);
    var sent := All(attempts, n);
    AttemptsBounded(attempts, waits, maxRetries, 0);
    AllInRange(attempts, n);
    KeysBelow(sent);
    StoredIs(sent);
    FilterAll(sent, Kept);
    NothingShadowed(attempts, n);
  }

  lemma AllInRange(attempts: nat -> Attempt, n: nat)
    requires AllSmall(attempts, n) && n <= MaxRetriesSafe + 1
    ensures Orderly(All(attempts, n)) && InRange(All(attempts, n))
  {
    AllOrderly(attempts, n);
  }

  lemma KeysBelow(cs: seq<Chunk>)
    requires InRange(cs)
    ensures forall c :: c in cs ==> 0 <= KeyOf(c).seqNo < MaxInt32
  {
    forall c | c in cs ensures 0 <= KeyOf(c).seqNo < MaxInt32 {
      KeysInRange(c, c);
    }
  }

  lemma NothingShadowed(attempts: nat -> Attempt, n: nat)
    ensures (forall c :: c in All(attempts, n) ==> Kept(c)) <==>
            forall k :: 0 < k < n ==> Items(attempts(k), Stderr) == 0
  {
    AllShadows(attempts, n);
  }

  lemma {:induction false} FilterAll<T(!new)>(xs: seq<T>, keep: T -> bool)
    ensures Filter(xs, keep) == xs <==> forall x :: x in xs ==> keep(x)
  {
    if xs == [] {
    } else {
      FilterAll(xs[1..], keep);
      assert xs == [xs[0]] + xs[1..];
      if keep(xs[0]) {
        assert Filter(xs, keep)[1..] == Filter(xs[1..], keep);
      }
    }
  }

  function TwoAttempts(k: nat): Attempt {
    if k == 0 then Ran(0, [], Failed) else Ran(0, [Stderr], Succeeded)
  }

  lemma TwoAttemptsEmit()
    ensures Emitted(0, TwoAttempts(0)) == []
    ensures Emitted(1, TwoAttempts(1)) == [NoticeOf(1), Chunk(1, Stderr, 0, false)]
  {
    assert [Stderr][1..] == [];
  }

  /** A failed first attempt and a second one with a line on stderr: that line has the notice's number and is lost. */
  lemma LineLost()
    ensures Count(TwoAttempts, _ => true, 1, 0) == 2
    ensures All(TwoAttempts, 2) == [NoticeOf(1), Chunk(1, Stderr, 0, false)]
    ensures Stored(All(TwoAttempts, 2)) == [NoticeOf(1)]
  {
    var both := [NoticeOf(1), Chunk(1, Stderr, 0, false)];
    assert Count(TwoAttempts, _ => true, 1, 1) == 2;
    TwoAttemptsEmit();
    assert All(TwoAttempts, 1) == [] && All(TwoAttempts, 2) == both;
    assert both[..1] == [NoticeOf(1)] && both[..1][..0] == [];
  }
}
