/** The log keys of one run: what its attempts emit, and which of it the control plane keeps. */
module RunKeys {
  import opened Seqs

  datatype Stream = Stdout | Stderr

  datatype Status = Succeeded | Failed | TimedOut | Canceled

  /** One execution. `lines` is the order in which the two pumps hand lines over. */
  datatype Attempt =
    | Refused
    | NotStarted(notes: nat)
    | Ran(notes: nat, lines: seq<Stream>, status: Status)

  function StatusOf(a: Attempt): Status {
    if a.Ran? then a.status else Failed
  }

  function NotesOf(a: Attempt): nat {
    if a.Refused? then 0 else a.notes
  }

  function LinesOf(a: Attempt): seq<Stream> {
    if a.Ran? then a.lines else []
  }

  /** A chunk by where it comes from: attempt, stream, number within the attempt, and whether it is the retry notice. */
  datatype Chunk = Chunk(attempt: nat, stream: Stream, local: nat, notice: bool)

  const SeqBlock: nat := 1_000_000
  const MaxInt32: int := 0x7FFF_FFFF

  /** Go's conversion to int32. */
  function Int32(n: int): int {
    (n + 0x8000_0000) % 0x1_0000_0000 - 0x8000_0000
  }

  /** The (stream, seq) pair the chunk is sent under. */
  datatype Key = Key(stream: Stream, seqNo: int)

  function KeyOf(c: Chunk): Key {
    Key(c.stream, Int32(c.attempt * SeqBlock + c.local))
  }

  function Notes(k: nat, from: nat, upTo: nat): seq<Chunk>
    decreases upTo - from
  {
    if from >= upTo then [] else [Chunk(k, Stderr, from, false)] + Notes(k, from + 1, upTo)
  }

  /** Each pump numbers its own lines; stderr goes on after the notes. */
  function Pumped(k: nat, lines: seq<Stream>, out: nat, err: nat): seq<Chunk> {
    if lines == [] then []
    else if lines[0] == Stdout then [Chunk(k, Stdout, out, false)] + Pumped(k, lines[1..], out + 1, err)
    else [Chunk(k, Stderr, err, false)] + Pumped(k, lines[1..], out, err + 1)
  }

  /** What executing an attempt emits: notes first, then the lines of both pipes. */
  function Executed(k: nat, a: Attempt): seq<Chunk> {
    Notes(k, 0, NotesOf(a)) + Pumped(k, LinesOf(a), 0, NotesOf(a))
  }

  function NoticeOf(k: nat): Chunk {
    Chunk(k, Stderr, 0, true)
  }

  /** Every attempt but the first is announced. */
  function Announced(k: nat): seq<Chunk> {
    if k > 0 then [NoticeOf(k)] else []
  }

  function Emitted(k: nat, a: Attempt): seq<Chunk> {
    Announced(k) + Executed(k, a)
  }

  /** Everything the first n attempts emit. */
  function All(attempts: nat -> Attempt, n: nat): seq<Chunk> {
    if n == 0 then [] else All(attempts, n - 1) + Emitted(n - 1, attempts(n - 1))
  }

  predicate Stops(attempts: nat -> Attempt, waits: nat -> bool, maxRetries: int, k: nat) {
    StatusOf(attempts(k)) != Failed || k >= maxRetries || !waits(k)
  }

  /**
   * How many attempts there are, from attempt k on: retrying stops on anything but a plain failure, at the
   * limit, or when the wait is cut short.
   */
  function Count(attempts: nat -> Attempt, waits: nat -> bool, maxRetries: int, k: nat): (n: nat)
    ensures n > k
    decreases maxRetries - k
  {
    if Stops(attempts, waits, maxRetries, k) then k + 1 else Count(attempts, waits, maxRetries, k + 1)
  }

  /** What was sent and what is still to be sent is everything. */
  ghost predicate Sends(sent: seq<Key>, rest: seq<Chunk>, all: seq<Chunk>) {
    sent + Map(KeyOf, rest) == Map(KeyOf, all)
  }

  lemma SendNext(sent: seq<Key>, c: Chunk, rest: seq<Chunk>, all: seq<Chunk>)
    requires Sends(sent, [c] + rest, all)
    ensures Sends(sent + [KeyOf(c)], rest, all)
  {
    assert Map(KeyOf, [c] + rest) == [KeyOf(c)] + Map(KeyOf, rest);
    Reassoc(sent, [KeyOf(c)], Map(KeyOf, rest));
  }

  lemma PumpedNext(k: nat, lines: seq<Stream>, i: nat, out: nat, err: nat)
    requires i < |lines|
    ensures Pumped(k, lines[i..], out, err) ==
            if lines[i] == Stdout then [Chunk(k, Stdout, out, false)] + Pumped(k, lines[i + 1..], out + 1, err)
            else [Chunk(k, Stderr, err, false)] + Pumped(k, lines[i + 1..], out, err + 1)
  {
    assert lines[i..][1..] == lines[i + 1..];
  }

  method PumpLines(k: nat, offset: nat, lines: seq<Stream>, notes: nat) returns (sent: seq<Key>)
    requires offset == k * SeqBlock
    ensures sent == Map(KeyOf, Pumped(k, lines, 0, notes))
  {
    sent := [];
    var out, err := 0, notes;
    ghost var all := Pumped(k, lines, 0, notes);
    assert lines[0..] == lines;
    for i := 0 to |lines|
      invariant Sends(sent, Pumped(k, lines[i..], out, err), all)
    {
      PumpedNext(k, lines, i, out, err);
      if lines[i] == Stdout {
        SendNext(sent, Chunk(k, Stdout, out, false), Pumped(k, lines[i + 1..], out + 1, err), all);
        sent := sent + [Key(Stdout, Int32(offset + out))];
        out := out + 1;
      } else {
        SendNext(sent, Chunk(k, Stderr, err, false), Pumped(k, lines[i + 1..], out, err + 1), all);
        sent := sent + [Key(Stderr, Int32(offset + err))];
        err := err + 1;
      }
    }
  }

  /** Runs attempts until one settles the run, all under one run id, each in its own block of numbers. */
  method RunWithRetries(attempts: nat -> Attempt, waits: nat -> bool, maxRetries: int)
      returns (status: Status, sent: seq<Key>)
    ensures var n := Count(attempts, waits, maxRetries, 0);
      status == StatusOf(attempts(n - 1)) && sent == Map(KeyOf, All(attempts, n))
  {
    var attempt, offset := 0, 0;
    sent := [];
    while true
      invariant Count(attempts, waits, maxRetries, attempt) == Count(attempts, waits, maxRetries, 0)
      invariant offset == attempt * SeqBlock && sent == Map(KeyOf, All(attempts, attempt))
      decreases maxRetries - attempt
    {
      var notice := Announce(attempt, offset);
      var result := Execute(attempts(attempt), attempt, offset);
      EmitStep(attempts, attempt);
      sent := sent + (notice + result);
      offset := offset + SeqBlock;
      status := StatusOf(attempts(attempt));
      if status != Failed || attempt >= maxRetries || !waits(attempt) {
        return;
      }
      attempt := attempt + 1;
    }
  }

  lemma MapConcat<T, U>(f: T -> U, a: seq<T>, b: seq<T>)
    ensures Map(f, a + b) == Map(f, a) + Map(f, b)
  {
  }

  lemma EmitStep(attempts: nat -> Attempt, k: nat)
    ensures Map(KeyOf, All(attempts, k + 1))
      == Map(KeyOf, All(attempts, k)) + (Map(KeyOf, Announced(k)) + Map(KeyOf, Executed(k, attempts(k))))
  {
    MapConcat(KeyOf, All(attempts, k), Emitted(k, attempts(k)));
    MapConcat(KeyOf, Announced(k), Executed(k, attempts(k)));
  }

  method Announce(k: nat, offset: nat) returns (sent: seq<Key>)
    requires offset == k * SeqBlock
    ensures sent == Map(KeyOf, Announced(k))
  {
    sent := if k > 0 then [Key(Stderr, Int32(offset + 0))] else [];
  }

  /** Notes first, then whatever the two pipes deliver; nothing when the user cannot be resolved. */
  method Execute(a: Attempt, k: nat, offset: nat) returns (sent: seq<Key>)
    requires offset == k * SeqBlock
    ensures sent == Map(KeyOf, Executed(k, a))
  {
    if a.Refused? {
      return [];
    }
    sent := EmitNotes(k, offset, a.notes);
    if a.NotStarted? {
      return;
    }
    MapConcat(KeyOf, Notes(k, 0, a.notes), Pumped(k, a.lines, 0, a.notes));
    var pumped := PumpLines(k, offset, a.lines, a.notes);
    sent := sent + pumped;
  }

  method EmitNotes(k: nat, offset: nat, notes: nat) returns (sent: seq<Key>)
    requires offset == k * SeqBlock
    ensures sent == Map(KeyOf, Notes(k, 0, notes))
  {
    sent := [];
    ghost var all := Notes(k, 0, notes);
    for i := 0 to notes
      invariant Sends(sent, Notes(k, i, notes), all)
    {
      SendNext(sent, Chunk(k, Stderr, i, false), Notes(k, i + 1, notes), all);
      sent := sent + [Key(Stderr, Int32(offset + i))];
    }
  }
}
