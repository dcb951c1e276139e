/** The web console's event stream reader: streamed, or on a response that arrived whole. */
module SseWeb {
  import opened Seqs
  import opened Text
  import opened Chunks
  import opened SseCli

  const Gap := "\n\n"

  // ---- one block ----

  /** A block being read: the event name so far and the data lines. */
  datatype Block = Block(name: string, data: seq<string>)

  function ReadLine(b: Block, line: string): Block {
    if HasPrefix(line, ":") || Trim(line) == "" then b
    else if HasPrefix(line, "event:") then b.(name := Trim(line[6..]))
    else if HasPrefix(line, "data:") then b.(data := b.data + [TrimLeft(line[5..])])
    else b
  }

  function ReadLines(b: Block, lines: seq<string>): Block
    decreases lines
  {
    if lines == [] then b else ReadLines(ReadLine(b, lines[0]), lines[1..])
  }

  /** What a block hands over: nothing without data, and nothing the handlers do not take. */
  function Deliver(b: Block, accepts: Event -> bool): seq<Event> {
    var e := Event(b.name, Join(b.data, "\n"));
    if b.data == [] || !accepts(e) then [] else [e]
  }

  function Dispatch(block: string, accepts: Event -> bool): seq<Event> {
    Deliver(ReadLines(Block("message", []), Split(block, "\n")), accepts)
  }

  // ---- the stream, for any handling of a block ----

  type Handler = string -> seq<Event>

  function HandleAll(blocks: seq<string>, handle: Handler): seq<Event> {
    if blocks == [] then [] else handle(blocks[0]) + HandleAll(blocks[1..], handle)
  }

  lemma {:induction false} HandleConcat(xs: seq<string>, ys: seq<string>, handle: Handler)
    ensures HandleAll(xs + ys, handle) == HandleAll(xs, handle) + HandleAll(ys, handle)
  {
    if xs == [] {
      assert xs + ys == ys;
    } else {
      assert (xs + ys)[1..] == xs[1..] + ys;
      HandleConcat(xs[1..], ys, handle);
    }
  }

  function Flush(text: string, handle: Handler): seq<Event> {
    HandleAll(Pieces(text, Gap).0, handle)
  }

  function Rest(text: string): string {
    Pieces(text, Gap).1
  }

  predicate EndsWith(s: string, t: string) {
    |t| <= |s| && s[|s| - |t|..] == t
  }

  /** The fallback for a response that arrived whole. */
  function Buffered(text: string, handle: Handler): seq<Event> {
    Flush(if EndsWith(text, Gap) then text else text + Gap, handle)
  }

  /** The streamed reading: complete blocks, then a nonblank rest as if it were complete. */
  function Streamed(text: string, handle: Handler): seq<Event> {
    Flush(text, handle) + if Trim(Rest(text)) == "" then [] else Flush(Rest(text) + Gap, handle)
  }

  method FlushBlocks(buf: string, handle: Handler) returns (events: seq<Event>, rest: string)
    ensures events == Flush(buf, handle) && rest == Rest(buf) && Find(rest, Gap).None?
  {
    events, rest := [], buf;
    while Find(rest, Gap).Some?
      invariant events + Flush(rest, handle) == Flush(buf, handle) && Rest(rest) == Rest(buf)
      decreases |rest|
    {
      var sep := Find(rest, Gap).value;
      FlushAt(rest, sep, handle);
      events := events + handle(rest[..sep]);
      rest := rest[sep + 2..];
    }
  }

  lemma FlushAt(text: string, sep: nat, handle: Handler)
    requires Find(text, Gap) == Some(sep)
    ensures Flush(text, handle) == handle(text[..sep]) + Flush(text[sep + 2..], handle)
    ensures Rest(text) == Rest(text[sep + 2..])
  {
    PiecesAt(text, Gap, sep);
    assert ([text[..sep]] + Pieces(text[sep + 2..], Gap).0)[1..] == Pieces(text[sep + 2..], Gap).0;
  }

  /** Flushing a text, and later what is left of it with more text, is flushing the whole. */
  lemma FlushInParts(a: string, b: string, handle: Handler)
    ensures Flush(a + b, handle) == Flush(a, handle) + Flush(Rest(a) + b, handle)
    ensures Rest(a + b) == Rest(Rest(a) + b)
  {
    PiecesInParts(a, b, Gap);
    HandleConcat(Pieces(a, Gap).0, Pieces(Rest(a) + b, Gap).0, handle);
  }

  lemma FlushNothing(text: string, handle: Handler)
    requires Find(text, Gap).None?
    ensures Flush(text, handle) == [] && Rest(text) == text
  {
  }

  /** The events so far and what is still to be read, the buffer first, make up the text. */
  ghost predicate Reads(events: seq<Event>, buf: string, more: string, text: string, handle: Handler) {
    events + Flush(buf + more, handle) == Flush(text, handle) && Rest(buf + more) == Rest(text)
  }

  lemma ReadsChunk(events: seq<Event>, buf: string, chunk: string, more: string, text: string, handle: Handler)
    requires Reads(events, buf, chunk + more, text, handle)
    ensures Reads(events + Flush(buf + chunk, handle), Rest(buf + chunk), more, text, handle)
  {
    assert buf + (chunk + more) == (buf + chunk) + more;
    FlushInParts(buf + chunk, more, handle);
    Reassoc(events, Flush(buf + chunk, handle), Flush(Rest(buf + chunk) + more, handle));
  }

  /** However the body is cut into chunks, the events are those of the whole. */
  method ConsumeSse(chunks: seq<string>, handle: Handler) returns (events: seq<Event>)
    ensures events == Streamed(Flatten(chunks), handle)
  {
    events := [];
    var buf := "";
    ghost var text := Flatten(chunks);
    assert buf + Flatten(chunks[0..]) == text;
    for i := 0 to |chunks|
      invariant Find(buf, Gap).None? && Reads(events, buf, Flatten(chunks[i..]), text, handle)
    {
      var flushed, rest := FlushBlocks(buf + chunks[i], handle);
      assert Flatten(chunks[i..]) == chunks[i] + Flatten(chunks[i + 1..]);
      ReadsChunk(events, buf, chunks[i], Flatten(chunks[i + 1..]), text, handle);
      events, buf := events + flushed, rest;
    }
    assert buf + Flatten(chunks[|chunks|..]) == buf;
    FlushNothing(buf, handle);
    if Trim(buf) != "" {
      var flushed, rest := FlushBlocks(buf + Gap, handle);
      events := events + flushed;
    }
  }

  // ---- streamed and buffered agree ----

  lemma EndsAlike(text: string, rest: string)
    requires EndsWith(text, Gap) && EndsWith(text, rest) && |rest| >= 2
    ensures At(rest, |rest| - 2, Gap)
  {
    assert rest[|rest| - 2..] == text[|text| - 2..] == Gap;
  }

  /** A rest that the text's own gap left over is at most one newline. */
  lemma RestAfterGap(text: string)
    requires EndsWith(text, Gap)
    ensures Rest(text) == "" || Rest(text) == "\n"
  {
    RestIsSuffix(text);
    var rest := Rest(text);
    if |rest| >= 2 {
      EndsAlike(text, rest);
      assert false;
    }
    if |rest| == 1 {
      assert rest[0] == text[|text| - 1] == text[|text| - 2..][1] == '\n';
      assert rest == ['\n'];
    }
  }

  lemma {:induction false} RestIsSuffix(text: string)
    ensures EndsWith(text, Rest(text)) && Find(Rest(text), Gap).None?
    decreases |text|
  {
    if Find(text, Gap).Some? {
      var i := Find(text, Gap).value;
      RestIsSuffix(text[i + 2..]);
      var rest := Rest(text);
      assert text[i + 2..][|text| - i - 2 - |rest|..] == text[|text| - |rest|..];
    } else {
      assert text[0..] == text;
    }
  }

  lemma {:induction false} BlankFlush(text: string, handle: Handler)
    requires AllSpace(text) && forall block :: Trim(block) == "" ==> handle(block) == []
    ensures Flush(text, handle) == []
    decreases |text|
  {
    if Find(text, Gap).Some? {
      var i := Find(text, Gap).value;
      BlankIsSpace(text[..i]);
      FlushAt(text, i, handle);
      BlankFlush(text[i + 2..], handle);
    }
  }

  lemma TrimBlank()
    ensures Trim("") == "" && Trim("\n") == ""
  {
    BlankIsSpace("");
    BlankIsSpace("\n");
  }

  /** When blank blocks hand over nothing, the streamed reader and its fallback agree on every text. */
  lemma StreamedIsBuffered(text: string, handle: Handler)
    requires forall block :: Trim(block) == "" ==> handle(block) == []
    ensures Streamed(text, handle) == Buffered(text, handle)
  {
    if EndsWith(text, Gap) {
      BlankAfterGap(text);
    } else {
      FlushInParts(text, Gap, handle);
      BlankRest(Rest(text), handle);
    }
  }

  lemma BlankAfterGap(text: string)
    requires EndsWith(text, Gap)
    ensures Trim(Rest(text)) == ""
  {
    TrimBlank();
    RestAfterGap(text);
  }

  lemma BlankRest(rest: string, handle: Handler)
    requires forall block :: Trim(block) == "" ==> handle(block) == []
    ensures Trim(rest) == "" ==> Flush(rest + Gap, handle) == []
  {
    if Trim(rest) == "" {
      BlankIsSpace(rest);
      BlankFlush(rest + Gap, handle);
    }
  }
}
