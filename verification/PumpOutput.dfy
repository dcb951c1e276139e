/** Streaming an installer's output into deploy log events. */
module PumpOutput {
  import opened Seqs
  import opened Text
  import opened Chunks

  function Prefix(dir: string, tag: bool): string {
    if tag && dir != "" then "[in " + dir + "] " else ""
  }

  /** Tags name the directory; without one, or when output is not to be tagged, there is none. */
  lemma PrefixIs(dir: string)
    ensures Prefix(dir, false) == "" && Prefix("", true) == ""
    ensures dir != "" ==> Prefix(dir, true) == ['[', 'i', 'n', ' '] + dir + [']', ' ']
  {
  }

  function Tag(prefix: string, lines: seq<string>): (r: seq<string>)
    ensures |r| == |lines| && forall i :: 0 <= i < |lines| ==> r[i] == prefix + lines[i] + "\n"
  {
    if lines == [] then [] else [prefix + lines[0] + "\n"] + Tag(prefix, lines[1..])
  }

  /** What the complete lines of a text are sent as, and what it leaves unfinished. */
  function TagText(prefix: string, text: string): seq<string> {
    Tag(prefix, Pieces(text, "\n").0)
  }

  function Left(text: string): string {
    Pieces(text, "\n").1
  }

  /** One event a line, each prefixed, and the unfinished last line completed. */
  function Tagged(prefix: string, text: string): seq<string> {
    TagText(prefix, text) + if Left(text) == "" then [] else [prefix + Left(text) + "\n"]
  }

  lemma TagStep(prefix: string, line: string, rest: seq<string>)
    ensures Tag(prefix, [line] + rest) == [prefix + line + "\n"] + Tag(prefix, rest)
  {
    assert ([line] + rest)[1..] == rest;
  }

  lemma TakeLine(prefix: string, a: string, b: string)
    requires Find(a, "\n").Some?
    ensures var i := Find(a, "\n").value;
      && TagText(prefix, a + b) == [prefix + a[..i] + "\n"] + TagText(prefix, a[i + 1..] + b)
      && Left(a + b) == Left(a[i + 1..] + b)
  {
    var i := Find(a, "\n").value;
    PiecesExtend(a, b, "\n");
    TagStep(prefix, a[..i], Pieces(a[i + 1..] + b, "\n").0);
  }

  lemma LineWithEnd(prefix: string, a: string)
    requires Find(a, "\n").Some?
    ensures var i := Find(a, "\n").value; prefix + a[..i + 1] == prefix + a[..i] + "\n"
  {
    FindChar(a, '\n');
  }

  lemma NoLines(prefix: string, text: string)
    requires Find(text, "\n").None?
    ensures TagText(prefix, text) == [] && Left(text) == text
  {
    PiecesNone(text, "\n");
  }

  method DrainTagged(prefix: string, pending0: string, ghost tail: string)
      returns (events: seq<string>, pending: string)
    ensures Find(pending, "\n").None?
    ensures TagText(prefix, pending0 + tail) == events + TagText(prefix, pending + tail)
    ensures Left(pending0 + tail) == Left(pending + tail)
  {
    events, pending := [], pending0;
    while Find(pending, "\n").Some?
      invariant TagText(prefix, pending0 + tail) == events + TagText(prefix, pending + tail)
      invariant Left(pending0 + tail) == Left(pending + tail)
      decreases |pending|
    {
      var i := Find(pending, "\n").value;
      TakeLine(prefix, pending, tail);
      LineWithEnd(prefix, pending);
      Reassoc(events, [prefix + pending[..i + 1]], TagText(prefix, pending[i + 1..] + tail));
      events := events + [prefix + pending[..i + 1]];
      pending := pending[i + 1..];
    }
  }

  method PumpTagged(prefix: string, chunks: seq<string>) returns (events: seq<string>)
    requires prefix != ""
    ensures events == Tagged(prefix, Flatten(chunks))
  {
    var pending := "";
    events := [];
    ghost var text := Flatten(chunks);
    assert pending + Flatten(chunks[0..]) == text;
    for i := 0 to |chunks|
      invariant TagText(prefix, text) == events + TagText(prefix, pending + Flatten(chunks[i..]))
      invariant Left(text) == Left(pending + Flatten(chunks[i..])) && Find(pending, "\n").None?
    {
      assert pending + Flatten(chunks[i..]) == (pending + chunks[i]) + Flatten(chunks[i + 1..]);
      ghost var before := events;
      var more;
      more, pending := DrainTagged(prefix, pending + chunks[i], Flatten(chunks[i + 1..]));
      events := events + more;
      Reassoc(before, more, TagText(prefix, pending + Flatten(chunks[i + 1..])));
    }
    assert pending + Flatten(chunks[|chunks|..]) == pending;
    NoLines(prefix, pending);
    if pending != "" {
      var tagged := Completed(prefix, pending);
      events := events + [tagged];
    }
  }

  method Completed(prefix: string, pending: string) returns (tagged: string)
    requires pending != "" && Find(pending, "\n").None?
    ensures tagged == prefix + pending + "\n"
  {
    tagged := prefix + pending;
    FindChar(pending, '\n');
    assert tagged[|tagged| - 1] == pending[|pending| - 1];
    if tagged[|tagged| - 1] != '\n' {
      tagged := tagged + "\n";
    }
  }

  /** However the output is cut into reads, tagged events are those of the whole; untagged reads go out as they come. */
  method Pump(chunks: seq<string>, dir: string, tag: bool) returns (events: seq<string>)
    ensures events == if Prefix(dir, tag) == "" then NonEmpty(chunks) else Tagged(Prefix(dir, tag), Flatten(chunks))
  {
    if Prefix(dir, tag) != "" {
      events := PumpTagged(Prefix(dir, tag), chunks);
      return;
    }
    events := [];
    assert chunks[0..] == chunks;
    for i := 0 to |chunks|
      invariant NonEmpty(chunks) == events + NonEmpty(chunks[i..])
    {
      assert chunks[i..][1..] == chunks[i + 1..];
      if chunks[i] != "" {
        events := events + [chunks[i]];
      }
    }
  }

  // ---- what the events add up to ----

  function Untag(n: nat, events: seq<string>): string {
    if events == [] then ""
    else (if n <= |events[0]| then events[0][n..] else "") + Untag(n, events[1..])
  }

  /** The lines of a text, each ended, and its rest make up the text. */
  lemma {:induction false} UntagText(prefix: string, text: string)
    ensures Untag(|prefix|, TagText(prefix, text)) + Left(text) == text
    decreases |text|
  {
    match Find(text, "\n")
    case None =>
      NoLines(prefix, text);
    case Some(i) =>
      var line, rest := text[..i], text[i + 1..];
      TakeLine(prefix, text, "");
      assert text + "" == text && rest + "" == rest;
      UntagText(prefix, rest);
      UntagStep(prefix, line, TagText(prefix, rest));
      FindChar(text, '\n');
      Rejoin(text, i, Untag(|prefix|, TagText(prefix, rest)), Left(rest));
  }

  lemma Rejoin(text: string, i: nat, middle: string, end: string)
    requires i < |text| && text[i] == '\n' && middle + end == text[i + 1..]
    ensures (text[..i] + "\n" + middle) + end == text
  {
    assert (text[..i] + "\n" + middle) + end == text[..i] + "\n" + (middle + end);
  }

  lemma UntagStep(prefix: string, line: string, events: seq<string>)
    ensures Untag(|prefix|, [prefix + line + "\n"] + events) == line + "\n" + Untag(|prefix|, events)
  {
    var e := prefix + line + "\n";
    assert e[|prefix|..] == line + "\n";
    assert ([e] + events)[1..] == events;
  }

  lemma {:induction false} UntagConcat(n: nat, xs: seq<string>, ys: seq<string>)
    ensures Untag(n, xs + ys) == Untag(n, xs) + Untag(n, ys)
  {
    if xs == [] {
      assert xs + ys == ys;
    } else {
      assert (xs + ys)[1..] == xs[1..] + ys;
      UntagConcat(n, xs[1..], ys);
    }
  }

  /**
   * Tagging conserves the output: without the prefixes the events are the text, with a final newline if it
   * had none.
   */
  lemma TaggedConserves(prefix: string, text: string)
    ensures Untag(|prefix|, Tagged(prefix, text)) == text + if text == "" || text[|text| - 1] == '\n' then "" else "\n"
    ensures |Tagged(prefix, text)| == |Pieces(text, "\n").0| + if text == "" || text[|text| - 1] == '\n' then 0 else 1
  {
    UntagText(prefix, text);
    LeftEmpty(text);
    var events, rest := TagText(prefix, text), Left(text);
    if rest != "" {
      UntagConcat(|prefix|, events, [prefix + rest + "\n"]);
      UntagStep(prefix, rest, []);
      assert [prefix + rest + "\n"] + [] == [prefix + rest + "\n"];
      assert Untag(|prefix|, events) + (rest + "\n" + "") == (Untag(|prefix|, events) + rest) + "\n";
    } else {
      assert events + [] == events;
    }
  }

  lemma {:induction false} LeftEmpty(text: string)
    ensures Left(text) == "" <==> text == "" || text[|text| - 1] == '\n'
    decreases |text|
  {
    FindChar(text, '\n');
    match Find(text, "\n")
    case None =>
      PiecesNone(text, "\n");
    case Some(i) =>
      PiecesAt(text, "\n", i);
      LeftEmpty(text[i + 1..]);
      assert i + 1 < |text| ==> text[i + 1..][|text| - i - 2] == text[|text| - 1];
  }

  lemma UntaggedConserves(chunks: seq<string>)
    ensures Flatten(NonEmpty(chunks)) == Flatten(chunks) && "" !in NonEmpty(chunks)
  {
    NonEmptyFlatten(chunks);
  }
}
