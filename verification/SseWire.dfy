/** From the server's event stream to both of its readers. */
module SseWire {
  import opened Seqs
  import opened Text
  import opened Chunks
  import opened SseCli
  import opened SseWeb

  /** What the server writes: events, and comments that keep the connection alive. */
  datatype Item = Sent(event: Event) | Comment(connected: bool)

  function CommentText(connected: bool): string {
    if connected then ": connected" else ": keepalive"
  }

  function ItemText(i: Item): string {
    match i
    case Sent(e) => EventField + e.name + "\n" + DataField + e.data + "\n" + "\n"
    case Comment(connected) => CommentText(connected) + "\n" + "\n"
  }

  function Encode(items: seq<Item>): string {
    if items == [] then "" else ItemText(items[0]) + Encode(items[1..])
  }

  function EventsOf(items: seq<Item>): seq<Event> {
    if items == [] then []
    else (if items[0].Sent? then [items[0].event] else []) + EventsOf(items[1..])
  }

  // ---- the command line ----

  predicate GoodField(s: string) {
    '\n' !in s && (s == "" || s[|s| - 1] != '\r')
  }

  predicate CliGood(e: Event) {
    GoodField(e.name) && GoodField(e.data) && e != Event("", "")
  }

  function ItemLines(i: Item): seq<string> {
    match i
    case Sent(e) => [EventField + e.name, DataField + e.data, ""]
    case Comment(connected) => [CommentText(connected), ""]
  }

  lemma LinesStep(x: string, rest: string)
    requires '\n' !in x
    ensures Lines(x + "\n" + rest) == [x] + Lines(rest)
  {
    PiecesStep(x, rest);
  }

  lemma OneLine(a: string, tail: string)
    requires '\n' !in a
    ensures Lines(a + "\n" + "\n" + tail) == [a, ""] + Lines(tail)
  {
    assert a + "\n" + "\n" + tail == a + "\n" + ("" + "\n" + tail);
    LinesStep("", tail);
    LinesStep(a, "" + "\n" + tail);
  }

  lemma TwoLines(a: string, b: string, tail: string)
    requires '\n' !in a && '\n' !in b
    ensures Lines(a + "\n" + b + "\n" + "\n" + tail) == [a, b, ""] + Lines(tail)
  {
    assert a + "\n" + b + "\n" + "\n" + tail == a + "\n" + (b + "\n" + "\n" + tail);
    OneLine(b, tail);
    LinesStep(a, b + "\n" + "\n" + tail);
  }

  lemma LinesOfItem(i: Item, tail: string)
    requires i.Sent? ==> '\n' !in i.event.name && '\n' !in i.event.data
    ensures Lines(ItemText(i) + tail) == ItemLines(i) + Lines(tail)
  {
    match i
    case Sent(e) =>
      assert '\n' !in EventField && '\n' !in DataField;
      SentText(EventField, e.name, DataField, e.data);
      TwoLines(EventField + e.name, DataField + e.data, tail);
    case Comment(connected) =>
      assert '\n' !in CommentText(connected);
      OneLine(CommentText(connected), tail);
  }

  lemma SentText(f: string, name: string, g: string, data: string)
    ensures f + name + "\n" + g + data + "\n" + "\n" == (f + name) + "\n" + (g + data) + "\n" + "\n"
  {
  }

  lemma FieldLine(p: Event, field: string, value: string)
    requires GoodField(value) && field in {EventField, DataField}
    ensures Fired1(p, field + value) == []
    ensures After1(p, field + value) == if field == EventField then p.(name := value) else p.(data := value)
  {
    var line := field + value;
    assert EventField[0] == 'e' && DataField[0] == 'd';
    assert line[|line| - 1] == if value == "" then field[|field| - 1] else value[|value| - 1];
    assert TrimReturns(line) == line && line[|field|..] == value;
    assert field == DataField ==> line[0] == 'd';
  }

  lemma FiredConcat(p: Event, x: string, rest: seq<string>)
    ensures Fired(p, [x] + rest) == Fired1(p, x) + Fired(After1(p, x), rest)
    ensures After(p, [x] + rest) == After(After1(p, x), rest)
  {
    assert ([x] + rest)[1..] == rest;
  }

  lemma CommentLine(p: Event, connected: bool)
    ensures Fired1(p, CommentText(connected)) == [] && After1(p, CommentText(connected)) == p
  {
    var line := CommentText(connected);
    assert line[0] == ':' && line[|line| - 1] != '\r';
    assert TrimReturns(line) == line;
    assert EventField[0] == 'e' && DataField[0] == 'd';
  }

  lemma SentFires(e: Event, rest: seq<string>)
    requires CliGood(e)
    ensures Fired(Event("", ""), [EventField + e.name, DataField + e.data, ""] + rest) ==
            [e] + Fired(Event("", ""), rest)
    ensures After(Event("", ""), [EventField + e.name, DataField + e.data, ""] + rest) == After(Event("", ""), rest)
  {
    var none := Event("", "");
    var x, y := EventField + e.name, DataField + e.data;
    FieldLine(none, EventField, e.name);
    FieldLine(none.(name := e.name), DataField, e.data);
    FiredThree(none, x, y, "", rest);
  }

  lemma FiredThree(p: Event, x: string, y: string, z: string, rest: seq<string>)
    ensures var q := After1(p, x); var r := After1(q, y);
      && Fired(p, [x, y, z] + rest) == Fired1(p, x) + (Fired1(q, y) + (Fired1(r, z) + Fired(After1(r, z), rest)))
      && After(p, [x, y, z] + rest) == After(After1(r, z), rest)
  {
    assert [x, y, z] + rest == [x] + ([y] + ([z] + rest));
    FiredConcat(p, x, [y] + ([z] + rest));
    FiredConcat(After1(p, x), y, [z] + rest);
    FiredConcat(After1(After1(p, x), y), z, rest);
  }

  lemma CommentFires(connected: bool, rest: seq<string>)
    ensures Fired(Event("", ""), [CommentText(connected), ""] + rest) == Fired(Event("", ""), rest)
    ensures After(Event("", ""), [CommentText(connected), ""] + rest) == After(Event("", ""), rest)
  {
    var none := Event("", "");
    CommentLine(none, connected);
    assert [CommentText(connected), ""] + rest == [CommentText(connected)] + ([""] + rest);
    FiredConcat(none, CommentText(connected), [""] + rest);
    FiredConcat(none, "", rest);
  }

  /** The lines of one item hand over its event and leave nothing behind. */
  lemma ItemFires(i: Item, rest: seq<string>)
    requires i.Sent? ==> CliGood(i.event)
    ensures Fired(Event("", ""), ItemLines(i) + rest) ==
            (if i.Sent? then [i.event] else []) + Fired(Event("", ""), rest)
    ensures After(Event("", ""), ItemLines(i) + rest) == After(Event("", ""), rest)
  {
    match i
    case Sent(e) => SentFires(e, rest);
    case Comment(connected) => CommentFires(connected, rest);
  }

  ghost predicate AllCliGood(items: seq<Item>) {
    forall i :: 0 <= i < |items| && items[i].Sent? ==> CliGood(items[i].event)
  }

  lemma {:induction false} CliReads(items: seq<Item>)
    requires AllCliGood(items)
    ensures Live(Encode(items)) == EventsOf(items) && Last(Encode(items)) == []
  {
    if items == [] {
      NoMoreLines("");
      assert "" + Flatten([]) == "";
    } else {
      CliReads(items[1..]);
      LinesOfItem(items[0], Encode(items[1..]));
      ItemFires(items[0], Lines(Encode(items[1..])));
    }
  }

  /** Whatever the lines, what they put together has clean fields, and what they hand over is not empty. */
  lemma {:induction false} FiredShape(p: Event, lines: seq<string>)
    requires GoodField(p.name) && GoodField(p.data) && forall i :: 0 <= i < |lines| ==> '\n' !in lines[i]
    ensures forall e :: e in Fired(p, lines) ==> CliGood(e)
    ensures GoodField(After(p, lines).name) && GoodField(After(p, lines).data)
    decreases lines
  {
    if lines == [] {
    } else {
      After1Shape(p, lines[0]);
      FiredShape(After1(p, lines[0]), lines[1..]);
    }
  }

  lemma After1Shape(p: Event, raw: string)
    requires GoodField(p.name) && GoodField(p.data) && '\n' !in raw
    ensures GoodField(After1(p, raw).name) && GoodField(After1(p, raw).data)
  {
    var line := TrimReturns(raw);
    FieldShape(line, |EventField|);
    FieldShape(line, |DataField|);
  }

  lemma FieldShape(line: string, n: nat)
    requires GoodField(line)
    ensures n <= |line| ==> GoodField(line[n..])
  {
  }

  lemma {:induction false} EventsSent(items: seq<Item>, i: nat)
    requires i < |items| && items[i].Sent?
    ensures items[i].event in EventsOf(items)
  {
    if i > 0 {
      EventsSent(items[1..], i - 1);
    }
  }

  /** A callback that never stops. */
  function Always(n: nat): Answer {
    Continue
  }

  lemma {:induction false} UpToAll(events: seq<Event>, from: nat)
    ensures UpTo(events, Always, from) == events
  {
    if events == [] {
    } else {
      UpToAll(events[1..], from + 1);
    }
  }

  /** Whatever the text, nothing the callback gets has a newline or a carriage return at the end of a field. */
  lemma CallsClean(text: string)
    ensures forall e :: e in CallsOn(text, Eof, Always) ==> CliGood(e)
    ensures forall e :: e in Live(text) ==> CliGood(e)
  {
    PiecesClean(text);
    FiredShape(Event("", ""), Lines(text));
    UpToAll(Live(text) + Last(text), 0);
  }

  /**
   * A callback that never stops is handed exactly the events the server wrote, comments aside, if and
   * only if no name or data holds a newline or ends in a carriage return and no event is empty; and
   * then all of them come while the stream is read, none only at its end.
   */
  lemma CliDelivers(items: seq<Item>)
    ensures CallsOn(Encode(items), Eof, Always) == EventsOf(items) <==> AllCliGood(items)
    ensures Live(Encode(items)) == EventsOf(items) <==> AllCliGood(items)
    ensures AllCliGood(items) ==> Last(Encode(items)) == []
  {
    if AllCliGood(items) {
      CliReads(items);
      UpToAll(EventsOf(items), 0);
      assert EventsOf(items) + [] == EventsOf(items);
    } else {
      var i :| 0 <= i < |items| && items[i].Sent? && !CliGood(items[i].event);
      EventsSent(items, i);
      CallsClean(Encode(items));
    }
  }

  /** So with a callback that stops on an event, it gets the events up to that one, whatever the answers before. */
  lemma CliFollows(items: seq<Item>, answers: nat -> Answer)
    requires AllCliGood(items)
    ensures CallsOn(Encode(items), Eof, answers) == UpTo(EventsOf(items), answers, 0)
  {
    CliReads(items);
    assert EventsOf(items) + [] == EventsOf(items);
  }

  // ---- the web console ----

  /** What the web reader takes over unchanged: it trims names, and data on the left, and knows no empty name. */
  predicate WebGood(e: Event) {
    && '\n' !in e.name && '\n' !in e.data
    && Trimmed(e.name) && (e.data == "" || !IsSpace(e.data[0]))
  }

  function DispatchWith(accepts: Event -> bool): Handler {
    block => Dispatch(block, accepts)
  }

  function SentBlock(e: Event): string {
    EventField + e.name + "\n" + DataField + e.data
  }

  lemma SplitTwo(x: string, y: string)
    requires '\n' !in x && '\n' !in y
    ensures Split(x + "\n" + y, "\n") == [x, y]
  {
    PiecesStep(x, y);
    FindChar(y, '\n');
    PiecesNone(y, "\n");
  }

  lemma NameLine(b: Block, name: string)
    requires Trimmed(name)
    ensures ReadLine(b, EventField + name) == b.(name := name)
  {
    var line := EventField + name;
    assert line[0] == 'e' && line[..6] == "event:" && line[6..] == " " + name;
    NotBlank(line);
    TrimAfterSpace(name);
  }

  lemma NotBlank(line: string)
    requires line != "" && !IsSpace(line[0])
    ensures Trim(line) != ""
  {
    BlankIsSpace(line);
  }

  lemma TrimAfterSpace(s: string)
    requires s == "" || !IsSpace(s[0])
    ensures TrimLeft(" " + s) == s && (Trimmed(s) ==> Trim(" " + s) == s)
  {
    assert (" " + s)[1..] == s;
    assert TrimLeft(s) == s;
    if Trimmed(s) {
      TrimOfTrimmed(s);
    }
  }

  lemma ReadsData(b: Block, line: string)
    requires |line| >= 5 && line[..5] == "data:" && line[0] == 'd' && Trim(line) != ""
    ensures ReadLine(b, line) == b.(data := b.data + [TrimLeft(line[5..])])
  {
    DataPrefixes(line);
  }

  lemma DataPrefixes(line: string)
    requires |line| >= 5 && line[..5] == "data:" && line[0] == 'd'
    ensures !HasPrefix(line, ":") && !HasPrefix(line, "event:") && HasPrefix(line, "data:")
  {
  }

  lemma DataLine(b: Block, data: string)
    requires data == "" || !IsSpace(data[0])
    ensures ReadLine(b, DataField + data) == b.(data := b.data + [data])
  {
    var line := DataField + data;
    assert line[0] == 'd' && line[..5] == "data:" && line[5..] == " " + data;
    NotBlank(line);
    TrimAfterSpace(data);
    ReadsData(b, line);
  }

  lemma SentDispatch(e: Event, accepts: Event -> bool)
    requires WebGood(e)
    ensures Dispatch(SentBlock(e), accepts) == if accepts(e) then [e] else []
  {
    var x, y := EventField + e.name, DataField + e.data;
    var none := Block("message", []);
    assert SentBlock(e) == x + "\n" + y;
    assert '\n' !in EventField && '\n' !in DataField;
    SplitTwo(x, y);
    ReadTwo(none, x, y);
    NameLine(none, e.name);
    DataLine(none.(name := e.name), e.data);
    assert none.data + [e.data] == [e.data];
  }

  lemma ReadTwo(b: Block, x: string, y: string)
    ensures ReadLines(b, [x, y]) == ReadLine(ReadLine(b, x), y)
  {
    assert [x, y][1..] == [y];
    ReadOne(ReadLine(b, x), y);
  }

  lemma ReadOne(b: Block, x: string)
    ensures ReadLines(b, [x]) == ReadLine(b, x)
  {
    assert [x][1..] == [];
  }

  lemma CommentDispatch(connected: bool, accepts: Event -> bool)
    ensures Dispatch(CommentText(connected), accepts) == []
  {
    var line := CommentText(connected);
    assert '\n' !in line && line[0] == ':' && line[..1] == ":";
    SplitOne(line);
    ReadOne(Block("message", []), line);
  }

  lemma SplitOne(line: string)
    requires '\n' !in line
    ensures Split(line, "\n") == [line]
  {
    FindChar(line, '\n');
    PiecesNone(line, "\n");
  }

  /** No gap inside and no newline at the end. */
  ghost predicate Solid(block: string) {
    && block != "" && block[|block| - 1] != '\n'
    && (forall i :: 0 <= i < |block| - 1 ==> block[i] != '\n' || block[i + 1] != '\n')
  }

  /** A solid text is the first block of it and a gap and more. */
  lemma FirstBlock(block: string, tail: string)
    requires Solid(block)
    ensures Find(block + Gap + tail, Gap) == Some(|block|)
  {
    var s := block + Gap + tail;
    assert s[|block|..|block| + 2] == Gap;
    assert At(s, |block|, Gap);
    forall i | 0 <= i < |block| ensures !At(s, i, Gap) {
      assert s[i..i + 2][0] == block[i];
      assert i + 1 < |block| ==> s[i..i + 2][1] == block[i + 1];
    }
  }

  function BlockOf(i: Item): string {
    match i
    case Sent(e) => SentBlock(e)
    case Comment(connected) => CommentText(connected)
  }

  lemma SentBlockSolid(e: Event)
    requires '\n' !in e.name && '\n' !in e.data
    ensures Solid(SentBlock(e))
  {
    var x, y := EventField + e.name, DataField + e.data;
    assert '\n' !in EventField && '\n' !in DataField && '\n' !in x && '\n' !in y;
    var b := SentBlock(e);
    assert b == x + "\n" + y;
    forall i | 0 <= i < |b| && i != |x| ensures b[i] != '\n' {
      assert b[i] == if i < |x| then x[i] else y[i - |x| - 1];
    }
    assert b[|b| - 1] == y[|y| - 1];
  }

  lemma ItemFlush(i: Item, tail: string, handle: Handler)
    requires i.Sent? ==> '\n' !in i.event.name && '\n' !in i.event.data
    ensures Flush(ItemText(i) + tail, handle) == handle(BlockOf(i)) + Flush(tail, handle)
    ensures Rest(ItemText(i) + tail) == Rest(tail)
  {
    var block := BlockOf(i);
    if i.Sent? {
      SentBlockSolid(i.event);
    } else {
      assert '\n' !in CommentText(i.connected);
    }
    var s := block + Gap + tail;
    assert ItemText(i) + tail == s by {
      assert Gap == "\n" + "\n";
    }
    FirstBlock(block, tail);
    assert s[..|block|] == block && s[|block| + 2..] == tail;
    FlushAt(s, |block|, handle);
  }

  ghost predicate AllWebGood(items: seq<Item>) {
    forall i :: 0 <= i < |items| && items[i].Sent? ==> WebGood(items[i].event)
  }

  function Wanted(i: Item, accepts: Event -> bool): seq<Event> {
    if i.Sent? && accepts(i.event) then [i.event] else []
  }

  lemma WantedFirst(items: seq<Item>, accepts: Event -> bool)
    requires items != []
    ensures Filter(EventsOf(items), accepts) == Wanted(items[0], accepts) + Filter(EventsOf(items[1..]), accepts)
  {
    var rest := EventsOf(items[1..]);
    match items[0]
    case Sent(e) =>
      assert EventsOf(items) == [e] + rest;
      FilterCons(e, rest, accepts);
    case Comment(_) =>
      assert EventsOf(items) == rest;
      assert [] + Filter(rest, accepts) == Filter(rest, accepts);
  }

  lemma {:induction false} WebReads(items: seq<Item>, handle: Handler, accepts: Event -> bool)
    requires AllWebGood(items)
    requires forall i :: 0 <= i < |items| ==> handle(BlockOf(items[i])) == Wanted(items[i], accepts)
    ensures Flush(Encode(items), handle) == Filter(EventsOf(items), accepts) && Rest(Encode(items)) == ""
  {
    if items == [] {
      FindEmpty();
      PiecesNone("", Gap);
    } else {
      WebReads(items[1..], handle, accepts);
      ItemFlush(items[0], Encode(items[1..]), handle);
      WantedFirst(items, accepts);
    }
  }

  lemma ItemDispatch(i: Item, accepts: Event -> bool)
    requires i.Sent? ==> WebGood(i.event)
    ensures Dispatch(BlockOf(i), accepts) == Wanted(i, accepts)
  {
    match i
    case Sent(e) => SentDispatch(e, accepts);
    case Comment(connected) => CommentDispatch(connected, accepts);
  }

  lemma FindEmpty()
    ensures Find("", Gap).None?
  {
  }

  /** The web console is handed exactly the accepted events the server wrote, whether it streams or not. */
  lemma WebDelivers(items: seq<Item>, accepts: Event -> bool)
    requires AllWebGood(items)
    ensures Streamed(Encode(items), DispatchWith(accepts)) == Filter(EventsOf(items), accepts)
    ensures Buffered(Encode(items), DispatchWith(accepts)) == Filter(EventsOf(items), accepts)
  {
    forall i | 0 <= i < |items| ensures Dispatch(BlockOf(items[i]), accepts) == Wanted(items[i], accepts) {
      ItemDispatch(items[i], accepts);
    }
    WebReads(items, DispatchWith(accepts), accepts);
    TrimBlank();
    ReadersAgree(Encode(items), accepts);
  }

  /** On every text, the web reader gives the same events whether the response is streamed or arrives whole. */
  lemma ReadersAgree(text: string, accepts: Event -> bool)
    ensures Streamed(text, DispatchWith(accepts)) == Buffered(text, DispatchWith(accepts))
  {
    forall block | Trim(block) == "" ensures Dispatch(block, accepts) == [] {
      BlankDispatch(block, accepts);
    }
    StreamedIsBuffered(text, DispatchWith(accepts));
  }

  lemma BlankDispatch(block: string, accepts: Event -> bool)
    requires Trim(block) == ""
    ensures Dispatch(block, accepts) == []
  {
    BlankIsSpace(block);
    BlankPieces(block);
    BlankLines(Block("message", []), Split(block, "\n"));
  }

  lemma {:induction false} BlankPieces(s: string)
    requires AllSpace(s)
    ensures forall i :: 0 <= i < |Split(s, "\n")| ==> AllSpace(Split(s, "\n")[i])
    decreases |s|
  {
    match Find(s, "\n")
    case None =>
      PiecesNone(s, "\n");
    case Some(i) =>
      PiecesAt(s, "\n", i);
      BlankPieces(s[i + 1..]);
      Reassoc([s[..i]], Pieces(s[i + 1..], "\n").0, [Pieces(s[i + 1..], "\n").1]);
      assert Split(s, "\n") == [s[..i]] + Split(s[i + 1..], "\n");
  }

  lemma {:induction false} BlankLines(b: Block, lines: seq<string>)
    requires forall i :: 0 <= i < |lines| ==> AllSpace(lines[i])
    ensures ReadLines(b, lines) == b
    decreases lines
  {
    if lines == [] {
    } else {
      BlankIsSpace(lines[0]);
      BlankLines(b, lines[1..]);
    }
  }
}
