/** Which events survive the web reader: exactly those it has nothing to trim from, on lines of their own. */
module SseExact {
  import opened Seqs
  import opened Text
  import opened Chunks
  import opened SseCli
  import opened SseWeb
  import opened SseWire

  predicate Any(e: Event) {
    true
  }

  function TakeAll(): Handler {
    DispatchWith(Any)
  }

  // ---- names ----

  predicate CleanName(name: string) {
    '\n' !in name && Trimmed(name)
  }

  lemma LineKeepsClean(b: Block, line: string)
    requires CleanName(b.name) && '\n' !in line
    ensures CleanName(ReadLine(b, line).name)
  {
  }

  lemma {:induction false} LinesKeepClean(b: Block, lines: seq<string>)
    requires CleanName(b.name) && forall i :: 0 <= i < |lines| ==> '\n' !in lines[i]
    ensures CleanName(ReadLines(b, lines).name)
    decreases lines
  {
    if lines == [] {
    } else {
      LineKeepsClean(b, lines[0]);
      LinesKeepClean(ReadLine(b, lines[0]), lines[1..]);
    }
  }

  lemma SplitClean(s: string)
    ensures forall i :: 0 <= i < |Split(s, "\n")| ==> '\n' !in Split(s, "\n")[i]
  {
    PiecesClean(s);
  }

  lemma DispatchClean(block: string)
    ensures forall e :: e in Dispatch(block, Any) ==> CleanName(e.name)
  {
    var none := Block("message", []);
    assert '\n' !in none.name && none.name[0] == 'm' && none.name[|none.name| - 1] == 'e';
    SplitClean(block);
    LinesKeepClean(none, Split(block, "\n"));
  }

  lemma {:induction false} HandledClean(blocks: seq<string>)
    ensures forall e :: e in HandleAll(blocks, TakeAll()) ==> CleanName(e.name)
  {
    if blocks == [] {
    } else {
      DispatchClean(blocks[0]);
      HandledClean(blocks[1..]);
    }
  }

  /** Whatever the text, the names handed over are trimmed and on one line. */
  lemma StreamedClean(text: string)
    ensures forall e :: e in Streamed(text, TakeAll()) ==> CleanName(e.name)
  {
    HandledClean(Pieces(text, Gap).0);
    HandledClean(Pieces(Rest(text) + Gap, Gap).0);
  }

  // ---- data ----

  /** How much text lines take, each with its newline. */
  function Size(lines: seq<string>): nat {
    if lines == [] then 0 else |lines[0]| + 1 + Size(lines[1..])
  }

  lemma {:induction false} SizeConcat(xs: seq<string>, ys: seq<string>)
    ensures Size(xs + ys) == Size(xs) + Size(ys)
  {
    if xs == [] {
      assert xs + ys == ys;
    } else {
      assert (xs + ys)[1..] == xs[1..] + ys;
      SizeConcat(xs[1..], ys);
    }
  }

  lemma {:induction false} JoinSize(lines: seq<string>)
    requires lines != []
    ensures |Join(lines, "\n")| == Size(lines) - 1
  {
    if |lines| > 1 {
      JoinSize(lines[1..]);
    } else {
      assert lines[1..] == [];
    }
  }

  lemma {:induction false} SplitSize(s: string)
    ensures Size(Split(s, "\n")) == |s| + 1
    decreases |s|
  {
    match Find(s, "\n")
    case None =>
      PiecesNone(s, "\n");
      assert [s][1..] == [];
      assert [] + [s] == [s];
    case Some(i) =>
      PiecesAt(s, "\n", i);
      SplitSize(s[i + 1..]);
      SplitStep(s, i);
      assert ([s[..i]] + Split(s[i + 1..], "\n"))[1..] == Split(s[i + 1..], "\n");
  }

  lemma SplitStep(s: string, i: nat)
    requires Find(s, "\n") == Some(i)
    ensures Split(s, "\n") == [s[..i]] + Split(s[i + 1..], "\n")
  {
    PiecesAt(s, "\n", i);
    Reassoc([s[..i]], Pieces(s[i + 1..], "\n").0, [Pieces(s[i + 1..], "\n").1]);
  }

  lemma LineSize(b: Block, line: string)
    ensures b.data <= ReadLine(b, line).data
    ensures Size(ReadLine(b, line).data) < Size(b.data) + |line| + 1
  {
    if ReadLine(b, line).data != b.data {
      var x := TrimLeft(line[5..]);
      SizeConcat(b.data, [x]);
      assert [x][1..] == [];
    }
  }

  /** Lines give less data than their own size, since a data line carries its field name as well. */
  lemma {:induction false} LinesSize(b: Block, lines: seq<string>)
    ensures b.data <= ReadLines(b, lines).data
    ensures Size(ReadLines(b, lines).data) <= Size(b.data) + Size(lines)
    ensures lines != [] ==> Size(ReadLines(b, lines).data) < Size(b.data) + Size(lines)
    decreases lines
  {
    if lines != [] {
      LineSize(b, lines[0]);
      LinesSize(ReadLine(b, lines[0]), lines[1..]);
    }
  }

  predicate LosesData(data: string) {
    '\n' in data || (data != "" && IsSpace(data[0]))
  }

  /** The first two lines of a block that starts like an event the server wrote. */
  lemma HeadLines(name: string, data: string)
    requires '\n' !in name && '\n' !in data
    ensures ReadLine(ReadLine(Block("message", []), EventField + name), DataField + data).data == [TrimLeft(data)]
  {
    var b := ReadLine(Block("message", []), EventField + name);
    var line := EventField + name;
    assert line[0] == 'e' && line[..6] == "event:";
    assert b.data == [];
    AnyDataLine(b, data);
    assert [] + [TrimLeft(data)] == [TrimLeft(data)];
  }

  lemma AnyDataLine(b: Block, data: string)
    ensures ReadLine(b, DataField + data).data == b.data + [TrimLeft(data)]
  {
    var line := DataField + data;
    assert line[0] == 'd' && line[..5] == "data:" && line[5..] == " " + data;
    NotBlank(line);
    assert (" " + data)[1..] == data;
    ReadsData(b, line);
  }

  function Head(name: string): string {
    EventField + name + "\n" + DataField
  }

  lemma SplitHead(name: string, data: string)
    requires '\n' !in name
    ensures Split(Head(name) + data, "\n") == [EventField + name] + Split(DataField + data, "\n")
  {
    var x := EventField + name;
    assert '\n' !in EventField && '\n' !in x;
    var block := x + "\n" + (DataField + data);
    assert Head(name) + data == block;
    FindFirst(x, '\n', DataField + data);
    SplitStep(block, |x|);
    assert block[..|x|] == x && block[|x| + 1..] == DataField + data;
  }

  lemma DataLoses(name: string, data: string)
    requires '\n' !in name
    ensures var d := ReadLines(Block("message", []), [EventField + name] + Split(DataField + data, "\n")).data;
      d != [] && |Join(d, "\n")| <= |data| && (LosesData(data) ==> |Join(d, "\n")| < |data|)
  {
    var none, x := Block("message", []), EventField + name;
    FindChar(data, '\n');
    match Find(data, "\n")
    case None =>
      assert '\n' !in DataField;
      SplitOne(DataField + data);
      OneLineLoses(none, x, name, data);
    case Some(i) =>
      ManyLinesLose(none, x, name, data, i);
  }

  /** A block with data hands over one event, whatever takes events. */
  lemma HandsOver(block: string, lines: seq<string>)
    requires Split(block, "\n") == lines && ReadLines(Block("message", []), lines).data != []
    ensures var r := TakeAll()(block);
      |r| == 1 && r[0].data == Join(ReadLines(Block("message", []), lines).data, "\n")
  {
  }

  /** What such a block hands over has no more data than was written, and less if that can be trimmed or cut. */
  lemma BlockLoses(name: string, data: string)
    requires '\n' !in name
    ensures var r := TakeAll()(Head(name) + data);
      |r| == 1 && |r[0].data| <= |data| && (LosesData(data) ==> |r[0].data| < |data|)
  {
    SplitHead(name, data);
    DataLoses(name, data);
    HandsOver(Head(name) + data, [EventField + name] + Split(DataField + data, "\n"));
  }

  lemma OneLineLoses(none: Block, x: string, name: string, data: string)
    requires none == Block("message", []) && x == EventField + name && '\n' !in name && '\n' !in data
    ensures ReadLines(none, [x] + [DataField + data]).data == [TrimLeft(data)]
    ensures Join([TrimLeft(data)], "\n") == TrimLeft(data)
  {
    HeadLines(name, data);
    TwoLinesRead(none, x, DataField + data);
  }

  lemma TwoLinesRead(b: Block, x: string, y: string)
    ensures ReadLines(b, [x] + [y]) == ReadLine(ReadLine(b, x), y)
  {
    assert [x] + [y] == [x, y];
    ReadTwo(b, x, y);
  }

  lemma ManyLinesLose(none: Block, x: string, name: string, data: string, i: nat)
    requires none == Block("message", []) && x == EventField + name && '\n' !in name
    requires Find(data, "\n") == Some(i) && '\n' !in data[..i]
    ensures var d := ReadLines(none, [x] + Split(DataField + data, "\n")).data;
      d != [] && |Join(d, "\n")| < |data|
  {
    var y, rest := DataField + data[..i], data[i + 1..];
    assert '\n' !in DataField && '\n' !in y;
    assert DataField + data == y + "\n" + rest;
    FindFirst(y, '\n', rest);
    SplitStep(DataField + data, |y|);
    assert (y + "\n" + rest)[..|y|] == y && (y + "\n" + rest)[|y| + 1..] == rest;
    var b := ReadLine(ReadLine(none, x), y);
    HeadLines(name, data[..i]);
    ReadFrom(none, x, y, Split(rest, "\n"));
    LinesSize(b, Split(rest, "\n"));
    SplitSize(rest);
    JoinSize(ReadLines(b, Split(rest, "\n")).data);
    assert [TrimLeft(data[..i])][1..] == [];
  }

  lemma ReadFrom(b: Block, x: string, y: string, lines: seq<string>)
    ensures ReadLines(b, [x] + ([y] + lines)) == ReadLines(ReadLine(ReadLine(b, x), y), lines)
  {
    assert ([x] + ([y] + lines))[1..] == [y] + lines;
    assert ([y] + lines)[1..] == lines;
  }

  // ---- the first event that does not survive ----

  /** A gap is found right after a beginning without one, or within what follows it. */
  lemma GapAfter(head: string, data: string, tail: string) returns (cut: nat)
    requires forall i :: 0 <= i < |head| ==> !At(head + data + Gap + tail, i, Gap)
    ensures cut <= |data|
    ensures Find(head + data + Gap + tail, Gap) == Some(|head| + cut)
    ensures (head + data + Gap + tail)[..|head| + cut] == head + data[..cut]
  {
    var s, n := head + data + Gap + tail, |head| + |data|;
    assert s[n..n + 2] == Gap;
    assert At(s, n, Gap);
    cut := Find(s, Gap).value - |head|;
    assert s[..|head| + cut] == head + data[..cut];
  }

  /** The first block of a text that starts with an event is the event, or the event cut short within its data. */
  lemma FirstBlockCut(e: Event, tail: string) returns (cut: nat)
    requires '\n' !in e.name
    ensures cut <= |e.data|
    ensures var s := Head(e.name) + e.data + Gap + tail;
      Find(s, Gap) == Some(|Head(e.name)| + cut) && s[..|Head(e.name)| + cut] == Head(e.name) + e.data[..cut]
  {
    var x, head := EventField + e.name, Head(e.name);
    var s := head + e.data + Gap + tail;
    assert '\n' !in EventField && '\n' !in x;
    forall i | 0 <= i < |head| ensures !At(s, i, Gap) {
      HeadNoGap(x, s, i);
    }
    cut := GapAfter(head, e.data, tail);
  }

  lemma ItemIsHead(e: Event, tail: string)
    ensures ItemText(Sent(e)) + tail == Head(e.name) + e.data + Gap + tail
  {
    assert Gap == "\n" + "\n";
  }

  lemma HeadNoGap(x: string, s: string, i: nat)
    requires '\n' !in x && x + "\n" + DataField <= s && i < |x + "\n" + DataField| && i + 1 < |s|
    ensures !At(s, i, Gap)
  {
    assert s[|x| + 1] == DataField[0] == 'd';
    assert '\n' !in DataField;
    if i < |x| {
      assert s[i] == x[i];
    } else if i > |x| {
      assert s[i] == DataField[i - |x| - 1];
    }
    assert s[i..i + 2][0] == s[i] && s[i..i + 2][1] == s[i + 1];
  }

  lemma FlushFirst(s: string, n: nat, block: string, handle: Handler)
    requires Find(s, Gap) == Some(n) && s[..n] == block && |handle(block)| == 1
    ensures Flush(s, handle) != [] && Flush(s, handle)[0] == handle(block)[0]
  {
    FlushAt(s, n, handle);
  }

  lemma CutLoses(e: Event, cut: nat)
    requires '\n' !in e.name && LosesData(e.data) && cut <= |e.data|
    ensures var r := TakeAll()(Head(e.name) + e.data[..cut]); |r| == 1 && |r[0].data| < |e.data|
  {
    BlockLoses(e.name, e.data[..cut]);
    if cut == |e.data| {
      assert e.data[..cut] == e.data;
    }
  }

  lemma FirstLoses(e: Event, tail: string)
    requires '\n' !in e.name && LosesData(e.data)
    ensures var r := Flush(ItemText(Sent(e)) + tail, TakeAll()); r != [] && |r[0].data| < |e.data|
  {
    var cut := FirstBlockCut(e, tail);
    CutLoses(e, cut);
    FlushFirst(Head(e.name) + e.data + Gap + tail, |Head(e.name)| + cut, Head(e.name) + e.data[..cut], TakeAll());
    ItemIsHead(e, tail);
  }

  ghost predicate NamesClean(items: seq<Item>) {
    forall i :: 0 <= i < |items| && items[i].Sent? ==> CleanName(items[i].event.name)
  }

  lemma RestDiffers(items: seq<Item>)
    requires items != [] && NamesClean(items) && !AllWebGood(items)
    requires items[0].Sent? ==> WebGood(items[0].event)
    ensures NamesClean(items[1..]) && !AllWebGood(items[1..])
  {
    forall i | 0 <= i < |items[1..]| && items[1..][i].Sent? ensures CleanName(items[1..][i].event.name) {
      assert items[1..][i] == items[i + 1];
    }
    var i :| 0 <= i < |items| && items[i].Sent? && !WebGood(items[i].event);
    assert items[1..][i - 1] == items[i];
  }

  lemma GoodFirst(items: seq<Item>, more: seq<Event>)
    requires items != [] && (items[0].Sent? ==> WebGood(items[0].event))
    requires Flush(Encode(items[1..]), TakeAll()) + more != EventsOf(items[1..])
    ensures Flush(Encode(items), TakeAll()) + more != EventsOf(items)
  {
    ItemDispatch(items[0], Any);
    ItemFlush(items[0], Encode(items[1..]), TakeAll());
    SamePrefix(Wanted(items[0], Any), Flush(Encode(items[1..]), TakeAll()), more, EventsOf(items[1..]));
  }

  lemma {:induction false} DataDiffers(items: seq<Item>, more: seq<Event>)
    requires NamesClean(items) && !AllWebGood(items)
    ensures Flush(Encode(items), TakeAll()) + more != EventsOf(items)
  {
    if items[0].Sent? && !WebGood(items[0].event) {
      BadFirst(items, more);
    } else {
      RestDiffers(items);
      DataDiffers(items[1..], more);
      GoodFirst(items, more);
    }
  }

  lemma BadFirst(items: seq<Item>, more: seq<Event>)
    requires items != [] && items[0].Sent? && CleanName(items[0].event.name) && !WebGood(items[0].event)
    ensures Flush(Encode(items), TakeAll()) + more != EventsOf(items)
  {
    FirstLoses(items[0].event, Encode(items[1..]));
    var flushed := Flush(Encode(items), TakeAll());
    assert (flushed + more)[0] == flushed[0] && EventsOf(items)[0] == items[0].event;
  }

  lemma SamePrefix<T>(p: seq<T>, a: seq<T>, more: seq<T>, b: seq<T>)
    ensures p + a + more == p + b <==> a + more == b
  {
    assert (p + a + more)[|p|..] == a + more;
    assert (p + b)[|p|..] == b;
    assert p + a + more == p + (a + more);
  }

  lemma {:induction false} FilterAny(events: seq<Event>)
    ensures Filter(events, Any) == events
  {
    if events == [] {
    } else {
      FilterAny(events[1..]);
    }
  }

  /** The web console is handed exactly the events the server wrote, of those it accepts. */
  ghost predicate Delivered(items: seq<Item>, accepts: Event -> bool) {
    Streamed(Encode(items), DispatchWith(accepts)) == Filter(EventsOf(items), accepts)
  }

  lemma AllDelivered(items: seq<Item>)
    requires AllWebGood(items)
    ensures forall accepts: Event -> bool :: Delivered(items, accepts)
  {
    forall accepts: Event -> bool ensures Delivered(items, accepts) {
      WebDelivers(items, accepts);
    }
  }

  lemma NotAllGood(items: seq<Item>)
    requires !AllWebGood(items)
    ensures Streamed(Encode(items), TakeAll()) != EventsOf(items)
  {
    if NamesClean(items) {
      var rest := Rest(Encode(items));
      DataDiffers(items, if Trim(rest) == "" then [] else Flush(rest + Gap, TakeAll()));
    } else {
      var i :| 0 <= i < |items| && items[i].Sent? && !CleanName(items[i].event.name);
      EventsSent(items, i);
      StreamedClean(Encode(items));
    }
  }

  lemma NotDelivered(items: seq<Item>)
    requires !AllWebGood(items)
    ensures !Delivered(items, Any)
  {
    NotAllGood(items);
    FilterAny(EventsOf(items));
  }

  /**
   * Whichever events it takes, the web console is handed what the server wrote if and only if no
   * name holds a newline or can be trimmed and no data holds a newline or starts with white space.
   * Taking all of them is enough to tell.
   */
  lemma WebExact(items: seq<Item>)
    ensures (forall accepts: Event -> bool :: Delivered(items, accepts)) <==> AllWebGood(items)
    ensures Delivered(items, Any) <==> AllWebGood(items)
  {
    if AllWebGood(items) {
      AllDelivered(items);
    } else {
      NotDelivered(items);
    }
  }
}
