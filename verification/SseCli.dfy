/** The command line's event stream reader. */
module SseCli {
  import opened Seqs
  import opened Text
  import opened Chunks

  datatype Event = Event(name: string, data: string)

  /** How the input ends, what a callback answers, and what the reader returns. */
  datatype End = Eof | Broken
  datatype Answer = Continue | StopEarly | Fail
  datatype Outcome = Done | EofError | CallbackError | ReadError

  const EventField := "event: "
  const DataField := "data: "

  /** The event being put together after one line; an empty line clears it. */
  function After1(p: Event, raw: string): Event {
    var line := TrimReturns(raw);
    if line == "" then Event("", "")
    else if HasPrefix(line, EventField) then p.(name := line[|EventField|..])
    else if HasPrefix(line, DataField) then p.(data := line[|DataField|..])
    else p
  }

  function Flushed(p: Event): seq<Event> {
    if p == Event("", "") then [] else [p]
  }

  /** What one line hands over: an empty line the event so far, if there is anything in it. */
  function Fired1(p: Event, raw: string): seq<Event> {
    if TrimReturns(raw) == "" then Flushed(p) else []
  }

  function After(p: Event, lines: seq<string>): Event
    decreases lines
  {
    if lines == [] then p else After(After1(p, lines[0]), lines[1..])
  }

  function Fired(p: Event, lines: seq<string>): seq<Event>
    decreases lines
  {
    if lines == [] then [] else Fired1(p, lines[0]) + Fired(After1(p, lines[0]), lines[1..])
  }

  function Lines(input: string): seq<string> {
    Pieces(input, "\n").0
  }

  /** The events of a whole input's complete lines, and at its end what was still being put together. */
  function Live(input: string): seq<Event> {
    Fired(Event("", ""), Lines(input))
  }

  function Last(input: string): seq<Event> {
    Flushed(After(Event("", ""), Lines(input)))
  }

  /** The events up to and including the first one the callback does not go on after. */
  function UpTo(events: seq<Event>, answers: nat -> Answer, from: nat): seq<Event> {
    if events == [] then []
    else if answers(from) == Continue then [events[0]] + UpTo(events[1..], answers, from + 1)
    else [events[0]]
  }

  /** Where it stops. */
  function StopAt(events: seq<Event>, answers: nat -> Answer, from: nat): Option<Answer> {
    if events == [] then None
    else if answers(from) == Continue then StopAt(events[1..], answers, from + 1)
    else Some(answers(from))
  }

  /** Calls and outcome on a whole input: stopping early is no error, except on the event flushed at the end. */
  function CallsOn(input: string, end: End, answers: nat -> Answer): seq<Event> {
    UpTo(Live(input) + if end == Eof then Last(input) else [], answers, 0)
  }

  function OutcomeOn(input: string, end: End, answers: nat -> Answer): Outcome {
    match StopAt(Live(input), answers, 0)
    case Some(StopEarly) => Done
    case Some(_) => CallbackError
    case None =>
      if end == Broken then ReadError
      else match StopAt(Last(input), answers, |Live(input)|)
        case None => Done
        case Some(StopEarly) => EofError
        case Some(_) => CallbackError
  }

  // ---- stopping ----

  lemma {:induction false} UpToConcat(xs: seq<Event>, ys: seq<Event>, answers: nat -> Answer, from: nat)
    ensures UpTo(xs + ys, answers, from) ==
      UpTo(xs, answers, from) + (if StopAt(xs, answers, from).None? then UpTo(ys, answers, from + |xs|) else [])
    ensures StopAt(xs + ys, answers, from) ==
      if StopAt(xs, answers, from).None? then StopAt(ys, answers, from + |xs|) else StopAt(xs, answers, from)
    ensures StopAt(xs, answers, from).None? ==> UpTo(xs, answers, from) == xs
  {
    if xs == [] {
      assert xs + ys == ys;
    } else {
      assert (xs + ys)[1..] == xs[1..] + ys;
      UpToConcat(xs[1..], ys, answers, from + 1);
    }
  }

  // ---- the reader ----

  /** What is left to do: lines still to come, with an event being put together, after `calls` calls. */
  ghost predicate Remaining(live: seq<Event>, last: seq<Event>, lines: seq<string>, p: Event, calls: seq<Event>) {
    live == calls + Fired(p, lines) && last == Flushed(After(p, lines))
  }

  lemma TakeLine(live: seq<Event>, last: seq<Event>, line: string, lines: seq<string>, p: Event, calls: seq<Event>)
    requires Remaining(live, last, [line] + lines, p, calls)
    ensures Remaining(live, last, lines, After1(p, line), calls + Fired1(p, line))
  {
    assert ([line] + lines)[1..] == lines;
  }

  lemma LinesExtend(buf: string, tail: string)
    requires Find(buf, "\n").Some?
    ensures var i := Find(buf, "\n").value; Lines(buf + tail) == [buf[..i]] + Lines(buf[i + 1..] + tail)
  {
    PiecesExtend(buf, tail, "\n");
  }

  /** All calls so far went on. */
  ghost predicate WentOn(calls: seq<Event>, answers: nat -> Answer) {
    UpTo(calls, answers, 0) == calls && StopAt(calls, answers, 0).None?
  }

  lemma CallOne(calls: seq<Event>, p: Event, rest: seq<Event>, answers: nat -> Answer)
    requires WentOn(calls, answers)
    ensures if answers(|calls|) == Continue then WentOn(calls + [p], answers)
            else
              && UpTo(calls + [p] + rest, answers, 0) == calls + [p]
              && StopAt(calls + [p] + rest, answers, 0) == Some(answers(|calls|))
  {
    UpToConcat(calls, [p], answers, 0);
    UpToConcat(calls + [p], rest, answers, 0);
    assert [p][1..] == [];
  }

  method DrainLines(ghost live: seq<Event>, ghost last: seq<Event>, buf0: string, ghost tail: string,
                    p0: Event, calls0: seq<Event>, answers: nat -> Answer)
    returns (buf: string, p: Event, calls: seq<Event>, stop: Option<Answer>)
    requires Remaining(live, last, Lines(buf0 + tail), p0, calls0) && WentOn(calls0, answers)
    ensures stop.None? ==>
              && Find(buf, "\n").None? && WentOn(calls, answers)
              && Remaining(live, last, Lines(buf + tail), p, calls)
    ensures stop.Some? ==> UpTo(live, answers, 0) == calls && StopAt(live, answers, 0) == stop && stop.value != Continue
  {
    buf, p, calls, stop := buf0, p0, calls0, None;
    while Find(buf, "\n").Some?
      invariant Remaining(live, last, Lines(buf + tail), p, calls) && stop.None? && WentOn(calls, answers)
      decreases |buf|
    {
      LinesExtend(buf, tail);
      var i := Find(buf, "\n").value;
      var line := buf[..i];
      buf := buf[i + 1..];
      TakeLine(live, last, line, Lines(buf + tail), p, calls);
      var fired := Fired1(p, line);
      p := After1(p, line);
      if fired != [] {
        var answer := answers(|calls|);
        CallOne(calls, fired[0], Fired(p, Lines(buf + tail)), answers);
        calls := calls + [fired[0]];
        if answer != Continue {
          stop := Some(answer);
          return;
        }
      }
    }
  }

  /**
   * Reads until the input ends or a callback stops it. However the input is cut into reads, the
   * calls and the outcome are those of the whole.
   */
  method ParseSse(chunks: seq<string>, end: End, answers: nat -> Answer) returns (calls: seq<Event>, outcome: Outcome)
    ensures calls == CallsOn(Flatten(chunks), end, answers)
    ensures outcome == OutcomeOn(Flatten(chunks), end, answers)
  {
    ghost var input := Flatten(chunks);
    ghost var live, last := Live(input), Last(input);
    calls := [];
    var buf, p := "", Event("", "");
    var stop: Option<Answer>;
    assert buf + Flatten(chunks[0..]) == input;
    for i := 0 to |chunks|
      invariant Find(buf, "\n").None? && Remaining(live, last, Lines(buf + Flatten(chunks[i..])), p, calls)
      invariant WentOn(calls, answers)
    {
      assert buf + Flatten(chunks[i..]) == (buf + chunks[i]) + Flatten(chunks[i + 1..]);
      buf, p, calls, stop := DrainLines(live, last, buf + chunks[i], Flatten(chunks[i + 1..]), p, calls, answers);
      if stop.Some? {
        StoppedLive(input, end, answers);
        return calls, if stop == Some(StopEarly) then Done else CallbackError;
      }
    }
    NoMoreLines(buf);
    assert live == calls && last == Flushed(p);
    outcome := Finish(input, end, answers, p, calls);
    if end == Eof {
      calls := calls + Flushed(p);
    }
  }

  lemma StoppedLive(input: string, end: End, answers: nat -> Answer)
    requires StopAt(Live(input), answers, 0).Some?
    ensures CallsOn(input, end, answers) == UpTo(Live(input), answers, 0)
  {
    UpToConcat(Live(input), if end == Eof then Last(input) else [], answers, 0);
  }

  lemma NoMoreLines(buf: string)
    requires Find(buf, "\n").None?
    ensures Lines(buf + Flatten([])) == []
  {
    assert buf + Flatten([]) == buf;
  }

  /** The last flush: its answer is returned as it is. */
  method Finish(ghost input: string, end: End, answers: nat -> Answer, p: Event, calls: seq<Event>)
      returns (outcome: Outcome)
    requires Live(input) == calls && Last(input) == Flushed(p) && WentOn(calls, answers)
    ensures CallsOn(input, end, answers) == calls + if end == Eof then Flushed(p) else []
    ensures outcome == OutcomeOn(input, end, answers)
  {
    UpToConcat(calls, if end == Eof then Flushed(p) else [], answers, 0);
    assert p != Event("", "") ==> [p][1..] == [];
    if end == Broken {
      return ReadError;
    }
    if p == Event("", "") {
      return Done;
    }
    var answer := answers(|calls|);
    return if answer == Continue then Done else if answer == StopEarly then EofError else CallbackError;
  }
}
