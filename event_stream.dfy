/**
 * The text/event-stream format of the WHATWG HTML Living Standard, section 9.2
 * "Server-sent events": the frame the log route writes, and the interpretation
 * an EventSource applies to the stream (section 9.2.6, "Interpreting an event
 * stream"), reduced to what reaches an `onmessage` handler: lines end at CR,
 * LF or CRLF; a line starting with ":" is a comment; "data" lines append to the
 * data buffer, "event" sets the event type; a blank line dispatches.
 */
module EventStream {
  import opened Wrappers

  predicate IsLineBreak(c: char) { c == '\n' || c == '\r' }

  predicate SingleLine(s: string) {
    forall i :: 0 <= i < |s| ==> !IsLineBreak(s[i])
  }

  /** The frame the log route enqueues for one message: a data line and a blank line. */
  function DataFrame(payload: string): string {
    "data: " + payload + "\n\n"
  }

  /** The frames of several messages, one after another on the same stream. */
  function Frames(payloads: seq<string>): string {
    if payloads == [] then [] else DataFrame(payloads[0]) + Frames(payloads[1..])
  }

  /** What a client has received on a stream: the enqueued chunks, one after another. */
  function Concat(chunks: seq<string>): string {
    if chunks == [] then [] else Concat(chunks[..|chunks| - 1]) + chunks[|chunks| - 1]
  }

  /** One more message on a stream of frames is one more frame at its end. */
  lemma {:induction false} FramesSnoc(payloads: seq<string>, p: string)
    ensures Frames(payloads + [p]) == Frames(payloads) + DataFrame(p)
  {
    if payloads == [] {
      assert [p][1..] == [];
    } else {
      assert (payloads + [p])[1..] == payloads[1..] + [p];
      FramesSnoc(payloads[1..], p);
    }
  }

  datatype Event = Event(kind: string, data: string)

  /** Length of the text before the first line break. */
  function LineEnd(s: string): (k: nat)
    ensures k <= |s|
    ensures forall i :: 0 <= i < k ==> !IsLineBreak(s[i])
    ensures k < |s| ==> IsLineBreak(s[k])
  {
    if s == [] || IsLineBreak(s[0]) then 0 else 1 + LineEnd(s[1..])
  }

  /** The first complete line and what follows its terminator; None while no terminator has arrived. */
  function NextLine(s: string): (r: Option<(string, string)>)
    ensures r.Some? ==> |r.value.1| < |s| && SingleLine(r.value.0)
  {
    var k := LineEnd(s);
    if k == |s| then None
    else if s[k] == '\r' && k + 1 < |s| && s[k + 1] == '\n' then Some((s[..k], s[k + 2..]))
    else Some((s[..k], s[k + 1..]))
  }

  /** Position of the first colon, or the length of the line when there is none. */
  function ColonAt(line: string): (k: nat)
    ensures k <= |line|
    ensures forall i :: 0 <= i < k ==> line[i] != ':'
    ensures k < |line| ==> line[k] == ':'
  {
    if line == [] || line[0] == ':' then 0 else 1 + ColonAt(line[1..])
  }

  /** Field name and value of a line: the value loses one leading space. */
  function Field(line: string): (string, string) {
    var k := ColonAt(line);
    if k == |line| then (line, [])
    else
      var v := line[k + 1..];
      (line[..k], if v != [] && v[0] == ' ' then v[1..] else v)
  }

  /**
   * The events dispatched while reading s, given the data buffer and the event
   * type buffer so far.  An event that is not finished by a blank line when the
   * text ends is not dispatched.
   */
  function Interpret(s: string, data: string, kind: string): seq<Event>
    decreases |s|
  {
    match NextLine(s)
    case None => []
    case Some((line, rest)) =>
      if line == [] then
        if data == [] then Interpret(rest, [], [])
        else
          var text := if data[|data| - 1] == '\n' then data[..|data| - 1] else data;
          [Event(if kind == [] then "message" else kind, text)] + Interpret(rest, [], [])
      else if line[0] == ':' then Interpret(rest, data, kind)
      else
        var (name, value) := Field(line);
        if name == "data" then Interpret(rest, data + value + "\n", kind)
        else if name == "event" then Interpret(rest, data, value)
        else Interpret(rest, data, kind)
  }

  /** The data of the events of type "message": what `onmessage` is called with, in order. */
  function MessageData(events: seq<Event>): seq<string> {
    if events == [] then []
    else if events[0].kind == "message" then [events[0].data] + MessageData(events[1..])
    else MessageData(events[1..])
  }

  function Messages(stream: string): seq<string> {
    MessageData(Interpret(stream, [], []))
  }

  lemma {:induction false} LineEndAt(line: string, rest: string)
    requires SingleLine(line)
    requires rest != [] && IsLineBreak(rest[0])
    ensures LineEnd(line + rest) == |line|
  {
    if line != [] {
      assert (line + rest)[1..] == line[1..] + rest;
      LineEndAt(line[1..], rest);
    } else {
      assert line + rest == rest;
    }
  }

  /** One frame of a single-line payload dispatches exactly one message carrying that payload. */
  lemma {:induction false} FrameDispatches(payload: string, rest: string)
    requires SingleLine(payload)
    ensures Interpret(DataFrame(payload) + rest, [], []) == [Event("message", payload)] + Interpret(rest, [], [])
  {
    var line := "data: " + payload;
    var s := DataFrame(payload) + rest;
    var after := "\n" + rest;
    assert s == line + ("\n" + after);
    assert SingleLine(line);
    LineEndAt(line, "\n" + after);
    assert s[..|line|] == line && s[|line| + 1..] == after;
    assert NextLine(s) == Some((line, after));
    assert ColonAt(line) == 4 by {
      assert line[..4] == "data";
      assert line[4] == ':';
    }
    assert line[..4] == "data";
    var v := line[5..];
    assert v == " " + payload && v[0] == ' ' && v[1..] == payload;
    assert Field(line) == ("data", payload);
    assert LineEnd(after) == 0;
    assert after[1..] == rest;
    assert NextLine(after) == Some(([], rest));
    var data := [] + payload + "\n";
    assert data[..|data| - 1] == payload;
  }

  /** A stream of frames delivers every payload to `onmessage`, once each and in order. */
  lemma {:induction false} FramesDeliver(payloads: seq<string>)
    requires forall i :: 0 <= i < |payloads| ==> SingleLine(payloads[i])
    ensures Messages(Frames(payloads)) == payloads
  {
    if payloads != [] {
      FrameDispatches(payloads[0], Frames(payloads[1..]));
      FramesDeliver(payloads[1..]);
      assert [payloads[0]] + payloads[1..] == payloads;
    } else {
      assert NextLine([]) == None;
    }
  }
}
