/**
 * The path a log record takes from a POST to the log route, through the
 * event stream of a subscribed browser, into the entries of the log panel.
 */
module LogPipeline {
  import opened Wrappers
  import opened JsonValue
  import opened JsonText
  import opened JsonParser
  import opened JsonRoundTrip
  import opened EventStream
  import opened LogRoute
  import opened BackendLogs

  /** A JSON text is one line, so its frame is one data line: the stream cannot split it. */
  lemma {:induction false} StringifySingleLine(v: Value)
    ensures SingleLine(Stringify(v))
  {
    StringifyNoLineBreak(v);
    var s := Stringify(v);
    forall i | 0 <= i < |s| ensures !IsLineBreak(s[i]) {
      assert s[i] in s;
    }
  }

  /** A client that received the frames of several JSON texts hands exactly those texts to `onmessage`. */
  lemma {:induction false} JsonFramesDeliver(vs: seq<Value>)
    ensures Messages(Frames(Texts(vs))) == Texts(vs)
  {
    forall i | 0 <= i < |vs| ensures SingleLine(Texts(vs)[i]) {
      StringifySingleLine(vs[i]);
    }
    FramesDeliver(Texts(vs));
  }

  function Texts(vs: seq<Value>): (ts: seq<string>)
    ensures |ts| == |vs| && forall i :: 0 <= i < |vs| ==> ts[i] == Stringify(vs[i])
  {
    if vs == [] then [] else [Stringify(vs[0])] + Texts(vs[1..])
  }

  lemma {:induction false} OneFrame(payload: string)
    requires SingleLine(payload)
    ensures Messages(DataFrame(payload)) == [payload]
  {
    FrameDispatches(payload, []);
    assert DataFrame(payload) + [] == DataFrame(payload);
    assert NextLine([]) == None;
    assert Interpret([], [], []) == [];
    var events := [Event("message", payload)];
    assert events[1..] == [];
    assert MessageData(events) == [payload] + MessageData([]);
  }

  lemma {:induction false} MemberWellFormed(ms: seq<Member>, k: string)
    requires WellFormed(JObject(ms)) && Lookup(ms, k).Some?
    ensures WellFormed(Lookup(ms, k).value)
  {
    var i :| 0 <= i < |ms| && ms[i] == Member(k, Lookup(ms, k).value) &&
             forall j :: 0 <= j < i ==> ms[j].key != k;
    assert WellFormed(ms[i].value);
  }

  lemma {:induction false} ReadBodyWellFormed(body: string)
    requires ReadBody(body).Some?
    ensures WellFormed(ReadBody(body).value.0)
    ensures ReadBody(body).value.1.Some? ==> WellFormed(ReadBody(body).value.1.value)
  {
    var v := Parse(body).value;
    if v.JObject? {
      if Lookup(v.members, "level").Some? {
        MemberWellFormed(v.members, "level");
      }
      if Lookup(v.members, "message").Some? {
        MemberWellFormed(v.members, "message");
      }
    }
  }

  /** The record the route writes is well-formed when the level and message it copies are. */
  lemma {:induction false} RecordWellFormed(level: Value, message: Option<Value>, timestamp: string)
    requires WellFormed(level) && (message.Some? ==> WellFormed(message.value))
    ensures WellFormed(LogRecord(level, message, timestamp))
  {
    var ms := LogRecord(level, message, timestamp).members;
    forall i | 0 <= i < |ms| ensures WellFormed(ms[i].value) {
      assert ms[i].key in {"level", "message", "timestamp"};
    }
  }

  /**
   * The frame of a record the route accepted is one message, and the entry a
   * panel makes of it (SubscriberSeesPost says which subscribers are handed
   * that message) shows the level the route kept, or INFO
   * when that level is falsy (a null or empty level kept by the route
   * included), and the message, or the whole JSON line when the message is
   * missing or falsy.
   */
  lemma {:induction false} PostReachesPanel(body: string, timestamp: string, id: string, time: string)
    requires ReadBody(body).Some?
    ensures var (level, message) := ReadBody(body).value;
      var payload := Stringify(LogRecord(level, message, timestamp));
      Messages(DataFrame(payload)) == [payload] &&
      Receive(payload, id, time) ==
        Some(LogEntry(id, time,
                      if JsTruthy(level) then level else JString("INFO"),
                      if message.Some? && JsTruthy(message.value) then message.value else JString(payload)))
  {
    var level := ReadBody(body).value.0;
    var message := ReadBody(body).value.1;
    var record := LogRecord(level, message, timestamp);
    var payload := Stringify(record);
    ReadBodyWellFormed(body);
    RecordWellFormed(level, message, timestamp);
    RoundTrip(record);
    ReceiveObject(payload, record.members, id, time);
    StringifySingleLine(record);
    OneFrame(payload);
  }

  /**
   * What a subscriber's `onmessage` sees across a POST.  If the chunks
   * enqueued so far on controller c are the frames of single-line texts ts
   * (the connected record and earlier records are such texts), then after
   * the broadcast of an accepted body the handler has been given ts followed
   * by the new record's JSON text when c is subscribed and its enqueue
   * succeeds, and ts alone otherwise.
   */
  lemma {:induction false} SubscriberSeesPost(streams: map<ClientId, seq<string>>, cs: seq<ClientId>,
                                              accepts: ClientId -> bool, c: ClientId, ts: seq<string>,
                                              body: string, timestamp: string)
    requires NoDuplicates(cs) && ReadBody(body).Some?
    requires Concat(StreamOf(streams, c)) == Frames(ts)
    requires forall i :: 0 <= i < |ts| ==> SingleLine(ts[i])
    ensures var (level, message) := ReadBody(body).value;
      var payload := Stringify(LogRecord(level, message, timestamp));
      var seen := ts + (if c in cs && accepts(c) then [payload] else []);
      var stream := StreamOf(Deliver(streams, cs, accepts, DataFrame(payload)), c);
      Concat(stream) == Frames(seen) && Messages(Concat(stream)) == seen
  {
    var (level, message) := ReadBody(body).value;
    var record := LogRecord(level, message, timestamp);
    var payload := Stringify(record);
    var before := StreamOf(streams, c);
    DeliverStream(streams, cs, accepts, DataFrame(payload), c);
    if c in cs && accepts(c) {
      var after := before + [DataFrame(payload)];
      assert after[..|after| - 1] == before;
      assert Concat(after) == Frames(ts) + DataFrame(payload);
      FramesSnoc(ts, payload);
      StringifySingleLine(record);
      FramesDeliver(ts + [payload]);
    } else {
      assert before + [] == before;
      FramesDeliver(ts);
      assert ts + [] == ts;
    }
  }

  /** A record of two non-empty strings, a level and a message, shows in the panel as given. */
  lemma {:induction false} StatusReachesPanel(level: string, message: string, id: string, time: string)
    requires level != "" && message != ""
    ensures var record := JObject([Member("level", JString(level)), Member("message", JString(message))]);
      Messages(DataFrame(Stringify(record))) == [Stringify(record)] &&
      Receive(Stringify(record), id, time) == Some(LogEntry(id, time, JString(level), JString(message)))
  {
    var record := JObject([Member("level", JString(level)), Member("message", JString(message))]);
    assert "level" != "message";
    assert WellFormed(record);
    RoundTrip(record);
    ReceiveObject(Stringify(record), record.members, id, time);
    StringifySingleLine(record);
    OneFrame(Stringify(record));
  }

  /** A stream holding one frame is the frames of its one payload. */
  lemma OneChunk(p: string)
    ensures Concat([DataFrame(p)]) == Frames([p])
  {
    assert [DataFrame(p)][..0] == [];
    assert [p][1..] == [];
  }

  /**
   * The frame a new subscriber is sent first shows in the panel as INFO "Log
   * stream connected", and the stream it starts is the frames of one
   * single-line text, the form SubscriberSeesPost takes.
   */
  lemma ConnectedReachesPanel(id: string, time: string)
    ensures Concat([ConnectedFrame()]) == Frames([Stringify(ConnectedRecord)])
    ensures SingleLine(Stringify(ConnectedRecord))
    ensures Messages(ConnectedFrame()) == [Stringify(ConnectedRecord)]
    ensures Receive(Stringify(ConnectedRecord), id, time) ==
            Some(LogEntry(id, time, JString("INFO"), JString("Log stream connected")))
  {
    StatusReachesPanel("INFO", "Log stream connected", id, time);
    OneChunk(Stringify(ConnectedRecord));
    StringifySingleLine(ConnectedRecord);
  }
}
