/**
 * The backend log panel of the front end (components/backend-logs.tsx): the
 * state the component keeps (the buffered entries, whether the panel is shown,
 * whether it is expanded), the handlers that change it, and what it renders.
 * The entry id and the local time of an entry come from the clock and the
 * random generator; they are parameters here.
 */
module BackendLogs {
  import opened Wrappers
  import opened JsonValue
  import opened JsonText
  import opened JsonParser
  import opened JsonRoundTrip

  /** The most entries the panel keeps. */
  const Capacity: nat := 100

  /**
   * One buffered entry.  The level and message are whatever the event's JSON
   * carried (after the fallbacks), not necessarily strings.
   */
  datatype LogEntry = LogEntry(id: string, timestamp: string, level: Value, message: Value)

  /** `Array.prototype.slice(k)` with a single argument; a negative k counts from the end. */
  function SliceFrom<T>(s: seq<T>, k: int): seq<T> {
    var start := if k < 0 then (if |s| + k < 0 then 0 else |s| + k) else (if k > |s| then |s| else k);
    s[start..]
  }

  /** The last n elements of s, or all of them when there are fewer. */
  function Last<T>(s: seq<T>, n: nat): (r: seq<T>)
    ensures |r| == if |s| < n then |s| else n
  {
    if |s| <= n then s else s[|s| - n..]
  }

  /**
   * The buffer update of `onmessage`: `[...prev.slice(-99), newLog]`.  The new
   * entry comes last, after the most recent entries of the old buffer in their
   * order, and the buffer grows by one up to the capacity.
   */
  function Append(prev: seq<LogEntry>, e: LogEntry): (r: seq<LogEntry>)
    ensures |r| == (if |prev| < Capacity - 1 then |prev| else Capacity - 1) + 1
    ensures |r| <= Capacity
    ensures r[|r| - 1] == e
    ensures r[..|r| - 1] == Last(prev, Capacity - 1)
  {
    SliceFrom(prev, -(Capacity - 1)) + [e]
  }

  /** The buffer after several successful messages, one after another. */
  function AppendAll(prev: seq<LogEntry>, es: seq<LogEntry>): seq<LogEntry>
    decreases |es|
  {
    if es == [] then prev else AppendAll(Append(prev, es[0]), es[1..])
  }

  lemma {:induction false} LastAppend(s: seq<LogEntry>, e: LogEntry)
    ensures Append(s, e) == Last(s + [e], Capacity)
  {
    var t := s + [e];
    if |t| > Capacity {
      assert t[|t| - Capacity..] == s[|s| - (Capacity - 1)..] + [e];
    }
  }

  lemma {:induction false} LastLast(s: seq<LogEntry>, e: LogEntry)
    ensures Last(Last(s, Capacity) + [e], Capacity) == Last(s + [e], Capacity)
  {
    var t := s + [e];
    if |s| > Capacity {
      var u := s[|s| - Capacity..] + [e];
      assert u[|u| - Capacity..] == t[|t| - Capacity..];
    }
  }

  /**
   * "Keep last 100 logs": after any number of messages the buffer is the last
   * 100 of everything the panel held and received, in arrival order.
   */
  lemma {:induction false} AppendAllKeepsLast(prev: seq<LogEntry>, es: seq<LogEntry>)
    requires |prev| <= Capacity
    ensures AppendAll(prev, es) == Last(prev + es, Capacity)
    decreases |es|
  {
    if es != [] {
      var e, rest := es[0], es[1..];
      var next := Append(prev, e);
      calc {
        AppendAll(prev, es);
        AppendAll(next, rest);
        { AppendAllKeepsLast(next, rest); }
        Last(next + rest, Capacity);
        { LastAppend(prev, e); }
        Last(Last(prev + [e], Capacity) + rest, Capacity);
        { AppendAllKeepsLastStep(prev + [e], rest); }
        Last((prev + [e]) + rest, Capacity);
        { assert prev + es == (prev + [e]) + rest; }
        Last(prev + es, Capacity);
      }
    }
  }

  lemma {:induction false} AppendAllKeepsLastStep(s: seq<LogEntry>, rest: seq<LogEntry>)
    ensures Last(Last(s, Capacity) + rest, Capacity) == Last(s + rest, Capacity)
    decreases |rest|
  {
    if rest == [] {
      assert Last(s, Capacity) + rest == Last(s, Capacity);
      assert s + rest == s;
    } else {
      var init := rest[..|rest| - 1];
      var e := rest[|rest| - 1];
      AppendAllKeepsLastStep(s, init);
      LastLast(Last(s, Capacity) + init, e);
      LastLast(s + init, e);
      assert Last(s, Capacity) + rest == (Last(s, Capacity) + init) + [e];
      assert s + rest == (s + init) + [e];
    }
  }

  /**
   * The entry `onmessage` builds from the event's data, or None when the data
   * is not JSON or is null (reading a property of null throws; the handler
   * only logs the error).  A level or message that is missing or falsy falls
   * back to INFO and to the raw event data.
   */
  function Receive(data: string, id: string, time: string): (r: Option<LogEntry>)
    ensures r.None? <==> Parse(data).None? || Parse(data) == Some(JNull)
    ensures r.Some? ==> r.value.id == id && r.value.timestamp == time
    ensures r.Some? ==> JsTruthy(r.value.level) && JsTruthy(r.value.message)
  {
    match Parse(data)
    case None => None
    case Some(v) =>
      if v.JNull? then None
      else
        var level := Prop(v, "level");
        var message := Prop(v, "message");
        Some(LogEntry(id, time,
                      if level.Some? && JsTruthy(level.value) then level.value else JString("INFO"),
                      if message.Some? && JsTruthy(message.value) then message.value else JString(data)))
  }

  /** What an event whose data parses to an object becomes. */
  lemma ReceiveObject(data: string, ms: seq<Member>, id: string, time: string)
    requires Parse(data) == Some(JObject(ms))
    ensures var level, message := Lookup(ms, "level"), Lookup(ms, "message");
      Receive(data, id, time) ==
        Some(LogEntry(id, time,
                      if level.Some? && JsTruthy(level.value) then level.value else JString("INFO"),
                      if message.Some? && JsTruthy(message.value) then message.value else JString(data)))
  {
  }

  /** The same for the JSON text JSON.stringify writes for an object. */
  lemma {:induction false} ReceivedObject(ms: seq<Member>, id: string, time: string)
    requires WellFormed(JObject(ms))
    ensures var level, message := Lookup(ms, "level"), Lookup(ms, "message");
      Receive(Stringify(JObject(ms)), id, time) ==
      Some(LogEntry(id, time,
                    if level.Some? && JsTruthy(level.value) then level.value else JString("INFO"),
                    if message.Some? && JsTruthy(message.value) then message.value
                    else JString(Stringify(JObject(ms)))))
  {
    RoundTrip(JObject(ms));
    ReceiveObject(Stringify(JObject(ms)), ms, id, time);
  }

  /** Of the texts JSON.stringify writes, exactly `null` is dropped. */
  lemma ReceivedValue(v: Value, id: string, time: string)
    requires WellFormed(v)
    ensures Receive(Stringify(v), id, time).None? <==> v == JNull
  {
    RoundTrip(v);
  }

  /** `getLevelColor`: red, yellow and blue for three levels, green for every other value. */
  function LevelColor(level: Value): (r: string)
    ensures r in {"text-red-400", "text-yellow-400", "text-blue-400", "text-green-400"}
    ensures level == JString("ERROR") ==> r == "text-red-400"
    ensures level == JString("WARNING") ==> r == "text-yellow-400"
    ensures level == JString("DEBUG") ==> r == "text-blue-400"
    ensures r == "text-green-400" <==>
      level != JString("ERROR") && level != JString("WARNING") && level != JString("DEBUG")
  {
    if level == JString("ERROR") then "text-red-400"
    else if level == JString("WARNING") then "text-yellow-400"
    else if level == JString("DEBUG") then "text-blue-400"
    else "text-green-400"
  }

  /** One rendered line: time, level in its colour, message. */
  datatype Row = Row(timestamp: string, level: Value, color: string, message: Value)

  /** The rendered panel: the entry count in the header, the height, the lines. */
  datatype Rendered = Rendered(count: nat, height: string, rows: seq<Row>)

  /**
   * The outcome of a render: nothing while the panel is hidden, the panel, or
   * the error React raises for a child it cannot render.
   */
  datatype Render = Hidden | Shown(panel: Rendered) | Throws

  /**
   * A value React accepts as a child: strings and numbers render as text,
   * null and booleans render nothing, an array renders each element; an
   * object is not a valid child.
   */
  predicate ReactChild(v: Value) {
    match v
    case JObject(_) => false
    case JArray(items) => forall i :: 0 <= i < |items| ==> ReactChild(items[i])
    case _ => true
  }

  /** An entry whose level and message React can render. */
  predicate RenderableEntry(e: LogEntry) {
    ReactChild(e.level) && ReactChild(e.message)
  }

  function RowOf(e: LogEntry): Row {
    Row(e.timestamp, e.level, LevelColor(e.level), e.message)
  }

  class LogPanel {
    var logs: seq<LogEntry>
    var isVisible: bool
    var isExpanded: bool

    /** The buffer is bounded, and the panel holds nothing before it is first shown. */
    ghost predicate Valid()
      reads this
    {
      |logs| <= Capacity && (!isVisible ==> logs == [])
    }

    /** The component mounts empty, hidden and collapsed. */
    constructor ()
      ensures Valid() && logs == [] && !isVisible && !isExpanded
    {
      logs := [];
      isVisible := false;
      isExpanded := false;
    }

    /** `onmessage` for an event with the given data; id and time are the fresh values. */
    method OnMessage(data: string, id: string, time: string)
      requires Valid()
      modifies this
      ensures Valid()
      ensures Receive(data, id, time).None? ==>
        logs == old(logs) && isVisible == old(isVisible) && isExpanded == old(isExpanded)
      ensures Receive(data, id, time).Some? ==>
        logs == Append(old(logs), Receive(data, id, time).value) && isVisible &&
        isExpanded == old(isExpanded)
    {
      var entry := Receive(data, id, time);
      if entry.Some? {
        logs := Append(logs, entry.value);
        isVisible := true;
      }
    }

    /** The expand button. */
    method ToggleExpanded()
      requires Valid()
      modifies this
      ensures Valid()
      ensures isExpanded == !old(isExpanded) && logs == old(logs) && isVisible == old(isVisible)
    {
      isExpanded := !isExpanded;
    }

    /** The clear button: the panel stays shown, empty. */
    method Clear()
      requires Valid()
      modifies this
      ensures Valid()
      ensures logs == [] && isVisible == old(isVisible) && isExpanded == old(isExpanded)
    {
      logs := [];
    }

    /**
     * The render: nothing while hidden; the error when some entry's level or
     * message is no valid React child; otherwise a line per entry, in buffer
     * order.
     */
    function View(): (r: Render)
      reads this
      ensures r.Hidden? <==> !isVisible
      ensures r.Throws? <==> isVisible && exists i :: 0 <= i < |logs| && !RenderableEntry(logs[i])
      ensures r.Shown? ==> r.panel.count == |logs| && |r.panel.rows| == |logs|
      ensures r.Shown? ==> forall i :: 0 <= i < |logs| ==> r.panel.rows[i] == RowOf(logs[i])
      ensures r.Shown? ==> r.panel.height == if isExpanded then "16rem" else "8rem"
    {
      if !isVisible then Hidden
      else if exists i :: 0 <= i < |logs| && !RenderableEntry(logs[i]) then Throws
      else Shown(Rendered(|logs|, if isExpanded then "16rem" else "8rem", Rows(logs)))
    }
  }

  function Rows(es: seq<LogEntry>): (r: seq<Row>)
    ensures |r| == |es| && forall i :: 0 <= i < |es| ==> r[i] == RowOf(es[i])
  {
    if es == [] then [] else [RowOf(es[0])] + Rows(es[1..])
  }
}
