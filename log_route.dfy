/**
 * The log route of the front end's server (app/api/logs/route.ts): a
 * module-level set of subscribed stream controllers, GET registering a new one
 * and sending it a first frame, and POST framing one log record as a
 * Server-Sent Events message for every subscriber, dropping those whose
 * enqueue throws.
 *
 * A controller is known by its identity (ClientId).  What each controller has
 * been given is kept in `streams`; whether an enqueue succeeds is an oracle
 * passed to POST (it throws once the stream behind the controller is closed).
 */
module LogRoute {
  import opened Wrappers
  import opened JsonValue
  import opened JsonText
  import opened JsonParser
  import opened EventStream
  import opened JsonRoundTrip

  type ClientId = nat

  datatype Response = Response(status: nat, body: Value)

  const ConnectedRecord: Value :=
    JObject([Member("level", JString("INFO")), Member("message", JString("Log stream connected"))])

  /** The first frame GET's start callback enqueues on a new controller. */
  function ConnectedFrame(): string {
    DataFrame(Stringify(ConnectedRecord))
  }

  const Accepted: Response := Response(200, JObject([Member("success", JBool(true))]))
  const BadRequest: Response := Response(400, JObject([Member("error", JString("Invalid request"))]))

  /**
   * `request.json()` followed by `const { level = 'INFO', message } = body`:
   * None when the body is not JSON or is null (destructuring null throws);
   * otherwise the level (INFO only when the property is undefined) and the
   * message, None when undefined.
   */
  function ReadBody(body: string): (r: Option<(Value, Option<Value>)>)
    ensures r.None? <==> Parse(body).None? || Parse(body) == Some(JNull)
    ensures r.Some? && !Parse(body).value.JObject? ==> r == Some((JString("INFO"), None))
  {
    match Parse(body)
    case None => None
    case Some(v) =>
      if v.JNull? then None
      else Some((Prop(v, "level").GetOr(JString("INFO")), Prop(v, "message")))
  }

  /**
   * The object `{ level, message, timestamp }` as JSON.stringify sees it: a
   * property whose value is undefined is left out.
   */
  function LogRecord(level: Value, message: Option<Value>, timestamp: string): (r: Value)
    ensures r.JObject? && DistinctKeys(r.members)
    ensures Lookup(r.members, "level") == Some(level)
    ensures Lookup(r.members, "message") == message
    ensures Lookup(r.members, "timestamp") == Some(JString(timestamp))
  {
    var mid := if message.Some? then [Member("message", message.value)] else [];
    var last := [Member("timestamp", JString(timestamp))];
    assert "level" != "message" && "level" != "timestamp" && "message" != "timestamp";
    LookupCons(Member("timestamp", JString(timestamp)), [], "timestamp");
    LookupCons(Member("timestamp", JString(timestamp)), [], "message");
    LookupCons(Member("level", level), mid + last, "level");
    LookupCons(Member("level", level), mid + last, "message");
    LookupCons(Member("level", level), mid + last, "timestamp");
    if message.Some? then
      LookupCons(Member("message", message.value), last, "message");
      LookupCons(Member("message", message.value), last, "timestamp");
      JObject([Member("level", level)] + (mid + last))
    else
      assert mid + last == last;
      JObject([Member("level", level)] + (mid + last))
  }

  predicate NoDuplicates(cs: seq<ClientId>) {
    forall i, j :: 0 <= i < j < |cs| ==> cs[i] != cs[j]
  }

  /** The frames already enqueued on controller c. */
  function StreamOf(streams: map<ClientId, seq<string>>, c: ClientId): seq<string> {
    if c in streams then streams[c] else []
  }

  /** `Set.add`: an element already present keeps its place. */
  function Add(cs: seq<ClientId>, c: ClientId): seq<ClientId> {
    if c in cs then cs else cs + [c]
  }

  /** `Set.delete`. */
  function Remove(cs: seq<ClientId>, x: ClientId): seq<ClientId> {
    if cs == [] then []
    else if cs[0] == x then Remove(cs[1..], x)
    else [cs[0]] + Remove(cs[1..], x)
  }

  /** The clients still subscribed after a broadcast: those whose enqueue succeeded, in order. */
  function Survivors(cs: seq<ClientId>, accepts: ClientId -> bool): seq<ClientId> {
    if cs == [] then []
    else Survivors(cs[..|cs| - 1], accepts) + (if accepts(cs[|cs| - 1]) then [cs[|cs| - 1]] else [])
  }

  /** The streams after a broadcast of frame to cs, in order. */
  function Deliver(streams: map<ClientId, seq<string>>, cs: seq<ClientId>, accepts: ClientId -> bool,
                   frame: string): map<ClientId, seq<string>>
  {
    if cs == [] then streams
    else
      var before := Deliver(streams, cs[..|cs| - 1], accepts, frame);
      var c := cs[|cs| - 1];
      if accepts(c) then before[c := StreamOf(before, c) + [frame]] else before
  }

  class LogHub {
    /** The `clients` set, in insertion order. */
    var clients: seq<ClientId>
    /** Every frame enqueued so far, per controller. */
    var streams: map<ClientId, seq<string>>

    ghost predicate Valid()
      reads this
    {
      NoDuplicates(clients) && forall c :: c in clients ==> c in streams
    }

    /** The server module is loaded with no subscriber. */
    constructor ()
      ensures Valid() && clients == [] && streams == map[]
    {
      clients := [];
      streams := map[];
    }

    /** GET: the stream's start callback, given its new controller c. */
    method Start(c: ClientId)
      requires Valid()
      modifies this
      ensures Valid()
      ensures clients == Add(old(clients), c)
      ensures streams == old(streams)[c := StreamOf(old(streams), c) + [ConnectedFrame()]]
    {
      if c !in clients {
        clients := clients + [c];
      }
      streams := streams[c := StreamOf(streams, c) + [ConnectedFrame()]];
    }

    /**
     * The stream's cancel callback.  The Streams API passes it the cancel
     * reason, which the callback hands to `clients.delete`; None stands for a
     * reason that is no controller, the case the Streams API produces.
     */
    method Cancel(reason: Option<ClientId>)
      requires Valid()
      modifies this
      ensures Valid()
      ensures clients == if reason.Some? then Remove(old(clients), reason.value) else old(clients)
      ensures streams == old(streams)
    {
      if reason.Some? {
        RemoveSpec(clients, reason.value);
        clients := Remove(clients, reason.value);
      }
    }

    /**
     * The cancel callback as evidently intended: the controller of the
     * cancelled stream leaves the set, and nothing else changes.
     */
    method Unsubscribe(c: ClientId)
      requires Valid()
      modifies this
      ensures Valid()
      ensures c !in clients
      ensures forall d :: d in clients <==> d in old(clients) && d != c
      ensures clients == Remove(old(clients), c) && streams == old(streams)
    {
      RemoveSpec(clients, c);
      clients := Remove(clients, c);
    }

    /** POST: broadcast one log record, in `clients` order, pruning failed controllers in place. */
    method Post(body: string, timestamp: string, accepts: ClientId -> bool) returns (res: Response)
      requires Valid()
      modifies this
      ensures Valid()
      ensures ReadBody(body).None? ==>
        res == BadRequest && clients == old(clients) && streams == old(streams)
      ensures ReadBody(body).Some? ==>
        var (level, message) := ReadBody(body).value;
        res == Accepted &&
        clients == Survivors(old(clients), accepts) &&
        streams == Deliver(old(streams), old(clients), accepts,
                           DataFrame(Stringify(LogRecord(level, message, timestamp))))
    {
      var read := ReadBody(body);
      if read.None? {
        return BadRequest;
      }
      var (level, message) := read.value;
      var logData := Stringify(LogRecord(level, message, timestamp));
      var frame := DataFrame(logData);
      ghost var snapshot := clients;
      ghost var k := 0;
      var i := 0;
      while i < |clients|
        invariant 0 <= k <= |snapshot| && 0 <= i <= |clients|
        invariant clients[..i] == Survivors(snapshot[..k], accepts)
        invariant clients[i..] == snapshot[k..]
        invariant streams == Deliver(old(streams), snapshot[..k], accepts, frame)
        invariant Valid()
        decreases |clients| - i
      {
        PruneStep(snapshot, k, clients, i, accepts);
        DeliverStep(old(streams), snapshot, k, accepts, frame);
        var client := clients[i];
        if accepts(client) {
          streams := streams[client := streams[client] + [frame]];
          i := i + 1;
        } else {
          NoDuplicatesRemoveAt(clients, i);
          clients := clients[..i] + clients[i + 1..];
        }
        k := k + 1;
      }
      assert snapshot[..k] == snapshot;
      res := Accepted;
    }
  }

  /** One step of POST's loop over the set, as it keeps or deletes the controller at position i. */
  lemma {:induction false} PruneStep(snapshot: seq<ClientId>, k: nat, cs: seq<ClientId>, i: nat,
                                     accepts: ClientId -> bool)
    requires i < |cs| && k <= |snapshot|
    requires cs[..i] == Survivors(snapshot[..k], accepts) && cs[i..] == snapshot[k..]
    ensures k < |snapshot| && cs[i] == snapshot[k]
    ensures accepts(cs[i]) ==>
      cs[..i + 1] == Survivors(snapshot[..k + 1], accepts) && cs[i + 1..] == snapshot[k + 1..]
    ensures !accepts(cs[i]) ==>
      (cs[..i] + cs[i + 1..])[..i] == Survivors(snapshot[..k + 1], accepts) &&
      (cs[..i] + cs[i + 1..])[i..] == snapshot[k + 1..]
  {
    assert |cs[i..]| == |snapshot[k..]|;
    assert cs[i] == cs[i..][0] == snapshot[k..][0] == snapshot[k];
    assert snapshot[..k + 1][..k] == snapshot[..k];
    assert snapshot[..k + 1][k] == snapshot[k];
    assert cs[i + 1..] == cs[i..][1..];
    if accepts(cs[i]) {
      assert cs[..i + 1] == cs[..i] + [cs[i]];
    } else {
      var r := cs[..i] + cs[i + 1..];
      assert r[..i] == cs[..i];
      assert r[i..] == cs[i + 1..];
    }
  }

  lemma DeliverStep(streams: map<ClientId, seq<string>>, snapshot: seq<ClientId>, k: nat,
                    accepts: ClientId -> bool, frame: string)
    requires k < |snapshot|
    ensures var before := Deliver(streams, snapshot[..k], accepts, frame);
      var c := snapshot[k];
      Deliver(streams, snapshot[..k + 1], accepts, frame) ==
        if accepts(c) then before[c := StreamOf(before, c) + [frame]] else before
  {
    assert snapshot[..k + 1][..k] == snapshot[..k];
  }

  lemma {:induction false} NoDuplicatesRemoveAt(cs: seq<ClientId>, i: nat)
    requires NoDuplicates(cs) && i < |cs|
    ensures NoDuplicates(cs[..i] + cs[i + 1..])
    ensures forall c :: c in cs[..i] + cs[i + 1..] ==> c in cs
  {
    var r := cs[..i] + cs[i + 1..];
    assert forall p :: 0 <= p < |r| ==> r[p] == cs[if p < i then p else p + 1];
  }

  lemma {:induction false} RemoveSpec(cs: seq<ClientId>, x: ClientId)
    ensures forall c :: c in Remove(cs, x) <==> c in cs && c != x
    ensures NoDuplicates(cs) ==> NoDuplicates(Remove(cs, x))
  {
    if cs != [] {
      RemoveSpec(cs[1..], x);
      if NoDuplicates(cs) {
        assert NoDuplicates(cs[1..]) by {
          assert forall p :: 0 <= p < |cs| - 1 ==> cs[1..][p] == cs[p + 1];
        }
        assert cs[0] !in cs[1..];
        if cs[0] != x {
          var r := Remove(cs, x);
          assert r == [cs[0]] + Remove(cs[1..], x);
          assert forall q :: 0 < q < |r| ==> r[q] in Remove(cs[1..], x);
        }
      }
    }
  }

  /** POST's pruning: a client remains exactly when it was subscribed and its enqueue succeeded; none is added. */
  lemma {:induction false} SurvivorsMembers(cs: seq<ClientId>, accepts: ClientId -> bool)
    ensures forall c :: c in Survivors(cs, accepts) <==> c in cs && accepts(c)
  {
    if cs != [] {
      var init := cs[..|cs| - 1];
      SurvivorsMembers(init, accepts);
      assert cs == init + [cs[|cs| - 1]];
    }
  }

  /** Pruning keeps the order of `clients`: it distributes over concatenation. */
  lemma {:induction false} SurvivorsAppend(cs: seq<ClientId>, ds: seq<ClientId>, accepts: ClientId -> bool)
    ensures Survivors(cs + ds, accepts) == Survivors(cs, accepts) + Survivors(ds, accepts)
    decreases |ds|
  {
    if ds == [] {
      assert cs + ds == cs;
    } else {
      var init := ds[..|ds| - 1];
      var last := ds[|ds| - 1];
      assert (cs + ds)[..|cs + ds| - 1] == cs + init;
      SurvivorsAppend(cs, init, accepts);
    }
  }

  /** When every enqueue succeeds the set is left as it was. */
  lemma {:induction false} SurvivorsAll(cs: seq<ClientId>, accepts: ClientId -> bool)
    requires forall i :: 0 <= i < |cs| ==> accepts(cs[i])
    ensures Survivors(cs, accepts) == cs
  {
    if cs != [] {
      var init := cs[..|cs| - 1];
      SurvivorsAll(init, accepts);
      assert cs == init + [cs[|cs| - 1]];
    }
  }

  lemma {:induction false} SurvivorsNoDuplicates(cs: seq<ClientId>, accepts: ClientId -> bool)
    requires NoDuplicates(cs)
    ensures NoDuplicates(Survivors(cs, accepts))
  {
    if cs != [] {
      var init := cs[..|cs| - 1];
      var last := cs[|cs| - 1];
      assert NoDuplicates(init);
      SurvivorsNoDuplicates(init, accepts);
      SurvivorsMembers(init, accepts);
      assert last !in init;
    }
  }

  /**
   * POST's delivery: every subscribed client whose enqueue succeeds receives
   * the one frame, once; every other stream is left as it was.
   */
  lemma {:induction false} DeliverStream(streams: map<ClientId, seq<string>>, cs: seq<ClientId>,
                                         accepts: ClientId -> bool, frame: string, c: ClientId)
    requires NoDuplicates(cs)
    ensures StreamOf(Deliver(streams, cs, accepts, frame), c) ==
            StreamOf(streams, c) + (if c in cs && accepts(c) then [frame] else [])
  {
    if cs != [] {
      var init := cs[..|cs| - 1];
      var last := cs[|cs| - 1];
      assert NoDuplicates(init);
      assert last !in init;
      assert cs == init + [last];
      DeliverStream(streams, init, accepts, frame, c);
    }
  }

  /**
   * A body that parses to an object: the level is the one the object holds,
   * whatever it is (null and "" included), and INFO only when it has no
   * level; the message is the one it holds, if any.  A key the text repeats
   * holds its last value (see JsonValue.DedupLookup).
   */
  lemma PostedFields(body: string, ms: seq<Member>)
    requires Parse(body) == Some(JObject(ms))
    ensures ReadBody(body) ==
            Some((if Lookup(ms, "level").Some? then Lookup(ms, "level").value else JString("INFO"),
                  Lookup(ms, "message")))
  {
  }

  /** The same for a body that is JSON.stringify's text of an object. */
  lemma {:induction false} PostedObject(ms: seq<Member>)
    requires WellFormed(JObject(ms))
    ensures ReadBody(Stringify(JObject(ms))) ==
            Some((if Lookup(ms, "level").Some? then Lookup(ms, "level").value else JString("INFO"),
                  Lookup(ms, "message")))
  {
    RoundTrip(JObject(ms));
    PostedFields(Stringify(JObject(ms)), ms);
  }

  /** Of the texts JSON.stringify writes, exactly `null` is refused with 400. */
  lemma RefusedValue(v: Value)
    requires WellFormed(v)
    ensures ReadBody(Stringify(v)).None? <==> v == JNull
  {
    RoundTrip(v);
  }

  /**
   * As written, cancelling a stream does not unsubscribe its controller (the
   * callback receives the cancel reason): the controller stays in the set
   * through any number of cancellations and leaves only at the first POST
   * whose enqueue on it throws.
   */
  lemma CancelledLingers(cs: seq<ClientId>, c: ClientId, accepts: ClientId -> bool)
    requires c in cs
    ensures c in Survivors(cs, accepts) <==> accepts(c)
  {
    SurvivorsMembers(cs, accepts);
  }
}
