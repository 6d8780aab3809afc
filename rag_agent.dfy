/**
 * The voice agent worker (baseten_rag_agent.py): the start of the process
 * (the API key check, then building the vector index from the data directory
 * or loading the one persisted in the storage directory) and the per-session
 * `entrypoint` (connect, decide from the first participant's metadata whether
 * the retrieval tool is offered, build the agent, start the session, greet).
 *
 * The index, the embedding model, the language and speech models and the
 * session are opaque: an index is known only by the documents it was built
 * from, and the session's work is a trace of effects in the order they occur.
 */
module RagAgent {
  import opened Wrappers
  import opened JsonValue
  import opened JsonText
  import opened JsonParser
  import opened JsonRoundTrip

  /** The documents under data/, as the directory reader returns them. */
  type Corpus = seq<string>

  /** A vector index, known by the documents it indexes. */
  datatype Index = Index(documents: Corpus)

  /**
   * Why the module body raises: the key is missing, the data directory holds
   * no file (the directory reader raises), or the storage directory exists
   * but holds no complete index (loading it raises).
   */
  datatype StartError = MissingApiKey | NoDocuments | StoreUnreadable

  /**
   * The storage directory: absent, present with a complete persisted index,
   * or present without one (a persist that did not complete, or a directory
   * made by hand).  The start tests only whether the directory exists.
   */
  datatype Storage = NoStorage | Stored(index: Index) | Unreadable

  /**
   * What the process start sees of the file system: the storage directory,
   * the current documents, and a counter of how often the documents have
   * been loaded into an index so far.
   */
  datatype Disk = Disk(storage: Storage, data: Corpus, corpusReads: nat)

  /** `if not baseten_api_key`: an unset or empty variable is refused. */
  predicate KeyPresent(apiKey: Option<string>) {
    apiKey.Some? && apiKey.value != ""
  }

  /**
   * One process start: the disk afterwards and the module-level index, or
   * the exception raised.  A start that raises leaves the file system as it
   * was; one that succeeds leaves stored the index it uses, and it loads the
   * documents at most once.
   */
  function Start(d: Disk, apiKey: Option<string>): (r: (Disk, Result<Index, StartError>))
    ensures r.1.Ok? <==> KeyPresent(apiKey) && (d.storage.Stored? || (d.storage.NoStorage? && d.data != []))
    ensures !KeyPresent(apiKey) ==> r.1 == Err(MissingApiKey)
    ensures r.1.Err? ==> r.0 == d
    ensures r.1.Ok? ==> r.0.storage == Stored(r.1.value)
    ensures r.0.data == d.data && d.corpusReads <= r.0.corpusReads <= d.corpusReads + 1
  {
    if !KeyPresent(apiKey) then (d, Err(MissingApiKey))
    else match d.storage
      case NoStorage =>
        if d.data == [] then (d, Err(NoDocuments))
        else
          var built := Index(d.data);
          (Disk(Stored(built), d.data, d.corpusReads + 1), Ok(built))
      case Stored(stored) => (d, Ok(stored))
      case Unreadable => (d, Err(StoreUnreadable))
  }

  /** The disk after n process starts with the same key. */
  function Starts(d: Disk, apiKey: Option<string>, n: nat): Disk
    decreases n
  {
    if n == 0 then d else Starts(Start(d, apiKey).0, apiKey, n - 1)
  }

  /**
   * The cases of one start.  A missing key stops it with the error and
   * touches nothing.  With a key, an absent storage directory means the
   * documents are loaded once, indexed and persisted, or the start raises
   * when there is no document.  A storage directory that holds an index
   * means that index is used as it is and the documents are not loaded.  A
   * storage directory without one makes the start raise.
   */
  lemma StartCases(d: Disk, apiKey: Option<string>)
    ensures !KeyPresent(apiKey) ==> Start(d, apiKey) == (d, Err(MissingApiKey))
    ensures KeyPresent(apiKey) && d.storage.NoStorage? && d.data != [] ==>
      Start(d, apiKey) == (Disk(Stored(Index(d.data)), d.data, d.corpusReads + 1), Ok(Index(d.data)))
    ensures KeyPresent(apiKey) && d.storage.NoStorage? && d.data == [] ==>
      Start(d, apiKey) == (d, Err(NoDocuments))
    ensures KeyPresent(apiKey) && d.storage.Stored? ==>
      Start(d, apiKey) == (d, Ok(d.storage.index))
    ensures KeyPresent(apiKey) && d.storage.Unreadable? ==>
      Start(d, apiKey) == (d, Err(StoreUnreadable))
  {
  }

  /**
   * Two starts from a missing storage directory: the first builds and
   * persists, the second loads what the first stored, even when the documents
   * changed in between (the stored index is never invalidated); the documents
   * are loaded exactly once.
   */
  lemma TwoStarts(d: Disk, apiKey: Option<string>, newData: Corpus)
    requires KeyPresent(apiKey) && d.storage.NoStorage? && d.data != []
    ensures var (d1, r1) := Start(d, apiKey);
      var (d2, r2) := Start(Disk(d1.storage, newData, d1.corpusReads), apiKey);
      r1 == Ok(Index(d.data)) && d1.storage == Stored(Index(d.data)) &&
      r2 == Ok(Index(d.data)) && d2.corpusReads == d.corpusReads + 1
  {
  }

  /**
   * Any number of starts: only the first start from an absent storage
   * directory with documents changes the disk, by loading the documents once
   * and persisting their index; every other start leaves the disk as it was.
   */
  lemma {:induction false} StartsReadOnce(d: Disk, apiKey: Option<string>, n: nat)
    requires n > 0
    ensures Starts(d, apiKey, n) ==
      if KeyPresent(apiKey) && d.storage.NoStorage? && d.data != []
      then Disk(Stored(Index(d.data)), d.data, d.corpusReads + 1)
      else d
    decreases n
  {
    if n > 1 {
      var d1 := Start(d, apiKey).0;
      StartsReadOnce(d1, apiKey, n - 1);
    }
  }

  /**
   * A storage directory without a complete index is never repaired: every
   * start, however many came before, raises on loading it.
   */
  lemma {:induction false} UnreadableStoreFailsEveryStart(d: Disk, apiKey: Option<string>)
    requires KeyPresent(apiKey) && d.storage.Unreadable?
    ensures forall n: nat :: Start(Starts(d, apiKey, n), apiKey).1 == Err(StoreUnreadable)
  {
    forall n: nat ensures Start(Starts(d, apiKey, n), apiKey).1 == Err(StoreUnreadable) {
      if n > 0 {
        StartsReadOnce(d, apiKey, n);
      }
    }
  }

  /** Without documents and without a storage directory, every start raises. */
  lemma {:induction false} NoDocumentsFailsEveryStart(d: Disk, apiKey: Option<string>)
    requires KeyPresent(apiKey) && d.storage.NoStorage? && d.data == []
    ensures forall n: nat :: Start(Starts(d, apiKey, n), apiKey).1 == Err(NoDocuments)
  {
    forall n: nat ensures Start(Starts(d, apiKey, n), apiKey).1 == Err(NoDocuments) {
      if n > 0 {
        StartsReadOnce(d, apiKey, n);
      }
    }
  }

  /** The machine the process starts on: its file system and the module-level `index`. */
  class Host {
    var disk: Disk
    var index: Option<Index>

    constructor (d: Disk)
      ensures disk == d && index.None?
    {
      disk := d;
      index := None;
    }

    /** The module body of the worker, up to the definition of the tool. */
    method LoadModule(apiKey: Option<string>) returns (r: Result<Index, StartError>)
      modifies this
      ensures (disk, r) == Start(old(disk), apiKey)
      ensures index == if r.Ok? then Some(r.value) else old(index)
    {
      if apiKey.None? || apiKey.value == "" {
        return Err(MissingApiKey);
      }
      match disk.storage {
        case NoStorage =>
          var documents := disk.data;
          if documents == [] {
            return Err(NoDocuments);
          }
          disk := disk.(corpusReads := disk.corpusReads + 1);
          var built := Index(documents);
          disk := disk.(storage := Stored(built));
          index := Some(built);
        case Stored(stored) =>
          index := Some(stored);
        case Unreadable =>
          return Err(StoreUnreadable);
      }
      r := Ok(index.value);
    }

    /**
     * The worker process: the module body runs on import, and only when it
     * completes does the command line hand the jobs to `entrypoint`, one run
     * each.  A module body that raises ends the process before any job.  A
     * job that raises ends only that job.
     */
    method RunWorker(apiKey: Option<string>, jobs: seq<Job>)
      returns (r: Result<Index, StartError>, traces: seq<seq<Effect>>)
      modifies this
      ensures (disk, r) == Start(old(disk), apiKey)
      ensures r.Err? ==> traces == []
      ensures r.Ok? ==> |traces| == |jobs|
      ensures r.Ok? ==> forall i :: 0 <= i < |jobs| ==>
          traces[i] == SessionTrace(ResolveFlag(jobs[i].roster))[..Reached(jobs[i].raises)]
    {
      r := LoadModule(apiKey);
      traces := [];
      if r.Err? {
        return;
      }
      ghost var started := disk;
      var i := 0;
      while i < |jobs|
        invariant 0 <= i <= |jobs| && |traces| == i
        invariant disk == started
        invariant forall j :: 0 <= j < i ==>
          traces[j] == SessionTrace(ResolveFlag(jobs[j].roster))[..Reached(jobs[j].raises)]
      {
        var trace := Entrypoint(jobs[i].raises, jobs[i].roster);
        traces := traces + [trace];
        i := i + 1;
      }
    }
  }

  /** One job the worker is given: the room's participants and which call of `entrypoint` raises. */
  datatype Job = Job(raises: Option<Raise>, roster: Option<seq<Participant>>)

  /** A remote participant of the room; `metadata` is the string its client set. */
  datatype Participant = Participant(identity: string, metadata: string)

  /** The retrieval tool `query_info`, as an opaque value. */
  datatype Tool = QueryInfo

  /**
   * `json.loads(metadata).get('ragEnabled', True)`, or None when it raises:
   * the text is not JSON, or the value is not a dict and has no `get`.
   */
  function MetadataFlag(metadata: string): (r: Option<Value>)
    ensures r.None? <==> !(Parse(metadata).Some? && Parse(metadata).value.JObject?)
    ensures r.Some? && Lookup(Parse(metadata).value.members, "ragEnabled").None? ==> r == Some(JBool(true))
  {
    match Parse(metadata)
    case Some(JObject(ms)) => Some(Lookup(ms, "ragEnabled").GetOr(JBool(true)))
    case _ => None
  }

  /**
   * The value of `rag_enabled` once the try/except is done.  The roster is
   * None when listing the room's participants raises.
   */
  function ResolveFlag(roster: Option<seq<Participant>>): (flag: Value)
    ensures roster.None? || roster == Some([]) ==> flag == JBool(true)
    ensures roster.Some? && roster.value != [] && roster.value[0].metadata == "" ==> flag == JBool(true)
  {
    match roster
    case None => JBool(true)
    case Some(ps) =>
      if ps == [] || ps[0].metadata == "" then JBool(true)
      else MetadataFlag(ps[0].metadata).GetOr(JBool(true))
  }

  /** Only the first participant is consulted: whoever else is in the room changes nothing. */
  lemma FirstParticipantOnly(p: Participant, others: seq<Participant>, others': seq<Participant>)
    ensures ResolveFlag(Some([p] + others)) == ResolveFlag(Some([p] + others'))
  {
  }

  /**
   * The flag falls back to true when the metadata is not JSON, is JSON but
   * not an object, or is an object without the key; otherwise it is the
   * value stored under the key, whatever its type.
   */
  lemma FlagFromMetadata(p: Participant, others: seq<Participant>)
    requires p.metadata != ""
    ensures var flag := ResolveFlag(Some([p] + others));
      match Parse(p.metadata)
      case None => flag == JBool(true)
      case Some(v) =>
        if !v.JObject? then flag == JBool(true)
        else if Lookup(v.members, "ragEnabled").None? then flag == JBool(true)
        else flag == Lookup(v.members, "ragEnabled").value
  {
  }

  /** The metadata the front end sets: `JSON.stringify({ ragEnabled })`. */
  function EncodeRagState(enabled: bool): string {
    Stringify(JObject([Member("ragEnabled", JBool(enabled))]))
  }

  /** The front end's encoding decodes back to the boolean it wrote. */
  lemma {:induction false} RagStateRoundTrip(enabled: bool, identity: string, others: seq<Participant>)
    ensures ResolveFlag(Some([Participant(identity, EncodeRagState(enabled))] + others)) == JBool(enabled)
  {
    var v := JObject([Member("ragEnabled", JBool(enabled))]);
    assert WellFormed(v);
    RoundTrip(v);
    assert EncodeRagState(enabled) != "";
  }

  /** `[query_info] if rag_enabled else []`. */
  function ToolsFor(flag: Value): (tools: seq<Tool>)
    ensures |tools| <= 1
    ensures tools == [QueryInfo] <==> PyTruthy(flag)
    ensures tools == [] <==> !PyTruthy(flag)
  {
    if PyTruthy(flag) then [QueryInfo] else []
  }

  /** A non-boolean value is judged by Python truthiness: the string "false" still offers the tool. */
  lemma StringFalseEnables()
    ensures ToolsFor(JString("false")) == [QueryInfo]
    ensures ToolsFor(JNumber(0)) == [] && ToolsFor(JObject([])) == [] && ToolsFor(JString("")) == []
  {
  }

  /** The front end's toggle decides the tool list. */
  lemma {:induction false} ToolsFollowToggle(enabled: bool, identity: string, others: seq<Participant>)
    ensures ToolsFor(ResolveFlag(Some([Participant(identity, EncodeRagState(enabled))] + others))) ==
            if enabled then [QueryInfo] else []
  {
    RagStateRoundTrip(enabled, identity, others);
  }

  const Greeting: string := "Hey, how can I help you today?"

  /** What the session does that is observable, in order. */
  datatype Effect =
    | Connected
    | FlagResolved(flag: Value)
    | AgentBuilt(tools: seq<Tool>)
    | SessionStarted
    | Said(text: string, allowInterruptions: bool)

  /**
   * The call of `entrypoint` that raises, if any: `ctx.connect()`, the
   * construction of the agent and its plugins (the voice activity model is
   * loaded there), `session.start` or `session.say`.  None of them is inside
   * a try, so the exception leaves the entrypoint and nothing after it
   * happens.
   */
  datatype Raise = ConnectRaises | AgentRaises | StartRaises | SayRaises

  /** The effects of a session in which nothing raises. */
  function SessionTrace(flag: Value): seq<Effect> {
    [Connected, FlagResolved(flag), AgentBuilt(ToolsFor(flag)), SessionStarted, Said(Greeting, true)]
  }

  /** How many effects of the session happen before the given call raises. */
  function Reached(raises: Option<Raise>): (k: nat)
    ensures k <= 5
  {
    match raises
    case None => 5
    case Some(ConnectRaises) => 0
    case Some(AgentRaises) => 2
    case Some(StartRaises) => 3
    case Some(SayRaises) => 4
  }

  /** The metadata read of `entrypoint`, with its try/except. */
  method ReadFlag(roster: Option<seq<Participant>>) returns (ragEnabled: Value)
    ensures ragEnabled == ResolveFlag(roster)
  {
    ragEnabled := JBool(true);
    if roster.Some? {
      var participants := roster.value;
      if participants != [] {
        var participant := participants[0];
        if participant.metadata != "" {
          var got := MetadataFlag(participant.metadata);
          if got.Some? {
            ragEnabled := got.value;
          } else {
            ragEnabled := JBool(true);
          }
        }
      }
    }
  }

  /** `entrypoint` for one job; `raises` says which call, if any, raises. */
  method Entrypoint(raises: Option<Raise>, roster: Option<seq<Participant>>) returns (trace: seq<Effect>)
    ensures raises == Some(ConnectRaises) ==> trace == []
    ensures raises.None? ==> trace == SessionTrace(ResolveFlag(roster))
    ensures trace == SessionTrace(ResolveFlag(roster))[..Reached(raises)]
    ensures InOrder(trace)
    ensures Said(Greeting, true) in trace <==> raises.None?
  {
    ghost var flag := ResolveFlag(roster);
    CutShort(flag, raises);
    trace := [];
    if raises == Some(ConnectRaises) {
      return;
    }
    trace := trace + [Connected];
    var ragEnabled := ReadFlag(roster);
    trace := trace + [FlagResolved(ragEnabled)];
    var tools := if PyTruthy(ragEnabled) then [QueryInfo] else [];
    assert tools == ToolsFor(flag);
    if raises == Some(AgentRaises) {
      return;
    }
    trace := trace + [AgentBuilt(tools)];
    if raises == Some(StartRaises) {
      return;
    }
    trace := trace + [SessionStarted];
    if raises == Some(SayRaises) {
      return;
    }
    trace := trace + [Said(Greeting, true)];
  }

  /** The trace of a session cut short where `raises` says, and what it keeps. */
  lemma CutShort(flag: Value, raises: Option<Raise>)
    ensures var full := SessionTrace(flag);
      full[..0] == [] && full[..2] == [Connected, FlagResolved(flag)] &&
      full[..3] == [Connected, FlagResolved(flag), AgentBuilt(ToolsFor(flag))] &&
      full[..4] == [Connected, FlagResolved(flag), AgentBuilt(ToolsFor(flag)), SessionStarted] &&
      full[..5] == full
    ensures InOrder(SessionTrace(flag)[..Reached(raises)])
    ensures Said(Greeting, true) in SessionTrace(flag)[..Reached(raises)] <==> raises.None?
  {
    SessionOrder(flag);
  }

  /** Where each kind of effect stands in the procedure. */
  function Stage(e: Effect): nat {
    match e
    case Connected => 0
    case FlagResolved(_) => 1
    case AgentBuilt(_) => 2
    case SessionStarted => 3
    case Said(_, _) => 4
  }

  /** Every effect happens after those of earlier stages; no stage happens twice. */
  predicate InOrder(trace: seq<Effect>) {
    forall i, j :: 0 <= i < j < |trace| ==> Stage(trace[i]) < Stage(trace[j])
  }

  /**
   * The fixed order of a session: the connection precedes the metadata read;
   * the agent is built with the resolved tools before the session starts; the
   * greeting comes last, with interruptions allowed.  Every prefix of it, the
   * trace of a session cut short by an exception, keeps that order.
   */
  lemma SessionOrder(flag: Value)
    ensures var trace := SessionTrace(flag);
      InOrder(trace) && |trace| == 5 && forall i :: 0 <= i < |trace| ==> Stage(trace[i]) == i
    ensures forall k :: 0 <= k <= 5 ==> InOrder(SessionTrace(flag)[..k])
  {
  }
}
