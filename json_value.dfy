/**
 * JSON values as the three parts of the system see them after JSON.parse (the
 * front end and the log route) or json.loads (the agent).  An object is a
 * sequence of members in insertion order; a value produced by the parser never
 * repeats a key (see Dedup).  Numbers are integers: fractions and exponents are
 * not part of this model.
 */
module JsonValue {
  import opened Wrappers

  datatype Value =
    | JNull
    | JBool(b: bool)
    | JNumber(n: int)
    | JString(s: string)
    | JArray(items: seq<Value>)
    | JObject(members: seq<Member>)

  datatype Member = Member(key: string, value: Value)

  predicate DistinctKeys(ms: seq<Member>) {
    forall i, j :: 0 <= i < j < |ms| ==> ms[i].key != ms[j].key
  }

  /** No object anywhere inside v repeats a key: what a JS object or a Python dict can hold. */
  predicate WellFormed(v: Value) {
    match v
    case JArray(items) => forall i :: 0 <= i < |items| ==> WellFormed(items[i])
    case JObject(ms) => DistinctKeys(ms) && forall i :: 0 <= i < |ms| ==> WellFormed(ms[i].value)
    case _ => true
  }

  /** The value of the first member named k. */
  function Lookup(ms: seq<Member>, k: string): (r: Option<Value>)
    ensures r.None? <==> forall i :: 0 <= i < |ms| ==> ms[i].key != k
    ensures r.Some? ==> exists i :: 0 <= i < |ms| && ms[i] == Member(k, r.value) &&
                                   forall j :: 0 <= j < i ==> ms[j].key != k
  {
    if ms == [] then None
    else if ms[0].key == k then Some(ms[0].value)
    else
      var r := Lookup(ms[1..], k);
      assert forall i :: 1 <= i < |ms| ==> ms[i] == ms[1..][i - 1];
      r
  }

  /** Looking up past a first member with another key. */
  lemma LookupCons(m: Member, ms: seq<Member>, k: string)
    ensures Lookup([m] + ms, k) == if m.key == k then Some(m.value) else Lookup(ms, k)
  {
    assert ([m] + ms)[1..] == ms;
  }

  /** The value of the last member named k. */
  function LastLookup(ms: seq<Member>, k: string): (r: Option<Value>)
    ensures r.None? <==> forall i :: 0 <= i < |ms| ==> ms[i].key != k
    ensures r.Some? ==> Member(k, r.value) in ms
  {
    if ms == [] then None
    else if ms[|ms| - 1].key == k then Some(ms[|ms| - 1].value)
    else
      var init := ms[..|ms| - 1];
      assert ms == init + [ms[|ms| - 1]];
      LastLookup(init, k)
  }

  /**
   * Assignment d[k] = v on a dictionary held as a member sequence: an existing
   * key keeps its position and takes the new value, a new key goes last.
   */
  function Insert(ms: seq<Member>, k: string, v: Value): (r: seq<Member>)
    ensures |r| <= |ms| + 1
  {
    if ms == [] then [Member(k, v)]
    else if ms[0].key == k then [Member(k, v)] + ms[1..]
    else [ms[0]] + Insert(ms[1..], k, v)
  }

  lemma {:induction false} InsertLookup(ms: seq<Member>, k: string, v: Value, k': string)
    ensures Lookup(Insert(ms, k, v), k') == if k' == k then Some(v) else Lookup(ms, k')
  {
    if ms != [] && ms[0].key != k {
      InsertLookup(ms[1..], k, v, k');
    }
  }

  lemma {:induction false} InsertFresh(ms: seq<Member>, k: string, v: Value)
    requires Lookup(ms, k).None?
    ensures Insert(ms, k, v) == ms + [Member(k, v)]
  {
    if ms != [] {
      InsertFresh(ms[1..], k, v);
      assert ms == [ms[0]] + ms[1..];
    }
  }

  lemma {:induction false} InsertMembers(ms: seq<Member>, k: string, v: Value)
    ensures forall m :: m in Insert(ms, k, v) ==> m == Member(k, v) || m in ms
  {
    if ms != [] && ms[0].key != k {
      InsertMembers(ms[1..], k, v);
    }
  }

  lemma {:induction false} InsertDistinct(ms: seq<Member>, k: string, v: Value)
    requires DistinctKeys(ms)
    ensures DistinctKeys(Insert(ms, k, v))
  {
    if ms != [] && ms[0].key != k {
      var tail := ms[1..];
      InsertDistinct(tail, k, v);
      InsertMembers(tail, k, v);
      var r := Insert(ms, k, v);
      assert r == [ms[0]] + Insert(tail, k, v);
      forall j | 0 < j < |r| ensures r[j].key != ms[0].key {
        assert r[j] in Insert(tail, k, v);
      }
    }
  }

  /**
   * The object built from members in text order: a later duplicate overwrites
   * the value of the earlier one in place, as a JS object and a Python dict do.
   */
  function Dedup(ms: seq<Member>): (r: seq<Member>)
  {
    if ms == [] then []
    else Insert(Dedup(ms[..|ms| - 1]), ms[|ms| - 1].key, ms[|ms| - 1].value)
  }

  /** A key read from the built object gives the last value the text gave it. */
  lemma {:induction false} DedupLookup(ms: seq<Member>, k: string)
    ensures Lookup(Dedup(ms), k) == LastLookup(ms, k)
  {
    if ms != [] {
      var init := ms[..|ms| - 1];
      DedupLookup(init, k);
      InsertLookup(Dedup(init), ms[|ms| - 1].key, ms[|ms| - 1].value, k);
    }
  }

  lemma {:induction false} DedupDistinct(ms: seq<Member>)
    ensures DistinctKeys(Dedup(ms))
  {
    if ms != [] {
      DedupDistinct(ms[..|ms| - 1]);
      InsertDistinct(Dedup(ms[..|ms| - 1]), ms[|ms| - 1].key, ms[|ms| - 1].value);
    }
  }

  /** Every member of the built object is one of the members of the text. */
  lemma {:induction false} DedupMembers(ms: seq<Member>)
    ensures forall m :: m in Dedup(ms) ==> m in ms
  {
    if ms != [] {
      var init := ms[..|ms| - 1];
      DedupMembers(init);
      InsertMembers(Dedup(init), ms[|ms| - 1].key, ms[|ms| - 1].value);
      assert ms == init + [ms[|ms| - 1]];
    }
  }

  /** Without duplicate keys nothing is merged. */
  lemma {:induction false} DedupDistinctIdentity(ms: seq<Member>)
    requires DistinctKeys(ms)
    ensures Dedup(ms) == ms
  {
    if ms != [] {
      var init := ms[..|ms| - 1];
      var last := ms[|ms| - 1];
      assert DistinctKeys(init);
      DedupDistinctIdentity(init);
      assert Lookup(init, last.key).None?;
      InsertFresh(init, last.key, last.value);
      assert ms == init + [last];
    }
  }

  /** `bool(v)` in Python. */
  predicate PyTruthy(v: Value) {
    match v
    case JNull => false
    case JBool(b) => b
    case JNumber(n) => n != 0
    case JString(s) => s != ""
    case JArray(items) => items != []
    case JObject(ms) => ms != []
  }

  /** ToBoolean in JavaScript: arrays and objects are truthy even when empty. */
  predicate JsTruthy(v: Value) {
    match v
    case JNull => false
    case JBool(b) => b
    case JNumber(n) => n != 0
    case JString(s) => s != ""
    case JArray(_) => true
    case JObject(_) => true
  }

  /**
   * Reading property `name` of a non-null JS value: an object's own member, and
   * undefined (None) on every other value, for the names used here ("level",
   * "message"), which no built-in prototype defines.
   */
  function Prop(v: Value, name: string): (r: Option<Value>)
    ensures r.Some? ==> v.JObject?
    ensures v.JObject? ==> r == Lookup(v.members, name)
  {
    if v.JObject? then Lookup(v.members, name) else None
  }
}
