/**
 * The persistent backend of pkg/store/badger.go. The embedded engine is a
 * map from key to value bytes; its forward iterator visits keys in ascending
 * byte order. Values go through a JSON codec, given as a pair of functions;
 * the properties that need decode(encode(a)) == a take that as a hypothesis.
 */
module Badger {
  import opened Wrappers
  import opened Api
  import opened Store

  /** The JSON encoding of an alert list and its decoder (encoding/json). */
  datatype Codec = Codec(encode: seq<Alert> -> Result<Bytes, string>,
                         decode: Bytes -> Result<seq<Alert>, string>)

  /** Decoding an encoding gives back the list it encoded. */
  ghost predicate RoundTrips(c: Codec)
  {
    forall a :: c.encode(a).Success? ==> c.decode(c.encode(a).value) == Success(a)
  }

  /** The engine's state: raw key bytes (the id) to stored value bytes. */
  type Engine = map<string, Bytes>

  /** The engine's own missing-key signal, `badger.ErrKeyNotFound`. */
  const ErrKeyNotFound := EngineError("Key not found")

  /** A point read inside a read transaction (`txn.Get` then `item.Value`). */
  function Read(e: Engine, key: string): (r: Result<Bytes, Err>)
    ensures r.Success? <==> key in e
    ensures r.Success? ==> r.value == e[key]
    ensures r.Failure? ==> r.error == ErrKeyNotFound
  {
    if key in e then Success(e[key]) else Failure(ErrKeyNotFound)
  }

  // ---------------------------------------------------------------------
  // Opening the engine.
  // ---------------------------------------------------------------------

  /** Where the engine keeps its data. */
  datatype Mode = Durable(path: string) | Ephemeral

  /** An empty path selects the in-memory engine, any other path a directory. */
  function ModeOf(path: string): (m: Mode)
    ensures m == Ephemeral <==> path == ""
    ensures m.Durable? ==> m.path == path
  {
    if path != "" then Durable(path) else Ephemeral
  }

  /** What `badger.Open` gives: the keys already stored, or an open failure. */
  datatype OpenResult = Opened(initial: Engine) | OpenFailed(reason: string)

  // ---------------------------------------------------------------------
  // The operations on engine states.
  // ---------------------------------------------------------------------

  /** `Get`: read, translate the engine's miss to ErrNotFound, decode. */
  function KvGet(c: Codec, e: Engine, id: string): (seq<Alert>, Option<Err>)
  {
    match Read(e, id)
    case Failure(err) =>
      if err == ErrKeyNotFound then ([], Some(Sentinel(ErrNotFound))) else ([], Some(err))
    case Success(b) =>
      match c.decode(b)
      case Failure(m) => ([], Some(JsonError(m)))
      case Success(a) => (a, None)
  }

  /** `Set`: encode, then write; an encoding failure writes nothing. */
  function KvSet(c: Codec, e: Engine, id: string, alerts: seq<Alert>): (Engine, Option<Err>)
  {
    match c.encode(alerts)
    case Failure(m) => (e, Some(JsonError(m)))
    case Success(b) => (e[id := b], None)
  }

  /**
   * `toMessageEntry` as the corrected helper: the raw key bytes are the id
   * and the value is decoded, exactly as the loop in `List` does.
   */
  function ToMessageEntry(c: Codec, key: string, v: Bytes): (r: Result<MessageEntry, Err>)
    ensures r.Success? <==> c.decode(v).Success?
    ensures r.Success? ==> r.value == MessageEntry(key, c.decode(v).value)
    ensures r.Failure? ==> r.error == JsonError(c.decode(v).error)
  {
    match c.decode(v)
    case Failure(m) => Failure(JsonError(m))
    case Success(alerts) => Success(MessageEntry(key, alerts))
  }

  /** The blanks JSON allows before a value. */
  predicate IsJsonSpace(c: char) { c == ' ' || c == '\t' || c == '\n' || c == '\r' }

  /**
   * Text that can only fail to decode into a Go string: it is empty, or its
   * first character is neither a blank, nor `"`, nor the `n` of `null`. A
   * JSON value starting any other way is a syntax error, a number, a
   * boolean, an object or an array, and each of those is an error for a
   * string target. (`null` is accepted and leaves the string empty.)
   */
  predicate NeverAString(s: string)
  {
    s == [] || (!IsJsonSpace(s[0]) && s[0] != '"' && s[0] != 'n')
  }

  /** What decoding JSON text into a Go string must do at least: reject text that is never a string. */
  ghost predicate RejectsNonString(decodeString: string -> Result<string, string>)
  {
    forall s :: NeverAString(s) ==> decodeString(s).Failure?
  }

  /**
   * `toMessageEntry` as written: the value is decoded, then the key bytes
   * are decoded as a JSON string, although `Set` stores the id's raw bytes.
   */
  function ToMessageEntryAsWritten(c: Codec, decodeString: string -> Result<string, string>,
                                   key: string, v: Bytes): Result<MessageEntry, Err>
  {
    match c.decode(v)
    case Failure(m) => Failure(JsonError(m))
    case Success(alerts) =>
      match decodeString(key)
      case Failure(m) => Failure(JsonError(m))
      case Success(id) => Success(MessageEntry(id, alerts))
  }

  /**
   * Every id that starts with neither a blank, nor `"`, nor `n`, the empty id
   * included, fails the helper as written.
   */
  lemma AsWrittenRejectsPlainIds(c: Codec, decodeString: string -> Result<string, string>, key: string, v: Bytes)
    requires RejectsNonString(decodeString)
    requires NeverAString(key)
    ensures ToMessageEntryAsWritten(c, decodeString, key, v).Failure?
  {
    assert decodeString(key).Failure?;
  }

  /**
   * The stored id `null` decodes, as JSON `null` into a Go string does, to
   * the empty string: the helper as written then reports the entry under
   * id `""` instead of `null`.
   */
  lemma AsWrittenRenamesNull(c: Codec, decodeString: string -> Result<string, string>, key: string, v: Bytes)
    requires key == "null" && decodeString(key) == Success("")
    requires c.decode(v).Success?
    ensures ToMessageEntryAsWritten(c, decodeString, key, v) == Success(MessageEntry("", c.decode(v).value))
    ensures ToMessageEntry(c, key, v) == Success(MessageEntry(key, c.decode(v).value))
    ensures ToMessageEntryAsWritten(c, decodeString, key, v).value.id != ToMessageEntry(c, key, v).value.id
  {
  }

  /**
   * The entry stored by `Set("any", a)` is rejected by the helper as written,
   * while the corrected helper gives back `("any", a)`.
   */
  lemma StoredKeyRejected(c: Codec, decodeString: string -> Result<string, string>, a: seq<Alert>)
    requires RoundTrips(c) && RejectsNonString(decodeString)
    requires c.encode(a).Success?
    ensures "any" in KvSet(c, map[], "any", a).0
    ensures ToMessageEntryAsWritten(c, decodeString, "any", KvSet(c, map[], "any", a).0["any"]).Failure?
    ensures ToMessageEntry(c, "any", KvSet(c, map[], "any", a).0["any"]) == Success(MessageEntry("any", a))
  {
    var key := "any";
    assert NeverAString(key) by { assert key[0] == 'a'; }
    assert decodeString(key).Failure?;
  }

  /** The iterator's walk over `order`: entries so far, or the first decode error. */
  function KvCollect(c: Codec, e: Engine, order: seq<string>): Result<seq<MessageEntry>, Err>
    requires forall i :: 0 <= i < |order| ==> order[i] in e
  {
    if order == [] then Success([])
    else
      var k := order[|order| - 1];
      match KvCollect(c, e, order[..|order| - 1])
      case Failure(err) => Failure(err)
      case Success(entries) =>
        match ToMessageEntry(c, k, e[k])
        case Failure(err) => Failure(err)
        case Success(entry) => Success(entries + [entry])
  }

  /** Every stored value decodes. */
  ghost predicate Decodable(c: Codec, e: Engine)
  {
    forall k :: k in e ==> c.decode(e[k]).Success?
  }

  /** The abstract store an engine whose values all decode represents. */
  ghost function Abstract(c: Codec, e: Engine): History
    requires Decodable(c, e)
  {
    map k | k in e :: c.decode(e[k]).value
  }

  // ---------------------------------------------------------------------
  // Byte order of keys, as the engine's iterator sees it.
  // ---------------------------------------------------------------------

  /** `a` sorts strictly before `b` byte by byte (a proper prefix sorts first). */
  predicate Below(a: string, b: string)
  {
    if a == [] then b != []
    else if b == [] then false
    else if a[0] == b[0] then Below(a[1..], b[1..])
    else a[0] < b[0]
  }

  lemma {:induction false} BelowIrreflexive(a: string)
    ensures !Below(a, a)
  {
    if a != [] { BelowIrreflexive(a[1..]); }
  }

  lemma {:induction false} BelowTransitive(a: string, b: string, c: string)
    requires Below(a, b) && Below(b, c)
    ensures Below(a, c)
  {
    if a != [] && b != [] && c != [] && a[0] == b[0] && b[0] == c[0] {
      BelowTransitive(a[1..], b[1..], c[1..]);
    }
  }

  lemma {:induction false} BelowTotal(a: string, b: string)
    requires a != b
    ensures Below(a, b) || Below(b, a)
  {
    if a != [] && b != [] && a[0] == b[0] {
      assert a == [a[0]] + a[1..] && b == [b[0]] + b[1..];
      BelowTotal(a[1..], b[1..]);
    }
  }

  /** `k` is the key of `s` that sorts first. */
  predicate IsFirst(k: string, s: set<string>)
  {
    k in s && forall k' :: k' in s && k' != k ==> Below(k, k')
  }

  /** A non-empty set of keys has a first key. */
  lemma {:induction false} FirstKeyExists(s: set<string>)
    requires s != {}
    ensures exists k :: IsFirst(k, s)
  {
    var x :| x in s;
    if s == {x} {
      assert IsFirst(x, s);
    } else {
      FirstKeyExists(s - {x});
      var m :| IsFirst(m, s - {x});
      BelowTotal(m, x);
      if Below(m, x) {
        assert IsFirst(m, s);
      } else {
        forall k' | k' in s && k' != x ensures Below(x, k') {
          if k' != m { BelowTransitive(x, m, k'); }
        }
        assert IsFirst(x, s);
      }
    }
  }

  /** Strictly ascending key order, every key in the engine. */
  ghost predicate Ascending(e: Engine, order: seq<string>)
  {
    && (forall i :: 0 <= i < |order| ==> order[i] in e)
    && (forall i, j :: 0 <= i < j < |order| ==> Below(order[i], order[j]))
  }

  // ---------------------------------------------------------------------
  // Properties of the operations.
  // ---------------------------------------------------------------------

  /** A miss is ErrNotFound, never the engine's own not-found error, with a nil list. */
  lemma GetMissIsNotFound(c: Codec, e: Engine, id: string)
    ensures id !in e <==> KvGet(c, e, id).1 == Some(Sentinel(ErrNotFound))
    ensures KvGet(c, e, id).1 != Some(ErrKeyNotFound)
    ensures KvGet(c, e, id).1.Some? ==> KvGet(c, e, id).0 == []
  {
  }

  /** Set then Get gives back the list (deep-equal), and other ids are untouched. */
  lemma SetThenGet(c: Codec, e: Engine, id: string, other: string, a: seq<Alert>)
    requires RoundTrips(c)
    requires c.encode(a).Success?
    ensures KvSet(c, e, id, a).1 == None
    ensures KvGet(c, KvSet(c, e, id, a).0, id) == (a, None)
    ensures other != id ==> KvGet(c, KvSet(c, e, id, a).0, other) == KvGet(c, e, other)
  {
  }

  /** A failed encoding leaves the engine as it was and returns the error. */
  lemma SetEncodeFailureWritesNothing(c: Codec, e: Engine, id: string, a: seq<Alert>)
    requires c.encode(a).Failure?
    ensures KvSet(c, e, id, a) == (e, Some(JsonError(c.encode(a).error)))
  {
  }

  /** The second of two Sets to one id decides what is stored. */
  lemma SetOverwrites(c: Codec, e: Engine, id: string, a1: seq<Alert>, a2: seq<Alert>)
    requires RoundTrips(c)
    requires c.encode(a1).Success? && c.encode(a2).Success?
    ensures KvGet(c, KvSet(c, KvSet(c, e, id, a1).0, id, a2).0, id) == (a2, None)
  {
  }

  /**
   * On an engine whose values all decode, the backend is the abstract store:
   * Get is Lookup, and a successful Set is Upsert and keeps every value decodable.
   */
  lemma RefinesStore(c: Codec, e: Engine, id: string, a: seq<Alert>)
    requires RoundTrips(c) && Decodable(c, e)
    ensures KvGet(c, e, id) == Lookup(Abstract(c, e), id)
    ensures KvSet(c, e, id, a).1 == None ==>
      Decodable(c, KvSet(c, e, id, a).0) &&
      Abstract(c, KvSet(c, e, id, a).0) == Upsert(Abstract(c, e), id, a)
  {
    if c.encode(a).Success? {
      var e' := KvSet(c, e, id, a).0;
      assert Decodable(c, e');
      assert Abstract(c, e') == Upsert(Abstract(c, e), id, a);
    }
  }

  /** The walk succeeds exactly when every visited value decodes, pairing key and decoded value. */
  lemma {:induction false} KvCollectSpec(c: Codec, e: Engine, order: seq<string>)
    requires forall i :: 0 <= i < |order| ==> order[i] in e
    ensures KvCollect(c, e, order).Success? <==>
      forall i :: 0 <= i < |order| ==> c.decode(e[order[i]]).Success?
    ensures KvCollect(c, e, order).Success? ==>
      |KvCollect(c, e, order).value| == |order| &&
      forall i :: 0 <= i < |order| ==>
        KvCollect(c, e, order).value[i] == MessageEntry(order[i], c.decode(e[order[i]]).value)
  {
    if order != [] {
      KvCollectSpec(c, e, order[..|order| - 1]);
    }
  }

  /** A complete walk over decodable values lists the abstract store exactly. */
  lemma CompleteWalkIsExact(c: Codec, e: Engine, order: seq<string>, entries: seq<MessageEntry>)
    requires Decodable(c, e) && Ascending(e, order) && (forall k :: k in e ==> k in order)
    requires |entries| == |order|
    requires forall i :: 0 <= i < |order| ==> entries[i] == MessageEntry(order[i], c.decode(e[order[i]]).value)
    ensures ListsExactly(entries, Abstract(c, e))
  {
    forall i, j | 0 <= i < j < |entries| ensures entries[i].id != entries[j].id {
      BelowIrreflexive(order[i]);
    }
    forall id | id in Abstract(c, e) ensures exists i :: 0 <= i < |entries| && entries[i].id == id {
      var i :| 0 <= i < |order| && order[i] == id;
      assert entries[i].id == id;
    }
  }

  // ---------------------------------------------------------------------
  // The store object.
  // ---------------------------------------------------------------------

  class KeyValueStore {
    /** The JSON codec the store encodes and decodes with. */
    const codec: Codec
    /** The mode the engine was opened in. */
    const mode: Mode
    /** The shared engine handle's data. */
    var engine: Engine

    constructor (codec: Codec, mode: Mode, initial: Engine)
      ensures this.codec == codec && this.mode == mode && engine == initial
    {
      this.codec := codec;
      this.mode := mode;
      engine := initial;
    }

    /** `Get`: ErrNotFound on a miss, the decoded list on a hit, a nil list on any error. */
    method Get(id: string) returns (alerts: seq<Alert>, err: Option<Err>)
      ensures (alerts, err) == KvGet(codec, engine, id)
    {
      var out: seq<Alert> := [];
      err := None;
      match Read(engine, id) {
        case Failure(e) =>
          if e == ErrKeyNotFound {
            err := Some(Sentinel(ErrNotFound));
          } else {
            err := Some(e);
          }
        case Success(val) =>
          match codec.decode(val) {
            case Failure(m) =>
              err := Some(JsonError(m));
            case Success(decoded) =>
              out := decoded;
          }
      }
      if err.Some? {
        return [], err;
      }
      alerts := out;
    }

    /** `Set`: encode first; only an encoded list is written. */
    method Set(id: string, alerts: seq<Alert>) returns (err: Option<Err>)
      modifies this
      ensures (engine, err) == KvSet(codec, old(engine), id, alerts)
    {
      match codec.encode(alerts)
      case Failure(m) =>
        return Some(JsonError(m));
      case Success(b) =>
        engine := engine[id := b];
        err := None;
    }

    /**
     * `List`: a forward iteration from the first key in byte order. Each value
     * is decoded; the first failure ends the walk with a nil list and the
     * error. `order` is the keys the iterator visited.
     */
    method List() returns (entries: seq<MessageEntry>, err: Option<Err>, ghost order: seq<string>)
      ensures Ascending(engine, order)
      ensures forall i, k :: 0 <= i < |order| && k in engine && k !in order ==> Below(order[i], k)
      ensures err.Some? ==> order != [] && codec.decode(engine[order[|order| - 1]]).Failure?
      ensures err.Some? ==> KvCollect(codec, engine, order[..|order| - 1]).Success?
      ensures err.None? ==> (forall k :: k in engine ==> k in order) && KvCollect(codec, engine, order) == Success(entries)
      ensures err.Some? ==> entries == [] && KvCollect(codec, engine, order) == Failure(err.value)
      ensures err.None? <==> Decodable(codec, engine)
      ensures Decodable(codec, engine) ==> ListsExactly(entries, Abstract(codec, engine))
    {
      var rest := engine.Keys;
      entries, err, order := [], None, [];
      while rest != {}
        invariant rest <= engine.Keys
        invariant Ascending(engine, order)
        invariant forall i, k :: 0 <= i < |order| && k in rest ==> Below(order[i], k)
        invariant forall k :: k in engine ==> k in rest || k in order
        invariant KvCollect(codec, engine, order) == Success(entries)
        decreases rest
      {
        FirstKeyExists(rest);
        var key :| IsFirst(key, rest);
        ghost var before := order;
        order := order + [key];
        assert order[..|order| - 1] == before;
        rest := rest - {key};
        match ToMessageEntry(codec, key, engine[key])
        case Failure(e) =>
          err := Some(e);
          assert KvCollect(codec, engine, order[..|order| - 1]).Success?;
          break;
        case Success(entry) =>
          entries := entries + [entry];
      }
      KvCollectSpec(codec, engine, order);
      if err.Some? {
        entries := [];
        assert !Decodable(codec, engine) by {
          var last := order[|order| - 1];
          assert codec.decode(engine[last]).Failure?;
        }
      } else {
        assert Decodable(codec, engine) by {
          forall k | k in engine ensures codec.decode(engine[k]).Success? {
            var i :| 0 <= i < |order| && order[i] == k;
          }
        }
        CompleteWalkIsExact(codec, engine, order, entries);
      }
    }
  }

  /**
   * `NewKeyValueStore`: opens the engine in the mode the path selects. On
   * failure there is no store, only the wrapped open error.
   */
  method NewKeyValueStore(path: string, codec: Codec, open: Mode -> OpenResult)
    returns (store: KeyValueStore?, err: Option<Err>)
    ensures open(ModeOf(path)).OpenFailed? ==>
      store == null && err == Some(Wrapped("failed to open db", EngineError(open(ModeOf(path)).reason)))
    ensures open(ModeOf(path)).Opened? ==>
      store != null && fresh(store) && err == None &&
      store.mode == ModeOf(path) && store.codec == codec && store.engine == open(ModeOf(path)).initial
  {
    var mode := if path != "" then Durable(path) else Ephemeral;
    match open(mode)
    case OpenFailed(reason) =>
      store, err := null, Some(Wrapped("failed to open db", EngineError(reason)));
    case Opened(initial) =>
      store := new KeyValueStore(codec, mode, initial);
      err := None;
  }

  /** `badger_test.go`: on a fresh in-memory store, Set then Get returns the list set. */
  method SetThenGetOnFreshStore(codec: Codec, open: Mode -> OpenResult, id: string, a: seq<Alert>)
    returns (setErr: Option<Err>, got: seq<Alert>, getErr: Option<Err>)
    requires RoundTrips(codec) && open(Ephemeral) == Opened(map[])
    ensures setErr == None <==> codec.encode(a).Success?
    ensures setErr == None ==> got == a && getErr == None
  {
    var store, err := NewKeyValueStore("", codec, open);
    setErr := store.Set(id, a);
    got, getErr := store.Get(id);
  }

  /** `badger_test.go`: after one Set("any", a) on a fresh store, List is that entry alone. */
  method ListAfterSingleSet(codec: Codec, open: Mode -> OpenResult, a: seq<Alert>)
    returns (entries: seq<MessageEntry>, err: Option<Err>)
    requires RoundTrips(codec) && open(Ephemeral) == Opened(map[])
    requires codec.encode(a).Success?
    ensures entries == [MessageEntry("any", a)] && err == None
  {
    var store, _ := NewKeyValueStore("", codec, open);
    var _ := store.Set("any", a);
    assert Decodable(codec, store.engine);
    assert Abstract(codec, store.engine) == map["any" := a];
    ghost var order;
    entries, err, order := store.List();
    ListingOfSingleton(entries, "any", a);
  }
}
