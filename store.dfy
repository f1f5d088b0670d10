/**
 * The history-store contract of pkg/store/store.go: the sentinel errors, the
 * Go error values the backends return, and the abstract key -> alert-list map
 * that both backends implement.
 */
module Store {
  import opened Wrappers
  import opened Api

  /** `type Error string`: a store error is its message. */
  datatype StoreError = StoreError(msg: string)
  {
    /** `Error()` hands back the underlying string. */
    function Error(): (s: string)
      ensures StoreError(s) == this
    {
      msg
    }
  }

  const ErrNotFound := StoreError("not found")
  const ErrInternal := StoreError("internal")

  /** The Go `error` values that flow through the core. */
  datatype Err =
    | Sentinel(e: StoreError)             // a store.Error value returned as is
    | Wrapped(prefix: string, inner: Err) // fmt.Errorf("<prefix>: %w", inner)
    | JsonError(jsonMsg: string)          // an error from encoding/json
    | EngineError(engineMsg: string)      // an error from the storage engine
    | ExecError(execMsg: string)          // an error from executing a template

  /** `err.Error()`: the text of an error, wrapping prefixes included. */
  function Message(err: Err): string
  {
    match err
    case Sentinel(e) => e.Error()
    case Wrapped(p, inner) => p + ": " + Message(inner)
    case JsonError(m) => m
    case EngineError(m) => m
    case ExecError(m) => m
  }

  /** The error at the end of the `%w` chain, where `errors.Unwrap` stops. */
  function Innermost(err: Err): Err
  {
    if err.Wrapped? then Innermost(err.inner) else err
  }

  /**
   * `errors.Is(err, target)`: walks the `%w` chain and compares each link with
   * the target by `==`. Only a store.Error value can equal a store.Error.
   */
  function Is(err: Err, target: StoreError): (b: bool)
    ensures b <==> Innermost(err) == Sentinel(target)
  {
    match err
    case Sentinel(e) => e == target
    case Wrapped(_, inner) => Is(inner, target)
    case _ => false
  }

  /** There are exactly two sentinels and they are told apart by their text. */
  lemma SentinelsDistinct()
    ensures ErrNotFound.Error() == "not found" && ErrInternal.Error() == "internal"
    ensures ErrNotFound != ErrInternal
  {
  }

  /** No error is both a lookup miss and an internal failure. */
  lemma {:induction false} NotFoundExcludesInternal(err: Err)
    ensures !(Is(err, ErrNotFound) && Is(err, ErrInternal))
  {
    match err
    case Wrapped(_, inner) => NotFoundExcludesInternal(inner);
    case _ =>
  }

  /** Wrapping keeps what an error is and prefixes its text. */
  lemma {:induction false} WrappingPreservesIdentity(p: string, err: Err, target: StoreError)
    ensures Is(Wrapped(p, err), target) <==> Is(err, target)
    ensures Message(Wrapped(p, err)) == p + ": " + Message(err)
  {
  }

  // ---------------------------------------------------------------------
  // The abstract store: one alert list per id.
  // ---------------------------------------------------------------------

  type History = map<string, seq<Alert>>

  /** `Get(id)`: the list last stored under `id`, or a nil list and ErrNotFound. */
  function Lookup(h: History, id: string): (seq<Alert>, Option<Err>)
  {
    if id in h then (h[id], None) else ([], Some(Sentinel(ErrNotFound)))
  }

  /** `Set(id, alerts)`: an upsert; the new list replaces any old one whole. */
  function Upsert(h: History, id: string, alerts: seq<Alert>): History
  {
    h[id := alerts]
  }

  /**
   * `List()` is correct for `h` when it yields one entry per stored id,
   * carrying that id's current list, with no id twice. Any order will do.
   */
  ghost predicate ListsExactly(entries: seq<MessageEntry>, h: History)
  {
    && (forall i :: 0 <= i < |entries| ==> entries[i].id in h && h[entries[i].id] == entries[i].alerts)
    && (forall i, j :: 0 <= i < j < |entries| ==> entries[i].id != entries[j].id)
    && (forall id :: id in h ==> exists i :: 0 <= i < |entries| && entries[i].id == id)
  }

  lemma LookupAfterUpsert(h: History, id: string, other: string, alerts: seq<Alert>)
    ensures Lookup(Upsert(h, id, alerts), id) == (alerts, None)
    ensures other != id ==> Lookup(Upsert(h, id, alerts), other) == Lookup(h, other)
  {
  }

  lemma LastWriteWins(h: History, id: string, a1: seq<Alert>, a2: seq<Alert>)
    ensures Upsert(Upsert(h, id, a1), id, a2) == Upsert(h, id, a2)
  {
  }

  lemma MissIsNotFound(h: History, id: string)
    ensures id !in h <==> Lookup(h, id).1 == Some(Sentinel(ErrNotFound))
    ensures Lookup(h, id).1.Some? ==> Lookup(h, id).0 == []
  {
  }

  /** A correct listing has exactly one entry per stored id. */
  lemma {:induction false} ListingSize(entries: seq<MessageEntry>, h: History)
    requires ListsExactly(entries, h)
    ensures |entries| == |h|
  {
    var ids := set i | 0 <= i < |entries| :: entries[i].id;
    assert ids == h.Keys by {
      forall id | id in h ensures id in ids {
        var i :| 0 <= i < |entries| && entries[i].id == id;
      }
    }
    DistinctIdsCount(entries);
  }

  lemma {:induction false} DistinctIdsCount(entries: seq<MessageEntry>)
    requires forall i, j :: 0 <= i < j < |entries| ==> entries[i].id != entries[j].id
    ensures |set i | 0 <= i < |entries| :: entries[i].id| == |entries|
  {
    if entries != [] {
      var n := |entries| - 1;
      var front := entries[..n];
      DistinctIdsCount(front);
      var ids := set i | 0 <= i < |entries| :: entries[i].id;
      var frontIds := set i | 0 <= i < |front| :: front[i].id;
      assert ids == frontIds + {entries[n].id};
      assert entries[n].id !in frontIds;
    }
  }

  /** After a single Set on an empty store, the one correct listing is that entry. */
  lemma {:induction false} ListingOfSingleton(entries: seq<MessageEntry>, id: string, alerts: seq<Alert>)
    requires ListsExactly(entries, map[id := alerts])
    ensures entries == [MessageEntry(id, alerts)]
  {
    ListingSize(entries, map[id := alerts]);
    assert entries[0].id in map[id := alerts];
  }
}
