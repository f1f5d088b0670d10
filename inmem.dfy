/**
 * The in-memory backend of pkg/store/inmem.go. Go's `sync.Map` holds
 * untyped keys and values; the model keeps that (`Dyn`) so that the type
 * assertions of `alertFromValue` and `idFromKey` and their ErrInternal
 * failures are modelled, and proves from the class invariant that those
 * failures never happen.
 */
module InMem {
  import opened Wrappers
  import opened Api
  import opened Store

  /** A value of Go's `interface{}` as far as this map is concerned. */
  datatype Dyn =
    | DString(s: string)
    | DAlerts(alerts: seq<Alert>)
    | DOther(tag: int)  // any value of another dynamic type

  /** `alertFromValue`: the assertion `from.([]api.Alert)`. */
  function AlertFromValue(from: Dyn): (r: Result<seq<Alert>, Err>)
    ensures from.DAlerts? <==> r.Success?
    ensures r.Success? ==> r.value == from.alerts
    ensures r.Failure? ==> Is(r.error, ErrInternal)
  {
    if from.DAlerts? then Success(from.alerts)
    else Failure(Wrapped("failed assertion from map value to list of alerts", Sentinel(ErrInternal)))
  }

  /** `idFromKey`: the assertion `from.(string)`. */
  function IdFromKey(from: Dyn): (r: Result<string, Err>)
    ensures from.DString? <==> r.Success?
    ensures r.Success? ==> r.value == from.s
    ensures r.Failure? ==> Is(r.error, ErrInternal)
  {
    if from.DString? then Success(from.s)
    else Failure(Wrapped("failed assertion from map key to list of alerts", Sentinel(ErrInternal)))
  }

  /** Every key a string and every value an alert list: what `Set` stores. */
  ghost predicate Typed(db: map<Dyn, Dyn>)
  {
    forall k :: k in db ==> k.DString? && db[k].DAlerts?
  }

  /** The elements of `order` are distinct keys of `db`. */
  ghost predicate WalkOf(db: map<Dyn, Dyn>, order: seq<Dyn>)
  {
    && (forall i :: 0 <= i < |order| ==> order[i] in db)
    && (forall i, j :: 0 <= i < j < |order| ==> order[i] != order[j])
  }

  /**
   * What the `Range` callback of `List` accumulates when the map hands it the
   * keys in `order`: entries in visiting order, or the first recovery error.
   */
  function Collect(db: map<Dyn, Dyn>, order: seq<Dyn>): Result<seq<MessageEntry>, Err>
    requires forall i :: 0 <= i < |order| ==> order[i] in db
  {
    if order == [] then Success([])
    else
      var k := order[|order| - 1];
      match Collect(db, order[..|order| - 1])
      case Failure(e) => Failure(e)
      case Success(entries) =>
        match AlertFromValue(db[k])
        case Failure(e) => Failure(e)
        case Success(alerts) =>
          match IdFromKey(k)
          case Failure(e) => Failure(e)
          case Success(id) => Success(entries + [MessageEntry(id, alerts)])
  }

  /** On a typed map the walk never fails and yields each visited pair. */
  lemma {:induction false} CollectTyped(db: map<Dyn, Dyn>, order: seq<Dyn>)
    requires Typed(db)
    requires forall i :: 0 <= i < |order| ==> order[i] in db
    ensures Collect(db, order).Success?
    ensures |Collect(db, order).value| == |order|
    ensures forall i :: 0 <= i < |order| ==>
      Collect(db, order).value[i] == MessageEntry(order[i].s, db[order[i]].alerts)
  {
    if order != [] {
      CollectTyped(db, order[..|order| - 1]);
    }
  }

  /** A single untyped value anywhere on the walk makes the whole walk fail with ErrInternal. */
  lemma {:induction false} CollectFailsOnUntyped(db: map<Dyn, Dyn>, order: seq<Dyn>, n: nat)
    requires forall i :: 0 <= i < |order| ==> order[i] in db
    requires n < |order| && !(order[n].DString? && db[order[n]].DAlerts?)
    ensures Collect(db, order).Failure?
    ensures Is(Collect(db, order).error, ErrInternal)
  {
    var last := |order| - 1;
    if n < last {
      CollectFailsOnUntyped(db, order[..last], n);
    } else {
      match Collect(db, order[..last])
      case Failure(e) =>
        CollectErrorIsInternal(db, order[..last]);
      case Success(_) =>
    }
  }

  /** Every error the walk can produce is an ErrInternal. */
  lemma {:induction false} CollectErrorIsInternal(db: map<Dyn, Dyn>, order: seq<Dyn>)
    requires forall i :: 0 <= i < |order| ==> order[i] in db
    ensures Collect(db, order).Failure? ==> Is(Collect(db, order).error, ErrInternal)
  {
    if order != [] {
      CollectErrorIsInternal(db, order[..|order| - 1]);
    }
  }

  class InMemoryStore {
    /** The `sync.Map`. */
    var db: map<Dyn, Dyn>
    /** The abstract store the map represents. */
    ghost var Contents: History

    ghost predicate Valid()
      reads this
    {
      && Typed(db)
      && (forall k :: k in db ==> k.s in Contents && Contents[k.s] == db[k].alerts)
      && (forall id :: id in Contents ==> DString(id) in db)
    }

    /** `NewInMemStore`. */
    constructor ()
      ensures Valid() && Contents == map[]
    {
      db := map[];
      Contents := map[];
    }

    /** `Get`: a miss is ErrNotFound with a nil list. */
    method Get(id: string) returns (alerts: seq<Alert>, err: Option<Err>)
      requires Valid()
      ensures (alerts, err) == Lookup(Contents, id)
    {
      if DString(id) !in db {
        return [], Some(Sentinel(ErrNotFound));
      }
      match AlertFromValue(db[DString(id)])
      case Failure(e) =>
        alerts, err := [], Some(e);
      case Success(a) =>
        alerts, err := a, None;
    }

    /** `Set`: stores the list under the id, replacing what was there; never fails. */
    method Set(id: string, alerts: seq<Alert>) returns (err: Option<Err>)
      requires Valid()
      modifies this
      ensures Valid()
      ensures Contents == Upsert(old(Contents), id, alerts)
      ensures db == old(db)[DString(id) := DAlerts(alerts)]
      ensures err == None
    {
      db := db[DString(id) := DAlerts(alerts)];
      Contents := Contents[id := alerts];
      err := None;
    }

    /**
     * `List`: `Range` visits the keys in an order the map chooses (returned
     * here as the ghost `order`), recovering each value and key; a failed
     * recovery would stop the walk and return a nil list with the error.
     */
    method List() returns (entries: seq<MessageEntry>, err: Option<Err>, ghost order: seq<Dyn>)
      requires Valid()
      ensures WalkOf(db, order)
      ensures err.None? ==> (forall k :: k in db ==> k in order) && Collect(db, order) == Success(entries)
      ensures err.Some? ==> entries == [] && Collect(db, order) == Failure(err.value)
      ensures err.None? && ListsExactly(entries, Contents)
    {
      var rest := db.Keys;
      entries, err, order := [], None, [];
      while rest != {}
        invariant rest <= db.Keys
        invariant WalkOf(db, order)
        invariant forall i :: 0 <= i < |order| ==> order[i] !in rest
        invariant forall k :: k in db ==> k in rest || k in order
        invariant Collect(db, order) == Success(entries)
        decreases rest
      {
        var key :| key in rest;
        order := order + [key];
        rest := rest - {key};
        match AlertFromValue(db[key])
        case Failure(e) =>
          err := Some(e);
          break;
        case Success(alerts) =>
          match IdFromKey(key)
          case Failure(e) =>
            err := Some(e);
            break;
          case Success(id) =>
            entries := entries + [MessageEntry(id, alerts)];
      }
      if err.Some? {
        entries := [];
      }
      CollectTyped(db, order);
      ListedWalkIsExact(this.db, this.Contents, order, entries);
    }
  }

  /** A complete typed walk lists the abstract store exactly. */
  lemma ListedWalkIsExact(db: map<Dyn, Dyn>, contents: History, order: seq<Dyn>, entries: seq<MessageEntry>)
    requires Typed(db)
    requires forall k :: k in db ==> k.s in contents && contents[k.s] == db[k].alerts
    requires forall id :: id in contents ==> DString(id) in db
    requires WalkOf(db, order) && (forall k :: k in db ==> k in order)
    requires |entries| == |order|
    requires forall i :: 0 <= i < |order| ==> entries[i] == MessageEntry(order[i].s, db[order[i]].alerts)
    ensures ListsExactly(entries, contents)
  {
    forall id | id in contents ensures exists i :: 0 <= i < |entries| && entries[i].id == id {
      var i :| 0 <= i < |order| && order[i] == DString(id);
      assert entries[i].id == id;
    }
  }

  /** `inmem_test.go`: Set on a fresh store then Get returns exactly what was set. */
  method SetThenGetOnFreshStore(id: string, a: seq<Alert>) returns (got: seq<Alert>, err: Option<Err>)
    ensures got == a && err == None
  {
    var store := new InMemoryStore();
    var _ := store.Set(id, a);
    got, err := store.Get(id);
  }

  /** `inmem_test.go`: after one Set("any", a) on a fresh store, List is that entry alone. */
  method ListAfterSingleSet(a: seq<Alert>) returns (entries: seq<MessageEntry>, err: Option<Err>)
    ensures entries == [MessageEntry("any", a)] && err == None
  {
    var store := new InMemoryStore();
    var _ := store.Set("any", a);
    ghost var order;
    entries, err, order := store.List();
    ListingOfSingleton(entries, "any", a);
  }
}
