/**
 * The HTTP handlers of cmd/server/main.go over either history backend.
 * A request body arrives already decoded (or with its decode error); a
 * response is a status code and what its body carries. The order of the
 * webhook handler is the point: the id is generated before the store is
 * touched, and the store is called once, with that id and the payload's alerts.
 */
module Server {
  import opened Wrappers
  import opened Api
  import opened Store
  import opened InMem
  import opened Badger
  import opened IdGen
  import opened IdGenExamples

  /** The `store.Store` the server holds: one of the two implementations. */
  datatype Backend = Memory(mem: InMemoryStore) | Persistent(kv: KeyValueStore)
  {
    function Target(): object
    {
      if Memory? then mem else kv
    }
  }

  const StatusOK := 200
  const StatusBadRequest := 400
  const StatusNotFound := 404
  const StatusInternalServerError := 500

  /** What a response body carries: JSON of a value, or an error text. */
  datatype Body =
    | IdBody(id: string)
    | AlertsBody(alerts: seq<Alert>)
    | EntriesBody(entries: seq<MessageEntry>)
    | ErrorBody(text: string)

  datatype Response = Response(status: int, body: Body)

  /** A call the webhook handler makes on the store. */
  datatype StoreCall = SetCall(id: string, alerts: seq<Alert>)

  /** The status of a failed history read: 404 for a not-found error, however wrapped, else 500. */
  function HistoryStatus(err: Err): (status: int)
    ensures status == StatusNotFound <==> Is(err, ErrNotFound)
    ensures status == StatusInternalServerError <==> !Is(err, ErrNotFound)
  {
    if Is(err, ErrNotFound) then StatusNotFound else StatusInternalServerError
  }

  /** The response of `GET /history/{id}` for what `Get` returned. */
  function HistoryResponse(got: (seq<Alert>, Option<Err>)): (resp: Response)
    ensures resp.status == StatusOK <==> got.1.None?
    ensures resp.status == StatusOK ==> resp.body == AlertsBody(got.0)
    ensures got.1.Some? ==> resp == Response(HistoryStatus(got.1.value), ErrorBody("failed to read webhook history"))
  {
    match got.1
    case None => Response(StatusOK, AlertsBody(got.0))
    case Some(err) => Response(HistoryStatus(err), ErrorBody("failed to read webhook history"))
  }

  /** The response of `GET /history` for what `List` returned. */
  function ListResponse(entries: seq<MessageEntry>, err: Option<Err>): (resp: Response)
    ensures resp.status == StatusOK <==> err.None?
    ensures resp.status == StatusOK ==> resp.body == EntriesBody(entries)
    ensures err.Some? ==> resp == Response(StatusInternalServerError, ErrorBody("failed to list webhook history"))
  {
    if err.None? then Response(StatusOK, EntriesBody(entries))
    else Response(StatusInternalServerError, ErrorBody("failed to list webhook history"))
  }

  /** The response of `POST /webhook` once the store has answered `Set`. */
  function SavedResponse(id: string, err: Option<Err>): (resp: Response)
    ensures resp.status == StatusOK <==> err.None?
    ensures err.None? ==> resp.body == IdBody(id)
    ensures err.Some? ==> resp == Response(StatusInternalServerError, ErrorBody("failed to save webhook info"))
  {
    if err.None? then Response(StatusOK, IdBody(id))
    else Response(StatusInternalServerError, ErrorBody("failed to save webhook info"))
  }

  class WebhookServer {
    const gen: IdGenerator
    const backend: Backend
    /** The store calls made by the webhook handler, oldest first. */
    ghost var calls: seq<StoreCall>

    ghost predicate Valid()
      reads this, backend.Target()
    {
      backend.Memory? ==> backend.mem.Valid()
    }

    constructor (gen: IdGenerator, backend: Backend)
      requires backend.Memory? ==> backend.mem.Valid()
      ensures Valid() && this.gen == gen && this.backend == backend && calls == []
    {
      this.gen := gen;
      this.backend := backend;
      calls := [];
    }

    /**
     * `POST /webhook`: decode, generate the id, store the alerts under it,
     * answer with the id. Nothing is stored when decoding or generation fails.
     */
    method HandleWebhook(body: Result<Message, string>) returns (resp: Response)
      requires Valid()
      modifies this, backend.Target()
      ensures Valid()
      ensures body.Failure? ==>
        && resp == Response(StatusBadRequest, ErrorBody("failed to decode JSON body"))
        && calls == old(calls) && unchanged(backend.Target())
      ensures body.Success? && Generate(gen, body.value).1.Some? ==>
        && resp == Response(StatusInternalServerError, ErrorBody("failed to generate ID from request body"))
        && calls == old(calls) && unchanged(backend.Target())
      ensures body.Success? && Generate(gen, body.value).1.None? ==>
        var id := Generate(gen, body.value).0;
        var alerts := body.value.alerts;
        && calls == old(calls) + [SetCall(id, alerts)]
        && (backend.Memory? ==>
              && backend.mem.Contents == Upsert(old(backend.mem.Contents), id, alerts)
              && resp == Response(StatusOK, IdBody(id)))
        && (backend.Persistent? ==>
              && backend.kv.engine == KvSet(backend.kv.codec, old(backend.kv.engine), id, alerts).0
              && resp == SavedResponse(id, KvSet(backend.kv.codec, old(backend.kv.engine), id, alerts).1))
    {
      if body.Failure? {
        resp := Response(StatusBadRequest, ErrorBody("failed to decode JSON body"));
        return;
      }
      var msg := body.value;
      var (id, genErr) := Generate(gen, msg);
      if genErr.Some? {
        resp := Response(StatusInternalServerError, ErrorBody("failed to generate ID from request body"));
        return;
      }
      calls := calls + [SetCall(id, msg.alerts)];
      var err: Option<Err>;
      match backend {
        case Memory(mem) =>
          err := mem.Set(id, msg.alerts);
        case Persistent(kv) =>
          err := kv.Set(id, msg.alerts);
      }
      resp := SavedResponse(id, err);
    }

    /** `GET /history/{id}`: the stored alerts, 404 when the id is unknown, 500 on any other error. */
    method HandleHistory(id: string) returns (resp: Response)
      requires Valid()
      ensures backend.Memory? ==> resp == HistoryResponse(Lookup(backend.mem.Contents, id))
      ensures backend.Persistent? ==> resp == HistoryResponse(KvGet(backend.kv.codec, backend.kv.engine, id))
    {
      var alerts: seq<Alert>;
      var err: Option<Err>;
      match backend {
        case Memory(mem) =>
          alerts, err := mem.Get(id);
        case Persistent(kv) =>
          alerts, err := kv.Get(id);
      }
      resp := HistoryResponse((alerts, err));
    }

    /** `GET /history`: every stored id with its alerts, 500 when listing fails. */
    method HandleListHistory() returns (resp: Response)
      requires Valid()
      ensures backend.Memory? ==>
        resp.status == StatusOK && resp.body.EntriesBody? && ListsExactly(resp.body.entries, backend.mem.Contents)
      ensures backend.Persistent? ==>
        && (resp.status == StatusOK <==> Decodable(backend.kv.codec, backend.kv.engine))
        && (resp.status == StatusOK ==>
              resp.body.EntriesBody? && ListsExactly(resp.body.entries, Abstract(backend.kv.codec, backend.kv.engine)))
        && (resp.status != StatusOK ==>
              resp == Response(StatusInternalServerError, ErrorBody("failed to list webhook history")))
    {
      var entries: seq<MessageEntry>;
      var err: Option<Err>;
      match backend {
        case Memory(mem) =>
          ghost var order;
          entries, err, order := mem.List();
        case Persistent(kv) =>
          ghost var order;
          entries, err, order := kv.List();
      }
      resp := ListResponse(entries, err);
    }
  }

  // ---------------------------------------------------------------------
  // Start-up.
  // ---------------------------------------------------------------------

  /** How `main` ends up: serving, exit status 1 on a database failure, or a panic on a bad template. */
  datatype Startup =
    | Serving(srv: WebhookServer)
    | DatabaseFailed(openErr: Err)
    | TemplatePanicked(parseErr: TemplateError)

  /**
   * `main`: open the persistent store at `dbPath` first, then build the id
   * generator from `tmpl`; the template is only looked at once the store is open.
   */
  method Start(tmpl: string, dbPath: string, lib: Library, codec: Codec, open: Mode -> OpenResult)
    returns (outcome: Startup)
    ensures open(ModeOf(dbPath)).OpenFailed? ==>
      outcome == DatabaseFailed(Wrapped("failed to open db", EngineError(open(ModeOf(dbPath)).reason)))
    ensures open(ModeOf(dbPath)).Opened? && Parse(tmpl).Failure? ==>
      outcome == TemplatePanicked(Parse(tmpl).error)
    ensures open(ModeOf(dbPath)).Opened? && Parse(tmpl).Success? ==>
      && outcome.Serving?
      && fresh(outcome.srv) && outcome.srv.Valid() && outcome.srv.calls == []
      && outcome.srv.gen == IdGenerator(Parse(tmpl).value, lib)
      && outcome.srv.backend.Persistent?
      && outcome.srv.backend.kv.engine == open(ModeOf(dbPath)).initial
      && outcome.srv.backend.kv.mode == ModeOf(dbPath)
  {
    var kv, err := NewKeyValueStore(dbPath, codec, open);
    if err.Some? {
      outcome := DatabaseFailed(err.value);
      return;
    }
    match BuildIdGenerator(tmpl, lib) {
      case Failure(e) =>
        outcome := TemplatePanicked(e);
      case Success(g) =>
        var srv := new WebhookServer(g, Persistent(kv));
        outcome := Serving(srv);
    }
  }

  // ---------------------------------------------------------------------
  // Properties across the handlers.
  // ---------------------------------------------------------------------

  /** An id the in-memory store never saw is answered with 404. */
  lemma UnknownIdIs404(h: History, id: string)
    requires id !in h
    ensures HistoryResponse(Lookup(h, id)) == Response(StatusNotFound, ErrorBody("failed to read webhook history"))
  {
    MissIsNotFound(h, id);
  }

  /**
   * On the persistent store: a missing id is 404, a value that does not
   * decode is 500, a value that decodes is 200 with the decoded list.
   */
  lemma PersistentHistoryStatus(c: Codec, e: Engine, id: string)
    ensures HistoryResponse(KvGet(c, e, id)).status == StatusNotFound <==> id !in e
    ensures id in e && c.decode(e[id]).Failure? ==> HistoryResponse(KvGet(c, e, id)).status == StatusInternalServerError
    ensures id in e && c.decode(e[id]).Success? ==>
      HistoryResponse(KvGet(c, e, id)) == Response(StatusOK, AlertsBody(c.decode(e[id]).value))
  {
    GetMissIsNotFound(c, e, id);
    if id in e && c.decode(e[id]).Failure? {
      assert KvGet(c, e, id).1 == Some(JsonError(c.decode(e[id]).error));
      assert !Is(JsonError(c.decode(e[id]).error), ErrNotFound);
    }
  }

  /** Only a not-found error, even wrapped, turns into 404; the internal sentinel is 500. */
  lemma WrappedNotFoundIs404(prefix: string)
    ensures HistoryStatus(Wrapped(prefix, Sentinel(ErrNotFound))) == StatusNotFound
    ensures HistoryStatus(Sentinel(ErrInternal)) == StatusInternalServerError
  {
    WrappingPreservesIdentity(prefix, Sentinel(ErrNotFound), ErrNotFound);
    SentinelsDistinct();
  }

  /**
   * The handler tests end to end on a fresh in-memory store: posting a
   * payload with alertname "Test" and receiver "webhook" under the default
   * template answers `{"id":"Test_webhook"}`, after which that id reads back
   * the payload's alerts and the listing is that one entry.
   */
  method WebhookThenHistory(tmpl: string, msg: Message, lib: Library)
    returns (posted: Response, fetched: Response, listed: Response)
    requires tmpl == DefaultTemplate
    requires "alertname" in msg.groupLabels && msg.groupLabels["alertname"] == "Test"
    requires msg.receiver == "webhook"
    ensures posted == Response(StatusOK, IdBody("Test_webhook"))
    ensures fetched == Response(StatusOK, AlertsBody(msg.alerts))
    ensures listed == Response(StatusOK, EntriesBody([MessageEntry("Test_webhook", msg.alerts)]))
  {
    DefaultTemplateRendersTestWebhook(tmpl, msg, lib);
    var g := BuildIdGenerator(tmpl, lib).value;
    var mem := new InMemoryStore();
    var srv := new WebhookServer(g, Memory(mem));
    posted := srv.HandleWebhook(Success(msg));
    assert mem.Contents == map["Test_webhook" := msg.alerts];
    fetched := srv.HandleHistory("Test_webhook");
    LookupAfterUpsert(map[], "Test_webhook", "Test_webhook", msg.alerts);
    listed := srv.HandleListHistory();
    ListingOfSingleton(listed.body.entries, "Test_webhook", msg.alerts);
  }
}
