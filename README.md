# Alertmanager test webhook receiver — history store and id generator

This is a Dafny model of the core of a small Go service. The service receives
Alertmanager webhook notifications, stores the alerts of each notification
under an id rendered from a template, and serves that history back over HTTP.
The model covers these parts:

- **The store contract** (`pkg/store/store.go`): the two sentinel errors, Go's
  `errors.Is` over `%w` chains, and an abstract history. The history is a
  `map<string, seq<Alert>>` with `Lookup` (Get), `Upsert` (Set) and the
  predicate `ListsExactly`, which says what a correct `List` result is.
- **The in-memory backend** (`pkg/store/inmem.go`): the class
  `InMem.InMemoryStore`.
  - Its `db` field keeps the untyped `sync.Map` (`map<Dyn, Dyn>`). This keeps the
    type assertions of `alertFromValue` and `idFromKey` in the model.
  - The class invariant proves that those assertions, and their `ErrInternal`
    failures, never fire.
  - `List` loops over the keys in an order the model does not fix, and is proved
    to list exactly the abstract history.
- **The persistent backend** (`pkg/store/badger.go`): the class
  `Badger.KeyValueStore`.
  - The engine is a map from key to value bytes.
  - JSON encoding and decoding are a pair of function values. Properties that
    need `decode(encode(a)) == a` take this as the hypothesis `RoundTrips`.
  - `List` visits keys in ascending byte order, as the engine's forward
    iterator does. The keys it visits are proved to be a gap-free prefix of
    that order. It stops at the first value that does not decode, and
    otherwise lists exactly the abstract history.
- **The payload types** (`pkg/api/api.go`) and `Message.String`.
- **The id generator** (`buildIdGenerator` in `cmd/server/main.go`).
  - A template is literal text plus field references such as `{{ .Receiver }}`
    and `{{ .GroupLabels.alertname }}`. It is parsed once, and parsing can fail.
    Rendering is a function of the payload and can fail per call.
  - Parsing is proved to invert printing.
  - The default template is proved to render `Test_webhook`, and
    `{{ .Version }}-{{ .Status }}` to render `4-firing`.
- **The handlers** (`cmd/server/main.go`): the class `Server.WebhookServer`.
  - The webhook handler generates the id first. Only if that succeeds does it
    call the store's `Set`, exactly once, with that id and the payload's alerts.
    A ghost log of store calls records this.
  - A history read maps a not-found error (however wrapped) to 404 and every
    other error to 500.

Modules follow the source files:

| module | source file |
|---|---|
| `Wrappers` | `Option` / `Result`, used throughout |
| `Api` | `pkg/api/api.go` |
| `Store` | `pkg/store/store.go` |
| `InMem` | `pkg/store/inmem.go` |
| `Badger` | `pkg/store/badger.go` |
| `IdGen`, `IdGenProperties`, `IdGenExamples` | `buildIdGenerator` of `cmd/server/main.go` |
| `Server` | the handlers and startup order of `cmd/server/main.go` |

A Dafny `string` stands for a Go string read as bytes: one character per
byte. `Api.BytesToString` (Go's `string(b)`) and the key order
`Badger.Below` rely on that reading. Unicode text beyond single bytes is not
modelled.

In the persistent backend, a value that fails to decode is returned as the
raw JSON error (`badger.go:47-48`, `88-89`). It is not wrapped in
`ErrInternal` the way the in-memory backend's recovery failures are. So such
a read maps to status 500, not 404, and the model keeps it that way.

## Model

| member | source | states |
|---|---|---|
| Store.Is | cmd/server/main.go:154 | `errors.Is` holds exactly when the error at the end of the `%w` chain is the target sentinel |
| Store.SentinelsDistinct | pkg/store/store.go:5-8 | the two sentinels carry the texts "not found" and "internal", so they are distinct |
| Store.StoreError.Error | pkg/store/store.go:16-18 | `Error()` hands back exactly the string the error was made from |
| Store.NotFoundExcludesInternal | pkg/store/store.go:5-8 | no error, whatever its wrapping, is both an `ErrNotFound` and an `ErrInternal` |
| Store.WrappingPreservesIdentity | pkg/store/inmem.go:66 | wrapping with `%w` keeps what the error is and prefixes its text |
| Store.LookupAfterUpsert | pkg/store/store.go:10-13 | Set then Get of the same id returns the list set; other ids are unaffected |
| Store.LastWriteWins | pkg/store/store.go:12 | a second Set to an id replaces the first whole (no merge) |
| Store.MissIsNotFound | pkg/store/store.go:11 | Get misses exactly when the id was never set, and a miss returns a nil list |
| Store.ListingSize | pkg/store/store.go:13 | a correct listing has exactly as many entries as there are stored ids |
| Store.ListingOfSingleton | pkg/store/store.go:13 | the only correct listing of a one-entry history is that entry |
| InMem.AlertFromValue | pkg/store/inmem.go:63-69 | the value assertion succeeds exactly on an alert list and returns it; its failure is an `ErrInternal` |
| InMem.IdFromKey | pkg/store/inmem.go:71-77 | the key assertion succeeds exactly on a string and returns it; its failure is an `ErrInternal` |
| InMem.CollectTyped | pkg/store/inmem.go:38-56 | on a map whose keys are strings and values alert lists, the walk never fails and yields one entry per visited key with its value |
| InMem.CollectFailsOnUntyped | pkg/store/inmem.go:38-50 | one untyped key or value anywhere on the walk makes `List` fail with an `ErrInternal` error |
| InMem.CollectErrorIsInternal | pkg/store/inmem.go:39-50 | every error the walk can return wraps `ErrInternal` |
| InMem.InMemoryStore.constructor | pkg/store/inmem.go:14-16 | `NewInMemStore` gives an empty store that satisfies the invariant |
| InMem.InMemoryStore.Get | pkg/store/inmem.go:18-25 | Get is the abstract `Lookup`: the stored list, or a nil list and `ErrNotFound` |
| InMem.InMemoryStore.Set | pkg/store/inmem.go:27-30 | Set is the abstract upsert on the map, keeps the invariant, and always returns nil |
| InMem.InMemoryStore.List | pkg/store/inmem.go:32-61 | the loop never errs, and yields one entry per stored id with its current list, with no duplicates |
| InMem.ListedWalkIsExact | pkg/store/inmem.go:38-56 | a complete walk over the typed map lists exactly the abstract history |
| InMem.SetThenGetOnFreshStore | pkg/store/inmem_test.go:17-31 | on a fresh store, Set then Get returns exactly the list set, with no error |
| InMem.ListAfterSingleSet | pkg/store/inmem_test.go:33-53 | on a fresh store, after `Set("any", a)`, List returns exactly `[{"any", a}]` |
| Badger.Read | pkg/store/badger.go:38 | the engine read succeeds exactly on a stored key; a miss is the engine's `ErrKeyNotFound` |
| Badger.ModeOf | pkg/store/badger.go:22-26 | an empty path selects the in-memory engine; any other path selects that directory |
| Badger.NewKeyValueStore | pkg/store/badger.go:17-33 | opens in the mode the path selects; an open failure returns a nil store and the wrapped error |
| Badger.ToMessageEntry | pkg/store/badger.go:87-99 | an entry is the raw key as id with the decoded value; a value that does not decode is its raw JSON error |
| Badger.GetMissIsNotFound | pkg/store/badger.go:38-41 | a missing key is `ErrNotFound`, never the engine's own error, and any error comes with a nil list |
| Badger.SetThenGet | pkg/store/badger.go:65-74 | with a round-tripping codec, Set then Get returns the list set, and other ids are untouched |
| Badger.SetEncodeFailureWritesNothing | pkg/store/badger.go:66-69 | an encoding failure returns that error and leaves the engine as it was |
| Badger.SetOverwrites | pkg/store/badger.go:70-73 | the second of two Sets to one id decides what Get returns |
| Badger.RefinesStore | pkg/store/badger.go:35-74 | on an engine whose values all decode, Get is `Lookup` on the decoded map, and a successful Set is `Upsert` that keeps every value decodable |
| Badger.KvCollectSpec | pkg/store/badger.go:83-100 | the iteration succeeds exactly when every visited value decodes, and then pairs each key with its decoded value in visiting order |
| Badger.CompleteWalkIsExact | pkg/store/badger.go:83-100 | an ascending walk over every key lists exactly the decoded map |
| Badger.BelowTotal | pkg/store/badger.go:83 | byte order on keys is total, so forward iteration has one well-defined order |
| Badger.FirstKeyExists | pkg/store/badger.go:83 | every non-empty key set has a first key, where the iterator starts |
| Badger.KeyValueStore.Get | pkg/store/badger.go:35-63 | Get reads, maps the engine's miss to `ErrNotFound`, and decodes; every error comes with a nil list |
| Badger.KeyValueStore.Set | pkg/store/badger.go:65-74 | Set encodes then writes; an encoding failure writes nothing |
| Badger.KeyValueStore.List | pkg/store/badger.go:76-107 | visits keys in ascending byte order with no key skipped; succeeds exactly when every value decodes, and then lists exactly the decoded map; otherwise the walk ends at the first undecodable key, every key before it decoded, and returns nil entries with that key's decode error |
| Badger.SetThenGetOnFreshStore | pkg/store/badger_test.go:22-40 | on a fresh in-memory engine, Set then Get returns the list set |
| Badger.ListAfterSingleSet | pkg/store/badger_test.go:42-65 | on a fresh in-memory engine, after `Set("any", a)`, List returns exactly `[{"any", a}]` |
| Badger.AsWrittenRejectsPlainIds | pkg/store/badger.go:109-124 | the helper as written rejects every id that starts with neither a blank, nor `"`, nor the `n` of `null`, since no such text decodes into a Go string |
| Badger.AsWrittenRenamesNull | pkg/store/badger.go:109-124 | with JSON `null` decoding to the empty string, the helper as written reports the entry stored under `null` as id `""`, where the corrected one keeps `null` |
| Badger.StoredKeyRejected | pkg/store/badger.go:109-124 | the entry that `Set("any", a)` writes is rejected by the helper as written and read back by the corrected one |
| Api.FingerprintOmittedIffEmpty | pkg/api/api.go:31-39 | an encoded alert carries `fingerprint` exactly when it is non-empty; the other six members are always present, in struct order |
| Api.BytesToString | pkg/api/api.go:57 | `string(b)` keeps length and each byte's code |
| Api.MessageString | pkg/api/api.go:52-58 | `String` is the JSON encoding when encoding succeeds and the Go-syntax dump otherwise |
| IdGen.FindClose | cmd/server/main.go:195 | finds the first `}}`, and reports none only when there is none |
| IdGen.SplitDots | cmd/server/main.go:195 | a dotted path always splits into at least one piece |
| IdGen.Parse | cmd/server/main.go:195 | a parsed template has non-empty text runs, never two side by side, and every reference is a path of identifiers |
| IdGen.FieldOf | pkg/api/api.go:12-27 | `.name` selects something exactly when `name` is the method `String` or one of the ten exported fields of `Message`; any other name is no such field |
| IdGen.Render | cmd/server/main.go:198-200 | execution succeeds exactly when every segment renders, and a failure is the error of some segment |
| IdGen.BuildIdGenerator | cmd/server/main.go:194-196 | the generator is built exactly when the template parses; a malformed template fails here, before any payload |
| IdGen.Generate | cmd/server/main.go:196-202 | a render failure gives `""` with the error; otherwise it gives the rendered text with no error |
| IdGenProperties.ParsePrintRoundTrip | cmd/server/main.go:195 | parsing the printed form of any well-formed template gives back that template |
| IdGenProperties.UnclosedActionRejected | cmd/server/main.go:195 | a template with an action that is never closed fails to parse |
| IdGenProperties.RenderDependsOnlyOnFields | cmd/server/main.go:196-202 | rendering is deterministic: two payloads that agree on the fields the template uses render alike |
| IdGenProperties.UnknownFieldFailsPerCall | cmd/server/main.go:198-200 | a reference to a name that is neither a method nor a field of the payload is parsed without complaint but fails every render |
| IdGenProperties.StringMethodRendersJson | pkg/api/api.go:52-58 | `{{ .String }}` calls the payload's `String` method, so the id is the payload's JSON text byte for byte whenever encoding succeeds |
| IdGenExamples.DefaultTemplateParses | cmd/server/main.go:35 | the default template parses into the reference to group label `alertname`, the text `_`, and the reference to `Receiver` |
| IdGenExamples.DefaultTemplateRendersTestWebhook | cmd/server/main_test.go:203-211 | the default template renders `Test_webhook` for alertname `Test` and receiver `webhook` |
| IdGenExamples.VersionStatusTemplateRenders | cmd/server/main_test.go:213-221 | `{{ .Version }}-{{ .Status }}` renders `4-firing` for version `4` and status `firing` |
| IdGenExamples.DefaultTemplateCollides | cmd/server/main.go:35 | under the default template, payloads with the same group labels and receiver share one id, so the later one overwrites the earlier |
| Server.HistoryStatus | cmd/server/main.go:151-158 | a failed read is 404 exactly when the error is `ErrNotFound` (through any wrapping), and 500 otherwise |
| Server.HistoryResponse | cmd/server/main.go:150-166 | 200 with the alerts exactly when Get returned no error; otherwise the mapped status and the error text |
| Server.ListResponse | cmd/server/main.go:174-185 | 200 with the entries exactly when List returned no error, 500 otherwise |
| Server.SavedResponse | cmd/server/main.go:129-143 | 200 with the id exactly when Set returned no error, 500 otherwise |
| Server.WebhookServer.HandleWebhook | cmd/server/main.go:109-145 | a bad body is 400 and a failed id is 500, in both cases with no store call and no change to the store; otherwise Set is called exactly once with the rendered id and the payload's alerts, and the reply is the id, or 500 when Set fails |
| Server.WebhookServer.HandleHistory | cmd/server/main.go:147-170 | the reply is `HistoryResponse` of the backend's Get for that id |
| Server.WebhookServer.HandleListHistory | cmd/server/main.go:172-190 | the reply lists exactly the stored history; on the persistent backend it is 500 exactly when some value does not decode |
| Server.Start | cmd/server/main.go:48-60 | the store is opened first and its failure stops start-up; only then is the template parsed, whose failure stops start-up too |
| Server.UnknownIdIs404 | cmd/server/main.go:154-157 | an id never stored is answered with 404 |
| Server.PersistentHistoryStatus | cmd/server/main.go:151-158 | on the persistent backend: a missing id is 404, an undecodable value is 500, and a decodable one is 200 with its alerts |
| Server.WrappedNotFoundIs404 | cmd/server/main.go:154-156 | a wrapped `ErrNotFound` still gives 404; `ErrInternal` gives 500 |
| Server.WebhookThenHistory | cmd/server/main_test.go:55-126 | on a fresh store, posting the test payload answers the id `Test_webhook`; that id then reads back the payload's alerts, and the listing is that one entry |

## Left out

- HTTP routing, the wire format of requests and responses, headers, flag
  parsing, signals, graceful shutdown and the logger are not modelled. A
  request body arrives already decoded, or with its decode error. A response
  is a status code plus what it carries.
- Encoding handler responses is not modelled. The 500 branches taken when
  encoding the reply fails (`main.go:135-140`, `162-166`, `182-186`) are
  absent, although encoding an alert list can fail, for example on a
  timestamp whose year lies outside 0 to 9999.
- `sync.Map` concurrency, Badger transactions, LSM storage, durability and
  engine I/O errors are not modelled. Each backend is a sequential map. Every
  operation is atomic. Engine writes always succeed once encoding succeeds.
  The engine's own key checks are left out with them: it rejects the empty key on reads and
  writes, and keys starting with `!badger!` on writes. So a template that
  renders `""` makes the real persistent `Set` fail and the webhook answer
  500, where `Badger.SetThenGet` and `HandleWebhook` let the write succeed.
- JSON encoding and `time.Time` are abstract. The codec is a pair of
  functions, and timestamps are plain values compared by equality.
- The Go distinction between a nil slice and an empty slice (which shows up
  as `null` versus `[]` in JSON) is not modelled. Both are `[]`.
- The template language is constrained to literal text and actions
  `{{ .Field }}` / `{{ .Field.key }}` with optional blanks. Pipelines,
  functions, trim markers, comments and control structures are not modelled.
  Such templates are rejected by `IdGen.Parse`, where the Go library would
  accept some of them.
- What the template library does with a missing map key, and the JSON
  encoder and `%#v` dump that `Message.String` uses, are parameters of the
  generator (`Library`), because the library's behaviour is not part of this
  model.
- IdGen.RenderRef: rendering a whole map or alert list (`{{ .GroupLabels }}`,
  `{{ .Alerts }}`) is an error in the model. The Go library would print such
  a value in `fmt`'s default `%v` form (`map[alertname:Test]`).
- `template.Must`'s panic is modelled as the start-up outcome
  `TemplatePanicked`, not as a process crash.
- The logger argument that callers pass to `NewKeyValueStore` is ignored. The
  constructor in `badger.go` takes only a path.
- Api.FingerprintOmittedIffEmpty: the member list is stated for the alert as
  its struct tags dictate, but the codec is a pair of abstract functions, so
  no encoding is shown to produce that list. That an empty fingerprint is
  dropped from the stored bytes is not established.
- Api.MessageString: the encoder and the Go-syntax printer are parameters, so
  the contract is about which of the two is used, not about the produced text.

## Findings

| source | as written | input that shows it | evidently intended | confidence | as-written member | corrected member |
|---|---|---|---|---|---|---|
| pkg/store/badger.go:115-118 | `toMessageEntry` decodes the stored key as JSON text, but `Set` stores the id's raw bytes | the entry written by `Set("any", a)`: the key bytes `any` are not a JSON string, so the helper fails where `List` returns `{"any", a}`; the id `null` decodes to `""` and is renamed | use the raw key bytes as the id, as `List` does on line 97 | not executed; the helper has no caller in the file, so the defect is latent | Badger.ToMessageEntryAsWritten (shown by Badger.StoredKeyRejected and Badger.AsWrittenRenamesNull) | Badger.ToMessageEntry |
