# Deferred-commit client state (authboss `client_state.go`)

This project models the request-scoped client-state engine of authboss
(`client_state.go`). One request's mutations of two key/value stores, the
session and the cookie store, are recorded as ordered event logs on a
`ClientStateResponseWriter`. They are written to the backing stores once,
the first time the response header or body is written.

Modules (one file each):

- `ClientStateEvents` (`events.dfy`): the event kinds and `ClientStateEvent`, the two store kinds (the two context keys) and the well-known keys. It also holds `strings.Join` with `","`, which builds the keep-list of a DelAll event, and `strings.Split`, the reading a store is expected to apply to it.
- `ClientStateLookup` (`lookup.dfy`): the request context as a map from store kind to snapshot. It holds `getState`, `GetSession`, `GetCookie`, `IsFullyAuthed`, `IsTwoFactored`, and what a flash read returns and records.
- `ClientStateCommit` (`commit.dfy`): pure specifications of `putClientState`'s flush sequence and of `LoadClientState`. It also holds the one branch of `LoadClientStateMiddleware` that matters here: a read error means no handler runs.
- `ClientStateWriter` (`writer.dfy`): the class `ClientStateResponseWriter`, with the `hasWritten` latch, the two event logs, the snapshots and the "store configured" flags. Two ghost logs record the `WriteState` calls and what reaches the wrapped `ResponseWriter`. `Record` appends one event and keeps the writer's invariant. `PutClientState`, `WriteHeader` and `Write` are proved against `ClientStateCommit.Flush`.
- `ClientStateApi` (`api.dfy`): the chain of response-writer wrappers and `MustClientStateResponseWriter`'s walk through it. It also holds `setState` with its Put/Del/DelAll/DelKnown wrappers, `LoadClientState`, `LoadClientStateMiddleware` up to the handler call, and `FlashSuccess`/`FlashError`.

Behaviour modelled as the code has it:

- `setState` does not look at `hasWritten`. An event recorded after the flush is kept in the log and never written.
- `hasWritten` is set before any store is written. A failed flush is never retried, and later writes pass straight through.
- If a store is not configured, its events are silently dropped at flush time.
- A DelAll event carries its keep-list comma-joined in `Key`. `Join([])` and `Join([""])` are both `""`, so the split recovers only non-empty lists without commas.
- `LoadClientState` stores a non-nil session state in the writer before it reads the cookie store. A cookie read error leaves that session state in the writer.
- On a read error the middleware writes status 500 to the original writer, not to the wrapper. So no flush happens: `ClientStateApi.LoadClientStateMiddleware` ends with the new writer's latch unset and its logs of store writes and output empty.

## Model

| member | source | states |
|---|---|---|
| ClientStateEvents.NewEvent | client_state.go:361-368 | the event has the given kind and key; its value is the given value for Put and empty for Del and DelAll |
| ClientStateEvents.SplitJoin | client_state.go:354-356 | splitting the comma-joined keep-list on "," gives back the list, for any non-empty list whose entries hold no comma |
| ClientStateEvents.JoinSplit | client_state.go:60-63 | joining the parts of any Key string with "," gives the string back, so the comma-separated reading loses nothing |
| ClientStateLookup.Request.With | client_state.go:160 | adding a state under a context key sets that key and leaves the other context values as they were |
| ClientStateLookup.GetState | client_state.go:378-386 | found exactly when a state was loaded for the store and has the key; then the value is the state's, otherwise "" |
| ClientStateLookup.GetSession | client_state.go:326-329 | looks the key up in the loaded session state only |
| ClientStateLookup.GetCookie | client_state.go:341-344 | looks the key up in the loaded cookie state only |
| ClientStateLookup.IsFullyAuthed | client_state.go:275-280 | true exactly when the loaded session has no halfauth entry |
| ClientStateLookup.IsTwoFactored | client_state.go:282-287 | true exactly when the loaded session has a twofactor entry |
| ClientStateLookup.Flash | client_state.go:388-408 | an absent key yields "" and no event; a present key yields its value and exactly one Del event for it |
| ClientStateCommit.Flush | client_state.go:249-273 | no events means no writer call; a store's writer is called iff it is configured and has events, with its snapshot and whole log; at most one call per store, session first; a session error stops the cookie write; the first error is returned |
| ClientStateCommit.Stored | client_state.go:154-160 | a state is stored only from a read without error that returned a non-nil state |
| ClientStateCommit.LoadSpec | client_state.go:152-175 | a session read error is returned whatever the cookie store says; a cookie error is returned only if the session step went through; a panic happens exactly when a non-nil state has no writer to go into; on success exactly the non-nil states are in the context |
| ClientStateCommit.ReadsMade | client_state.go:153-172 | the session store is read iff configured, and first; the cookie store is read iff configured and the session step neither failed nor panicked |
| ClientStateCommit.Middleware | client_state.go:125-139 | the handler runs, with the loaded request, exactly when loading succeeded; a read error gives status 500 |
| ClientStateWriter.ClientStateResponseWriter.constructor | client_state.go:142-148 | a new writer has no snapshots, empty logs, the latch unset and the store flags as configured |
| ClientStateWriter.ClientStateResponseWriter.Record | client_state.go:361-375 | appends exactly one event to the selected log, leaves the other log unchanged, whatever the latch |
| ClientStateWriter.ClientStateResponseWriter.PutClientState | client_state.go:249-273 | only callable with the latch unset; sets it; the WriteState calls made and the error returned are those of Flush on the logs and snapshots as they were |
| ClientStateWriter.ClientStateResponseWriter.WriteHeader | client_state.go:204-211 | flushes only if the latch was unset; on a flush error it panics with that error and writes no header; afterwards it only passes the header through |
| ClientStateWriter.ClientStateResponseWriter.Write | client_state.go:230-237 | flushes only if the latch was unset; on a flush error it returns (0, err) and writes nothing; otherwise it returns the wrapped writer's result; no second flush ever happens |
| ClientStateApi.UnwrapFindsOutermost | client_state.go:179-200 | the walk finds the outermost ClientStateResponseWriter layer of the chain, and fails exactly when there is none |
| ClientStateApi.MustClientStateResponseWriter | client_state.go:179-200 | the loop returns what Unwrap specifies: the outermost state writer, or nothing where the source panics |
| ClientStateApi.SetState | client_state.go:358-376 | panics exactly when no writer is in the chain; otherwise appends exactly one event to the log the context key selects and changes nothing else |
| ClientStateApi.PutSession | client_state.go:316-319 | appends one Put event with key and value to the session log only |
| ClientStateApi.DelSession | client_state.go:321-324 | appends one Del event with an empty value to the session log only |
| ClientStateApi.PutCookie | client_state.go:331-334 | appends one Put event with key and value to the cookie log only |
| ClientStateApi.DelCookie | client_state.go:336-339 | appends one Del event with an empty value to the cookie log only |
| ClientStateApi.DelAllSession | client_state.go:297-299 | appends one DelAll event whose key is the comma-joined keep-list and whose value is empty |
| ClientStateApi.DelKnownSession | client_state.go:304-308 | appends exactly three Del events, for uid, halfauth and last_action in that order |
| ClientStateApi.DelKnownCookie | client_state.go:312-314 | appends one Del event for the remember-me cookie |
| ClientStateApi.TakeFlash | client_state.go:389-397 | returns the flash value and records exactly the events Flash gives; panics only when the key is present and no writer is found |
| ClientStateApi.FlashSuccess | client_state.go:388-397 | read-then-delete of flash_success, as TakeFlash |
| ClientStateApi.FlashError | client_state.go:399-408 | read-then-delete of flash_error, as TakeFlash |
| ClientStateApi.LoadClientState | client_state.go:152-175 | the result and the reads made are those of LoadSpec and ReadsMade; the writer's snapshots change only for stored states; the store flags, the event logs, the latch and the ghost logs of writes are untouched |
| ClientStateApi.LoadClientStateMiddleware | client_state.go:125-148 | the outcome is Middleware of LoadSpec with a writer present, so it never panics; the fresh writer's store flags match the stores read; it holds exactly the stored snapshots, empty logs, an unset latch and no store writes or output; status 500 reaches the original writer exactly on a read error |
| ClientStateApi.ExactlyOnceScenario | client_state.go:125-237 | after the middleware loads a session snapshot and no cookie state, and the handler does a session Put, a cookie Del and two body writes, each store was written once, session first, with its loaded snapshot and whole log, and both bodies reached the wire |

## Left out

- Debug printing and reflection (`fmt.Printf`, `reflect.TypeOf`) are output only.
- `Header`, `Hijack`, `EchoResponseWriter` and `UnderlyingResponseWriter` on the writer only forward to the network layer.
- Concrete backing stores are external. What `ReadState` and `WriteState` return is a parameter, and each `WriteState` call is recorded in the ghost log `writes`. A store's `WriteState` receives the writer itself and may set headers on it; that is not modelled.
- A `ClientState` is modelled as a map, and its `Get` as a map lookup returning `("", false)` for a missing key. Other implementations of the interface are not modelled.
- The wrapped `http.ResponseWriter` is external. What its `Write` returns is a parameter, and what reaches it is recorded in the ghost log `sent`.
- Context keys other than the session and cookie keys are not modelled. `setState`'s switch ignores them, and no caller passes one.
- The middleware's logging is left out, and so is the handler it calls: `LoadClientStateMiddleware` returns the loaded request and the new writer to the caller instead.
- ClientStateApi.LoadClientState: called directly, it does not tie the writer's store flags to which stores are read. In the source both come from the same `Config.Storage`; the model ties them only where the writer is created, in `LoadClientStateMiddleware`.
- ClientStateApi.MustClientStateResponseWriter: the wrapper chain is a datatype, so the walk always ends. A Go chain whose `UnderlyingResponseWriter` loops back on itself would make the walk loop forever; that case is not modelled.
- Panics are modelled as outcomes: `ok == false`, `LoadPanicked`, or the error `WriteHeader` returns. `putClientState`'s panic on a second call is a precondition instead, because both of its callers check the latch first.
- Concurrency: each request owns its writer, and the model is sequential.
- The OAuth2 Start/End flow, implemented in `oauth2/oauth2.go`, is not part of this model. Its tests depend on mocks, random nonces and a network token exchange.
- The `CurrentUser` helpers exercised by `context_test.go` are not part of this model.
- `defaults/error_handler.go` is a logging wrapper with no client-state logic.
