/** Pure specifications of the two store-facing phases of a request: loading
    the snapshots (LoadClientState) and the one-time flush of the event logs
    (putClientState). The class in module ClientStateWriter is proved to do
    exactly what these functions say. */
module ClientStateCommit {
  import opened ClientStateEvents
  import opened ClientStateLookup

  // ---------------------------------------------------------------- flush

  /** One call of a store's WriteState: which store, the snapshot it was
      given (None for a nil ClientState) and the events, in append order. */
  datatype WriteCall = WriteCall(store: StoreKind, state: Option<Snapshot>, events: seq<Event>)

  /** What the writer holds for one store at flush time: whether the store's
      ClientStateReadWriter is non-nil, its snapshot and its event log. */
  datatype Pending = Pending(configured: bool, state: Option<Snapshot>, events: seq<Event>)

  /** The WriteState calls made, in order, and the error putClientState returns. */
  datatype FlushResult = FlushResult(calls: seq<WriteCall>, err: Option<Error>)

  /** At most one call per store, the session store's first. */
  predicate InOrder(calls: seq<WriteCall>) {
    forall i, j :: 0 <= i < j < |calls| ==> calls[i].store == SessionStore && calls[j].store == CookieStore
  }

  /** A store's writer is called only when it is configured and has events. */
  predicate Invoked(p: Pending) {
    p.configured && |p.events| > 0
  }

  function CallOf(store: StoreKind, p: Pending): WriteCall {
    WriteCall(store, p.state, p.events)
  }

  /** The flush sequence, given what each store's WriteState would return
      (None for success). */
  function Flush(session: Pending, cookie: Pending,
                 sessionResult: Option<Error>, cookieResult: Option<Error>): (r: FlushResult)
    // no events at all: no writer is called
    ensures |session.events| == 0 && |cookie.events| == 0 ==> r == FlushResult([], None)
    // the session writer is called iff configured with events, and then with the whole log
    ensures CallOf(SessionStore, session) in r.calls <==> Invoked(session)
    // the cookie writer likewise, unless the session writer failed first
    ensures CallOf(CookieStore, cookie) in r.calls <==>
              Invoked(cookie) && !(Invoked(session) && sessionResult.Some?)
    ensures forall c :: c in r.calls ==> c == CallOf(SessionStore, session) || c == CallOf(CookieStore, cookie)
    // at most one call per store, the session store first
    ensures |r.calls| <= 2
    ensures InOrder(r.calls)
    // the first failing writer's error is returned
    ensures r.err == (if Invoked(session) && sessionResult.Some? then sessionResult
                      else if Invoked(cookie) then cookieResult
                      else None)
  {
    if |cookie.events| == 0 && |session.events| == 0 then FlushResult([], None)
    else
      var first := if Invoked(session) then [CallOf(SessionStore, session)] else [];
      if Invoked(session) && sessionResult.Some? then FlushResult(first, sessionResult)
      else if Invoked(cookie) then FlushResult(first + [CallOf(CookieStore, cookie)], cookieResult)
      else FlushResult(first, None)
  }

  // ----------------------------------------------------------------- load

  /** ReadState's (ClientState, error) pair; a nil ClientState is None. */
  datatype ReadResult = ReadResult(state: Option<Snapshot>, err: Option<Error>)

  /** LoadClientState either returns the new request, returns a read error,
      or panics because no ClientStateResponseWriter is in the writer chain. */
  datatype LoadResult = Loaded(request: Request) | LoadFailed(err: Error) | LoadPanicked

  /** A configured store whose read returned an error. (`None` stands for a
      store that is not configured, whose ReadState is never called.) */
  predicate Failed(read: Option<ReadResult>) {
    read.Some? && read.value.err.Some?
  }

  /** The state a read puts into the writer and the context: only a non-nil
      state from a read without error. */
  function Stored(read: Option<ReadResult>): (s: Option<Snapshot>)
    ensures s.Some? <==> read.Some? && read.value.err.None? && read.value.state.Some?
    ensures s.Some? ==> s == read.value.state
  {
    if read.Some? && read.value.err.None? then read.value.state else None
  }

  /** One store's step of LoadClientState, starting from request `r`. */
  function LoadStep(r: Request, store: StoreKind, read: Option<ReadResult>, hasWriter: bool): LoadResult {
    if read.None? then Loaded(r)
    else if read.value.err.Some? then LoadFailed(read.value.err.value)
    else if read.value.state.None? then Loaded(r)
    else if !hasWriter then LoadPanicked
    else Loaded(r.With(store, read.value.state.value))
  }

  /** Whether a store's step lets LoadClientState go on to the next store. */
  predicate StepContinues(read: Option<ReadResult>, hasWriter: bool) {
    !Failed(read) && (hasWriter || Stored(read).None?)
  }

  /** How `after` relates to `before` for one store once its step is done:
      a stored state is placed in the context, otherwise it is left alone. */
  ghost predicate ContextAfter(before: Request, after: Request, store: StoreKind, read: Option<ReadResult>) {
    if Stored(read).Some? then
      store in after.context && after.context[store] == Stored(read).value
    else
      (store in after.context <==> store in before.context) &&
      (store in before.context ==> after.context[store] == before.context[store])
  }

  /** LoadClientState: the session store is read first, then the cookie store. */
  function LoadSpec(r: Request, sessionRead: Option<ReadResult>, cookieRead: Option<ReadResult>,
                    hasWriter: bool): (res: LoadResult)
    // a session read error is returned, whatever the cookie store would say
    ensures Failed(sessionRead) ==> res == LoadFailed(sessionRead.value.err.value)
    ensures res.LoadFailed? <==> Failed(sessionRead) || (StepContinues(sessionRead, hasWriter) && Failed(cookieRead))
    ensures res.LoadFailed? && !Failed(sessionRead) ==> res.err == cookieRead.value.err.value
    // a panic needs a non-nil state and no writer to store it in
    ensures res.LoadPanicked? <==>
              !hasWriter && !Failed(sessionRead) &&
              (Stored(sessionRead).Some? || (!Failed(cookieRead) && Stored(cookieRead).Some?))
    // on success exactly the non-nil states have been put into the context
    ensures res.Loaded? ==>
              ContextAfter(r, res.request, SessionStore, sessionRead) &&
              ContextAfter(r, res.request, CookieStore, cookieRead)
  {
    var afterSession := LoadStep(r, SessionStore, sessionRead, hasWriter);
    if afterSession.Loaded? then LoadStep(afterSession.request, CookieStore, cookieRead, hasWriter)
    else afterSession
  }

  /** The ReadState calls LoadClientState makes, in order. */
  function ReadsMade(sessionRead: Option<ReadResult>, cookieRead: Option<ReadResult>,
                     hasWriter: bool): (made: seq<StoreKind>)
    ensures SessionStore in made <==> sessionRead.Some?
    // the cookie store is read only if the session step neither failed nor panicked
    ensures CookieStore in made <==> cookieRead.Some? && StepContinues(sessionRead, hasWriter)
    ensures forall i, j :: 0 <= i < j < |made| ==> made[i] == SessionStore && made[j] == CookieStore
  {
    (if sessionRead.Some? then [SessionStore] else []) +
    (if cookieRead.Some? && StepContinues(sessionRead, hasWriter) then [CookieStore] else [])
  }

  // ------------------------------------------------------------ middleware

  /** What LoadClientStateMiddleware does with LoadClientState's outcome. */
  datatype Served = HandlerRan(request: Request) | InternalServerError | Panicked

  /** On a read error no handler runs: status 500 is written straight to the
      original ResponseWriter, past the commit gate, so no flush happens
      (ClientStateApi.LoadClientStateMiddleware states the writer it leaves). */
  function Middleware(load: LoadResult): (s: Served)
    ensures s.HandlerRan? <==> load.Loaded?
    ensures s.HandlerRan? ==> s.request == load.request
    ensures s == InternalServerError <==> load.LoadFailed?
  {
    match load
    case Loaded(request) => HandlerRan(request)
    case LoadFailed(_) => InternalServerError
    case LoadPanicked => Panicked
  }
}
