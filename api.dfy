/** The package-level entry points that take an http.ResponseWriter: finding
    the ClientStateResponseWriter inside a chain of wrappers, recording
    events through it (setState and its Put/Del/DelAll wrappers), loading
    the snapshots (LoadClientState) and the read-then-delete flash helpers. */
module ClientStateApi {
  import opened ClientStateEvents
  import opened ClientStateLookup
  import opened ClientStateCommit
  import opened ClientStateWriter

  /** The http.ResponseWriter handed to handlers, as the chain of wrappers
      MustClientStateResponseWriter can see through. */
  datatype ResponseWriter =
    | EchoResponse(writer: ResponseWriter)    // *echo.Response, unwrapped through its Writer
    | StateWriter(csrw: ClientStateResponseWriter, underlying: ResponseWriter)
    | Wrapper(underlying: ResponseWriter)     // any other UnderlyingResponseWriter
    | Plain                                   // any other ResponseWriter

  /** The layers of the chain, outermost first. */
  function Layers(w: ResponseWriter): (ls: seq<ResponseWriter>)
    ensures |ls| >= 1 && ls[0] == w
  {
    match w
    case EchoResponse(inner) => [w] + Layers(inner)
    case StateWriter(_, inner) => [w] + Layers(inner)
    case Wrapper(inner) => [w] + Layers(inner)
    case Plain => [w]
  }

  /** The writer MustClientStateResponseWriter returns; None where it panics. */
  function Unwrap(w: ResponseWriter): Option<ClientStateResponseWriter> {
    match w
    case EchoResponse(inner) => Unwrap(inner)
    case StateWriter(c, _) => Some(c)
    case Wrapper(inner) => Unwrap(inner)
    case Plain => None
  }

  /** Layer `i` is a ClientStateResponseWriter and no layer before it is. */
  predicate FirstStateWriterAt(ls: seq<ResponseWriter>, i: int) {
    0 <= i < |ls| && ls[i].StateWriter? && forall j :: 0 <= j < i ==> !ls[j].StateWriter?
  }

  predicate HasStateWriter(ls: seq<ResponseWriter>) {
    exists i :: 0 <= i < |ls| && ls[i].StateWriter?
  }

  /** Unwrap finds the outermost ClientStateResponseWriter layer, and fails
      exactly when the chain has none. */
  lemma {:induction false} UnwrapFindsOutermost(w: ResponseWriter)
    ensures Unwrap(w).Some? <==> HasStateWriter(Layers(w))
    ensures Unwrap(w).Some? ==>
              exists i :: FirstStateWriterAt(Layers(w), i) && Layers(w)[i].csrw == Unwrap(w).value
  {
    var ls := Layers(w);
    match w
    case StateWriter(c, _) =>
      assert FirstStateWriterAt(ls, 0);
    case Plain =>
      assert ls == [Plain];
    case EchoResponse(inner) =>
      UnwrapFindsOutermost(inner);
      ShiftLayers(w, inner);
    case Wrapper(inner) =>
      UnwrapFindsOutermost(inner);
      ShiftLayers(w, inner);
  }

  /** A wrapper that is not a state writer adds one non-matching layer in front. */
  lemma ShiftLayers(w: ResponseWriter, inner: ResponseWriter)
    requires (w.EchoResponse? && w.writer == inner) || (w.Wrapper? && w.underlying == inner)
    requires Unwrap(inner).Some? <==> HasStateWriter(Layers(inner))
    requires Unwrap(inner).Some? ==>
               exists i :: FirstStateWriterAt(Layers(inner), i) && Layers(inner)[i].csrw == Unwrap(inner).value
    ensures Unwrap(w).Some? <==> HasStateWriter(Layers(w))
    ensures Unwrap(w).Some? ==>
              exists i :: FirstStateWriterAt(Layers(w), i) && Layers(w)[i].csrw == Unwrap(w).value
  {
    var ls, ms := Layers(w), Layers(inner);
    assert ls == [w] + ms && !w.StateWriter?;
    assert Unwrap(w) == Unwrap(inner);
    if Unwrap(inner).Some? {
      var i :| FirstStateWriterAt(ms, i) && ms[i].csrw == Unwrap(inner).value;
      assert ls[i + 1] == ms[i];
      forall j | 0 <= j < i + 1 ensures !ls[j].StateWriter? {
        if j > 0 { assert ls[j] == ms[j - 1]; }
      }
      assert FirstStateWriterAt(ls, i + 1);
    }
  }

  /** The writer, if any, that an operation on `w` may change. */
  function Holder(w: ResponseWriter): set<ClientStateResponseWriter> {
    if Unwrap(w).Some? then {Unwrap(w).value} else {}
  }

  /** The writer found in `w`, if any, keeps its invariant. */
  ghost predicate WriterValid(w: ResponseWriter)
    reads Holder(w)
  {
    Unwrap(w).Some? ==> Unwrap(w).value.Valid()
  }

  /** MustClientStateResponseWriter: walk the chain until a
      ClientStateResponseWriter is found; None where the source panics. */
  method MustClientStateResponseWriter(w: ResponseWriter) returns (c: Option<ClientStateResponseWriter>)
    ensures c == Unwrap(w)
  {
    var cur := w;
    while true
      invariant Unwrap(cur) == Unwrap(w)
      decreases cur
    {
      match cur
      case EchoResponse(inner) =>
        cur := inner;
      case StateWriter(s, _) =>
        return Some(s);
      case Wrapper(inner) =>
        cur := inner;
      case Plain =>
        return None;
    }
  }

  /** setState: find the writer (ok is false where the source panics) and
      append one event to the log the context key selects. */
  method SetState(w: ResponseWriter, store: StoreKind, op: EventKind, key: string, val: string)
    returns (ok: bool)
    requires Unwrap(w).Some? ==> allocated(Unwrap(w).value)
    requires WriterValid(w)
    modifies Holder(w)
    ensures ok == Unwrap(w).Some?
    ensures ok ==> var c := Unwrap(w).value;
              c.Valid() && c.Rest() == old(c.Rest()) &&
              c.Events(store) == old(c.Events(store)) + [NewEvent(op, key, val)] &&
              c.Events(Other(store)) == old(c.Events(Other(store)))
  {
    var csrw := MustClientStateResponseWriter(w);
    if csrw.None? {
      return false;
    }
    csrw.value.Record(store, op, key, val);
    return true;
  }

  method PutSession(w: ResponseWriter, key: string, val: string) returns (ok: bool)
    requires Unwrap(w).Some? ==> allocated(Unwrap(w).value)
    requires WriterValid(w)
    modifies Holder(w)
    ensures ok == Unwrap(w).Some?
    ensures ok ==> var c := Unwrap(w).value;
              c.Valid() && c.Rest() == old(c.Rest()) &&
              c.Events(SessionStore) == old(c.Events(SessionStore)) + [Event(Put, key, val)] &&
              c.Events(CookieStore) == old(c.Events(CookieStore))
  {
    ok := SetState(w, SessionStore, Put, key, val);
  }

  method DelSession(w: ResponseWriter, key: string) returns (ok: bool)
    requires Unwrap(w).Some? ==> allocated(Unwrap(w).value)
    requires WriterValid(w)
    modifies Holder(w)
    ensures ok == Unwrap(w).Some?
    ensures ok ==> var c := Unwrap(w).value;
              c.Valid() && c.Rest() == old(c.Rest()) &&
              c.Events(SessionStore) == old(c.Events(SessionStore)) + [Event(Del, key, "")] &&
              c.Events(CookieStore) == old(c.Events(CookieStore))
  {
    ok := SetState(w, SessionStore, Del, key, "");
  }

  method PutCookie(w: ResponseWriter, key: string, val: string) returns (ok: bool)
    requires Unwrap(w).Some? ==> allocated(Unwrap(w).value)
    requires WriterValid(w)
    modifies Holder(w)
    ensures ok == Unwrap(w).Some?
    ensures ok ==> var c := Unwrap(w).value;
              c.Valid() && c.Rest() == old(c.Rest()) &&
              c.Events(CookieStore) == old(c.Events(CookieStore)) + [Event(Put, key, val)] &&
              c.Events(SessionStore) == old(c.Events(SessionStore))
  {
    ok := SetState(w, CookieStore, Put, key, val);
  }

  method DelCookie(w: ResponseWriter, key: string) returns (ok: bool)
    requires Unwrap(w).Some? ==> allocated(Unwrap(w).value)
    requires WriterValid(w)
    modifies Holder(w)
    ensures ok == Unwrap(w).Some?
    ensures ok ==> var c := Unwrap(w).value;
              c.Valid() && c.Rest() == old(c.Rest()) &&
              c.Events(CookieStore) == old(c.Events(CookieStore)) + [Event(Del, key, "")] &&
              c.Events(SessionStore) == old(c.Events(SessionStore))
  {
    ok := SetState(w, CookieStore, Del, key, "");
  }

  /** DelAllSession: one DelAll event whose key is the comma-joined keep-list
      (see SplitJoin for when a store can split it back). */
  method DelAllSession(w: ResponseWriter, whitelist: seq<string>) returns (ok: bool)
    requires Unwrap(w).Some? ==> allocated(Unwrap(w).value)
    requires WriterValid(w)
    modifies Holder(w)
    ensures ok == Unwrap(w).Some?
    ensures ok ==> var c := Unwrap(w).value;
              c.Valid() && c.Rest() == old(c.Rest()) &&
              c.Events(SessionStore) == old(c.Events(SessionStore)) + [Event(DelAll, Join(whitelist), "")] &&
              c.Events(CookieStore) == old(c.Events(CookieStore))
  {
    ok := SetState(w, SessionStore, DelAll, Join(whitelist), "");
  }

  /** DelKnownSession: three Del events, for uid, halfauth and last_action. */
  method DelKnownSession(w: ResponseWriter) returns (ok: bool)
    requires Unwrap(w).Some? ==> allocated(Unwrap(w).value)
    requires WriterValid(w)
    modifies Holder(w)
    ensures ok == Unwrap(w).Some?
    ensures ok ==> var c := Unwrap(w).value;
              c.Valid() && c.Rest() == old(c.Rest()) &&
              c.Events(SessionStore) == old(c.Events(SessionStore)) +
                [Event(Del, KnownSessionKeys[0], ""), Event(Del, KnownSessionKeys[1], ""),
                 Event(Del, KnownSessionKeys[2], "")] &&
              c.Events(CookieStore) == old(c.Events(CookieStore))
  {
    ok := DelSession(w, SessionKey);
    if !ok {
      return;
    }
    ok := DelSession(w, SessionHalfAuthKey);
    ok := DelSession(w, SessionLastAction);
  }

  /** DelKnownCookie: one Del event for the remember-me cookie. */
  method DelKnownCookie(w: ResponseWriter) returns (ok: bool)
    requires Unwrap(w).Some? ==> allocated(Unwrap(w).value)
    requires WriterValid(w)
    modifies Holder(w)
    ensures ok == Unwrap(w).Some?
    ensures ok ==> var c := Unwrap(w).value;
              c.Valid() && c.Rest() == old(c.Rest()) &&
              c.Events(CookieStore) == old(c.Events(CookieStore)) + [Event(Del, CookieRemember, "")] &&
              c.Events(SessionStore) == old(c.Events(SessionStore))
  {
    ok := DelCookie(w, CookieRemember);
  }

  /** The read-then-delete of FlashSuccess and FlashError: the value of `key`
      in the loaded session and at most one Del event for it. `ok` is false
      where the source panics (the key is present but no writer is found). */
  method TakeFlash(w: ResponseWriter, r: Request, key: string) returns (s: string, ok: bool)
    requires Unwrap(w).Some? ==> allocated(Unwrap(w).value)
    requires WriterValid(w)
    modifies Holder(w)
    ensures ok <==> Flash(r, key).1 == [] || Unwrap(w).Some?
    ensures ok ==> s == Flash(r, key).0
    ensures Unwrap(w).Some? ==> var c := Unwrap(w).value;
              c.Valid() && c.Rest() == old(c.Rest()) &&
              c.Events(SessionStore) == old(c.Events(SessionStore)) + Flash(r, key).1 &&
              c.Events(CookieStore) == old(c.Events(CookieStore))
  {
    var (str, found) := GetSession(r, key);
    if !found {
      return "", true;
    }
    ok := DelSession(w, key);
    s := if ok then str else "";
  }

  method FlashSuccess(w: ResponseWriter, r: Request) returns (s: string, ok: bool)
    requires Unwrap(w).Some? ==> allocated(Unwrap(w).value)
    requires WriterValid(w)
    modifies Holder(w)
    ensures ok <==> Flash(r, FlashSuccessKey).1 == [] || Unwrap(w).Some?
    ensures ok ==> s == Flash(r, FlashSuccessKey).0
    ensures Unwrap(w).Some? ==> var c := Unwrap(w).value;
              c.Valid() && c.Rest() == old(c.Rest()) &&
              c.Events(SessionStore) == old(c.Events(SessionStore)) + Flash(r, FlashSuccessKey).1 &&
              c.Events(CookieStore) == old(c.Events(CookieStore))
  {
    s, ok := TakeFlash(w, r, FlashSuccessKey);
  }

  method FlashError(w: ResponseWriter, r: Request) returns (s: string, ok: bool)
    requires Unwrap(w).Some? ==> allocated(Unwrap(w).value)
    requires WriterValid(w)
    modifies Holder(w)
    ensures ok <==> Flash(r, FlashErrorKey).1 == [] || Unwrap(w).Some?
    ensures ok ==> s == Flash(r, FlashErrorKey).0
    ensures Unwrap(w).Some? ==> var c := Unwrap(w).value;
              c.Valid() && c.Rest() == old(c.Rest()) &&
              c.Events(SessionStore) == old(c.Events(SessionStore)) + Flash(r, FlashErrorKey).1 &&
              c.Events(CookieStore) == old(c.Events(CookieStore))
  {
    s, ok := TakeFlash(w, r, FlashErrorKey);
  }

  /** LoadClientState. `sessionRead`/`cookieRead` are what each store's
      ReadState returns, None for a store that is not configured. `made`
      records the ReadState calls. A non-nil state is stored in the writer
      and in the request context; a session state stored before a cookie
      read error stays in the writer. */
  method LoadClientState(w: ResponseWriter, r: Request,
                         sessionRead: Option<ReadResult>, cookieRead: Option<ReadResult>)
    returns (res: LoadResult, ghost made: seq<StoreKind>)
    requires Unwrap(w).Some? ==> allocated(Unwrap(w).value)
    requires WriterValid(w)
    modifies Holder(w)
    ensures res == LoadSpec(r, sessionRead, cookieRead, Unwrap(w).Some?)
    ensures made == ReadsMade(sessionRead, cookieRead, Unwrap(w).Some?)
    ensures Unwrap(w).Some? ==> var c := Unwrap(w).value;
              c.Valid() &&
              c.sessionState == (if Stored(sessionRead).Some? then Stored(sessionRead)
                                 else old(c.sessionState)) &&
              c.cookieState == (if !Failed(sessionRead) && Stored(cookieRead).Some? then Stored(cookieRead)
                                else old(c.cookieState)) &&
              c.Events(SessionStore) == old(c.Events(SessionStore)) &&
              c.Events(CookieStore) == old(c.Events(CookieStore)) &&
              c.sessionConfigured == old(c.sessionConfigured) && c.cookieConfigured == old(c.cookieConfigured) &&
              c.hasWritten == old(c.hasWritten) && c.writes == old(c.writes) && c.sent == old(c.sent)
  {
    var req := r;
    made := [];
    if sessionRead.Some? {
      made := made + [SessionStore];
      var read := sessionRead.value;
      if read.err.Some? {
        return LoadFailed(read.err.value), made;
      } else if read.state.Some? {
        var c := MustClientStateResponseWriter(w);
        if c.None? {
          return LoadPanicked, made;
        }
        c.value.sessionState := read.state;
        req := req.With(SessionStore, read.state.value);
      }
    }
    if cookieRead.Some? {
      made := made + [CookieStore];
      var read := cookieRead.value;
      if read.err.Some? {
        return LoadFailed(read.err.value), made;
      } else if read.state.Some? {
        var c := MustClientStateResponseWriter(w);
        if c.None? {
          return LoadPanicked, made;
        }
        c.value.cookieState := read.state;
        req := req.With(CookieStore, read.state.value);
      }
    }
    return Loaded(req), made;
  }

  /** LoadClientStateMiddleware up to the handler call. NewResponse wraps
      the original writer in a fresh ClientStateResponseWriter whose store
      flags come from the same configuration that decides which stores are
      read; the state is loaded through it. On a read error no handler runs
      and status 500 goes to the original writer, past the commit gate:
      `direct` records what reaches the original writer here, and the new
      writer has neither flushed nor sent anything. */
  method LoadClientStateMiddleware(r: Request, sessionRead: Option<ReadResult>, cookieRead: Option<ReadResult>)
    returns (s: Served, c: ClientStateResponseWriter, ghost direct: seq<Output>)
    ensures s == Middleware(LoadSpec(r, sessionRead, cookieRead, true))
    ensures !s.Panicked?
    ensures direct == (if s == InternalServerError then [Header(StatusInternalServerError)] else [])
    ensures fresh(c) && c.Valid()
    ensures c.sessionConfigured == sessionRead.Some? && c.cookieConfigured == cookieRead.Some?
    ensures c.sessionState == Stored(sessionRead)
    ensures c.cookieState == (if Failed(sessionRead) then None else Stored(cookieRead))
    ensures !c.hasWritten && c.writes == [] && c.sent == []
    ensures c.sessionStateEvents == [] && c.cookieStateEvents == []
  {
    c := new ClientStateResponseWriter(sessionRead.Some?, cookieRead.Some?);
    var w := StateWriter(c, Plain);
    assert Unwrap(w) == Some(c);
    var res, made := LoadClientState(w, r, sessionRead, cookieRead);
    s := Middleware(res);
    direct := if res.LoadFailed? then [Header(StatusInternalServerError)] else [];
  }

  /** A request as the middleware drives it: the session store holds `snap`
      and the cookie store nothing; the handler does one session Put and one
      cookie Del, then two body writes. The stores are written once, session
      first, each with its loaded snapshot and whole log; the second write
      only reaches the wire. */
  method ExactlyOnceScenario(snap: Snapshot, key: string, val: string, first: seq<byte>, second: seq<byte>)
    returns (c: ClientStateResponseWriter)
    ensures c.writes == [WriteCall(SessionStore, Some(snap), [Event(Put, key, val)]),
                         WriteCall(CookieStore, None, [Event(Del, CookieRemember, "")])]
    ensures c.sent == [Body(first), Body(second)]
  {
    var s;
    ghost var direct;
    s, c, direct := LoadClientStateMiddleware(Request(map[]), Some(ReadResult(Some(snap), None)),
                                              Some(ReadResult(None, None)));
    var w := EchoResponse(StateWriter(c, Plain));
    assert Unwrap(w) == Some(c);
    var ok := PutSession(w, key, val);
    ok := DelKnownCookie(w);
    assert c.Pending(SessionStore) == ClientStateCommit.Pending(true, Some(snap), [Event(Put, key, val)]);
    assert c.Pending(CookieStore) == ClientStateCommit.Pending(true, None, [Event(Del, CookieRemember, "")]);
    var n, err := c.Write(first, None, None, |first|, None);
    n, err := c.Write(second, None, None, |second|, None);
  }
}
