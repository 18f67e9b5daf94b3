/** ClientStateResponseWriter: the per-request commit gate. It buffers the
    session and cookie event logs and flushes them to the backing stores the
    first time a header or body is written. The backing stores and the
    wrapped ResponseWriter are outside the model: what their calls return is
    passed in, and what reaches them is recorded in ghost logs. */
module ClientStateWriter {
  import opened ClientStateEvents
  import opened ClientStateLookup
  import opened ClientStateCommit

  newtype byte = x: int | 0 <= x < 256

  /** What reaches the wrapped ResponseWriter. */
  datatype Output = Header(code: int) | Body(bytes: seq<byte>)

  const StatusInternalServerError: int := 500

  class ClientStateResponseWriter {
    // sessionStateRW != nil, cookieStateRW != nil
    var sessionConfigured: bool
    var cookieConfigured: bool
    // the loaded snapshots; None while nil
    var sessionState: Option<Snapshot>
    var cookieState: Option<Snapshot>
    var hasWritten: bool
    var sessionStateEvents: seq<Event>
    var cookieStateEvents: seq<Event>

    // the WriteState calls made so far, in order
    ghost var writes: seq<WriteCall>
    // the headers and bodies passed to the wrapped ResponseWriter, in order
    ghost var sent: seq<Output>

    function Configured(store: StoreKind): bool
      reads this
    {
      if store == SessionStore then sessionConfigured else cookieConfigured
    }

    function Events(store: StoreKind): seq<Event>
      reads this
    {
      if store == SessionStore then sessionStateEvents else cookieStateEvents
    }

    function Pending(store: StoreKind): Pending
      reads this
    {
      if store == SessionStore then ClientStateCommit.Pending(sessionConfigured, sessionState, sessionStateEvents)
      else ClientStateCommit.Pending(cookieConfigured, cookieState, cookieStateEvents)
    }

    /** Everything except the two event logs. */
    ghost function Rest(): (bool, bool, Option<Snapshot>, Option<Snapshot>, bool, seq<WriteCall>, seq<Output>)
      reads this
    {
      (sessionConfigured, cookieConfigured, sessionState, cookieState, hasWritten, writes, sent)
    }

    /** Nothing reaches a store or the wrapped writer before the latch is set;
        at most one WriteState call per store, session first; each call got a
        non-empty log that is still a prefix of the (append-only) log. */
    ghost predicate Valid()
      reads this
    {
      && (!hasWritten ==> writes == [] && sent == [])
      && |writes| <= 2
      && InOrder(writes)
      && (forall i :: 0 <= i < |writes| ==>
            Configured(writes[i].store) && 0 < |writes[i].events| &&
            writes[i].events <= Events(writes[i].store))
    }

    /** NewResponse: a fresh writer for one request. */
    constructor (sessionConfigured: bool, cookieConfigured: bool)
      ensures Valid()
      ensures this.sessionConfigured == sessionConfigured && this.cookieConfigured == cookieConfigured
      ensures sessionState == None && cookieState == None && !hasWritten
      ensures sessionStateEvents == [] && cookieStateEvents == []
    {
      this.sessionConfigured := sessionConfigured;
      this.cookieConfigured := cookieConfigured;
      sessionState, cookieState := None, None;
      hasWritten := false;
      sessionStateEvents, cookieStateEvents := [], [];
      writes, sent := [], [];
    }

    /** The append of setState, once the writer has been found. It does not
        look at hasWritten: an event recorded after the flush is kept and
        never written out. */
    method Record(store: StoreKind, op: EventKind, key: string, val: string)
      requires Valid()
      modifies this`sessionStateEvents, this`cookieStateEvents
      ensures Valid()
      ensures Events(store) == old(Events(store)) + [NewEvent(op, key, val)]
      ensures Events(Other(store)) == old(Events(Other(store)))
    {
      var ev := NewEvent(op, key, val);
      if store == SessionStore {
        sessionStateEvents := sessionStateEvents + [ev];
      } else {
        cookieStateEvents := cookieStateEvents + [ev];
      }
      forall i | 0 <= i < |writes|
        ensures writes[i].events <= Events(writes[i].store)
      {
        PrefixOfAppend(writes[i].events, old(Events(writes[i].store)), Events(writes[i].store));
      }
    }

    /** putClientState. Calling it twice panics in the source, so its callers
        (WriteHeader, Write) only call it while hasWritten is false. The latch
        is set before any store is written, so a failed flush is never retried. */
    method PutClientState(sessionResult: Option<Error>, cookieResult: Option<Error>)
      returns (err: Option<Error>)
      requires Valid() && !hasWritten
      modifies this`hasWritten, this`writes
      ensures Valid() && hasWritten
      ensures var f := Flush(old(Pending(SessionStore)), old(Pending(CookieStore)), sessionResult, cookieResult);
              writes == f.calls && err == f.err
    {
      hasWritten := true;

      if |cookieStateEvents| == 0 && |sessionStateEvents| == 0 {
        return None;
      }

      if sessionConfigured && |sessionStateEvents| > 0 {
        writes := writes + [WriteCall(SessionStore, sessionState, sessionStateEvents)];
        if sessionResult.Some? {
          return sessionResult;
        }
      }
      if cookieConfigured && |cookieStateEvents| > 0 {
        writes := writes + [WriteCall(CookieStore, cookieState, cookieStateEvents)];
        if cookieResult.Some? {
          return cookieResult;
        }
      }
      return None;
    }

    /** WriteHeader: the first call flushes and panics with the flush error;
        then (and on every later call) the header goes to the wrapped writer. */
    method WriteHeader(code: int, sessionResult: Option<Error>, cookieResult: Option<Error>)
      returns (panicked: Option<Error>)
      requires Valid()
      modifies this`hasWritten, this`writes, this`sent
      ensures Valid() && hasWritten
      ensures old(hasWritten) ==>
                panicked == None && writes == old(writes) && sent == old(sent) + [Header(code)]
      ensures !old(hasWritten) ==>
                var f := Flush(old(Pending(SessionStore)), old(Pending(CookieStore)), sessionResult, cookieResult);
                writes == f.calls && panicked == f.err &&
                sent == (if f.err.None? then [Header(code)] else [])
    {
      if !hasWritten {
        var err := PutClientState(sessionResult, cookieResult);
        if err.Some? {
          return err;
        }
      }
      sent := sent + [Header(code)];
      return None;
    }

    /** Write: the first call flushes and on a flush error returns (0, err)
        without writing; otherwise the bytes go to the wrapped writer, whose
        result (`written`, `writeErr`) is returned. */
    method Write(b: seq<byte>, sessionResult: Option<Error>, cookieResult: Option<Error>,
                 written: int, writeErr: Option<Error>)
      returns (n: int, err: Option<Error>)
      requires Valid()
      modifies this`hasWritten, this`writes, this`sent
      ensures Valid() && hasWritten
      ensures old(hasWritten) ==>
                writes == old(writes) && sent == old(sent) + [Body(b)] && n == written && err == writeErr
      ensures !old(hasWritten) ==>
                var f := Flush(old(Pending(SessionStore)), old(Pending(CookieStore)), sessionResult, cookieResult);
                writes == f.calls &&
                (f.err.Some? ==> n == 0 && err == f.err && sent == []) &&
                (f.err.None? ==> n == written && err == writeErr && sent == [Body(b)])
    {
      if !hasWritten {
        var flushErr := PutClientState(sessionResult, cookieResult);
        if flushErr.Some? {
          return 0, flushErr;
        }
      }
      sent := sent + [Body(b)];
      return written, writeErr;
    }
  }

  lemma PrefixOfAppend<T>(p: seq<T>, s: seq<T>, t: seq<T>)
    requires p <= s && s <= t
    ensures p <= t
  {
  }
}
