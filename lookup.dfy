/** Side-effect-free reads of the client state that LoadClientState placed in
    the request context: getState and its session/cookie wrappers, the
    half-auth and two-factor checks, and what a flash read yields. */
module ClientStateLookup {
  import opened ClientStateEvents

  /** The part of an *http.Request this engine uses: the context values under
      the session and cookie context keys (a missing entry is a nil value). */
  datatype Request = Request(context: map<StoreKind, Snapshot>) {
    /** r.WithContext(context.WithValue(r.Context(), store, state)). */
    function With(store: StoreKind, state: Snapshot): (r: Request)
      ensures r.context.Keys == context.Keys + {store}
      ensures r.context[store] == state
      ensures forall s :: s in context && s != store ==> r.context[s] == context[s]
    {
      Request(context[store := state])
    }
  }

  /** getState: ("", false) when no state was loaded, else the state's Get. */
  function GetState(r: Request, store: StoreKind, key: string): (res: (string, bool))
    ensures res.1 <==> store in r.context && key in r.context[store]
    ensures res.1 ==> res.0 == r.context[store][key]
    ensures !res.1 ==> res.0 == ""
  {
    if store !in r.context then ("", false)
    else
      var state := r.context[store];
      if key in state then (state[key], true) else ("", false)
  }

  function GetSession(r: Request, key: string): (res: (string, bool))
    ensures res.1 <==> SessionStore in r.context && key in r.context[SessionStore]
    ensures res.1 ==> res.0 == r.context[SessionStore][key]
  {
    GetState(r, SessionStore, key)
  }

  function GetCookie(r: Request, key: string): (res: (string, bool))
    ensures res.1 <==> CookieStore in r.context && key in r.context[CookieStore]
    ensures res.1 ==> res.0 == r.context[CookieStore][key]
  {
    GetState(r, CookieStore, key)
  }

  /** Fully authed exactly when the session has no half-auth entry. */
  function IsFullyAuthed(r: Request): (b: bool)
    ensures b <==> !(SessionStore in r.context && SessionHalfAuthKey in r.context[SessionStore])
  {
    var (_, hasHalfAuth) := GetSession(r, SessionHalfAuthKey);
    !hasHalfAuth
  }

  /** Two-factored exactly when the session has a two-factor entry. */
  function IsTwoFactored(r: Request): (b: bool)
    ensures b <==> SessionStore in r.context && Session2FA in r.context[SessionStore]
  {
    var (_, has2fa) := GetSession(r, Session2FA);
    has2fa
  }

  /** What a flash read of `key` returns and which session events it records:
      nothing when the key is absent, else the value and one Del of the key. */
  function Flash(r: Request, key: string): (res: (string, seq<Event>))
    ensures SessionStore in r.context && key in r.context[SessionStore] ==>
              res == (r.context[SessionStore][key], [Event(Del, key, "")])
    ensures !(SessionStore in r.context && key in r.context[SessionStore]) ==> res == ("", [])
  {
    var (str, ok) := GetSession(r, key);
    if !ok then ("", []) else (str, [NewEvent(Del, key, "")])
  }
}
