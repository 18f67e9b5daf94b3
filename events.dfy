/** Values shared by the client-state engine: errors, snapshots, the well-known
    keys, the three kinds of mutation event, and the comma-joined keep-list that
    a DelAll event carries in its Key field. */
module ClientStateEvents {

  datatype Option<+T> = None | Some(value: T)

  /** An error returned by a backing store or by the wrapped response writer. */
  datatype Error = Error(message: string)

  /** A loaded ClientState. Its Get(key) is answered from this map. */
  type Snapshot = map<string, string>

  // Well-known session keys.
  const SessionKey: string := "uid"
  const SessionHalfAuthKey: string := "halfauth"
  const SessionLastAction: string := "last_action"
  const Session2FA: string := "twofactor"
  const Session2FAAuthToken: string := "twofactor_auth_token"
  const Session2FAAuthed: string := "twofactor_authed"
  const SessionOAuth2State: string := "oauth2_state"
  const SessionOAuth2Params: string := "oauth2_params"
  // Well-known cookie key.
  const CookieRemember: string := "rm"
  // Flash message keys, stored in the session.
  const FlashSuccessKey: string := "flash_success"
  const FlashErrorKey: string := "flash_error"

  /** The keys DelKnownSession deletes, in the order it deletes them. */
  const KnownSessionKeys: seq<string> := [SessionKey, SessionHalfAuthKey, SessionLastAction]

  /** ClientStateEventKind: Put, Del, DelAll. */
  datatype EventKind = Put | Del | DelAll

  /** ClientStateEvent. For DelAll, `key` holds the comma-joined keep-list. */
  datatype Event = Event(kind: EventKind, key: string, value: string)

  /** The two context keys that select a store: session or cookie. */
  datatype StoreKind = SessionStore | CookieStore

  function Other(store: StoreKind): (o: StoreKind)
    ensures o != store
  {
    if store == SessionStore then CookieStore else SessionStore
  }

  /** The event setState builds: the value is kept only for a Put. */
  function NewEvent(op: EventKind, key: string, val: string): (e: Event)
    ensures e.kind == op && e.key == key
    ensures op == Put ==> e.value == val
    ensures op != Put ==> e.value == ""
  {
    Event(op, key, if op == Put then val else "")
  }

  /** strings.Join(items, ","). */
  function Join(items: seq<string>): (s: string)
  {
    if |items| == 0 then ""
    else if |items| == 1 then items[0]
    else items[0] + [','] + Join(items[1..])
  }

  /** strings.Split(s, ","): the reading of a keep-list a store is expected to
      apply. Like Go's, it yields [""] for the empty string. */
  function Split(s: string): (parts: seq<string>)
    ensures |parts| >= 1
  {
    if |s| == 0 then [""]
    else
      var rest := Split(s[1..]);
      if s[0] == ',' then [""] + rest
      else [[s[0]] + rest[0]] + rest[1..]
  }

  /** A string without a comma is one part. */
  lemma {:induction false} SplitNoComma(a: string)
    requires ',' !in a
    ensures Split(a) == [a]
  {
    if |a| > 0 {
      assert ',' !in a[1..] by {
        forall k | 0 <= k < |a[1..]| ensures a[1..][k] != ',' {
          assert a[1..][k] == a[k + 1];
        }
      }
      SplitNoComma(a[1..]);
      assert [a[0]] + a[1..] == a;
    }
  }

  /** A comma-free prefix followed by a comma splits off as the first part. */
  lemma {:induction false} SplitCommaAfter(a: string, b: string)
    requires ',' !in a
    ensures Split(a + [','] + b) == [a] + Split(b)
  {
    if |a| == 0 {
      assert a + [','] + b == [','] + b;
      assert ([','] + b)[1..] == b;
    } else {
      var s := a + [','] + b;
      assert ',' !in a[1..] by {
        forall k | 0 <= k < |a[1..]| ensures a[1..][k] != ',' {
          assert a[1..][k] == a[k + 1];
        }
      }
      SplitCommaAfter(a[1..], b);
      assert s[1..] == a[1..] + [','] + b;
      assert s[0] == a[0] && s[0] != ',';
      assert [a[0]] + a[1..] == a;
    }
  }

  /** Splitting a joined keep-list recovers it, provided the list is not empty
      (Join([]) and Join([""]) are both "") and no entry holds a comma. */
  lemma {:induction false} SplitJoin(items: seq<string>)
    requires |items| >= 1
    requires forall i :: 0 <= i < |items| ==> ',' !in items[i]
    ensures Split(Join(items)) == items
  {
    if |items| == 1 {
      SplitNoComma(items[0]);
    } else {
      SplitJoin(items[1..]);
      SplitCommaAfter(items[0], Join(items[1..]));
      assert [items[0]] + items[1..] == items;
    }
  }

  /** Extending the first part of a split by one character extends the join. */
  lemma JoinConsChar(c: char, head: string, tail: seq<string>)
    ensures Join([[c] + head] + tail) == [c] + Join([head] + tail)
  {
    if |tail| > 0 {
      assert ([[c] + head] + tail)[1..] == tail;
      assert ([head] + tail)[1..] == tail;
    }
  }

  /** Joining the parts of any string gives the string back. */
  lemma {:induction false} JoinSplit(s: string)
    ensures Join(Split(s)) == s
  {
    if |s| > 0 {
      var rest := Split(s[1..]);
      JoinSplit(s[1..]);
      if s[0] == ',' {
        assert ([""] + rest)[1..] == rest;
        assert [s[0]] + s[1..] == s;
      } else {
        assert [rest[0]] + rest[1..] == rest;
        JoinConsChar(s[0], rest[0], rest[1..]);
        assert [s[0]] + s[1..] == s;
      }
    }
  }
}
