/**
 * The session store: an in-memory `user` slot mirrored into the `'user'` key of the
 * browser's durable storage, read back once when the provider is created.
 */
module AuthContext {
  import opened Wrappers

  /** The identity the login endpoint returns and the views attach to requests. */
  datatype Session = Session(token: string, username: string)

  /** The storage key that holds the serialised session. */
  const UserKey := "user"

  /**
   * Durable client storage: for each key, the object whose JSON text is stored there.
   * (Serialisation itself is not modelled; a stored value reads back as the object written.)
   */
  class Storage {
    var items: map<string, Session>

    constructor (items: map<string, Session>)
      ensures this.items == items
    {
      this.items := items;
    }

    /** `getItem`: the value under `key`, or null when the key is absent. */
    function GetItem(key: string): (r: Option<Session>)
      reads this
      ensures r.Some? <==> key in items
      ensures r.Some? ==> items[key] == r.value
    {
      if key in items then Some(items[key]) else None
    }

    /** `setItem`: stores `value` under `key`; the other keys are untouched. */
    method SetItem(key: string, value: Session)
      modifies this
      ensures items == old(items)[key := value]
    {
      items := items[key := value];
    }

    /** `removeItem`: deletes `key`; the other keys are untouched. */
    method RemoveItem(key: string)
      modifies this
      ensures items == old(items) - {key}
    {
      items := items - {key};
    }
  }

  /** The provider's in-memory session together with the storage it mirrors. */
  datatype AuthState = AuthState(user: Option<Session>, items: map<string, Session>)

  /** The `useState` initialiser: the session stored under `'user'`, or null when there is none. */
  function Restore(items: map<string, Session>): (r: Option<Session>)
    ensures r == None <==> UserKey !in items
    ensures UserKey in items ==> r == Some(items[UserKey])
  {
    if UserKey in items then Some(items[UserKey]) else None
  }

  /** Memory and storage agree: re-reading the storage gives back the in-memory session. */
  predicate InSync(st: AuthState)
  {
    st.user == Restore(st.items)
  }

  /** `login(d)`: remember `d` and store it under `'user'`. */
  function LogIn(st: AuthState, d: Session): (r: AuthState)
    ensures r.user == Some(d) && UserKey in r.items && r.items[UserKey] == d
    ensures forall k :: k != UserKey ==> (k in r.items <==> k in st.items)
    ensures forall k :: k != UserKey && k in st.items ==> r.items[k] == st.items[k]
  {
    AuthState(Some(d), st.items[UserKey := d])
  }

  /** `logout()`: forget the session and remove the `'user'` key. */
  function LogOut(st: AuthState): (r: AuthState)
    ensures r.user == None && UserKey !in r.items
    ensures forall k :: k != UserKey ==> (k in r.items <==> k in st.items)
    ensures forall k :: k != UserKey && k in st.items ==> r.items[k] == st.items[k]
  {
    AuthState(None, st.items - {UserKey})
  }

  /** A call of one of the two mutators. */
  datatype AuthOp = LoginOp(session: Session) | LogoutOp

  function Apply(st: AuthState, op: AuthOp): AuthState
  {
    match op
    case LoginOp(d) => LogIn(st, d)
    case LogoutOp => LogOut(st)
  }

  /** The state after the calls `ops`, one after another. */
  function Replay(st: AuthState, ops: seq<AuthOp>): AuthState
    decreases |ops|
  {
    if ops == [] then st else Replay(Apply(st, ops[0]), ops[1..])
  }

  /** A reload after `login(d)` restores `d`. */
  lemma ReloadAfterLogin(st: AuthState, d: Session)
    ensures Restore(LogIn(st, d).items) == Some(d)
  {
  }

  /** A reload after `logout()` restores no session. */
  lemma ReloadAfterLogout(st: AuthState)
    ensures Restore(LogOut(st).items) == None
  {
  }

  /**
   * After any sequence of `login`/`logout` calls from an agreeing start, memory and storage
   * still agree: the in-memory user is the stored value, and null exactly when the key is absent.
   */
  lemma {:induction false} ReplayKeepsSync(st: AuthState, ops: seq<AuthOp>)
    requires InSync(st)
    ensures InSync(Replay(st, ops))
    decreases |ops|
  {
    if ops != [] {
      ReplayKeepsSync(Apply(st, ops[0]), ops[1..]);
    }
  }

  /** The session after a sequence of calls is the one the last call set, or the starting one if there were none. */
  lemma {:induction false} ReplayEndsWithLastCall(st: AuthState, ops: seq<AuthOp>)
    ensures Replay(st, ops).user ==
              if ops == [] then st.user
              else if ops[|ops| - 1].LoginOp? then Some(ops[|ops| - 1].session)
              else None
    decreases |ops|
  {
    if ops != [] {
      ReplayEndsWithLastCall(Apply(st, ops[0]), ops[1..]);
      if |ops| > 1 {
        assert ops[1..][|ops| - 2] == ops[|ops| - 1];
      }
    }
  }

  /** The session store never touches any storage key other than `'user'`. */
  lemma {:induction false} ReplayKeepsOtherKeys(st: AuthState, ops: seq<AuthOp>, k: string)
    requires k != UserKey
    ensures k in Replay(st, ops).items <==> k in st.items
    ensures k in st.items ==> Replay(st, ops).items[k] == st.items[k]
    decreases |ops|
  {
    if ops != [] {
      ReplayKeepsOtherKeys(Apply(st, ops[0]), ops[1..], k);
    }
  }

  /** `AuthProvider`: the `user` state and the durable storage it mirrors. */
  class AuthProvider {
    var user: Option<Session>
    const store: Storage

    function State(): AuthState
      reads this, store
    {
      AuthState(user, store.items)
    }

    ghost predicate Valid()
      reads this, store
    {
      InSync(State())
    }

    /** Mounting the provider reads the session back from storage. */
    constructor (store: Storage)
      ensures this.store == store && user == Restore(store.items)
      ensures Valid()
    {
      this.store := store;
      user := store.GetItem(UserKey);
    }

    method Login(d: Session)
      modifies this, store
      ensures State() == LogIn(old(State()), d)
      ensures Valid()
    {
      user := Some(d);
      store.SetItem(UserKey, d);
    }

    method Logout()
      modifies this, store
      ensures State() == LogOut(old(State()))
      ensures Valid()
    {
      user := None;
      store.RemoveItem(UserKey);
    }
  }

  /** A page reload after `login(d)`: a fresh provider over the same storage starts with `d`. */
  method SessionSurvivesReload(store: Storage, d: Session) returns (reloaded: AuthProvider)
    modifies store
    ensures reloaded.user == Some(d)
  {
    var provider := new AuthProvider(store);
    provider.Login(d);
    reloaded := new AuthProvider(store);
  }

  /** A page reload after `logout()`: a fresh provider over the same storage starts with no session. */
  method LogoutSurvivesReload(store: Storage) returns (reloaded: AuthProvider)
    modifies store
    ensures reloaded.user == None
  {
    var provider := new AuthProvider(store);
    provider.Logout();
    reloaded := new AuthProvider(store);
  }
}
