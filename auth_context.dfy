/** The client's session state (src/context/AuthContext.tsx): the reducer
    over `{ user, token, isAuthenticated, isLoading, error }`, and the
    `login`, `register` and `logout` functions that write the browser's
    durable storage and dispatch in a fixed order. The storage is the two
    keys `token` and `user` that src/utils/auth.ts reads and writes. */
module AuthContext {
  import opened Wrappers
  import opened ClientApi

  /** The public view of a user (src/types/index.ts). */
  datatype User = User(id: string, name: string, email: string)

  datatype AuthState = AuthState(
    user: Option<User>,
    token: Option<string>,
    isAuthenticated: bool,
    isLoading: bool,
    error: Option<string>)

  /** The nine actions of the reducer. */
  datatype AuthAction =
    | LoginRequest
    | LoginSuccess(user: User, token: string)
    | LoginFailure(message: string)
    | RegisterRequest
    | RegisterSuccess(user: User, token: string)
    | RegisterFailure(message: string)
    | Logout
    | LoadUser
    | AuthError

  /** `authReducer`. After a SUCCESS, a FAILURE, LOGOUT or AUTH_ERROR the
      session counts as authenticated exactly when it holds a token. */
  function Reduce(s: AuthState, a: AuthAction): (r: AuthState)
    ensures a.LoginSuccess? || a.RegisterSuccess? || a.LoginFailure? || a.RegisterFailure? || a.Logout? || a.AuthError? ==>
      (r.isAuthenticated <==> r.token.Some?)
  {
    match a
    case LoginRequest => s.(isLoading := true, error := None)
    case RegisterRequest => s.(isLoading := true, error := None)
    case LoginSuccess(user, token) =>
      s.(isLoading := false, isAuthenticated := true, user := Some(user), token := Some(token), error := None)
    case RegisterSuccess(user, token) =>
      s.(isLoading := false, isAuthenticated := true, user := Some(user), token := Some(token), error := None)
    case LoginFailure(message) =>
      s.(isLoading := false, isAuthenticated := false, user := None, token := None, error := Some(message))
    case RegisterFailure(message) =>
      s.(isLoading := false, isAuthenticated := false, user := None, token := None, error := Some(message))
    case Logout => s.(isAuthenticated := false, user := None, token := None, isLoading := false)
    case AuthError => s.(isAuthenticated := false, user := None, token := None, isLoading := false)
    case LoadUser => s.(isLoading := true)
  }

  /** LOGIN_REQUEST and REGISTER_REQUEST start loading and clear the error;
      the session itself is untouched. */
  lemma RequestStartsLoading(s: AuthState, a: AuthAction)
    requires a.LoginRequest? || a.RegisterRequest?
    ensures Reduce(s, a).isLoading && Reduce(s, a).error.None?
    ensures Reduce(s, a).user == s.user && Reduce(s, a).token == s.token
    ensures Reduce(s, a).isAuthenticated == s.isAuthenticated
  {
  }

  /** LOGIN_SUCCESS and REGISTER_SUCCESS install the payload's user and
      token, authenticate, stop loading and clear the error. */
  lemma SuccessInstallsSession(s: AuthState, a: AuthAction)
    requires a.LoginSuccess? || a.RegisterSuccess?
    ensures Reduce(s, a) == AuthState(Some(a.user), Some(a.token), true, false, None)
  {
  }

  /** LOGIN_FAILURE and REGISTER_FAILURE drop the session, stop loading and
      record the message. */
  lemma FailureDropsSession(s: AuthState, a: AuthAction)
    requires a.LoginFailure? || a.RegisterFailure?
    ensures Reduce(s, a) == AuthState(None, None, false, false, Some(a.message))
  {
  }

  /** LOGOUT and AUTH_ERROR drop the session and stop loading, but keep
      whatever error was showing. */
  lemma LogoutKeepsError(s: AuthState, a: AuthAction)
    requires a.Logout? || a.AuthError?
    ensures Reduce(s, a) == AuthState(None, None, false, false, s.error)
  {
  }

  /** LOAD_USER only starts loading. */
  lemma LoadUserOnlyLoads(s: AuthState)
    ensures Reduce(s, LoadUser) == s.(isLoading := true)
  {
  }

  /** The two keys the client keeps in `localStorage`. */
  datatype StorageKey = TokenKey | UserKey

  /** What is kept under a key: the token string, or the user object
      (serialised as JSON in the browser; the encoding is abstracted). */
  datatype Stored = StoredToken(token: string) | StoredUser(user: User)

  type Storage = map<StorageKey, Stored>

  /** A storage holding neither key is empty, and one holding both is
      determined by what is under them. */
  lemma TwoKeys(st: Storage)
    ensures TokenKey !in st && UserKey !in st ==> st == map[]
    ensures TokenKey in st && UserKey in st ==> st == map[TokenKey := st[TokenKey], UserKey := st[UserKey]]
  {
    forall k | k in st ensures k == TokenKey || k == UserKey {
    }
  }

  /** Each key holds its own kind of value. */
  predicate WellTyped(st: Storage) {
    && (TokenKey in st ==> st[TokenKey].StoredToken?)
    && (UserKey in st ==> st[UserKey].StoredUser?)
  }

  /** The state mirrors the storage: a token (a user) is in the state exactly
      when the same token (user) is stored. */
  predicate Synced(s: AuthState, st: Storage) {
    && (s.token.Some? <==> TokenKey in st)
    && (s.token.Some? ==> st[TokenKey] == StoredToken(s.token.value))
    && (s.user.Some? <==> UserKey in st)
    && (s.user.Some? ==> st[UserKey] == StoredUser(s.user.value))
  }

  /** `initialState`, read from storage when the page loads. `tokenLive`
      stands for the token decoding and its `exp` lying after the current
      time; an empty token is falsy and never authenticates. */
  function InitialState(st: Storage, tokenLive: bool): (s: AuthState)
    requires WellTyped(st)
    ensures Synced(s, st)
    ensures s.isAuthenticated <==> TokenKey in st && st[TokenKey].token != "" && tokenLive
    ensures !s.isLoading && s.error.None?
  {
    AuthState(
      if UserKey in st then Some(st[UserKey].user) else None,
      if TokenKey in st then Some(st[TokenKey].token) else None,
      TokenKey in st && st[TokenKey].token != "" && tokenLive,
      false,
      None)
  }

  /** One observable step of the provider, in the order it happens. */
  datatype Effect =
    | SetItem(key: StorageKey, value: Stored)
    | RemoveItem(key: StorageKey)
    | Dispatch(action: AuthAction)

  /** The response body of a successful login or registration. */
  datatype Session = Session(token: string, user: User)

  /** Which of the two flows a call runs; they differ only in their actions
      and their fallback error text. */
  datatype Flow = LoginFlow | RegisterFlow {
    function Request(): AuthAction {
      match this
      case LoginFlow => LoginRequest
      case RegisterFlow => RegisterRequest
    }
    function Success(session: Session): AuthAction {
      match this
      case LoginFlow => LoginSuccess(session.user, session.token)
      case RegisterFlow => RegisterSuccess(session.user, session.token)
    }
    function Failure(message: string): AuthAction {
      match this
      case LoginFlow => LoginFailure(message)
      case RegisterFlow => RegisterFailure(message)
    }
    function Fallback(): string {
      match this
      case LoginFlow => "Login failed"
      case RegisterFlow => "Registration failed"
    }
  }

  /** What `login` (or `register`) does, in order: dispatch the REQUEST;
      on success write the token, then the user, then dispatch SUCCESS; on
      failure dispatch FAILURE with the server's message or the fallback,
      then remove both keys. */
  function SignInEffects(flow: Flow, outcome: ApiOutcome<Session>): (r: seq<Effect>)
    ensures |r| == 4 && r[0] == Dispatch(flow.Request())
    ensures forall i :: 0 < i < |r| ==> r[i] != Dispatch(flow.Request())
    ensures outcome.Resolved? ==>
      && r[|r| - 1] == Dispatch(flow.Success(outcome.payload))
      && forall i :: 0 < i < |r| - 1 ==> r[i].SetItem?
    ensures outcome.Rejected? ==>
      && r[1] == Dispatch(flow.Failure(ErrorText(outcome.message, flow.Fallback())))
      && forall i :: 1 < i < |r| ==> r[i].RemoveItem?
  {
    match outcome
    case Resolved(session) =>
      [ Dispatch(flow.Request()),
        SetItem(TokenKey, StoredToken(session.token)),
        SetItem(UserKey, StoredUser(session.user)),
        Dispatch(flow.Success(session)) ]
    case Rejected(message) =>
      [ Dispatch(flow.Request()),
        Dispatch(flow.Failure(ErrorText(message, flow.Fallback()))),
        RemoveItem(TokenKey),
        RemoveItem(UserKey) ]
  }

  /** `AuthProvider`: the `useReducer` cell, the browser storage and the log
      of effects. */
  class AuthProvider {
    var state: AuthState
    var storage: Storage
    var effects: seq<Effect>

    ghost predicate Valid()
      reads this
    {
      WellTyped(storage) && Synced(state, storage)
    }

    constructor (st: Storage, tokenLive: bool)
      requires WellTyped(st)
      ensures Valid()
      ensures state == InitialState(st, tokenLive) && storage == st && effects == []
    {
      state := InitialState(st, tokenLive);
      storage := st;
      effects := [];
    }

    method DispatchAction(a: AuthAction)
      modifies this
      ensures state == Reduce(old(state), a) && storage == old(storage)
      ensures effects == old(effects) + [Dispatch(a)]
    {
      state := Reduce(state, a);
      effects := effects + [Dispatch(a)];
    }

    /** `localStorage.setItem`. */
    method SetStorageItem(key: StorageKey, value: Stored)
      modifies this
      ensures storage == old(storage)[key := value] && state == old(state)
      ensures effects == old(effects) + [SetItem(key, value)]
    {
      storage := storage[key := value];
      effects := effects + [SetItem(key, value)];
    }

    /** `localStorage.removeItem`. */
    method RemoveStorageItem(key: StorageKey)
      modifies this
      ensures storage == old(storage) - {key} && state == old(state)
      ensures effects == old(effects) + [RemoveItem(key)]
    {
      storage := storage - {key};
      effects := effects + [RemoveItem(key)];
    }

    /** `login` or `register`: returns the message of the error it throws,
        or None when it resolves. */
    method SignIn(flow: Flow, outcome: ApiOutcome<Session>) returns (thrown: Option<string>)
      requires Valid()
      modifies this
      ensures Valid()
      ensures effects == old(effects) + SignInEffects(flow, outcome)
      ensures outcome.Resolved? ==>
        && thrown.None?
        && state == AuthState(Some(outcome.payload.user), Some(outcome.payload.token), true, false, None)
        && storage == map[TokenKey := StoredToken(outcome.payload.token), UserKey := StoredUser(outcome.payload.user)]
      ensures outcome.Rejected? ==>
        && thrown == Some(ErrorText(outcome.message, flow.Fallback()))
        && state == AuthState(None, None, false, false, thrown)
        && storage == map[]
    {
      DispatchAction(flow.Request());
      match outcome
      case Resolved(session) =>
        SetStorageItem(TokenKey, StoredToken(session.token));
        SetStorageItem(UserKey, StoredUser(session.user));
        DispatchAction(flow.Success(session));
        TwoKeys(storage);
        thrown := None;
      case Rejected(message) =>
        var text := ErrorText(message, flow.Fallback());
        DispatchAction(flow.Failure(text));
        RemoveStorageItem(TokenKey);
        RemoveStorageItem(UserKey);
        TwoKeys(storage);
        thrown := Some(text);
    }

    /** `login`. */
    method Login(outcome: ApiOutcome<Session>) returns (thrown: Option<string>)
      requires Valid()
      modifies this
      ensures Valid()
      ensures effects == old(effects) + SignInEffects(LoginFlow, outcome)
      ensures outcome.Resolved? ==>
        && thrown.None?
        && state == AuthState(Some(outcome.payload.user), Some(outcome.payload.token), true, false, None)
        && storage == map[TokenKey := StoredToken(outcome.payload.token), UserKey := StoredUser(outcome.payload.user)]
      ensures outcome.Rejected? ==>
        && thrown == Some(ErrorText(outcome.message, "Login failed"))
        && state == AuthState(None, None, false, false, thrown)
        && storage == map[]
    {
      thrown := SignIn(LoginFlow, outcome);
    }

    /** `register`. */
    method Register(outcome: ApiOutcome<Session>) returns (thrown: Option<string>)
      requires Valid()
      modifies this
      ensures Valid()
      ensures effects == old(effects) + SignInEffects(RegisterFlow, outcome)
      ensures outcome.Resolved? ==>
        && thrown.None?
        && state == AuthState(Some(outcome.payload.user), Some(outcome.payload.token), true, false, None)
        && storage == map[TokenKey := StoredToken(outcome.payload.token), UserKey := StoredUser(outcome.payload.user)]
      ensures outcome.Rejected? ==>
        && thrown == Some(ErrorText(outcome.message, "Registration failed"))
        && state == AuthState(None, None, false, false, thrown)
        && storage == map[]
    {
      thrown := SignIn(RegisterFlow, outcome);
    }

    /** `logout`: remove both keys, then dispatch LOGOUT, unconditionally. */
    method LogOut()
      requires Valid()
      modifies this
      ensures Valid()
      ensures effects == old(effects) + [RemoveItem(TokenKey), RemoveItem(UserKey), Dispatch(Logout)]
      ensures storage == map[]
      ensures state == AuthState(None, None, false, false, old(state.error))
    {
      RemoveStorageItem(TokenKey);
      RemoveStorageItem(UserKey);
      DispatchAction(Logout);
      TwoKeys(storage);
    }
  }
}
