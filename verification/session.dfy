/**
 * The client's authentication context: the user, the authenticated flag,
 * the loading flag, the last error and the browser's local storage. Each
 * asynchronous API call is replaced by its outcome, which the transition
 * receives; `JSON.stringify` of the user is a parameter.
 */
module Session {
  import opened Wrappers

  datatype UserInfo = UserInfo(id: string, name: string, email: string, avatar: string, role: string)

  /** What a rejected promise carried: an Error with its message, or any other value. */
  datatype Thrown = ErrorThrown(message: string) | OtherThrown

  datatype AuthResponse = AuthResponse(token: string, user: UserInfo)

  /**
   * `checking` is not a React state of the provider: it records that the
   * startup check found a token and its request has not been answered yet.
   */
  datatype State = State(
    user: Option<UserInfo>,
    isAuthenticated: bool,
    loading: bool,
    error: Option<string>,
    storage: map<string, string>,
    checking: bool)

  const TokenKey := "token"
  const UserKey := "user"
  const UnknownError := "An unknown error occurred"

  /** The provider's state on its first render, over whatever the storage already holds. */
  function Initial(storage: map<string, string>): (s: State)
    ensures s.user.None? && !s.isAuthenticated && s.loading && s.error.None? && s.storage == storage
    ensures !s.checking
  {
    State(None, false, true, None, storage, false)
  }

  /** `localStorage.getItem('token')` used as a condition: present and not empty. */
  predicate HasToken(storage: map<string, string>)
  {
    TokenKey in storage && storage[TokenKey] != []
  }

  /**
   * The mount effect up to its `await`: the token is read once, here. Without
   * one, loading ends and nothing else changes; with one, the request to the
   * backend is sent and loading goes on.
   */
  function Mount(s: State): (r: State)
    ensures !HasToken(s.storage) ==> r == s.(loading := false)
    ensures HasToken(s.storage) ==> r == s.(checking := true)
  {
    var token := HasToken(s.storage);
    if !token then s.(loading := false) else s.(checking := true)
  }

  /**
   * The backend's answer to the startup check. The token was read at mount, so
   * a success authenticates the returned user whatever storage holds now; a
   * failure clears both storage keys and unauthenticates. Without a request
   * in flight there is nothing to answer.
   */
  function CheckAuth(s: State, outcome: Result<UserInfo, Thrown>): (r: State)
    ensures !s.checking ==> r == s
    ensures s.checking ==> !r.loading && !r.checking && r.error == s.error
    ensures s.checking && outcome.Success? ==>
      r == s.(user := Some(outcome.value), isAuthenticated := true, loading := false, checking := false)
    ensures s.checking && outcome.Failure? ==>
      && r.user.None? && !r.isAuthenticated
      && TokenKey !in r.storage && UserKey !in r.storage
      && (forall k :: k in s.storage && k != TokenKey && k != UserKey ==> k in r.storage && r.storage[k] == s.storage[k])
      && (forall k :: k in r.storage ==> k in s.storage)
  {
    if !s.checking then s
    else match outcome
      case Success(u) => s.(user := Some(u), isAuthenticated := true, loading := false, checking := false)
      case Failure(_) =>
        s.(storage := s.storage - {TokenKey, UserKey}, user := None, isAuthenticated := false, loading := false, checking := false)
  }

  function ErrorText(t: Thrown): string
  {
    match t
    case ErrorThrown(m) => m
    case OtherThrown => UnknownError
  }

  /** What `login` and `register` do before their `await`: clear the error and nothing else. */
  function Begin(s: State): (r: State)
    ensures r.error.None?
    ensures r.user == s.user && r.isAuthenticated == s.isAuthenticated && r.loading == s.loading
    ensures r.storage == s.storage && r.checking == s.checking
  {
    s.(error := None)
  }

  /**
   * The common continuation of `login` and `register` once the API call
   * settles: either store the token and the serialised user and
   * authenticate, or record the error and leave everything else as it was.
   * The boolean is the promise's value.
   */
  function Authenticate(s: State, outcome: Result<AuthResponse, Thrown>, stringify: UserInfo -> string): (r: (State, bool))
    ensures r.1 <==> outcome.Success?
    ensures r.0.loading == s.loading && r.0.checking == s.checking
    ensures outcome.Success? ==>
      && r.0.user == Some(outcome.value.user) && r.0.isAuthenticated && r.0.error == s.error
      && r.0.storage == s.storage[TokenKey := outcome.value.token][UserKey := stringify(outcome.value.user)]
    ensures outcome.Failure? ==>
      && r.0.user == s.user && r.0.isAuthenticated == s.isAuthenticated && r.0.storage == s.storage
      && r.0.error == Some(if outcome.error.ErrorThrown? then outcome.error.message else UnknownError)
  {
    match outcome
    case Success(resp) =>
      var stored := s.storage[TokenKey := resp.token][UserKey := stringify(resp.user)];
      (s.(storage := stored, user := Some(resp.user), isAuthenticated := true), true)
    case Failure(t) =>
      (s.(error := Some(ErrorText(t))), false)
  }

  /** `logout`: both keys removed, the user dropped, and a navigation to the login page. */
  function Logout(s: State): (r: (State, string))
    ensures r.1 == "/login"
    ensures r.0.user.None? && !r.0.isAuthenticated
    ensures r.0.loading == s.loading && r.0.error == s.error
    ensures TokenKey !in r.0.storage && UserKey !in r.0.storage
    ensures forall k :: k in s.storage && k != TokenKey && k != UserKey ==> k in r.0.storage && r.0.storage[k] == s.storage[k]
    ensures forall k :: k in r.0.storage ==> k in s.storage
  {
    (s.(storage := s.storage - {TokenKey, UserKey}, user := None, isAuthenticated := false), "/login")
  }

  /** Logging out after a successful login restores storage without the two keys, whatever they held before. */
  lemma LogoutUndoesLogin(s: State, resp: AuthResponse, stringify: UserInfo -> string)
    ensures var afterLogin := Authenticate(s, Success(resp), stringify).0;
      var afterLogout := Logout(afterLogin).0;
      afterLogout.storage == s.storage - {TokenKey, UserKey} && afterLogout.user.None? && !afterLogout.isAuthenticated
  {
    var afterLogin := Authenticate(s, Success(resp), stringify).0;
    assert afterLogin.storage - {TokenKey, UserKey} == s.storage - {TokenKey, UserKey};
  }

  /** The state the rest of the client relies on: authenticated exactly when a user is set, and then a token is stored. */
  predicate Consistent(s: State)
  {
    (s.isAuthenticated <==> s.user.Some?) && (s.isAuthenticated ==> TokenKey in s.storage)
  }

  datatype Event =
    | CheckAuthDone(checked: Result<UserInfo, Thrown>)
    | LoginCalled
    | RegisterCalled
    | LoginDone(login: Result<AuthResponse, Thrown>)
    | RegisterDone(registered: Result<AuthResponse, Thrown>)
    | LogoutClicked

  function Step(s: State, e: Event, stringify: UserInfo -> string): State
  {
    match e
    case CheckAuthDone(o) => CheckAuth(s, o)
    case LoginCalled => Begin(s)
    case RegisterCalled => Begin(s)
    case LoginDone(o) => Authenticate(s, o, stringify).0
    case RegisterDone(o) => Authenticate(s, o, stringify).0
    case LogoutClicked => Logout(s).0
  }

  function Run(s: State, es: seq<Event>, stringify: UserInfo -> string): State
    decreases |es|
  {
    if es == [] then s else Run(Step(s, es[0], stringify), es[1..], stringify)
  }

  /** The state after mounting over the given storage: the start of every run. */
  function Start(storage: map<string, string>): (s: State)
    ensures s.checking <==> HasToken(storage)
    ensures s.loading <==> HasToken(storage)
    ensures s.storage == storage && s.user.None? && !s.isAuthenticated && s.error.None?
  {
    Mount(Initial(storage))
  }

  /** A successful startup answer arriving after the token it checked has been removed. */
  predicate LateSuccess(s: State, e: Event)
  {
    e.CheckAuthDone? && e.checked.Success? && s.checking && TokenKey !in s.storage
  }

  /**
   * From a consistent state, a transition breaks consistency exactly when it
   * is a successful startup answer that arrives after the token was removed.
   */
  lemma StepKeepsConsistent(s: State, e: Event, stringify: UserInfo -> string)
    requires Consistent(s)
    ensures Consistent(Step(s, e, stringify)) <==> !LateSuccess(s, e)
  {
  }

  /** Every transition keeps "authenticated exactly when a user is set". */
  lemma StepKeepsUserFlag(s: State, e: Event, stringify: UserInfo -> string)
    requires s.isAuthenticated <==> s.user.Some?
    ensures var r := Step(s, e, stringify); r.isAuthenticated <==> r.user.Some?
  {
  }

  /** No logout happens before the startup check's answer. */
  predicate NoLogoutBeforeAnswer(es: seq<Event>)
    decreases |es|
  {
    es == [] || es[0].CheckAuthDone? || (!es[0].LogoutClicked? && NoLogoutBeforeAnswer(es[1..]))
  }

  /**
   * Starting from any storage, every sequence of answers and clicks leaves the
   * state consistent, provided the user does not log out while a stored
   * token is still being checked.
   */
  lemma {:induction false} RunKeepsConsistent(storage: map<string, string>, es: seq<Event>, stringify: UserInfo -> string)
    ensures HasToken(storage) ==> NoLogoutBeforeAnswer(es) ==> Consistent(Run(Start(storage), es, stringify))
    ensures !HasToken(storage) ==> Consistent(Run(Start(storage), es, stringify))
  {
    RunFromConsistent(Start(storage), es, stringify);
  }

  /**
   * Consistency survives any sequence of transitions from a consistent state
   * whose pending check still has its token, as long as no logout comes
   * before that check's answer.
   */
  lemma {:induction false} RunFromConsistent(s: State, es: seq<Event>, stringify: UserInfo -> string)
    requires Consistent(s) && (s.checking ==> TokenKey in s.storage)
    ensures (s.checking ==> NoLogoutBeforeAnswer(es)) ==> Consistent(Run(s, es, stringify))
    decreases |es|
  {
    if es != [] && (s.checking ==> NoLogoutBeforeAnswer(es)) {
      var t := Step(s, es[0], stringify);
      StepKeepsConsistent(s, es[0], stringify);
      assert t.checking ==> s.checking && !es[0].CheckAuthDone?;
      RunFromConsistent(t, es[1..], stringify);
    }
  }

  /** From any storage, the flag and the user agree after every sequence of events. */
  lemma {:induction false} RunKeepsUserFlag(s: State, es: seq<Event>, stringify: UserInfo -> string)
    requires s.isAuthenticated <==> s.user.Some?
    ensures var r := Run(s, es, stringify); r.isAuthenticated <==> r.user.Some?
    decreases |es|
  {
    if es != [] {
      StepKeepsUserFlag(s, es[0], stringify);
      RunKeepsUserFlag(Step(s, es[0], stringify), es[1..], stringify);
    }
  }

  /**
   * The token is read only at mount: logging out while its check is pending
   * and then receiving a success leaves the user authenticated with no token stored.
   */
  lemma LogoutBeforeAnswerAuthenticates(storage: map<string, string>, u: UserInfo, stringify: UserInfo -> string)
    requires HasToken(storage)
    ensures var r := Run(Start(storage), [LogoutClicked, CheckAuthDone(Success(u))], stringify);
      r.isAuthenticated && r.user == Some(u) && TokenKey !in r.storage
  {
    var es := [LogoutClicked, CheckAuthDone(Success(u))];
    var s1 := Step(Start(storage), LogoutClicked, stringify);
    var s2 := Step(s1, CheckAuthDone(Success(u)), stringify);
    assert s1.checking && TokenKey !in s1.storage;
    assert es[1..] == [CheckAuthDone(Success(u))] && es[1..][1..] == [];
    assert Run(s1, es[1..], stringify) == Run(s2, [], stringify) == s2;
  }

  /** A failed login after an earlier failure shows only the latest message. */
  lemma LatestErrorWins(s: State, stringify: UserInfo -> string)
    ensures var s1 := Authenticate(s, Failure(ErrorThrown("Invalid credentials")), stringify).0;
      var s2 := Authenticate(s1, Failure(OtherThrown), stringify).0;
      s2.error == Some(UnknownError) && s2.storage == s.storage
  {
  }

  /** A call started and settled successfully with nothing in between shows no error. */
  lemma CallClearsEarlierError(s: State, resp: AuthResponse, stringify: UserInfo -> string)
    ensures Authenticate(Begin(s), Success(resp), stringify).0.error.None?
  {
  }

  /**
   * The error is cleared when a call starts, not when it settles: if a
   * register fails after a later login started, the login's success leaves
   * the register's message on screen.
   */
  lemma OverlappingCallsKeepEarlierError(s: State, m: string, resp: AuthResponse, stringify: UserInfo -> string)
    ensures var r := Run(s, [RegisterCalled, LoginCalled, RegisterDone(Failure(ErrorThrown(m))), LoginDone(Success(resp))], stringify);
      r.isAuthenticated && r.user == Some(resp.user) && r.error == Some(m)
  {
    var es := [RegisterCalled, LoginCalled, RegisterDone(Failure(ErrorThrown(m))), LoginDone(Success(resp))];
    var s1 := Step(s, es[0], stringify);
    var s2 := Step(s1, es[1], stringify);
    var s3 := Step(s2, es[2], stringify);
    var s4 := Step(s3, es[3], stringify);
    assert es[1..] == [es[1], es[2], es[3]];
    assert es[1..][1..] == [es[2], es[3]];
    assert es[1..][1..][1..] == [es[3]];
    assert es[1..][1..][1..][1..] == [];
    assert Run(s, es, stringify) == Run(s1, es[1..], stringify);
    assert Run(s1, es[1..], stringify) == Run(s2, es[1..][1..], stringify);
    assert Run(s2, es[1..][1..], stringify) == Run(s3, es[1..][1..][1..], stringify);
    assert Run(s3, es[1..][1..][1..], stringify) == s4;
  }
}
