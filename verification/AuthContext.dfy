/** The client-side session provider (`AuthProvider`) as a reducer: every
    callback the provider reacts to (the `getSession` result, an auth-state
    event, completion of the roles fetch, the safety timer, `logout`,
    `login`) is an `Event`, and `Step` gives the next state together with the
    remote calls the handler starts. The identity provider and the `users`
    table are not modelled; their answers arrive as event payloads. */
module AuthContext {
  import opened Wrappers
  import opened JsValues

  /** The provider's user object: its id, e-mail and `app_metadata`. */
  datatype User = User(id: string, email: string, appMetadata: Value)

  /** A provider session; its `user` may be missing. */
  datatype ProviderSession = ProviderSession(user: Option<User>, accessToken: string)

  /** The four pieces of state the provider exposes. */
  datatype AuthState = AuthState(user: Option<User>, session: Option<ProviderSession>, roles: Value, loading: bool)

  /** State on mount: nobody signed in, no roles, still loading. */
  const Initial := AuthState(None, None, Arr([]), true)

  /** State after sign-out or an event without a user. */
  const Cleared := AuthState(None, None, Arr([]), false)

  /** The event names the provider sends; the handler never looks at them. */
  datatype AuthEventKind = InitialSession | SignedIn | SignedOut | TokenRefreshed | UserUpdated | PasswordRecovery

  /** How the `users` roles query ended: `{data}` without error, `{error}`,
      or an exception. */
  datatype FetchOutcome = FetchOk(data: Value) | FetchError(error: Value) | FetchThrew(error: Value)

  /** How the remote `signOut` ended. */
  datatype SignOutOutcome = SignOutOk | SignOutError(error: Value) | SignOutThrew(error: Value)

  datatype Event =
    | SessionLoaded(active: Option<ProviderSession>)           // `getSession()` resolved
    | SessionLoadFailed                                         // `getSession()` rejected
    | AuthStateChanged(kind: AuthEventKind, current: Option<ProviderSession>)
    | RolesFetched(outcome: FetchOutcome)                       // a `fetchRoles` call finished
    | TimerFired                                                // the 5-second safety timeout
    | LogoutCalled
    | SignOutSettled(signOut: SignOutOutcome)                   // the remote part of `logout` finished
    | LoginCalled(email: string, password: string)

  /** Remote calls a handler starts. */
  datatype Effect = FetchRoles(userId: string) | SignOut | SignInWithPassword(email: string, password: string)

  datatype Transition = Transition(state: AuthState, effects: seq<Effect>)

  /** Where a user's roles come from: the token itself, or a fetch of the
      `users` row with this id. */
  datatype Resolution = FromToken(roles: Value) | FromStore(userId: string)

  /** `user` is always the session's user, and absent when there is no session. */
  predicate Coupled(s: AuthState) {
    s.user == (if s.session.Some? then s.session.value.user else None)
  }

  /** `user.app_metadata?.roles`. */
  function TokenRoles(u: User): Value {
    Prop(u.appMetadata, "roles")
  }

  /** Token-first role resolution: the token's roles when they are a
      non-empty array, otherwise a fetch by user id. */
  function ResolveRoles(u: User): (r: Resolution)
    ensures r.FromToken? <==> TokenRoles(u).Arr? && |TokenRoles(u).items| > 0
    ensures r.FromToken? ==> r.roles == TokenRoles(u)
    ensures r.FromStore? ==> r.userId == u.id
  {
    var tokenRoles := TokenRoles(u);
    if Truthy(tokenRoles) && tokenRoles.Arr? && |tokenRoles.items| > 0 then FromToken(tokenRoles)
    else FromStore(u.id)
  }

  /** Both session handlers, once they hold a session with a user: record
      session and user, then resolve roles. */
  function AdoptSession(s: AuthState, sess: ProviderSession): Transition
    requires sess.user.Some?
  {
    var s' := s.(session := Some(sess), user := sess.user);
    match ResolveRoles(sess.user.value)
    case FromToken(roles) => Transition(s'.(roles := roles, loading := false), [])
    case FromStore(id) => Transition(s', [FetchRoles(id)])
  }

  /** The roles a successful fetch installs: `data?.roles || []`. */
  function FetchedRoles(data: Value): (roles: Value)
    ensures Truthy(roles)
    ensures Truthy(Prop(data, "roles")) ==> roles == Prop(data, "roles")
    ensures !Truthy(Prop(data, "roles")) ==> roles == Arr([])
  {
    Or(Prop(data, "roles"), Arr([]))
  }

  function Step(s: AuthState, e: Event): (t: Transition)
    ensures Coupled(s) ==> Coupled(t.state)
    ensures t.state.loading ==> s.loading
  {
    match e
    case SessionLoaded(active) =>
      if active.Some? && active.value.user.Some? then AdoptSession(s, active.value)
      else Transition(s.(session := active, user := None, loading := false), [])
    case SessionLoadFailed =>
      Transition(s, [])
    case AuthStateChanged(_, current) =>
      if current.Some? && current.value.user.Some? then AdoptSession(s, current.value)
      else Transition(Cleared, [])
    case RolesFetched(outcome) =>
      if outcome.FetchOk? then Transition(s.(roles := FetchedRoles(outcome.data), loading := false), [])
      else Transition(s.(loading := false), [])
    case TimerFired =>
      Transition(s.(loading := false), [])
    case LogoutCalled =>
      Transition(Cleared, [SignOut])
    case SignOutSettled(_) =>
      Transition(s, [])
    case LoginCalled(email, password) =>
      Transition(s, [SignInWithPassword(email, password)])
  }

  /** Events applied in delivery order; the effects are collected in order. */
  function Run(s: AuthState, events: seq<Event>): (t: Transition)
    ensures t.state.loading ==> s.loading
    ensures |events| == 1 ==> t == Step(s, events[0])
    decreases |events|
  {
    if |events| == 0 then Transition(s, [])
    else
      var t := Step(s, events[0]);
      var rest := Run(t.state, events[1..]);
      Transition(rest.state, t.effects + rest.effects)
  }

  /** Running two batches of events one after the other is running their
      concatenation: the second batch starts from the state the first left,
      and the effects are the first batch's followed by the second's. */
  lemma {:induction false} RunAppend(s: AuthState, a: seq<Event>, b: seq<Event>)
    ensures Run(s, a + b).state == Run(Run(s, a).state, b).state
    ensures Run(s, a + b).effects == Run(s, a).effects + Run(Run(s, a).state, b).effects
    decreases |a|
  {
    if |a| == 0 {
      assert a + b == b;
    } else {
      var t := Step(s, a[0]);
      assert (a + b)[0] == a[0];
      assert (a + b)[1..] == a[1..] + b;
      RunAppend(t.state, a[1..], b);
    }
  }

  // ---------------------------------------------------------------- login

  /** What `signInWithPassword` gave back: `{data, error}`, or an exception. */
  datatype SignInOutcome = SignInResponse(data: Value, error: Value) | SignInThrew(thrown: Value)

  /** How the promise returned by `login` or `logout` settles. */
  datatype CallResult = Returned(data: Value) | Thrown(error: Value)

  /** `login`: the provider's data on success; a provider error, returned
      or thrown, is thrown to the caller unchanged. */
  function Login(o: SignInOutcome): (r: CallResult)
    ensures r.Thrown? <==> o.SignInThrew? || Truthy(o.error)
    ensures r.Thrown? && o.SignInResponse? ==> r.error == o.error
    ensures r.Thrown? && o.SignInThrew? ==> r.error == o.thrown
    ensures r.Returned? ==> r.data == o.data
  {
    match o
    case SignInThrew(x) => Thrown(x)
    case SignInResponse(data, error) => if Truthy(error) then Thrown(error) else Returned(data)
  }

  // --------------------------------------------------------------- logout

  /** `logout`: a failure of the remote sign-out, returned or thrown, is
      caught there, so the promise resolves to `undefined` whatever the
      provider did. */
  function Logout(o: SignOutOutcome): (r: CallResult)
    ensures r.Returned? && r.data == Undefined
  {
    match o
    case SignOutOk => Returned(Undefined)
    case SignOutError(_) => Returned(Undefined)
    case SignOutThrew(_) => Returned(Undefined)
  }

  // ----------------------------------------------------------- properties

  /** Which events end loading, whatever the state: all but a session event
      that has to fall back to the store, a rejected `getSession`, the end
      of the remote sign-out and a login. */
  predicate EndsLoading(e: Event) {
    match e
    case SessionLoaded(active) =>
      !(active.Some? && active.value.user.Some? && ResolveRoles(active.value.user.value).FromStore?)
    case SessionLoadFailed => false
    case AuthStateChanged(_, current) =>
      !(current.Some? && current.value.user.Some? && ResolveRoles(current.value.user.value).FromStore?)
    case RolesFetched(_) => true
    case TimerFired => true
    case LogoutCalled => true
    case SignOutSettled(_) => false
    case LoginCalled(_, _) => false
  }

  /** One step leaves loading on exactly when it was on and the event does
      not end it. */
  lemma StepLoading(s: AuthState, e: Event)
    ensures Step(s, e).state.loading <==> s.loading && !EndsLoading(e)
  {
  }

  /** Loading is on after a run exactly when it was on before and no event
      of the run ends it; in particular it is never switched back on. */
  lemma {:induction false} RunLoading(s: AuthState, events: seq<Event>)
    ensures Run(s, events).state.loading <==> s.loading && forall i :: 0 <= i < |events| ==> !EndsLoading(events[i])
    decreases |events|
  {
    if |events| > 0 {
      StepLoading(s, events[0]);
      RunLoading(Step(s, events[0]).state, events[1..]);
      assert forall i :: 1 <= i < |events| ==> events[1..][i - 1] == events[i];
    }
  }

  /** On mount loading is on; once the safety timer has fired it is off for
      good, whatever arrives before or after. */
  lemma TimerBoundsLoading(events: seq<Event>, k: int)
    requires 0 <= k < |events| && events[k] == TimerFired
    ensures Initial.loading
    ensures !Run(Initial, events).state.loading
  {
    RunLoading(Initial, events);
    assert EndsLoading(events[k]);
  }

  /** Every reachable state keeps `user` equal to the session's user. */
  lemma {:induction false} RunCoupled(s: AuthState, events: seq<Event>)
    requires Coupled(s)
    ensures Coupled(Run(s, events).state)
    decreases |events|
  {
    if |events| > 0 {
      RunCoupled(Step(s, events[0]).state, events[1..]);
    }
  }

  lemma InitialCoupled(events: seq<Event>)
    ensures Coupled(Initial)
    ensures Coupled(Run(Initial, events).state)
  {
    RunCoupled(Initial, events);
  }

  /** Token path: a session whose token carries a non-empty roles array
      installs exactly that array, ends loading and fetches nothing. */
  lemma TokenRolesTaken(s: AuthState, e: Event, sess: ProviderSession)
    requires e == SessionLoaded(Some(sess)) || (e.AuthStateChanged? && e.current == Some(sess))
    requires sess.user.Some?
    requires TokenRoles(sess.user.value).Arr? && |TokenRoles(sess.user.value).items| > 0
    ensures Step(s, e).state == AuthState(sess.user, Some(sess), TokenRoles(sess.user.value), false)
    ensures Step(s, e).effects == []
  {
  }

  /** Store path: when the token's roles are missing, not an array or empty,
      the handler records the session, leaves roles and loading alone and
      fetches the roles of exactly this user. */
  lemma StoreFallback(s: AuthState, e: Event, sess: ProviderSession)
    requires e == SessionLoaded(Some(sess)) || (e.AuthStateChanged? && e.current == Some(sess))
    requires sess.user.Some?
    requires !(TokenRoles(sess.user.value).Arr? && |TokenRoles(sess.user.value).items| > 0)
    ensures Step(s, e).state == s.(user := sess.user, session := Some(sess))
    ensures Step(s, e).effects == [FetchRoles(sess.user.value.id)]
  {
  }

  /** A successful fetch installs the row's roles when they are truthy and
      `[]` otherwise, ends loading, and touches nothing else. */
  lemma FetchSucceeded(s: AuthState, data: Value)
    ensures Truthy(Prop(data, "roles")) ==> Step(s, RolesFetched(FetchOk(data))).state.roles == Prop(data, "roles")
    ensures !Truthy(Prop(data, "roles")) ==> Step(s, RolesFetched(FetchOk(data))).state.roles == Arr([])
    ensures !Step(s, RolesFetched(FetchOk(data))).state.loading
    ensures Step(s, RolesFetched(FetchOk(data))).state.user == s.user
    ensures Step(s, RolesFetched(FetchOk(data))).state.session == s.session
    ensures Step(s, RolesFetched(FetchOk(data))).effects == []
  {
  }

  /** A fetch that returned an error or threw keeps the roles and only ends
      loading. */
  lemma FetchFailed(s: AuthState, o: FetchOutcome)
    requires !o.FetchOk?
    ensures Step(s, RolesFetched(o)) == Transition(s.(loading := false), [])
  {
  }

  /** An event without a user clears the state, whatever its name. */
  lemma EventWithoutUserClears(s: AuthState, kind: AuthEventKind, current: Option<ProviderSession>)
    requires current.None? || current.value.user.None?
    ensures Step(s, AuthStateChanged(kind, current)).state == AuthState(None, None, Arr([]), false)
  {
  }

  /** The event name never matters. */
  lemma EventKindIgnored(s: AuthState, k1: AuthEventKind, k2: AuthEventKind, current: Option<ProviderSession>)
    ensures Step(s, AuthStateChanged(k1, current)) == Step(s, AuthStateChanged(k2, current))
  {
  }

  /** Delivering the same session event twice leaves the same state as
      delivering it once. */
  lemma SessionEventIdempotent(s: AuthState, kind: AuthEventKind, current: Option<ProviderSession>)
    ensures
      var once := Step(s, AuthStateChanged(kind, current)).state;
      Step(once, AuthStateChanged(kind, current)).state == once
  {
  }

  /** `logout` clears the local state before it asks the provider to sign
      out, and whatever the remote sign-out does afterwards leaves the state
      cleared. */
  lemma LogoutClearsFirst(s: AuthState, o: SignOutOutcome)
    ensures Step(s, LogoutCalled) == Transition(AuthState(None, None, Arr([]), false), [SignOut])
    ensures Run(s, [LogoutCalled, SignOutSettled(o)]).state == AuthState(None, None, Arr([]), false)
    ensures forall s' :: Step(s', SignOutSettled(o)) == Transition(s', [])
  {
    var evs := [LogoutCalled, SignOutSettled(o)];
    assert evs[1..] == [SignOutSettled(o)];
    assert evs[1..][1..] == [];
    assert Run(Cleared, [SignOutSettled(o)]).state == Cleared;
  }

  /** The timer only ends loading. */
  lemma TimerOnlyEndsLoading(s: AuthState)
    ensures !Step(s, TimerFired).state.loading
    ensures Step(s, TimerFired).state.user == s.user
    ensures Step(s, TimerFired).state.session == s.session
    ensures Step(s, TimerFired).state.roles == s.roles
    ensures Step(s, TimerFired).effects == []
  {
  }

  /** `login` changes no state; it only starts the provider's sign-in. */
  lemma LoginLeavesState(s: AuthState, email: string, password: string)
    ensures Step(s, LoginCalled(email, password)) == Transition(s, [SignInWithPassword(email, password)])
  {
  }

  /** There is no staleness guard: a fetch started for a user that finishes
      after `logout` still installs what it fetched, next to a null user. */
  lemma LateFetchAfterLogout(s: AuthState, sess: ProviderSession, data: Value)
    requires sess.user.Some? && ResolveRoles(sess.user.value).FromStore?
    ensures Run(s, [SessionLoaded(Some(sess)), LogoutCalled, RolesFetched(FetchOk(data))])
            == Transition(AuthState(None, None, FetchedRoles(data), false), [FetchRoles(sess.user.value.id), SignOut])
  {
    var evs := [SessionLoaded(Some(sess)), LogoutCalled, RolesFetched(FetchOk(data))];
    var s1 := s.(session := Some(sess), user := sess.user);
    var s3 := AuthState(None, None, FetchedRoles(data), false);
    assert evs[1..] == [LogoutCalled, RolesFetched(FetchOk(data))];
    assert evs[1..][1..] == [RolesFetched(FetchOk(data))];
    assert Step(s, evs[0]) == Transition(s1, [FetchRoles(sess.user.value.id)]);
    assert Run(Cleared, evs[1..][1..]) == Transition(s3, []);
    assert Run(s1, evs[1..]) == Transition(s3, [SignOut]);
  }

  /** The same, on one trace: a student's roles reappear after logout. */
  lemma LateFetchAfterLogoutExample()
    ensures
      var u := User("u1", "student1@example.com", Obj(map[]));
      var row := Obj(map["roles" := Arr([Str("STUDENT")])]);
      var t := Run(Initial, [SessionLoaded(Some(ProviderSession(Some(u), "t"))), LogoutCalled, RolesFetched(FetchOk(row))]);
      && t.effects == [FetchRoles("u1"), SignOut]
      && t.state == AuthState(None, None, Arr([Str("STUDENT")]), false)
  {
    var u := User("u1", "student1@example.com", Obj(map[]));
    var row := Obj(map["roles" := Arr([Str("STUDENT")])]);
    LateFetchAfterLogout(Initial, ProviderSession(Some(u), "t"), row);
    assert Prop(row, "roles") == Arr([Str("STUDENT")]);
  }

  /** A session event for a user without token roles keeps the previous
      user's roles while the fetch runs; if the fetch fails they stay, now
      with loading off. */
  lemma PreviousRolesOutliveFailedFetch(s: AuthState, kind: AuthEventKind, sess: ProviderSession, o: FetchOutcome)
    requires sess.user.Some? && ResolveRoles(sess.user.value).FromStore?
    requires !o.FetchOk?
    ensures Step(s, AuthStateChanged(kind, Some(sess))).state.roles == s.roles
    ensures Run(s, [AuthStateChanged(kind, Some(sess)), RolesFetched(o)])
            == Transition(AuthState(sess.user, Some(sess), s.roles, false), [FetchRoles(sess.user.value.id)])
  {
    var evs := [AuthStateChanged(kind, Some(sess)), RolesFetched(o)];
    var s1 := s.(session := Some(sess), user := sess.user);
    assert evs[1..] == [RolesFetched(o)];
    assert Step(s, evs[0]) == Transition(s1, [FetchRoles(sess.user.value.id)]);
    assert Run(s1, evs[1..]) == Transition(s1.(loading := false), []);
  }
}
