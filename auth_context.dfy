/** The front end's authentication state: the reducer that the provider
    dispatches to, the merge behind `updateUser`, and the sequences of
    actions that logging in, registering, logging out and the start-up
    check dispatch. A user object is modelled as a map from property name
    to its (string) value. */
module AuthContext {
  import opened Wrappers

  type User = map<string, string>

  datatype AuthState = AuthState(user: Option<User>, isAuthenticated: bool, isLoading: bool,
                                 error: Option<string>)

  /** The state the provider starts in: nobody signed in, still loading. */
  const INITIAL_STATE: AuthState := AuthState(None, false, true, None)

  /** The seven action types with their payloads, and any other type. The
      reducer reads `LOGIN_SUCCESS`'s user without checking it, so the user
      may be absent. */
  datatype Action =
    | LoginStart
    | LoginSuccess(user: Option<User>)
    | LoginFailure(message: string)
    | Logout
    | SetLoading(loading: bool)
    | SetUser(payload: Option<User>)
    | ClearError
    | Unknown(kind: string)

  /** `authReducer`. Every action type has a lemma below stating what it
      sets and what it keeps. */
  function Reduce(s: AuthState, a: Action): (r: AuthState)
    ensures a.Unknown? ==> r == s
  {
    match a
    case LoginStart => s.(isLoading := true, error := None)
    case LoginSuccess(u) => s.(user := u, isAuthenticated := true, isLoading := false, error := None)
    case LoginFailure(m) => s.(user := None, isAuthenticated := false, isLoading := false, error := Some(m))
    case Logout => s.(user := None, isAuthenticated := false, isLoading := false, error := None)
    case SetLoading(b) => s.(isLoading := b)
    case SetUser(p) => s.(user := p, isAuthenticated := p.Some?, isLoading := false)
    case ClearError => s.(error := None)
    case Unknown(_) => s
  }

  lemma LoginStartKeepsUser(s: AuthState)
    ensures Reduce(s, LoginStart).isLoading && Reduce(s, LoginStart).error == None
    ensures Reduce(s, LoginStart).user == s.user
    ensures Reduce(s, LoginStart).isAuthenticated == s.isAuthenticated
  {
  }

  /** `LOGIN_SUCCESS` claims authentication whatever the payload's user is. */
  lemma LoginSuccessSignsIn(s: AuthState, u: Option<User>)
    ensures Reduce(s, LoginSuccess(u)) == AuthState(u, true, false, None)
  {
  }

  lemma LoginFailureSignsOut(s: AuthState, m: string)
    ensures Reduce(s, LoginFailure(m)) == AuthState(None, false, false, Some(m))
  {
  }

  lemma LogoutSignsOut(s: AuthState)
    ensures Reduce(s, Logout) == AuthState(None, false, false, None)
  {
  }

  /** `SET_LOADING` and `CLEAR_ERROR` each touch only their own field. */
  lemma OwnFieldOnly(s: AuthState, b: bool)
    ensures Reduce(s, SetLoading(b)) == AuthState(s.user, s.isAuthenticated, b, s.error)
    ensures Reduce(s, ClearError) == AuthState(s.user, s.isAuthenticated, s.isLoading, None)
  {
  }

  lemma SetUserAuthenticates(s: AuthState, p: Option<User>)
    ensures Reduce(s, SetUser(p)).isAuthenticated <==> p.Some?
    ensures Reduce(s, SetUser(p)).user == p
    ensures !Reduce(s, SetUser(p)).isLoading && Reduce(s, SetUser(p)).error == s.error
  {
  }

  /** A state is consistent when it holds a user exactly when it says the
      user is authenticated. */
  predicate Consistent(s: AuthState) {
    s.isAuthenticated <==> s.user.Some?
  }

  /** A `LOGIN_SUCCESS` that carries no user. */
  predicate Userless(a: Action) {
    a.LoginSuccess? && a.user.None?
  }

  /** From a consistent state, an action leaves a consistent state exactly
      when it is not a `LOGIN_SUCCESS` without a user: that one alone claims
      authentication with nobody signed in. */
  lemma ReduceKeepsConsistent(s: AuthState, a: Action)
    requires Consistent(s)
    ensures Consistent(Reduce(s, a)) <==> !Userless(a)
  {
    if Userless(a) {
      assert Reduce(s, a).isAuthenticated && Reduce(s, a).user.None?;
    }
  }

  /** Dispatching a sequence of actions in order. */
  function ReduceAll(s: AuthState, actions: seq<Action>): AuthState
    decreases |actions|
  {
    if actions == [] then s else ReduceAll(Reduce(s, actions[0]), actions[1..])
  }

  /** A consistent state (the initial one among them) stays consistent
      through any sequence of actions without a userless `LOGIN_SUCCESS`, and
      one ending in such an action leaves it inconsistent. */
  lemma {:induction false} ReduceAllConsistent(s: AuthState, actions: seq<Action>)
    requires Consistent(s)
    ensures (forall i :: 0 <= i < |actions| ==> !Userless(actions[i])) ==> Consistent(ReduceAll(s, actions))
    ensures actions != [] && Userless(actions[|actions| - 1]) ==> !Consistent(ReduceAll(s, actions))
    decreases |actions|
  {
    if actions != [] {
      if !Userless(actions[0]) {
        ReduceKeepsConsistent(s, actions[0]);
        ReduceAllConsistent(Reduce(s, actions[0]), actions[1..]);
        assert forall i :: 0 <= i < |actions| - 1 ==> actions[1..][i] == actions[i + 1];
      }
      if Userless(actions[|actions| - 1]) {
        ReduceAllLast(s, actions);
      }
    }
  }

  /** Dispatching ends with the last action. */
  lemma {:induction false} ReduceAllSnoc(s: AuthState, actions: seq<Action>, a: Action)
    ensures ReduceAll(s, actions + [a]) == Reduce(ReduceAll(s, actions), a)
    decreases |actions|
  {
    if actions != [] {
      assert (actions + [a])[1..] == actions[1..] + [a];
      ReduceAllSnoc(Reduce(s, actions[0]), actions[1..], a);
    }
  }

  /** A sequence ending in a userless `LOGIN_SUCCESS` ends authenticated with
      no user. */
  lemma ReduceAllLast(s: AuthState, actions: seq<Action>)
    requires actions != [] && Userless(actions[|actions| - 1])
    ensures ReduceAll(s, actions).isAuthenticated && ReduceAll(s, actions).user.None?
  {
    var front := actions[..|actions| - 1];
    assert actions == front + [actions[|actions| - 1]];
    ReduceAllSnoc(s, front, actions[|actions| - 1]);
  }

  lemma InitialConsistent()
    ensures Consistent(INITIAL_STATE) && INITIAL_STATE.isLoading
  {
  }

  /** `{ ...state.user, ...userData }`: a null user spreads to nothing; the
      new data wins where both have a property. */
  function MergeUser(current: Option<User>, data: User): (m: User)
    ensures m.Keys == current.GetOr(map[]).Keys + data.Keys
    ensures forall k :: k in data ==> m[k] == data[k]
    ensures forall k :: k in current.GetOr(map[]) && k !in data ==> m[k] == current.GetOr(map[])[k]
  {
    current.GetOr(map[]) + data
  }

  /** `updateUser`: the merged user is dispatched with `SET_USER`, which
      therefore always signs the user in, even from a signed-out state. */
  function UpdateUser(s: AuthState, data: User): (r: AuthState)
    ensures r.isAuthenticated && r.user == Some(MergeUser(s.user, data)) && !r.isLoading
    ensures r.error == s.error
  {
    Reduce(s, SetUser(Some(MergeUser(s.user, data))))
  }

  /** The error text of a failed login or registration: the server's
      message when there is a non-empty one, the fallback otherwise. */
  function ErrorMessage(serverMessage: Option<string>, fallback: string): (m: string)
    ensures serverMessage.Some? && serverMessage.value != "" ==> m == serverMessage.value
    ensures serverMessage.None? || serverMessage.value == "" ==> m == fallback
  {
    match serverMessage
    case Some(msg) => if msg != "" then msg else fallback
    case None => fallback
  }

  /** `login` and `register`: `LOGIN_START`, then `LOGIN_SUCCESS` with the
      `user` of the response data, which may be missing, or `LOGIN_FAILURE`
      with the error text. `fallback` is "Login failed" or "Registration failed". */
  function SignIn(s: AuthState, response: Result<Option<User>, Option<string>>, fallback: string): (r: AuthState)
    ensures response.Success? ==> r == AuthState(response.value, true, false, None)
    ensures response.Failure? ==> r == AuthState(None, false, false, Some(ErrorMessage(response.error, fallback)))
  {
    match response
    case Success(u) => Reduce(Reduce(s, LoginStart), LoginSuccess(u))
    case Failure(msg) => Reduce(Reduce(s, LoginStart), LoginFailure(ErrorMessage(msg, fallback)))
  }

  /** The two ways a sign-in can end are told apart by `isAuthenticated`
      alone, and neither leaves the state loading. The end state is
      consistent exactly unless a successful response carried no user. */
  lemma SignInSettles(s: AuthState, response: Result<Option<User>, Option<string>>, fallback: string)
    ensures !SignIn(s, response, fallback).isLoading
    ensures SignIn(s, response, fallback).isAuthenticated <==> response.Success?
    ensures Consistent(SignIn(s, response, fallback)) <==> !(response.Success? && response.value.None?)
  {
  }

  /** The start-up check: with a stored token and user, the profile request
      either returns a user (`SET_USER`) or fails (`LOGOUT`); without them
      loading simply stops. */
  function CheckAuthStatus(s: AuthState, stored: bool, profile: Result<Option<User>, string>): (r: AuthState)
    ensures !r.isLoading
    ensures !stored ==> r == s.(isLoading := false)
    ensures stored && profile.Failure? ==> r == AuthState(None, false, false, None)
  {
    if !stored then Reduce(s, SetLoading(false))
    else match profile
      case Success(u) => Reduce(s, SetUser(u))
      case Failure(_) => Reduce(s, Logout)
  }

  /** From the initial state, the start-up check leaves a consistent,
      settled state whose user is the profile's when it succeeded. */
  lemma StartupSettles(stored: bool, profile: Result<Option<User>, string>)
    ensures Consistent(CheckAuthStatus(INITIAL_STATE, stored, profile))
    ensures stored && profile.Success? ==> CheckAuthStatus(INITIAL_STATE, stored, profile).user == profile.value
    ensures !stored ==> CheckAuthStatus(INITIAL_STATE, stored, profile).user.None?
  {
  }
}
