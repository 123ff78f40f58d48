/** The auth store (src/store/authStore.ts): the signed-in user's profile
    with a `loading` flag and the last error, stepped by sign-in, sign-up,
    sign-out, profile loading and the auth service's events. The auth
    service and the `users` table are parameters: each call is given the
    reply it gets. Error objects are represented by their `message`. */
module AuthStore {
  import opened Wrappers
  import opened Types
  import opened Text

  datatype AuthState = AuthState(user: Option<User>, loading: bool, error: Option<string>)

  const Initial: AuthState := AuthState(None, false, None)

  /** The auth service's current user: an error, or the user (id and email)
      if there is one. */
  datatype AuthUser = AuthUser(id: string, email: Option<string>)
  datatype AuthReply = AuthReply(error: Option<string>, user: Option<AuthUser>)

  /** A row of the `users` table. */
  datatype ProfileRow = ProfileRow(
    id: string,
    email: string,
    firstName: Option<string>,
    lastName: Option<string>,
    churchId: Option<string>,
    role: Role,
    avatarUrl: Option<string>,
    createdAt: Time)

  /** The reply of `select('*').eq('id', id).single()`. */
  datatype ProfileReply = ProfileFailed(code: string, message: string) | ProfileFound(row: Option<ProfileRow>)

  /** The profile `signUp` inserts. */
  datatype ProfileInsert = ProfileInsert(
    id: string,
    email: Option<string>,
    firstName: string,
    lastName: string,
    churchId: string,
    role: Role)

  /** A step's new state and the message of the error it rethrows, if any. */
  datatype Step = Step(state: AuthState, thrown: Option<string>)

  /** The code PostgREST gives `.single()` when no row matches. */
  const NoRows: string := "PGRST116"

  /** The profile row renamed into the app's `User`. */
  function ToUser(row: ProfileRow): (u: User)
    ensures u.id == row.id && u.email == row.email && u.role == row.role && u.createdAt == row.createdAt
    ensures u.firstname == row.firstName && u.lastname == row.lastName
    ensures u.churchId == row.churchId && u.avatarUrl == row.avatarUrl
  {
    User(row.id, row.email, row.firstName, row.lastName, row.role, row.churchId, row.avatarUrl, row.createdAt)
  }

  /** `getUser`: the state it leaves. It never throws, and it never leaves
      `loading` raised. */
  function GetUser(auth: AuthReply, profiles: string -> ProfileReply): (s: AuthState)
    ensures !s.loading
    ensures s.user.Some? <==> && auth.error.None? && auth.user.Some?
                              && profiles(auth.user.value.id).ProfileFound?
                              && profiles(auth.user.value.id).row.Some?
    ensures s.user.Some? ==> s.user.value == ToUser(profiles(auth.user.value.id).row.value) && s.error.None?
    ensures s.error.Some? <==> || auth.error.Some?
                               || (auth.user.Some? && profiles(auth.user.value.id).ProfileFailed?
                                   && profiles(auth.user.value.id).code != NoRows)
  {
    var fail := (msg: string) => AuthState(None, false, Some(OrElse(Some(msg), "Failed to fetch user data")));
    if auth.error.Some? then fail(auth.error.value)
    else if auth.user.None? then AuthState(None, false, None)
    else
      match profiles(auth.user.value.id)
      case ProfileFailed(code, message) =>
        if code == NoRows then AuthState(None, false, None) else fail(message)
      case ProfileFound(row) =>
        if row.None? then AuthState(None, false, None)
        else AuthState(Some(ToUser(row.value)), false, None)
  }

  /** A missing profile, whether reported as PGRST116 or as an empty reply,
      is no error: the user is simply signed out of the app. */
  lemma MissingProfileIsNotAnError(auth: AuthReply, profiles: string -> ProfileReply)
    requires auth.error.None? && auth.user.Some?
    requires var p := profiles(auth.user.value.id);
             (p.ProfileFailed? && p.code == NoRows) || (p.ProfileFound? && p.row.None?)
    ensures GetUser(auth, profiles) == Initial
  {
  }

  /** The end of a failed `signIn`/`signUp`: signed out, not loading, the
      error's message (or the fallback) recorded and the error rethrown. */
  function Failed(msg: string, fallback: string): (st: Step)
    ensures st.state.user.None? && !st.state.loading
    ensures st.state.error == Some(if msg != "" then msg else fallback)
    ensures st.thrown == Some(msg)
  {
    Step(AuthState(None, false, Some(OrElse(Some(msg), fallback))), Some(msg))
  }

  /** `signIn`: the password check, then `getUser` with the session it
      opened. */
  function SignIn(reply: AuthReply, session: AuthReply, profiles: string -> ProfileReply): (st: Step)
    ensures st.thrown.None? <==> reply.error.None? && reply.user.Some?
    ensures st.thrown.None? ==> st.state == GetUser(session, profiles)
    ensures st.thrown.Some? ==> st.state.user.None? && st.state.error.Some? && !st.state.loading
  {
    if reply.error.Some? then Failed(reply.error.value, "Failed to sign in")
    else if reply.user.None? then Failed("No user returned after sign in", "Failed to sign in")
    else Step(GetUser(session, profiles), None)
  }

  /** `signUp`: the account, then a `viewer` profile with the given church
      id, then `getUser`. Also returns the profile it tried to insert. */
  function SignUp(email: string, firstName: string, lastName: string, churchId: string, reply: AuthReply,
                  insertFailure: Option<string>, session: AuthReply, profiles: string -> ProfileReply)
    : (r: (Step, Option<ProfileInsert>))
    ensures r.1.Some? <==> reply.error.None? && reply.user.Some?
    ensures r.1.Some? ==> r.1.value == ProfileInsert(reply.user.value.id, reply.user.value.email,
                                                     firstName, lastName, churchId, Viewer)
    ensures r.0.thrown.None? <==> r.1.Some? && insertFailure.None?
    ensures r.0.thrown.None? ==> r.0.state == GetUser(session, profiles)
    ensures r.0.thrown.Some? ==> r.0.state.user.None? && r.0.state.error.Some? && !r.0.state.loading
  {
    if reply.error.Some? then (Failed(reply.error.value, "Failed to create account"), None)
    else if reply.user.None? then (Failed("No user returned after sign up", "Failed to create account"), None)
    else
      var profile := ProfileInsert(reply.user.value.id, reply.user.value.email, firstName, lastName, churchId, Viewer);
      if insertFailure.Some? then (Failed(insertFailure.value, "Failed to create account"), Some(profile))
      else (Step(GetUser(session, profiles), None), Some(profile))
  }

  /** `signOut`: success signs out and clears the error; a failure keeps the
      user, records the error and rethrows it. */
  function SignOut(s: AuthState, failure: Option<string>): (st: Step)
    ensures failure.None? ==> st == Step(Initial, None)
    ensures failure.Some? ==> && st.state.user == s.user && !st.state.loading
                              && st.state.error == Some(OrElse(failure, "Failed to sign out"))
                              && st.thrown == failure
  {
    if failure.None? then Step(AuthState(None, false, None), None)
    else Step(AuthState(s.user, false, Some(OrElse(failure, "Failed to sign out"))), failure)
  }

  /** The auth listener: SIGNED_IN loads the profile, SIGNED_OUT resets the
      three fields, other events change nothing. */
  function OnAuthEvent(s: AuthState, event: string, session: AuthReply, profiles: string -> ProfileReply): (r: AuthState)
    ensures event == "SIGNED_OUT" ==> r == Initial
    ensures event == "SIGNED_IN" ==> r == GetUser(session, profiles)
    ensures event != "SIGNED_IN" && event != "SIGNED_OUT" ==> r == s
  {
    if event == "SIGNED_IN" then GetUser(session, profiles)
    else if event == "SIGNED_OUT" then AuthState(None, false, None)
    else s
  }

  /** A signed-out store holds no user, whatever the user was, and the next
      sign-out leaves it there. */
  lemma SignOutIsIdempotent(s: AuthState)
    ensures SignOut(SignOut(s, None).state, None) == SignOut(s, None)
    ensures OnAuthEvent(OnAuthEvent(s, "SIGNED_OUT", AuthReply(None, None), (id: string) => ProfileFound(None)),
                        "SIGNED_OUT", AuthReply(None, None), (id: string) => ProfileFound(None)) == Initial
  {
  }

  /** A successful sign-in followed by the SIGNED_IN event it triggers
      leaves the same state as the sign-in alone. */
  lemma SignInThenEventAgree(reply: AuthReply, session: AuthReply, profiles: string -> ProfileReply)
    requires reply.error.None? && reply.user.Some?
    ensures OnAuthEvent(SignIn(reply, session, profiles).state, "SIGNED_IN", session, profiles)
            == SignIn(reply, session, profiles).state
  {
  }

  /** The store. */
  class Store {
    var user: Option<User>
    var loading: bool
    var error: Option<string>

    function State(): AuthState
      reads this
    {
      AuthState(user, loading, error)
    }

    constructor ()
      ensures State() == Initial
    {
      user, loading, error := None, false, None;
    }

    method Set(s: AuthState)
      modifies this
      ensures State() == s
    {
      user, loading, error := s.user, s.loading, s.error;
    }

    method ClearError()
      modifies this
      ensures State() == old(State()).(error := None)
    {
      error := None;
    }

    method GetUserFrom(auth: AuthReply, profiles: string -> ProfileReply)
      modifies this
      ensures State() == GetUser(auth, profiles)
    {
      Set(GetUser(auth, profiles));
    }

    /** Raises `loading` and clears the error, then settles. */
    method SignInWith(reply: AuthReply, session: AuthReply, profiles: string -> ProfileReply)
      returns (thrown: Option<string>)
      modifies this
      ensures State() == SignIn(reply, session, profiles).state
      ensures thrown == SignIn(reply, session, profiles).thrown
    {
      loading, error := true, None;
      var st := SignIn(reply, session, profiles);
      Set(st.state);
      thrown := st.thrown;
    }

    method SignUpWith(email: string, firstName: string, lastName: string, churchId: string, reply: AuthReply,
                      insertFailure: Option<string>, session: AuthReply, profiles: string -> ProfileReply)
      returns (inserted: Option<ProfileInsert>, thrown: Option<string>)
      modifies this
      ensures var r := SignUp(email, firstName, lastName, churchId, reply, insertFailure, session, profiles);
              State() == r.0.state && thrown == r.0.thrown && inserted == r.1
    {
      loading, error := true, None;
      var r := SignUp(email, firstName, lastName, churchId, reply, insertFailure, session, profiles);
      Set(r.0.state);
      thrown, inserted := r.0.thrown, r.1;
    }

    method SignOutWith(failure: Option<string>) returns (thrown: Option<string>)
      modifies this
      ensures State() == SignOut(old(State()), failure).state
      ensures thrown == failure
    {
      var st := SignOut(State(), failure);
      loading, error := true, None;
      Set(st.state);
      thrown := st.thrown;
    }

    method HandleAuthEvent(event: string, session: AuthReply, profiles: string -> ProfileReply)
      modifies this
      ensures State() == OnAuthEvent(old(State()), event, session, profiles)
    {
      Set(OnAuthEvent(State(), event, session, profiles));
    }
  }
}
