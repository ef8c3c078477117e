/**
 * The authentication store (src/stores/auth.ts): the signed-in user, that
 * user's profile row and a `loading` flag, updated by the store's actions.
 *
 * Every call into the remote auth/database client is replaced by a parameter
 * that gives its outcome. Each action is first stated as a function on an
 * `AuthState` value (the specification, with the properties the store
 * promises as its `ensures`), and then written as a method of the class
 * `AuthStore`, which assigns its fields step by step as the source does and
 * is proved to reach exactly the state that function gives.
 */
module Auth {
  import opened Wrappers
  import opened Types

  /** Why a store action failed. */
  datatype Failure =
    | Remote(message: string)   // an error reported or thrown by the remote client
    | RegistrationFailed        // sign-up returned no user: the store raises its own "registration failed" error

  /** The outcome of one remote call. */
  type Response<T> = Outcome<T, Failure>

  /** `getSession()`: it either throws or yields a session, which may be absent. */
  datatype SessionResult = SessionThrew | SessionLoaded(session: Option<User>)

  /** The `{ data, error }` object that `signIn` and `signUp` return. */
  datatype Reply<T> = Reply(data: Option<T>, error: Option<Failure>)

  /** The row `signUp` inserts into `profiles`. */
  datatype NewProfile = NewProfile(id: string, email: string, fullName: string, role: UserRole, studentId: Option<string>)

  /** What `signUp` hands back: its reply, and the profile row it sent to the insert, if it got that far (whether or not the insert succeeded). */
  datatype SignUpResult = SignUpResult(reply: Reply<User>, inserted: Option<NewProfile>)

  /** What `updateProfile` returns: nothing when nobody is signed in, else `{ error }`. */
  datatype UpdateReply = Skipped | Done(error: Option<Failure>)

  /** The store's state after an action, with the action's return value. */
  datatype Step<T> = Step(state: AuthState, out: T)

  /**
   * The store's fields. `listening` records whether the auth-state-change
   * callback has been registered with the client.
   */
  datatype AuthState = AuthState(user: Option<User>, profile: Option<Profile>, loading: bool, listening: bool)

  /** The state a fresh store starts in. */
  const Initial := AuthState(None, None, false, false)

  // ---------------------------------------------------------------------
  // Derived flags (the computed values)
  // ---------------------------------------------------------------------

  predicate IsAuthenticated(s: AuthState) {
    s.user.Some?
  }

  /** `userRole`: the role of the loaded profile, if any. */
  function RoleOf(s: AuthState): Option<UserRole> {
    if s.profile.Some? then Some(s.profile.value.role) else None
  }

  predicate IsStudent(s: AuthState) {
    RoleOf(s) == Some(Student)
  }

  predicate IsTeacher(s: AuthState) {
    RoleOf(s) == Some(Teacher)
  }

  /** The flags agree with the fields: never both roles, and no role without a profile. */
  lemma RoleFlags(s: AuthState)
    ensures IsAuthenticated(s) <==> s.user != None
    ensures !(IsStudent(s) && IsTeacher(s))
    ensures IsStudent(s) || IsTeacher(s) <==> s.profile.Some?
    ensures s.profile.Some? ==> (IsStudent(s) <==> s.profile.value.role == Student)
  {
    if s.profile.Some? {
      match s.profile.value.role
      case Student =>
      case Teacher =>
    }
  }

  /** The invariant every action keeps: there is no profile without a user. */
  predicate Consistent(s: AuthState) {
    s.user.None? ==> s.profile.None?
  }

  // ---------------------------------------------------------------------
  // The actions, as functions on the state
  // ---------------------------------------------------------------------

  /** `fetchProfile`: load the signed-in user's profile row; errors are swallowed. */
  function FetchProfileStep(s: AuthState, fetched: Response<Profile>): (r: AuthState)
    ensures r.user == s.user && r.loading == s.loading && r.listening == s.listening
    ensures s.user.Some? && fetched.Ok? ==> r.profile == Some(fetched.value)
    ensures s.user.None? || fetched.Err? ==> r == s
    ensures Consistent(s) ==> Consistent(r)
  {
    if s.user.None? then s
    else match fetched
      case Ok(row) => s.(profile := Some(row))
      case Err(_) => s
  }

  /**
   * `initialize`: restore the persisted session, load its profile and
   * register the auth-state-change callback. A throwing `getSession` is
   * caught, and then the callback is never registered.
   */
  function InitializeStep(s: AuthState, session: SessionResult, fetched: Response<Profile>): (r: AuthState)
    ensures r.loading == s.loading
    ensures session.SessionThrew? ==> r == s
    ensures session == SessionLoaded(None) ==> r == s.(listening := true)
    ensures session.SessionLoaded? && session.session.Some? ==>
      r.listening && r.user == session.session &&
      r.profile == (if fetched.Ok? then Some(fetched.value) else s.profile)
    ensures Consistent(s) ==> Consistent(r)
  {
    match session
    case SessionThrew => s
    case SessionLoaded(None) => s.(listening := true)
    case SessionLoaded(Some(u)) => FetchProfileStep(s.(user := Some(u)), fetched).(listening := true)
  }

  /** The callback the client runs on every auth-state change. */
  function AuthStateChangeStep(s: AuthState, sessionUser: Option<User>, fetched: Response<Profile>): (r: AuthState)
    ensures r.user == sessionUser && r.loading == s.loading && r.listening == s.listening
    ensures sessionUser.None? ==> r.profile.None?
    ensures sessionUser.Some? ==> r.profile == (if fetched.Ok? then Some(fetched.value) else s.profile)
    ensures Consistent(s) ==> Consistent(r)
  {
    match sessionUser
    case Some(u) => FetchProfileStep(s.(user := Some(u)), fetched)
    case None => s.(user := None, profile := None)
  }

  /** `signIn`: check the credentials remotely; on success record the user and load the profile. */
  function SignInStep(s: AuthState, auth: Response<User>, fetched: Response<Profile>): (r: Step<Reply<User>>)
    ensures !r.state.loading && r.state.listening == s.listening
    ensures auth.Err? ==>
      r.state.user == s.user && r.state.profile == s.profile && r.out == Reply(None, Some(auth.error))
    ensures auth.Ok? ==>
      r.state.user == Some(auth.value) && r.out == Reply(Some(auth.value), None) &&
      r.state.profile == (if fetched.Ok? then Some(fetched.value) else s.profile)
    ensures Consistent(s) ==> Consistent(r.state)
  {
    var busy := s.(loading := true);
    match auth
    case Err(e) => Step(busy.(loading := false), Reply(None, Some(e)))
    case Ok(u) => Step(FetchProfileStep(busy.(user := Some(u)), fetched).(loading := false), Reply(Some(u), None))
  }

  /**
   * `signUp`: create the auth identity, then insert its profile row. The
   * store's user and profile are never touched; each failure yields
   * `data: null` with its error.
   */
  function SignUpStep(s: AuthState, email: string, fullName: string, role: UserRole, studentId: Option<string>,
                      auth: Response<Option<User>>, insert: Response<()>): (r: Step<SignUpResult>)
    ensures r.state == s.(loading := false)
    ensures r.out.inserted.Some? <==> auth.Ok? && auth.value.Some?
    ensures r.out.inserted.Some? ==>
      r.out.inserted.value == NewProfile(auth.value.value.id, email, fullName, role, studentId)
    ensures r.out.reply.error.None? <==> auth.Ok? && auth.value.Some? && insert.Ok?
    ensures r.out.reply.data.Some? <==> r.out.reply.error.None?
    ensures r.out.reply.data.Some? ==> r.out.reply.data == auth.value
    ensures auth.Err? ==> r.out.reply.error == Some(auth.error)
    ensures auth == Ok(None) ==> r.out.reply.error == Some(RegistrationFailed)
    ensures auth.Ok? && auth.value.Some? && insert.Err? ==> r.out.reply.error == Some(insert.error)
  {
    var done := s.(loading := false);
    match auth
    case Err(e) => Step(done, SignUpResult(Reply(None, Some(e)), None))
    case Ok(None) => Step(done, SignUpResult(Reply(None, Some(RegistrationFailed)), None))
    case Ok(Some(u)) =>
      var row := NewProfile(u.id, email, fullName, role, studentId);
      match insert
      case Err(e) => Step(done, SignUpResult(Reply(None, Some(e)), Some(row)))
      case Ok(_) => Step(done, SignUpResult(Reply(Some(u), None), Some(row)))
  }

  /** `signOut`: end the remote session; only on success forget the user and the profile. */
  function SignOutStep(s: AuthState, outcome: Response<()>): (r: AuthState)
    ensures !r.loading && r.listening == s.listening
    ensures outcome.Ok? ==> r.user.None? && r.profile.None?
    ensures outcome.Err? ==> r.user == s.user && r.profile == s.profile
    ensures Consistent(s) ==> Consistent(r)
  {
    match outcome
    case Ok(_) => s.(user := None, profile := None, loading := false)
    case Err(_) => s.(loading := false)
  }

  /**
   * `updateProfile`: send the changes, then re-load the profile. Without a
   * user it returns at once and changes nothing, not even `loading`.
   */
  function UpdateProfileStep(s: AuthState, update: Response<()>, fetched: Response<Profile>): (r: Step<UpdateReply>)
    ensures s.user.None? ==> r == Step(s, Skipped)
    ensures s.user.Some? ==>
      !r.state.loading && r.state.user == s.user && r.state.listening == s.listening
    ensures s.user.Some? && update.Err? ==>
      r.state.profile == s.profile && r.out == Done(Some(update.error))
    ensures s.user.Some? && update.Ok? ==>
      r.out == Done(None) && r.state.profile == (if fetched.Ok? then Some(fetched.value) else s.profile)
    ensures Consistent(s) ==> Consistent(r.state)
  {
    if s.user.None? then Step(s, Skipped)
    else
      var busy := s.(loading := true);
      match update
      case Err(e) => Step(busy.(loading := false), Done(Some(e)))
      case Ok(_) => Step(FetchProfileStep(busy, fetched).(loading := false), Done(None))
  }

  /**
   * A profile is not tied to the user it was loaded for: when the user
   * changes and re-loading the profile fails, the previous user's profile
   * (and so its role) stays in the store.
   */
  lemma StaleProfileSurvivesUserChange(a: User, b: User, p: Profile, e: Failure)
    requires a != b && p.id == a.id
    ensures var s := AuthStateChangeStep(AuthState(Some(a), Some(p), false, true), Some(b), Err(e));
            s.user == Some(b) && s.profile == Some(p) && s.profile.value.id != b.id
  {
  }

  // ---------------------------------------------------------------------
  // The store object
  // ---------------------------------------------------------------------

  class AuthStore {
    var user: Option<User>
    var profile: Option<Profile>
    var loading: bool
    var listening: bool

    /** The store's fields as a value. */
    function State(): AuthState
      reads this
    {
      AuthState(user, profile, loading, listening)
    }

    constructor ()
      ensures State() == Initial
    {
      user := None;
      profile := None;
      loading := false;
      listening := false;
    }

    method FetchProfile(fetched: Response<Profile>)
      modifies this`profile
      ensures State() == FetchProfileStep(old(State()), fetched)
    {
      if user.None? {
        return;
      }
      if fetched.Ok? {
        profile := Some(fetched.value);
      }
    }

    method Initialize(session: SessionResult, fetched: Response<Profile>)
      modifies this
      ensures State() == InitializeStep(old(State()), session, fetched)
    {
      if session.SessionLoaded? {
        if session.session.Some? {
          user := session.session;
          FetchProfile(fetched);
        }
        listening := true;
      }
    }

    /** The registered callback; the client can only run it once `initialize` registered it. */
    method OnAuthStateChange(sessionUser: Option<User>, fetched: Response<Profile>)
      requires listening
      modifies this
      ensures State() == AuthStateChangeStep(old(State()), sessionUser, fetched)
    {
      user := sessionUser;
      if sessionUser.Some? {
        FetchProfile(fetched);
      } else {
        profile := None;
      }
    }

    method SignIn(auth: Response<User>, fetched: Response<Profile>) returns (reply: Reply<User>)
      modifies this
      ensures State() == SignInStep(old(State()), auth, fetched).state
      ensures reply == SignInStep(old(State()), auth, fetched).out
    {
      loading := true;
      if auth.Err? {
        reply := Reply(None, Some(auth.error));
      } else {
        user := Some(auth.value);
        FetchProfile(fetched);
        reply := Reply(Some(auth.value), None);
      }
      loading := false;
    }

    method SignUp(email: string, fullName: string, role: UserRole, studentId: Option<string>,
                  auth: Response<Option<User>>, insert: Response<()>)
      returns (reply: Reply<User>, inserted: Option<NewProfile>)
      modifies this`loading
      ensures State() == SignUpStep(old(State()), email, fullName, role, studentId, auth, insert).state
      ensures SignUpResult(reply, inserted) == SignUpStep(old(State()), email, fullName, role, studentId, auth, insert).out
    {
      loading := true;
      inserted := None;
      if auth.Err? {
        reply := Reply(None, Some(auth.error));
      } else if auth.value.None? {
        reply := Reply(None, Some(RegistrationFailed));
      } else {
        var u := auth.value.value;
        inserted := Some(NewProfile(u.id, email, fullName, role, studentId));
        if insert.Err? {
          reply := Reply(None, Some(insert.error));
        } else {
          reply := Reply(Some(u), None);
        }
      }
      loading := false;
    }

    method SignOut(outcome: Response<()>)
      modifies this
      ensures State() == SignOutStep(old(State()), outcome)
    {
      loading := true;
      if outcome.Ok? {
        user := None;
        profile := None;
      }
      loading := false;
    }

    method UpdateProfile(update: Response<()>, fetched: Response<Profile>) returns (reply: UpdateReply)
      modifies this
      ensures State() == UpdateProfileStep(old(State()), update, fetched).state
      ensures reply == UpdateProfileStep(old(State()), update, fetched).out
    {
      if user.None? {
        return Skipped;
      }
      loading := true;
      if update.Err? {
        reply := Done(Some(update.error));
      } else {
        FetchProfile(fetched);
        reply := Done(None);
      }
      loading := false;
    }
  }
}
