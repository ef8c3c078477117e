/**
 * The global navigation guard of src/router/index.ts: on its first run it
 * waits for the auth store to initialise, and on every run it decides, from
 * the target route and the store's flags, whether the navigation proceeds or
 * is redirected.
 */
module Guard {
  import opened Wrappers
  import opened Types
  import opened Routes
  import opened Auth

  /** The navigation target as the guard sees it: its path and its `meta`. */
  datatype Target = Target(path: string, meta: RouteMeta)

  /** `next()` or `next(path)`. */
  datatype Decision = Allow | Redirect(to: string)

  /** The guard's rule, first match wins. */
  function Decide(to: Target, isAuthenticated: bool, userRole: Option<UserRole>): (d: Decision)
    ensures d.Redirect? ==> d.to in {LoginPath, StudentHome, TeacherHome}
    ensures d.Redirect? && d.to != LoginPath ==> userRole.Some?
  {
    var isStudent := userRole == Some(Student);
    var isTeacher := userRole == Some(Teacher);
    if RequiresAuth(to.meta) && !isAuthenticated then
      Redirect(LoginPath)
    else if to.meta.role.Some? && userRole != to.meta.role then
      if isStudent then Redirect(StudentHome)
      else if isTeacher then Redirect(TeacherHome)
      else Redirect(LoginPath)
    else if to.path == LoginPath && isAuthenticated then
      if isStudent then Redirect(StudentHome)
      else if isTeacher then Redirect(TeacherHome)
      else Allow
    else
      Allow
  }

  /**
   * When a navigation may proceed, stated without the rule's order: the
   * user is signed in or the route is public, the user holds the route's
   * role if it has one, and a signed-in user reaches `/login` only without
   * a role.
   */
  predicate Admits(to: Target, isAuthenticated: bool, userRole: Option<UserRole>) {
    && (isAuthenticated || !RequiresAuth(to.meta))
    && (to.meta.role.None? || to.meta.role == userRole)
    && (to.path == LoginPath && isAuthenticated ==> userRole.None?)
  }

  lemma DecideAllowsExactlyAdmitted(to: Target, isAuthenticated: bool, userRole: Option<UserRole>)
    ensures Decide(to, isAuthenticated, userRole) == Allow <==> Admits(to, isAuthenticated, userRole)
  {
    match userRole
    case None =>
    case Some(Student) =>
    case Some(Teacher) =>
  }

  /** A route without `meta` requires auth, so a signed-out visitor is sent to `/login`. */
  lemma MissingMetaRequiresAuth(path: string, userRole: Option<UserRole>)
    ensures RequiresAuth(NoMeta)
    ensures Decide(Target(path, NoMeta), false, userRole) == Redirect(LoginPath)
  {
  }

  /** Signed out and the route requires auth: `/login`, whatever role the route carries. */
  lemma SignedOutGoesToLogin(to: Target, userRole: Option<UserRole>)
    requires RequiresAuth(to.meta)
    ensures Decide(to, false, userRole) == Redirect(LoginPath)
  {
  }

  /**
   * Past the first rule, a route of another role sends the user to where
   * `/` would: the student or teacher home, or `/login` without a role.
   */
  lemma RoleMismatchGoesHome(to: Target, isAuthenticated: bool, userRole: Option<UserRole>)
    requires isAuthenticated || !RequiresAuth(to.meta)
    requires to.meta.role.Some? && userRole != to.meta.role
    ensures Decide(to, isAuthenticated, userRole) ==
      Redirect(RootRedirect(userRole == Some(Student), userRole == Some(Teacher)))
    ensures userRole == Some(Student) ==> Decide(to, isAuthenticated, userRole) == Redirect(StudentHome)
    ensures userRole == Some(Teacher) ==> Decide(to, isAuthenticated, userRole) == Redirect(TeacherHome)
    ensures userRole.None? ==> Decide(to, isAuthenticated, userRole) == Redirect(LoginPath)
  {
  }

  /** A signed-in user going to `/login` is sent home; without a role the navigation proceeds. */
  lemma SignedInLogin(to: Target, userRole: Option<UserRole>)
    requires to.path == LoginPath && (to.meta.role.None? || to.meta.role == userRole)
    ensures userRole.Some? ==>
      Decide(to, true, userRole) == Redirect(RootRedirect(userRole == Some(Student), userRole == Some(Teacher)))
    ensures userRole.None? ==> Decide(to, true, userRole) == Allow
  {
    match userRole
    case None =>
    case Some(Student) =>
    case Some(Teacher) =>
  }

  /** The `/` redirect sends a student and a teacher home and anyone else to `/login`. */
  lemma RootRedirectByRole(userRole: Option<UserRole>)
    ensures var p := RootRedirect(userRole == Some(Student), userRole == Some(Teacher));
      && (userRole == Some(Student) ==> p == StudentHome)
      && (userRole == Some(Teacher) ==> p == TeacherHome)
      && (userRole.None? ==> p == LoginPath)
  {
  }

  /**
   * No redirect loops: for a fixed auth state, the path the guard redirects
   * to is admitted when the guard runs on it, both at that path and where
   * the table's own redirect lands it (which is a view, not a further
   * redirect). Either the target's meta is one the table can give (a route
   * with a role requires auth), or the state is one the store reaches (a
   * role implies a signed-in user).
   */
  lemma RedirectConverges(to: Target, isAuthenticated: bool, userRole: Option<UserRole>)
    requires RoleImpliesAuth(to.meta) || (userRole.Some? ==> isAuthenticated)
    requires Decide(to, isAuthenticated, userRole).Redirect?
    ensures var p := Decide(to, isAuthenticated, userRole).to;
            var isStudent, isTeacher := userRole == Some(Student), userRole == Some(Teacher);
            var q := Landing(p, isStudent, isTeacher);
      && Decide(Target(p, MetaOf(p)), isAuthenticated, userRole) == Allow
      && Decide(Target(q, MetaOf(q)), isAuthenticated, userRole) == Allow
      && Follow(q, isStudent, isTeacher) == q
  {
    var p := Decide(to, isAuthenticated, userRole).to;
    var isStudent, isTeacher := userRole == Some(Student), userRole == Some(Teacher);
    if p == LoginPath {
      LoginRoute(isStudent, isTeacher);
    } else if p == StudentHome {
      StudentHomeRoute(isStudent, isTeacher);
      StudentDashboardRoute(isStudent, isTeacher);
    } else {
      TeacherHomeRoute(isStudent, isTeacher);
      TeacherStudentsRoute(isStudent, isTeacher);
    }
  }

  /** In every state the store's actions reach, one redirect of the guard settles, whatever the target's meta. */
  lemma StoreRedirectConverges(s: AuthState, to: Target)
    requires Consistent(s)
    requires Decide(to, IsAuthenticated(s), RoleOf(s)).Redirect?
    ensures var p := Decide(to, IsAuthenticated(s), RoleOf(s)).to;
            var q := Landing(p, IsStudent(s), IsTeacher(s));
      && Decide(Target(p, MetaOf(p)), IsAuthenticated(s), RoleOf(s)) == Allow
      && Decide(Target(q, MetaOf(q)), IsAuthenticated(s), RoleOf(s)) == Allow
  {
    RedirectConverges(to, IsAuthenticated(s), RoleOf(s));
  }

  /** The page each role lands on, and `/login` without a role, is admitted. */
  lemma LandingPageAdmitted(q: string, isAuthenticated: bool, userRole: Option<UserRole>)
    requires userRole.Some? ==> isAuthenticated
    requires q == if userRole == Some(Student) then StudentDashboard
                  else if userRole == Some(Teacher) then TeacherStudents
                  else LoginPath
    ensures Decide(Target(q, MetaOf(q)), isAuthenticated, userRole) == Allow
  {
    var isStudent, isTeacher := userRole == Some(Student), userRole == Some(Teacher);
    if isStudent {
      StudentDashboardRoute(isStudent, isTeacher);
    } else if isTeacher {
      TeacherStudentsRoute(isStudent, isTeacher);
    } else {
      LoginRoute(isStudent, isTeacher);
    }
  }

  /**
   * When a role implies a user (as in every state the store reaches), the
   * page `/` lands on is admitted by the guard.
   */
  lemma RootLandingAdmitted(isAuthenticated: bool, userRole: Option<UserRole>)
    requires userRole.Some? ==> isAuthenticated
    ensures var isStudent, isTeacher := userRole == Some(Student), userRole == Some(Teacher);
            var q := Landing(RootPath, isStudent, isTeacher);
      Decide(Target(q, MetaOf(q)), isAuthenticated, userRole) == Allow
  {
    RootLanding(userRole == Some(Student), userRole == Some(Teacher));
    LandingPageAdmitted(Landing(RootPath, userRole == Some(Student), userRole == Some(Teacher)), isAuthenticated, userRole);
  }

  /** Every state the store's actions reach sends `/` to a page the guard admits. */
  lemma StoreRootLandingAdmitted(s: AuthState)
    requires Consistent(s)
    ensures var q := Landing(RootPath, IsStudent(s), IsTeacher(s));
      Decide(Target(q, MetaOf(q)), IsAuthenticated(s), RoleOf(s)) == Allow
  {
    RootLandingAdmitted(IsAuthenticated(s), RoleOf(s));
  }

  /** After a successful sign-in that loaded the profile, `/login` sends the user to the role's home. */
  lemma SignedInUserLeavesLogin(s: AuthState, u: User, p: Profile)
    ensures var t := SignInStep(s, Ok(u), Ok(p)).state;
      Decide(Target(LoginPath, MetaOf(LoginPath)), IsAuthenticated(t), RoleOf(t)) ==
        Redirect(if p.role == Student then StudentHome else TeacherHome)
  {
    LoginRoute(p.role == Student, p.role == Teacher);
  }

  /** After a successful sign-out, every route that requires auth sends the user to `/login`. */
  lemma SignedOutReachesOnlyPublicRoutes(s: AuthState, path: string)
    requires RequiresAuth(MetaOf(path))
    ensures var t := SignOutStep(s, Ok(()));
      Decide(Target(path, MetaOf(path)), IsAuthenticated(t), RoleOf(t)) == Redirect(LoginPath)
  {
  }

  /** The guard itself, with the module-level `authInitialized` flag. */
  class NavigationGuard {
    const store: AuthStore
    var authInitialized: bool
    /** How many times the guard has run `initialize`. */
    ghost var initializeCalls: nat

    ghost predicate Valid()
      reads this
    {
      initializeCalls == if authInitialized then 1 else 0
    }

    constructor (store: AuthStore)
      ensures this.store == store && !authInitialized && Valid()
    {
      this.store := store;
      authInitialized := false;
      initializeCalls := 0;
    }

    /**
     * `beforeEach`: the outcomes of `initialize`'s remote calls are used on
     * the first run only. `initialize` catches its own errors, so the flag
     * is always set afterwards and `initialize` runs at most once.
     */
    method BeforeEach(to: Target, session: SessionResult, fetched: Response<Profile>) returns (d: Decision)
      requires Valid()
      modifies this, store
      ensures Valid() && authInitialized && initializeCalls <= 1
      ensures old(authInitialized) ==> store.State() == old(store.State()) && initializeCalls == old(initializeCalls)
      ensures !old(authInitialized) ==> store.State() == InitializeStep(old(store.State()), session, fetched)
      ensures d == Decide(to, IsAuthenticated(store.State()), RoleOf(store.State()))
    {
      if !authInitialized {
        store.Initialize(session, fetched);
        authInitialized := true;
        initializeCalls := initializeCalls + 1;
      }
      d := Decide(to, IsAuthenticated(store.State()), RoleOf(store.State()));
    }
  }
}
