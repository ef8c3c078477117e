# Route guard and auth store of a two-role school front-end

This project models, in Dafny, the two pieces of logic of a Vue/Supabase
school-management front-end that have control flow of their own:

- **The route table and the global navigation guard** (`src/router/index.ts`).
  The table is a tree of records. Each record carries `meta` (`requiresAuth`,
  `role`) and children inherit it. The guard runs before every navigation. On
  its first run it awaits the auth store's `initialize`, guarded by the
  module-level `authInitialized` flag. It then decides, first match wins,
  whether the navigation proceeds (`next()`) or is redirected to `/login`,
  `/student` or `/teacher`. The `/` record redirects by role.
- **The auth store** (`src/stores/auth.ts`). It holds `user`, `profile` and
  `loading`, and derives `isAuthenticated`, `userRole`, `isStudent` and
  `isTeacher` from them. Its actions are `initialize`, `fetchProfile`, `signIn`,
  `signUp`, `signOut`, `updateProfile`, and the auth-state-change callback that
  `initialize` registers.

Files:

- `Wrappers.dfy`: `Option` and `Outcome` (the result of one remote call).
- `Types.dfy`: `UserRole`, `User` and `Profile` from `src/types/index.ts`.
- `Auth.dfy`: each store action as a function on an `AuthState` value, and
  the derived flags (`IsAuthenticated`, `RoleOf`, `IsStudent`, `IsTeacher`).
  The function's `ensures` state what the action promises, including the
  invariant "no profile without a user" (`Consistent`). The class `AuthStore`
  has the three fields plus `listening`. Its methods assign those fields step
  by step, as the source does, and each is proved to reach exactly the state
  its function gives.
- `Routes.dfy`: the route table as nested records, flattened the way the
  matcher sees it, with `meta` merged from parent to child. Also the
  first-match lookup `FindRoute`, `MetaOf` (the `to.meta` a navigation
  carries), the redirect records (`Follow` takes one redirect, `Landing`
  two), the `/` redirect `RootRedirect`, and lemmas about the concrete table.
- `Guard.dfy`: the decision rule `Decide`, a reference predicate `Admits`
  that states the same rule without order, the lemmas for each branch,
  convergence (no redirect loops), and the class `NavigationGuard` with the
  `authInitialized` flag.

Each remote call is a parameter that gives its outcome:

| remote call | parameter |
|---|---|
| `getSession` | `SessionResult`: it threw, or it gave a session (possibly absent) |
| `signInWithPassword` | `Response<User>` |
| `auth.signUp` | `Response<Option<User>>` |
| `profiles` insert, update and `auth.signOut` | `Response<()>` |
| `profiles` select | `Response<Profile>` |

Three behaviours of the code that are easy to misread, and that the model
keeps as written:

- `initialize`, `fetchProfile` and the callback never touch `loading`;
  `updateProfile` doesn't either when it returns early without a user.
- `signOut` clears local state only when the remote sign-out succeeds.
- A signed-in user without a role is let through to `/login`.

## Model

| member | source | states |
|---|---|---|
| `Auth.RoleFlags` | src/stores/auth.ts:12-15 | `isAuthenticated` holds exactly when there is a user. `isStudent` and `isTeacher` are never both true. One of them holds exactly when a profile is loaded, and which one follows the profile's role. |
| `Auth.FetchProfileStep` | src/stores/auth.ts:41-56 | Without a user, or on a remote error, nothing changes. Otherwise the profile becomes the fetched row. `user`, `loading` and `listening` never change. Keeps `Consistent`. |
| `Auth.InitializeStep` | src/stores/auth.ts:18-38 | A throwing `getSession` changes nothing and registers no callback. No session: only the callback is registered. A session: the user is set, the profile is fetched (kept on error), and the callback is registered. `loading` is untouched. Keeps `Consistent`. |
| `Auth.AuthStateChangeStep` | src/stores/auth.ts:27-34 | `user` becomes the session's user or absent. No user clears the profile. A user re-fetches the profile, which is kept on error. `loading` is untouched. Keeps `Consistent`. |
| `Auth.SignInStep` | src/stores/auth.ts:59-80 | Always ends with `loading == false`. On error, user and profile are unchanged and the reply is `{data: null, error}`. On success, the user is the returned user, the profile is the fetched row (kept on fetch error), and the reply is `{data, error: null}`. Keeps `Consistent`. |
| `Auth.SignUpStep` | src/stores/auth.ts:83-123 | The only state change is `loading == false`: user and profile are never touched. The reply has no error exactly when the auth step returned a user and the insert succeeded. `data` is present exactly when there is no error. Each failure carries its own error: the auth error, "registration failed" for a missing user, or the insert error. The insert is attempted exactly when a user was returned, with that user's id and the given email, name, role and student id. `inserted` is the row sent to the insert, whether or not the insert succeeded. |
| `Auth.SignOutStep` | src/stores/auth.ts:126-140 | Always ends with `loading == false`. On success, user and profile are both absent. On error, both are unchanged. Keeps `Consistent`. |
| `Auth.UpdateProfileStep` | src/stores/auth.ts:143-164 | Without a user it returns nothing and changes nothing, not even `loading`. Otherwise it ends with `loading == false` and the user unchanged. On error the profile is unchanged and `{error}` is returned. On success `{error: null}` is returned and the profile is the re-fetched row (kept on fetch error). |
| `Auth.StaleProfileSurvivesUserChange` | src/stores/auth.ts:27-34 | When the session switches to another user and re-fetching fails, the previous user's profile stays in the store. |
| `Auth.AuthStore.constructor` | src/stores/auth.ts:8-10 | A fresh store has no user, no profile, `loading == false`, and no callback registered. |
| `Auth.AuthStore.FetchProfile` | src/stores/auth.ts:41-56 | Modifies only `profile`, and reaches exactly `FetchProfileStep` of the old state. |
| `Auth.AuthStore.Initialize` | src/stores/auth.ts:18-38 | The new state is exactly `InitializeStep` of the old state. |
| `Auth.AuthStore.OnAuthStateChange` | src/stores/auth.ts:27-34 | Runs only once the callback is registered. The new state is exactly `AuthStateChangeStep` of the old state. |
| `Auth.AuthStore.SignIn` | src/stores/auth.ts:59-80 | The new state and the reply are exactly those of `SignInStep`. |
| `Auth.AuthStore.SignUp` | src/stores/auth.ts:83-123 | Modifies only `loading`. The reply and the inserted row are exactly those of `SignUpStep`. |
| `Auth.AuthStore.SignOut` | src/stores/auth.ts:126-140 | The new state is exactly `SignOutStep` of the old state. |
| `Auth.AuthStore.UpdateProfile` | src/stores/auth.ts:143-164 | The new state and the reply are exactly those of `UpdateProfileStep`. |
| `Routes.Merge` | src/router/index.ts:18-58 | A child without `meta` takes its parent's, and a parent without `meta` passes on its child's unchanged. |
| `Routes.MergeLaws` | src/router/index.ts:18-58 | Merging is associative, so a nested chain of any depth merges to the same `meta` however it is grouped. Merging the same child twice is the same as merging it once. |
| `Routes.FindRoute` | src/router/index.ts:5-129 | Returns the index of the first entry whose pattern matches the path, or nothing exactly when no entry matches. |
| `Routes.Resolves` | src/router/index.ts:5-129 | A path resolves to the first matching entry of the first record that can match it. Earlier records whose path is not a prefix of it cannot match it. |
| `Routes.LoginRoute` | src/router/index.ts:6-11 | `/login` has `requiresAuth: false`, no role, and is a view, not a redirect. |
| `Routes.StudentHomeRoute` | src/router/index.ts:18-26 | `/student` has the student meta, and its empty child redirects it to `/student/dashboard`. |
| `Routes.StudentDashboardRoute` | src/router/index.ts:27-31 | `/student/dashboard` inherits the student meta and is a view. |
| `Routes.TeacherHomeRoute` | src/router/index.ts:59-67 | `/teacher` has the teacher meta, and its empty child redirects it to `/teacher/students`. |
| `Routes.TeacherStudentsRoute` | src/router/index.ts:68-72 | `/teacher/students` inherits the teacher meta and is a view. |
| `Routes.HomeLandings` | src/router/index.ts:18-72 | `/login`, `/student` and `/teacher` land on `/login`, `/student/dashboard` and `/teacher/students`. Each landing page has the same meta as its area, and none of them redirects again. |
| `Routes.RootRoute` | src/router/index.ts:115-123 | `/` has no meta, and its redirect is the role function. |
| `Routes.RootLanding` | src/router/index.ts:115-123 | `/` lands on the student dashboard for a student, the student list for a teacher, and `/login` otherwise. |
| `Routes.FlattenKeepsRoleImpliesAuth` | src/router/index.ts:18-114 | If no child declares its own meta and every record with a role requires auth, then every matcher entry with a role requires auth. |
| `Routes.MetaOfRoleImpliesAuth` | src/router/index.ts:5-129 | Any path's meta from this table has a role only if it requires auth. |
| `Routes.ChildrenInheritMeta` | src/router/index.ts:18-114 | Every child route is matched with its parent's meta, which has a role and `requiresAuth: true`. |
| `Routes.AreasMiss` | src/router/index.ts:5-114 | A path that starts with none of `/login`, `/register`, `/student` and `/teacher` matches no entry of those four records, since none of their children is a catch-all. |
| `Routes.UnknownPathRequiresAuth` | src/router/index.ts:124-128 | A path outside `/login`, `/register`, `/student` and `/teacher`, other than `/`, falls to the catch-all. It has no meta, so it requires auth, and it does not redirect. |
| `Guard.Decide` | src/router/index.ts:149-174 | The guard only redirects to `/login`, `/student` or `/teacher`. A redirect to a home requires a role. |
| `Guard.DecideAllowsExactlyAdmitted` | src/router/index.ts:149-174 | The guard allows a navigation exactly when all three hold: the user is signed in or the route is public; the user has the route's role, if it has one; and a signed-in user reaches `/login` only without a role. |
| `Guard.MissingMetaRequiresAuth` | src/router/index.ts:149-153 | Absent `requiresAuth` means auth is required, so a signed-out visitor is sent to `/login`. |
| `Guard.SignedOutGoesToLogin` | src/router/index.ts:152-153 | Signed out on a route that requires auth means `/login`, whatever the route's role. |
| `Guard.RoleMismatchGoesHome` | src/router/index.ts:154-162 | Past the first rule, a route of another role redirects a student to `/student`, a teacher to `/teacher`, and a user without a role to `/login`. That is the same target as the `/` redirect. |
| `Guard.SignedInLogin` | src/router/index.ts:163-171 | A signed-in user going to `/login` is redirected to the role's home. With no role, the navigation proceeds. |
| `Guard.RootRedirectByRole` | src/router/index.ts:117-122 | The `/` redirect maps a student to `/student`, a teacher to `/teacher`, and anyone else to `/login`. |
| `Guard.RedirectConverges` | src/router/index.ts:140-175 | No redirect loops. For a fixed auth state, the guard allows the path it redirects to, and also the page that path lands on, which does not redirect again. Holds when the target's meta ties a role to auth, or when a role implies a signed-in user. |
| `Guard.StoreRedirectConverges` | src/router/index.ts:149-174 | In every `Consistent` store state, for any target meta, the guard allows the path it redirects to and the page that path lands on. |
| `Guard.LandingPageAdmitted` | src/router/index.ts:152-174 | The student dashboard for a student, the student list for a teacher, and `/login` without a role are each allowed, given a user whenever there is a role. |
| `Guard.RootLandingAdmitted` | src/router/index.ts:117-122 | When a role implies a user, the guard allows the page `/` lands on. |
| `Guard.StoreRootLandingAdmitted` | src/router/index.ts:117-122 | In every `Consistent` store state, the guard allows the page `/` lands on. |
| `Guard.SignedInUserLeavesLogin` | src/router/index.ts:163-171 | After a sign-in that loaded the profile, `/login` redirects to the profile role's home. |
| `Guard.SignedOutReachesOnlyPublicRoutes` | src/router/index.ts:152-153 | After a successful sign-out, every route that requires auth redirects to `/login`. |
| `Guard.NavigationGuard.constructor` | src/router/index.ts:137 | The flag starts false, and `initialize` has not run. |
| `Guard.NavigationGuard.BeforeEach` | src/router/index.ts:140-175 | On the first run, the store reaches `InitializeStep` of its old state. On later runs the store is unchanged. The flag is always true afterwards, and `initialize` has run at most once. The decision is `Decide` on the store's flags as they are after initialisation. |

## Left out

- Vue Router's ranking of routes by path score: the model matches in
  declaration order, children before their parent. In this table the two
  orders agree. The catch-all matches everything but comes last and ranks
  lowest. `/student` and `/teacher` share their pattern with their own
  empty-path child, and Vue Router ranks a child ahead of an equal-scoring
  parent, which is the model's order.
- Vue Router's case-insensitive matching, optional trailing slash, query
  strings and hashes: paths match exactly. A parameter stands for one
  non-empty segment without `/`.
- Chains of more than two redirect records: `Landing` follows two, which is
  the longest chain in this table (`/` to `/student` to `/student/dashboard`).
- Lazy loading of view components: a view is named by its file path only.
- `ElMessage` notifications and `console.error` logging: user-facing and I/O
  effects with no effect on state.
- The credentials passed to `signIn` and the password passed to `signUp`:
  they reach only the remote call, whose outcome is a parameter.
- The changes passed to `updateProfile`: they reach only the remote update.
  Their effect comes back through the re-fetched row, which is a parameter.
- Async interleaving: an auth-state-change event arriving in the middle of
  another action, and guard runs that overlap. Each action and each guard
  run is one atomic step. In the code, `authInitialized` is set only after
  `await authStore.initialize()` returns (src/router/index.ts:144-147), so a
  navigation that starts while the first `initialize` is pending calls it
  again and registers a second auth-state-change callback
  (src/stores/auth.ts:27).
- Pinia and Vue reactivity: the store is a plain object, and the computed
  flags are functions of its fields.
- Repeated registration of the auth-state-change callback: `listening` is a
  flag, not a count.
- Guard.NavigationGuard.BeforeEach: "`initialize` runs at most once" holds
  because each guard run is atomic in the model; overlapping runs (above)
  can call it twice.
- The guard's `_from` argument: the guard never reads it.
- The remaining types of `src/types/index.ts` (classes, courses, grades,
  assignments, exams, chat, retrieval): data declarations that these two
  files never use.
- Guard.RedirectConverges: stated for targets whose meta ties a role to
  auth, as every meta of this table does (`Routes.MetaOfRoleImpliesAuth`), or
  for states in which a role implies a signed-in user, as every state the
  store reaches does. Only a state with a role but no user, which
  `Consistent` excludes, on a public route with a role could need two
  redirects to settle.
- Routes.UnknownPathRequiresAuth: stated for paths that do not start with a
  declared top-level path. Paths such as `/student/unknown` also fall to the
  catch-all, but no lemma states that.
- The shape of the `data` that `signIn` and `signUp` return: the code
  returns the whole `{ user, session }` object (src/stores/auth.ts:69-73,
  116); `Reply` keeps only the user, since nothing in these two files reads
  the session.
- The first navigation to `/`: Vue Router calls the `/` record's redirect
  function while it resolves the target, before the guard awaits
  `initialize` (src/router/index.ts:117-122 against 144-147). That first
  navigation sees a store that is not yet initialised and goes to `/login`,
  and the guard then sends a signed-in user home. `Routes.RootLanding` and
  `Guard.StoreRootLandingAdmitted` describe later navigations, made once the
  store is initialised.
