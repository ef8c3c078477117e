/**
 * The static route table of src/router/index.ts and how a path is resolved
 * against it: which record matches, what `meta` the navigation carries
 * (a child inherits its parent's), and where a redirect record sends it.
 */
module Routes {
  import opened Wrappers
  import opened Types

  /** A record's `meta`: `requiresAuth` and `role`, either of which may be absent. */
  datatype RouteMeta = RouteMeta(requiresAuth: Option<bool>, role: Option<UserRole>)

  const NoMeta := RouteMeta(None, None)

  /** Auth is required unless `meta.requiresAuth` is exactly `false`. */
  predicate RequiresAuth(meta: RouteMeta) {
    meta.requiresAuth != Some(false)
  }

  /**
   * A path pattern: a fixed path, a fixed prefix followed by one parameter
   * segment (`students/:id`), or the catch-all `/:pathMatch(.*)*`.
   */
  datatype Pattern = Static(path: string) | Param(prefix: string, name: string) | CatchAll

  /** What a matched record does: render a view, redirect to a path, or redirect by role (`/`). */
  datatype Action = View(component: string) | RedirectTo(path: string) | RedirectByRole

  /** A nested record; its path is relative to its parent's. */
  datatype ChildRoute = ChildRoute(path: Pattern, action: Action, meta: RouteMeta)

  /** A top-level record of the table. */
  datatype RouteRecord = RouteRecord(path: Pattern, action: Action, meta: RouteMeta, children: seq<ChildRoute>)

  /** A record as the matcher sees it: full pattern and the merged `meta` of its matched chain. */
  datatype Entry = Entry(pattern: Pattern, action: Action, meta: RouteMeta)

  const RootPath := "/"
  const LoginPath := "/login"
  const StudentHome := "/student"
  const TeacherHome := "/teacher"
  /** `/student/dashboard` and `/teacher/students`, spelt as the nesting joins them. */
  const StudentDashboard := StudentHome + "/" + "dashboard"
  const TeacherStudents := TeacherHome + "/" + "students"

  const StudentMeta := RouteMeta(Some(true), Some(Student))
  const TeacherMeta := RouteMeta(Some(true), Some(Teacher))
  const PublicMeta := RouteMeta(Some(false), None)

  const LoginRecord := RouteRecord(Static(LoginPath), View("views/auth/Login.vue"), PublicMeta, [])
  const RegisterRecord := RouteRecord(Static("/register"), View("views/auth/Register.vue"), PublicMeta, [])

  const StudentRecord := RouteRecord(Static(StudentHome), View("layouts/StudentLayout.vue"), StudentMeta, [
    ChildRoute(Static(""), RedirectTo(StudentDashboard), NoMeta),
    ChildRoute(Static("dashboard"), View("views/student/Dashboard.vue"), NoMeta),
    ChildRoute(Static("chat"), View("views/student/Chat.vue"), NoMeta),
    ChildRoute(Static("grades"), View("views/student/Grades.vue"), NoMeta),
    ChildRoute(Static("assignments"), View("views/student/Assignments.vue"), NoMeta),
    ChildRoute(Static("exams"), View("views/student/Exams.vue"), NoMeta),
    ChildRoute(Static("profile"), View("views/student/Profile.vue"), NoMeta)
  ])

  const TeacherRecord := RouteRecord(Static(TeacherHome), View("layouts/TeacherLayout.vue"), TeacherMeta, [
    ChildRoute(Static(""), RedirectTo(TeacherStudents), NoMeta),
    ChildRoute(Static("students"), View("views/teacher/Students.vue"), NoMeta),
    ChildRoute(Param("students/", "id"), View("views/teacher/StudentDetail.vue"), NoMeta),
    ChildRoute(Static("courses"), View("views/teacher/Courses.vue"), NoMeta),
    ChildRoute(Static("classes"), View("views/teacher/Classes.vue"), NoMeta),
    ChildRoute(Static("assignments"), View("views/teacher/Assignments.vue"), NoMeta),
    ChildRoute(Static("grades"), View("views/teacher/Grades.vue"), NoMeta),
    ChildRoute(Static("exams"), View("views/teacher/Exams.vue"), NoMeta),
    ChildRoute(Static("knowledge"), View("views/teacher/Knowledge.vue"), NoMeta),
    ChildRoute(Static("profile"), View("views/teacher/Profile.vue"), NoMeta)
  ])

  const RootRecord := RouteRecord(Static(RootPath), RedirectByRole, NoMeta, [])
  const NotFoundRecord := RouteRecord(CatchAll, View("views/NotFound.vue"), NoMeta, [])

  /** The route table, in declaration order. */
  const Table: seq<RouteRecord> :=
    [LoginRecord, RegisterRecord, StudentRecord, TeacherRecord, RootRecord, NotFoundRecord]

  /** The `redirect` function of the `/` record. */
  function RootRedirect(isStudent: bool, isTeacher: bool): string {
    if isStudent then StudentHome
    else if isTeacher then TeacherHome
    else LoginPath
  }

  /** The `meta` of a matched chain: the child's keys override the parent's. */
  function Merge(parent: RouteMeta, child: RouteMeta): (m: RouteMeta)
    ensures child == NoMeta ==> m == parent
    ensures parent == NoMeta ==> m == child
  {
    RouteMeta(if child.requiresAuth.Some? then child.requiresAuth else parent.requiresAuth,
              if child.role.Some? then child.role else parent.role)
  }

  /**
   * Merging is associative, so a chain of nested records of any depth merges
   * to the same `meta` however it is grouped; merging the same child twice
   * is merging it once.
   */
  lemma MergeLaws(a: RouteMeta, b: RouteMeta, c: RouteMeta)
    ensures Merge(Merge(a, b), c) == Merge(a, Merge(b, c))
    ensures Merge(Merge(a, b), b) == Merge(a, b)
  {
  }

  /** The textual form of a pattern, as written in the table. */
  function Text(p: Pattern): string {
    match p
    case Static(s) => s
    case Param(prefix, name) => prefix + ":" + name
    case CatchAll => "/:pathMatch(.*)*"
  }

  /** A child's full pattern under its parent's path. */
  function Join(parent: string, child: Pattern): Pattern {
    match child
    case Static(s) => Static(if s == "" then parent else parent + "/" + s)
    case Param(prefix, name) => Param(parent + "/" + prefix, name)
    case CatchAll => CatchAll
  }

  /** Does `path` match the pattern? A parameter stands for one non-empty segment. */
  predicate Matches(p: Pattern, path: string) {
    match p
    case Static(s) => s == path
    case Param(prefix, _) => |prefix| < |path| && path[..|prefix|] == prefix && '/' !in path[|prefix|..]
    case CatchAll => true
  }

  function ChildEntry(r: RouteRecord, c: ChildRoute): Entry {
    Entry(Join(Text(r.path), c.path), c.action, Merge(r.meta, c.meta))
  }

  function OwnEntry(r: RouteRecord): Entry {
    Entry(r.path, r.action, r.meta)
  }

  function ChildEntries(r: RouteRecord, children: seq<ChildRoute>): (es: seq<Entry>)
    ensures |es| == |children|
    ensures forall j :: 0 <= j < |children| ==> es[j] == ChildEntry(r, children[j])
  {
    if children == [] then [] else [ChildEntry(r, children[0])] + ChildEntries(r, children[1..])
  }

  /** The matcher's list: each record's children, then the record itself, record by record. */
  function Flatten(records: seq<RouteRecord>): seq<Entry> {
    if records == [] then []
    else ChildEntries(records[0], records[0].children) + [OwnEntry(records[0])] + Flatten(records[1..])
  }

  function Entries(): seq<Entry> {
    Flatten(Table)
  }

  /** The index of the first entry whose pattern matches `path`. */
  function FindRoute(entries: seq<Entry>, path: string): (r: Option<nat>)
    ensures r.Some? ==> r.value < |entries| && Matches(entries[r.value].pattern, path)
    ensures r.Some? ==> forall j :: 0 <= j < r.value ==> !Matches(entries[j].pattern, path)
    ensures r.None? ==> forall j :: 0 <= j < |entries| ==> !Matches(entries[j].pattern, path)
  {
    if entries == [] then None
    else if Matches(entries[0].pattern, path) then Some(0)
    else match FindRoute(entries[1..], path)
      case Some(k) => Some(k + 1)
      case None => None
  }

  /** The `meta` a navigation to `path` carries (`to.meta`). */
  function MetaOf(path: string): RouteMeta {
    match FindRoute(Entries(), path)
    case Some(i) => Entries()[i].meta
    case None => NoMeta
  }

  /** Where one redirect record sends `path`; a view leaves it where it is. */
  function Follow(path: string, isStudent: bool, isTeacher: bool): string {
    match FindRoute(Entries(), path)
    case Some(i) => Destination(Entries()[i].action, path, isStudent, isTeacher)
    case None => path
  }

  /** Where the matched record's action sends `path`. */
  function Destination(a: Action, path: string, isStudent: bool, isTeacher: bool): string {
    match a
    case RedirectTo(q) => q
    case RedirectByRole => RootRedirect(isStudent, isTeacher)
    case View(_) => path
  }

  /** The path a navigation lands on after the table's redirects (at most two in this table). */
  function Landing(path: string, isStudent: bool, isTeacher: bool): string {
    Follow(Follow(path, isStudent, isTeacher), isStudent, isTeacher)
  }

  // ---------------------------------------------------------------------
  // Lemmas about lookup in the table
  // ---------------------------------------------------------------------

  lemma {:induction false} FlattenAppend(a: seq<RouteRecord>, b: seq<RouteRecord>)
    ensures Flatten(a + b) == Flatten(a) + Flatten(b)
  {
    if a == [] {
      assert a + b == b;
    } else {
      assert (a + b)[1..] == a[1..] + b;
      FlattenAppend(a[1..], b);
    }
  }

  /** Strings that differ at some position are not prefixes of each other. */
  lemma DiffersAt(a: string, b: string, i: nat)
    requires i < |a| && i < |b| && a[i] != b[i]
    ensures !(a <= b)
  {
  }

  /** `FindRoute` returns the least matching index. */
  lemma FirstMatch(entries: seq<Entry>, path: string, i: nat)
    requires i < |entries| && Matches(entries[i].pattern, path)
    requires forall j :: 0 <= j < i ==> !Matches(entries[j].pattern, path)
    ensures FindRoute(entries, path) == Some(i)
  {
  }

  /** A child entry matches only paths that start with its parent's path. */
  lemma ChildMatchUnderParent(r: RouteRecord, c: ChildRoute, path: string)
    requires r.path.Static? && !c.path.CatchAll?
    requires Matches(ChildEntry(r, c).pattern, path)
    ensures r.path.path <= path
  {
    var parent := r.path.path;
    match c.path
    case Static(s) =>
      if s != "" {
        assert (parent + "/" + s)[..|parent|] == parent;
      }
    case Param(prefix, _) =>
      var q := parent + "/" + prefix;
      assert q[..|parent|] == parent;
      assert path[..|q|] == q;
      assert path[..|parent|] == q[..|parent|];
  }

  /**
   * A record that cannot match `path`: either its path is fixed and not a
   * prefix of `path` (and none of its children is a catch-all), or it has no
   * children and its own pattern does not match.
   */
  predicate Misses(r: RouteRecord, path: string) {
    || (r.path.Static? && !(r.path.path <= path) && forall c :: c in r.children ==> !c.path.CatchAll?)
    || (r.children == [] && !Matches(r.path, path))
  }

  /** Records that miss `path` contribute no entry that matches it. */
  lemma {:induction false} NoMatchOutsideRecords(rs: seq<RouteRecord>, path: string)
    requires forall k :: 0 <= k < |rs| ==> Misses(rs[k], path)
    ensures forall j :: 0 <= j < |Flatten(rs)| ==> !Matches(Flatten(rs)[j].pattern, path)
  {
    if rs != [] {
      var r := rs[0];
      var cs := ChildEntries(r, r.children);
      forall j | 0 <= j < |cs| ensures !Matches(cs[j].pattern, path) {
        if Matches(cs[j].pattern, path) {
          assert r.children[j] in r.children;
          ChildMatchUnderParent(r, r.children[j], path);
        }
      }
      NoMatchOutsideRecords(rs[1..], path);
      var f := Flatten(rs);
      assert f == cs + [OwnEntry(r)] + Flatten(rs[1..]);
      forall j | 0 <= j < |f| ensures !Matches(f[j].pattern, path) {
        if j < |cs| {
          assert f[j] == cs[j];
        } else if j == |cs| {
          assert f[j] == OwnEntry(r);
        } else {
          assert f[j] == Flatten(rs[1..])[j - |cs| - 1];
        }
      }
    }
  }

  /** The `j`-th entry that record `rs[k]` contributes: its children, then itself. */
  function EntryAt(rs: seq<RouteRecord>, k: nat, j: nat): Entry
    requires k < |rs| && j <= |rs[k].children|
  {
    if j < |rs[k].children| then ChildEntry(rs[k], rs[k].children[j]) else OwnEntry(rs[k])
  }

  /**
   * A path that starts with none of the paths of the records before `rs[k]`,
   * and that the `j`-th entry of `rs[k]` is the first of that record's
   * entries to match, resolves to that entry.
   */
  lemma Resolves(rs: seq<RouteRecord>, k: nat, j: nat, path: string) returns (i: nat)
    requires k < |rs| && j <= |rs[k].children|
    requires forall r :: 0 <= r < k ==> Misses(rs[r], path)
    requires forall c :: 0 <= c < j ==> !Matches(EntryAt(rs, k, c).pattern, path)
    requires Matches(EntryAt(rs, k, j).pattern, path)
    ensures i < |Flatten(rs)| && Flatten(rs)[i] == EntryAt(rs, k, j)
    ensures FindRoute(Flatten(rs), path) == Some(i)
  {
    assert rs == rs[..k] + rs[k..];
    FlattenAppend(rs[..k], rs[k..]);
    var before := Flatten(rs[..k]);
    NoMatchOutsideRecords(rs[..k], path);
    var own := ChildEntries(rs[k], rs[k].children);
    assert Flatten(rs[k..]) == own + [OwnEntry(rs[k])] + Flatten(rs[k + 1..]);
    var all := Flatten(rs);
    i := |before| + j;
    forall c | 0 <= c < i ensures !Matches(all[c].pattern, path) {
      if c < |before| {
        assert all[c] == before[c];
      } else {
        assert all[c] == own[c - |before|] == EntryAt(rs, k, c - |before|);
      }
    }
    assert all[i] == EntryAt(rs, k, j);
    FirstMatch(all, path, i);
  }

  /** `Resolves` for this table, read off as the navigation's meta and redirect. */
  lemma ResolvesInTable(k: nat, j: nat, path: string)
    requires k < |Table| && j <= |Table[k].children|
    requires forall r :: 0 <= r < k ==> Misses(Table[r], path)
    requires forall c :: 0 <= c < j ==> !Matches(EntryAt(Table, k, c).pattern, path)
    requires Matches(EntryAt(Table, k, j).pattern, path)
    ensures MetaOf(path) == EntryAt(Table, k, j).meta
    ensures forall s, t :: Follow(path, s, t) == Destination(EntryAt(Table, k, j).action, path, s, t)
  {
    var i := Resolves(Table, k, j, path);
  }

  // ---------------------------------------------------------------------
  // Facts about this table
  // ---------------------------------------------------------------------

  /**
   * The four area records before `/` miss every path that starts with none
   * of their paths: none of their children is a catch-all.
   */
  lemma AreasMiss(k: nat, path: string)
    requires k <= 4
    requires forall r :: 0 <= r < k ==> !(Table[r].path.path <= path)
    ensures forall r :: 0 <= r < k ==> Misses(Table[r], path)
  {
    forall r | 0 <= r < k ensures Misses(Table[r], path) {
      NoCatchAllChild(r);
    }
  }

  /** No child of the four area records is a catch-all. */
  lemma NoCatchAllChild(r: nat)
    requires r < 4
    ensures Table[r].path.Static? && forall c :: c in Table[r].children ==> !c.path.CatchAll?
  {
    assert Table[r] == [LoginRecord, RegisterRecord, StudentRecord, TeacherRecord][r];
    forall c | c in Table[r].children ensures !c.path.CatchAll? {
    }
  }

  /** `/login` is public and renders the login view. */
  lemma LoginRoute(isStudent: bool, isTeacher: bool)
    ensures MetaOf(LoginPath) == PublicMeta
    ensures Follow(LoginPath, isStudent, isTeacher) == LoginPath
  {
    ResolvesInTable(0, 0, LoginPath);
  }

  /** `/student` carries the student meta; its empty child redirects to the dashboard. */
  lemma StudentHomeRoute(isStudent: bool, isTeacher: bool)
    ensures MetaOf(StudentHome) == StudentMeta
    ensures Follow(StudentHome, isStudent, isTeacher) == StudentDashboard
  {
    DiffersAt("/login", StudentHome, 1);
    DiffersAt("/register", StudentHome, 1);
    ResolvesInTable(2, 0, StudentHome);
  }

  /** The student dashboard is a view with the student meta it inherits. */
  lemma StudentDashboardRoute(isStudent: bool, isTeacher: bool)
    ensures MetaOf(StudentDashboard) == StudentMeta
    ensures Follow(StudentDashboard, isStudent, isTeacher) == StudentDashboard
  {
    DiffersAt("/login", StudentDashboard, 1);
    DiffersAt("/register", StudentDashboard, 1);
    ResolvesInTable(2, 1, StudentDashboard);
  }

  /** `/teacher` carries the teacher meta; its empty child redirects to the student list. */
  lemma TeacherHomeRoute(isStudent: bool, isTeacher: bool)
    ensures MetaOf(TeacherHome) == TeacherMeta
    ensures Follow(TeacherHome, isStudent, isTeacher) == TeacherStudents
  {
    DiffersAt("/login", TeacherHome, 1);
    DiffersAt("/register", TeacherHome, 1);
    DiffersAt("/student", TeacherHome, 1);
    ResolvesInTable(3, 0, TeacherHome);
  }

  /** The teacher's student list is a view with the teacher meta it inherits. */
  lemma TeacherStudentsRoute(isStudent: bool, isTeacher: bool)
    ensures MetaOf(TeacherStudents) == TeacherMeta
    ensures Follow(TeacherStudents, isStudent, isTeacher) == TeacherStudents
  {
    DiffersAt("/login", TeacherStudents, 1);
    DiffersAt("/register", TeacherStudents, 1);
    DiffersAt("/student", TeacherStudents, 1);
    AreasMiss(3, TeacherStudents);
    ResolvesInTable(3, 1, TeacherStudents);
  }

  /**
   * Where the three redirect targets of the guard land, and that they stay
   * there: the landing page is a view, not another redirect.
   */
  lemma HomeLandings(isStudent: bool, isTeacher: bool)
    ensures Landing(LoginPath, isStudent, isTeacher) == LoginPath
    ensures Landing(StudentHome, isStudent, isTeacher) == StudentDashboard
    ensures Landing(TeacherHome, isStudent, isTeacher) == TeacherStudents
    ensures MetaOf(StudentDashboard) == MetaOf(StudentHome) == StudentMeta
    ensures MetaOf(TeacherStudents) == MetaOf(TeacherHome) == TeacherMeta
    ensures Follow(StudentDashboard, isStudent, isTeacher) == StudentDashboard
    ensures Follow(TeacherStudents, isStudent, isTeacher) == TeacherStudents
  {
    LoginRoute(isStudent, isTeacher);
    StudentHomeRoute(isStudent, isTeacher);
    StudentDashboardRoute(isStudent, isTeacher);
    TeacherHomeRoute(isStudent, isTeacher);
    TeacherStudentsRoute(isStudent, isTeacher);
  }

  /** `/` carries no meta and redirects by role. */
  lemma RootRoute(isStudent: bool, isTeacher: bool)
    ensures MetaOf(RootPath) == NoMeta
    ensures Follow(RootPath, isStudent, isTeacher) == RootRedirect(isStudent, isTeacher)
  {
    AreasMiss(4, RootPath);
    ResolvesInTable(4, 0, RootPath);
  }

  /** Where `/` lands: the role's view, or the login page. */
  lemma RootLanding(isStudent: bool, isTeacher: bool)
    ensures Landing(RootPath, isStudent, isTeacher) ==
      if isStudent then StudentDashboard else if isTeacher then TeacherStudents else LoginPath
  {
    RootRoute(isStudent, isTeacher);
    if isStudent {
      StudentHomeRoute(isStudent, isTeacher);
    } else if isTeacher {
      TeacherHomeRoute(isStudent, isTeacher);
    } else {
      LoginRoute(isStudent, isTeacher);
    }
  }

  /** A route that carries a role requires auth. */
  predicate RoleImpliesAuth(m: RouteMeta) {
    m.role.Some? ==> m.requiresAuth == Some(true)
  }

  /**
   * When children declare no meta of their own and every record's meta
   * ties a role to auth, so does every entry the matcher sees.
   */
  lemma {:induction false} FlattenKeepsRoleImpliesAuth(rs: seq<RouteRecord>)
    requires forall k :: 0 <= k < |rs| ==> RoleImpliesAuth(rs[k].meta)
    requires forall k, j :: 0 <= k < |rs| && 0 <= j < |rs[k].children| ==> rs[k].children[j].meta == NoMeta
    ensures forall i :: 0 <= i < |Flatten(rs)| ==> RoleImpliesAuth(Flatten(rs)[i].meta)
  {
    if rs != [] {
      FlattenKeepsRoleImpliesAuth(rs[1..]);
      var cs := ChildEntries(rs[0], rs[0].children);
      var f := Flatten(rs);
      assert f == cs + [OwnEntry(rs[0])] + Flatten(rs[1..]);
      forall i | 0 <= i < |f| ensures RoleImpliesAuth(f[i].meta) {
        if i < |cs| {
          assert f[i] == cs[i];
        } else if i > |cs| {
          assert f[i] == Flatten(rs[1..])[i - |cs| - 1];
        }
      }
    }
  }

  /** Every path resolves to a meta in which a role implies that auth is required. */
  lemma MetaOfRoleImpliesAuth(path: string)
    ensures RoleImpliesAuth(MetaOf(path))
  {
    FlattenKeepsRoleImpliesAuth(Table);
  }

  /** Every child of the table is matched with its parent's meta. */
  lemma ChildrenInheritMeta(k: nat, j: nat)
    requires k < |Table| && j < |Table[k].children|
    ensures EntryAt(Table, k, j).meta == Table[k].meta
    ensures Table[k].meta.role.Some? && Table[k].meta.requiresAuth == Some(true)
  {
  }

  /**
   * A path outside every declared area falls through to the catch-all
   * route, which has no meta, so it requires auth.
   */
  lemma UnknownPathRequiresAuth(path: string)
    requires path != "/"
    requires forall r :: 0 <= r < 4 ==> !(Table[r].path.path <= path)
    ensures MetaOf(path) == NoMeta && RequiresAuth(MetaOf(path))
    ensures forall s, t :: Follow(path, s, t) == path
  {
    AreasMiss(4, path);
    ResolvesInTable(5, 0, path);
  }
}
