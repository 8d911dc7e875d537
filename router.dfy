/**
 * The route table and the `beforeEach` navigation guard of
 * src/router/index.js. The table is data; resolving a path gives the target
 * with its merged `meta`; the guard first hydrates the user through the
 * store when a token is present without a profile, then runs a chain of
 * rules in which the first match decides.
 */
module Router {
  import opened Wrappers
  import opened Api
  import opened AuthModel
  import AuthStore

  /** A route's `meta` object; a key that is absent reads as false. */
  type Meta = map<string, bool>

  const RequiresAuth: string := "requiresAuth"
  const RequiresAdmin: string := "requiresAdmin"
  const RequiresAuditor: string := "requiresAuditor"

  const LoginPath: string := "/login"
  const HomePath: string := "/"

  /** `meta[key]` read as a condition. */
  predicate Flag(meta: Meta, key: string)
  {
    key in meta && meta[key]
  }

  /** A nested route: its path is relative to its parent's. */
  datatype ChildRecord = ChildRecord(path: string, name: string, meta: Meta)

  /** A top-level route, with the child routes rendered inside it. */
  datatype RouteRecord = RouteRecord(path: string, name: Option<string>, meta: Meta, children: seq<ChildRecord>)

  /** A navigation target: the path navigated to and the `meta` of the route it matched. */
  datatype Target = Target(path: string, name: Option<string>, meta: Meta)

  /** The guard's verdict: `next()` or `next(target)`. */
  datatype Decision = Allow | Redirect(target: string)

  /** The application's route table. */
  const Routes: seq<RouteRecord> := [
    RouteRecord("/login", Some("Login"), map[RequiresAuth := false], []),
    RouteRecord("/signup", Some("Signup"), map[RequiresAuth := false], []),
    RouteRecord("/", None, map[RequiresAuth := true], [
      ChildRecord("", "Dashboard", map[]),
      ChildRecord("documents", "Documents", map[]),
      ChildRecord("upload", "Upload", map[]),
      ChildRecord("queries", "Queries", map[]),
      ChildRecord("admin/users", "AdminUsers", map[RequiresAdmin := true]),
      ChildRecord("admin/analytics", "AdminAnalytics", map[RequiresAdmin := true]),
      ChildRecord("admin/audit-logs", "AdminAuditLogs", map[RequiresAdmin := true]),
      ChildRecord("admin/compliance", "AdminCompliance", map[RequiresAdmin := true]),
      ChildRecord("admin/background-jobs", "AdminBackgroundJobs", map[RequiresAdmin := true]),
      ChildRecord("query-audit", "QueryAudit", map[RequiresAuditor := true])
    ])
  ]

  /** The absolute path of a child route. */
  function JoinPath(parent: string, child: string): string
  {
    if child == "" then parent
    else if parent == "/" then parent + child
    else parent + "/" + child
  }

  /**
   * The targets a parent's children resolve to: each takes the joined path
   * and the parent's meta overlaid with its own (a key the child sets wins).
   */
  function ChildTargets(parent: RouteRecord, children: seq<ChildRecord>): (ts: seq<Target>)
    ensures |ts| == |children|
    ensures forall i :: 0 <= i < |ts| ==>
      ts[i] == Target(JoinPath(parent.path, children[i].path), Some(children[i].name), parent.meta + children[i].meta)
  {
    if children == [] then []
    else [Target(JoinPath(parent.path, children[0].path), Some(children[0].name), parent.meta + children[0].meta)]
         + ChildTargets(parent, children[1..])
  }

  /** The matchable routes of a table in order: a record with children is reached through them. */
  function Leaves(records: seq<RouteRecord>): seq<Target>
  {
    if records == [] then []
    else (if records[0].children == [] then [Target(records[0].path, records[0].name, records[0].meta)]
          else ChildTargets(records[0], records[0].children))
         + Leaves(records[1..])
  }

  /** The index of the first target with the given path, or `|ts|` when there is none. */
  function FirstMatch(ts: seq<Target>, path: string): (i: nat)
    ensures i <= |ts|
    ensures i < |ts| ==> ts[i].path == path
    ensures forall j :: 0 <= j < i ==> ts[j].path != path
  {
    if ts == [] then 0
    else if ts[0].path == path then 0
    else 1 + FirstMatch(ts[1..], path)
  }

  /** What navigating to `path` resolves to; an unmatched path has an empty `meta`. */
  function Resolve(path: string): (t: Target)
    ensures t.path == path
    ensures t in Leaves(Routes) || (t == Target(path, None, map[]) && forall u :: u in Leaves(Routes) ==> u.path != path)
  {
    var ts := Leaves(Routes);
    var i := FirstMatch(ts, path);
    if i < |ts| then ts[i] else Target(path, None, map[])
  }

  /** The rule chain of the guard, evaluated after any hydration. */
  function Decide(to: Target, authenticated: bool, user: Option<Profile>): (d: Decision)
    ensures d == Allow || d == Redirect(LoginPath) || d == Redirect(HomePath)
    // an unauthenticated navigation to a protected route goes to the login page, and nothing else does
    ensures d == Redirect(LoginPath) <==> Flag(to.meta, RequiresAuth) && !authenticated
    // a navigation is let through exactly when every rule passes
    ensures d == Allow <==>
      && !(Flag(to.meta, RequiresAuth) && !authenticated)
      && (Flag(to.meta, RequiresAdmin) ==> HasRole(user, Admin))
      && (Flag(to.meta, RequiresAuditor) ==> HasRole(user, Admin) || HasRole(user, Auditor))
      && !(to.path == LoginPath && authenticated)
    // an authenticated admin may go anywhere except the login page
    ensures authenticated && HasRole(user, Admin) && to.path != LoginPath ==> d == Allow
  {
    if Flag(to.meta, RequiresAuth) && !authenticated then Redirect(LoginPath)
    else if Flag(to.meta, RequiresAdmin) && !HasRole(user, Admin) then Redirect(HomePath)
    else if Flag(to.meta, RequiresAuditor) && !(HasRole(user, Admin) || HasRole(user, Auditor)) then Redirect(HomePath)
    else if to.path == LoginPath && authenticated then Redirect(HomePath)
    else Allow
  }

  /** Hydration is attempted exactly when a token is present but no user is loaded. */
  predicate NeedsHydration(s: Session)
  {
    Authenticated(s.token) && s.user.None?
  }

  /**
   * One navigation: the state after the optional profile fetch and the
   * decision taken on it. The fetch never changes the token: on failure the
   * logout it starts is still pending, so the rules see the old token.
   */
  function Navigate(s: Session, to: Target, me: ProfileOutcome): (r: (Session, Decision))
    ensures NeedsHydration(s) ==> r.0 == AuthModel.FetchCurrentUser(s, me).0
    ensures !NeedsHydration(s) ==> r.0 == s
    ensures r.0.token == s.token && r.0.stored == s.stored
    ensures r.1 == Decide(to, Authenticated(s.token), r.0.user)
  {
    var s' := if NeedsHydration(s) then AuthModel.FetchCurrentUser(s, me).0 else s;
    (s', Decide(to, Authenticated(s'.token), s'.user))
  }

  /** `router.beforeEach`: hydrate through the store if needed, then decide. */
  method BeforeEach(store: AuthStore.Store, to: Target, me: ProfileOutcome) returns (d: Decision)
    modifies store
    ensures (store.State(), d) == Navigate(old(store.State()), to, me)
  {
    if store.IsAuthenticated() && store.user.None? {
      var _ := store.FetchCurrentUser(me);
    }
    if Flag(to.meta, RequiresAuth) && !store.IsAuthenticated() {
      d := Redirect(LoginPath);
    } else if Flag(to.meta, RequiresAdmin) && !store.IsAdmin() {
      d := Redirect(HomePath);
    } else if Flag(to.meta, RequiresAuditor) && !(store.IsAdmin() || store.IsAuditor()) {
      d := Redirect(HomePath);
    } else if to.path == LoginPath && store.IsAuthenticated() {
      d := Redirect(HomePath);
    } else {
      d := Allow;
    }
  }

  /** Joining onto the root is injective, and the root itself is never a joined child path. */
  lemma JoinRootInjective(a: string, b: string)
    ensures JoinPath(HomePath, a) == JoinPath(HomePath, b) ==> a == b
  {
    if JoinPath(HomePath, a) == JoinPath(HomePath, b) && a != "" && b != "" {
      assert a == JoinPath(HomePath, a)[1..];
      assert b == JoinPath(HomePath, b)[1..];
    }
  }

  /** The matchable routes: the two public pages, then the layout's children in order. */
  lemma RouteTableLeaves()
    ensures |Leaves(Routes)| == 2 + |Routes[2].children|
    ensures Leaves(Routes)[0] == Target(LoginPath, Some("Login"), map[RequiresAuth := false])
    ensures Leaves(Routes)[1] == Target("/signup", Some("Signup"), map[RequiresAuth := false])
    ensures forall k :: 2 <= k < |Leaves(Routes)| ==>
      Leaves(Routes)[k] == ChildTargets(Routes[2], Routes[2].children)[k - 2]
  {
    var login := Target(LoginPath, Some("Login"), map[RequiresAuth := false]);
    var signup := Target("/signup", Some("Signup"), map[RequiresAuth := false]);
    var layout := Routes[2];
    var children := ChildTargets(layout, layout.children);
    assert Leaves(Routes[2..]) == children + Leaves([]);
    assert Leaves(Routes[1..]) == [signup] + Leaves(Routes[2..]);
    assert Leaves(Routes) == [login] + Leaves(Routes[1..]);
  }

  /** The layout's children have distinct paths, none of them a public page's. */
  lemma ChildPathsDistinct()
    ensures forall a, b :: 0 <= a < b < |Routes[2].children| ==> Routes[2].children[a].path != Routes[2].children[b].path
    ensures forall a :: 0 <= a < |Routes[2].children| ==>
      Routes[2].children[a].path != "login" && Routes[2].children[a].path != "signup"
  {
  }

  /** No two routes in the table share a path. */
  lemma TablePathsDistinct()
    ensures forall i, j :: 0 <= i < j < |Leaves(Routes)| ==> Leaves(Routes)[i].path != Leaves(Routes)[j].path
  {
    RouteTableLeaves();
    ChildPathsDistinct();
    var ts := Leaves(Routes);
    var cs := Routes[2].children;
    forall i, j | 0 <= i < j < |ts| ensures ts[i].path != ts[j].path {
      if j >= 2 {
        assert ts[j].path == JoinPath(HomePath, cs[j - 2].path);
        if i < 2 {
          var p := if i == 0 then "login" else "signup";
          assert ts[i].path == JoinPath(HomePath, p);
          JoinRootInjective(p, cs[j - 2].path);
        } else {
          assert ts[i].path == JoinPath(HomePath, cs[i - 2].path);
          JoinRootInjective(cs[i - 2].path, cs[j - 2].path);
        }
      }
    }
  }

  /** Navigating to a route's own path resolves to that route, with its merged meta. */
  lemma EveryRouteResolvesToItself()
    ensures forall i :: 0 <= i < |Leaves(Routes)| ==> Resolve(Leaves(Routes)[i].path) == Leaves(Routes)[i]
  {
    TablePathsDistinct();
    var ts := Leaves(Routes);
    forall i | 0 <= i < |ts| ensures Resolve(ts[i].path) == ts[i] {
      assert FirstMatch(ts, ts[i].path) == i;
    }
  }

  /** The login page and the home page resolve to the table's own entries. */
  lemma ResolveLandingPages()
    ensures Resolve(LoginPath) == Target(LoginPath, Some("Login"), map[RequiresAuth := false])
    ensures Resolve(HomePath) == Target(HomePath, Some("Dashboard"), map[RequiresAuth := true])
  {
    RouteTableLeaves();
    var ts := Leaves(Routes);
    assert ts[2] == ChildTargets(Routes[2], Routes[2].children)[0];
    assert map[RequiresAuth := true] + map[] == map[RequiresAuth := true];
    assert FirstMatch(ts, LoginPath) == 0;
    assert FirstMatch(ts, HomePath) == 2;
  }

  /** A doctor navigating to the user administration page is sent home and never reaches it. */
  lemma DoctorAdminUsersGoesHome(id: int, email: string)
    ensures Decide(Resolve("/admin/users"), true, Some(Profile(id, email, Some(Doctor)))) == Redirect(HomePath)
  {
    RouteTableLeaves();
    var t := Leaves(Routes)[6];
    assert t == ChildTargets(Routes[2], Routes[2].children)[4];
    assert Flag(t.meta, RequiresAdmin);
    assert t.path == JoinPath(HomePath, "admin/users") == "/admin/users";
    EveryRouteResolvesToItself();
    assert Resolve(t.path) == t;
  }

  /** A route that asks for a role also asks for authentication. */
  predicate GuardedMeta(meta: Meta)
  {
    Flag(meta, RequiresAdmin) || Flag(meta, RequiresAuditor) ==> Flag(meta, RequiresAuth)
  }

  /** Every route a record contributes is guarded, its children's metas merged with its own. */
  predicate RecordGuarded(r: RouteRecord)
  {
    (r.children == [] ==> GuardedMeta(r.meta)) &&
    (forall c :: c in r.children ==> GuardedMeta(r.meta + c.meta))
  }

  lemma {:induction false} LeavesGuarded(records: seq<RouteRecord>)
    requires forall r :: r in records ==> RecordGuarded(r)
    ensures forall t :: t in Leaves(records) ==> GuardedMeta(t.meta)
    decreases |records|
  {
    if records != [] {
      var r := records[0];
      assert r in records;
      var own := if r.children == [] then [Target(r.path, r.name, r.meta)] else ChildTargets(r, r.children);
      forall t | t in own ensures GuardedMeta(t.meta) {
        if r.children != [] {
          var i :| 0 <= i < |own| && own[i] == t;
          assert r.children[i] in r.children;
        }
      }
      LeavesGuarded(records[1..]);
      assert Leaves(records) == own + Leaves(records[1..]);
    }
  }

  /**
   * Whatever path is navigated to, a role requirement comes with an
   * authentication requirement: child routes inherit `requiresAuth` from
   * the layout route, and an unmatched path carries no flags at all.
   */
  lemma ResolvedGuarded(path: string)
    ensures GuardedMeta(Resolve(path).meta)
  {
    forall r | r in Routes ensures RecordGuarded(r) {
    }
    LeavesGuarded(Routes);
    var ts := Leaves(Routes);
    var i := FirstMatch(ts, path);
    if i < |ts| {
      assert ts[i] in ts;
    }
  }

  /**
   * A redirect's target is itself let through in the same session: the
   * login page when unauthenticated, the home page when authenticated.
   */
  lemma RedirectTargetsAllowed(path: string, authenticated: bool, user: Option<Profile>)
    ensures var d := Decide(Resolve(path), authenticated, user);
      d.Redirect? ==> Decide(Resolve(d.target), authenticated, user) == Allow
  {
    ResolveLandingPages();
    ResolvedGuarded(path);
  }

  /**
   * First match wins: an unauthenticated navigation to any route that asks
   * for a role is sent to the login page, never to the home page.
   */
  lemma UnauthenticatedRoleRouteGoesToLogin(path: string, user: Option<Profile>)
    requires Flag(Resolve(path).meta, RequiresAdmin) || Flag(Resolve(path).meta, RequiresAuditor)
    ensures Decide(Resolve(path), false, user) == Redirect(LoginPath)
  {
    ResolvedGuarded(path);
  }

  /** An authenticated navigation to the login page is sent home, whoever the user is. */
  lemma AuthenticatedLoginGoesHome(user: Option<Profile>)
    ensures Decide(Resolve(LoginPath), true, user) == Redirect(HomePath)
  {
    ResolveLandingPages();
  }

  /** Every route rendered inside the layout inherits its `requiresAuth`. */
  lemma LayoutRoutesProtected()
    ensures forall k :: 2 <= k < |Leaves(Routes)| ==> Flag(Leaves(Routes)[k].meta, RequiresAuth)
  {
    RouteTableLeaves();
    var layout := Routes[2];
    forall k | 2 <= k < |Leaves(Routes)| ensures Flag(Leaves(Routes)[k].meta, RequiresAuth) {
      assert layout.children[k - 2] in layout.children;
      assert RequiresAuth !in layout.children[k - 2].meta;
    }
  }

  /**
   * Every matched route other than the login and signup pages requires
   * authentication, so an unauthenticated navigation to it goes to the login page.
   */
  lemma MatchedRoutesProtected(path: string, user: Option<Profile>)
    requires Resolve(path).name.Some? && path != LoginPath && path != "/signup"
    ensures Flag(Resolve(path).meta, RequiresAuth)
    ensures Decide(Resolve(path), false, user) == Redirect(LoginPath)
  {
    RouteTableLeaves();
    LayoutRoutesProtected();
    var ts := Leaves(Routes);
    var i := FirstMatch(ts, path);
    assert i < |ts|;
    assert 2 <= i;
  }

  /**
   * The guard decides on the token it found: when hydration fails it still
   * lets an authenticated navigation through to a route without a role
   * requirement, because the logout the failed fetch started has not run.
   */
  lemma FailedHydrationKeepsToken(s: Session, to: Target, e: ApiError)
    requires NeedsHydration(s)
    requires !Flag(to.meta, RequiresAdmin) && !Flag(to.meta, RequiresAuditor) && to.path != LoginPath
    ensures var (s', d) := Navigate(s, to, Err(e));
      d == Allow && Authenticated(s'.token) && s'.pendingTeardowns == s.pendingTeardowns + 1
  {
  }
}
