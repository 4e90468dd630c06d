/** The route table of src/router/index.ts and its `beforeEach` guard,
    which sends visitors without a session to Login and signed-in users
    away from the guest-only pages. */
module Router {
  import opened Wrappers
  import Lists

  /** The `meta` flags; a missing flag reads as false. */
  datatype Meta = Meta(requiresAuth: bool, requiresGuest: bool)

  const NoMeta: Meta := Meta(false, false)
  const GuestOnly: Meta := Meta(false, true)
  const AuthOnly: Meta := Meta(true, false)

  /** A route record; `redirect` is the path a redirecting record sends to. */
  datatype Route = Route(path: string, name: string, redirect: Option<string>, meta: Meta)

  const Routes: seq<Route> := [
    Route("/", "Home", Some("/tasks"), NoMeta),
    Route("/login", "Login", None, GuestOnly),
    Route("/register", "Register", None, GuestOnly),
    Route("/account", "AccountSettings", None, AuthOnly),
    Route("/tasks", "Tasks", None, AuthOnly),
    Route("/tasks/create", "CreateTask", None, AuthOnly),
    Route("/bets", "Bets", None, AuthOnly),
    Route("/emotions", "Emotions", None, AuthOnly)
  ]

  /** What the guard does with a navigation: `next()` or `next({ name })`. */
  datatype Decision = Proceed | RedirectTo(name: string)

  /** The `beforeEach` guard for the target's flags. */
  function Guard(meta: Meta, isAuthenticated: bool): Decision
  {
    if meta.requiresAuth && !isAuthenticated then RedirectTo("Login")
    else if meta.requiresGuest && isAuthenticated then RedirectTo("Tasks")
    else Proceed
  }

  function NameIs(name: string): Route -> bool
  {
    (r: Route) => r.name == name
  }

  function PathIs(path: string): Route -> bool
  {
    (r: Route) => r.path == path
  }

  /** The record a named navigation resolves to. */
  function RouteNamed(name: string): Option<Route>
  {
    Lists.Find(Routes, NameIs(name))
  }

  /** The record a path resolves to. */
  function RouteAt(path: string): Option<Route>
  {
    Lists.Find(Routes, PathIs(path))
  }

  /** The record a navigation to `path` lands on: a redirecting record is
      replaced by its target before the guard runs. */
  function Resolve(path: string): Option<Route>
  {
    match RouteAt(path)
    case None => None
    case Some(r) => if r.redirect.Some? then RouteAt(r.redirect.value) else Some(r)
  }

  /** The guard sends to Login exactly a protected target visited without
      a session, sends to Tasks exactly a guest-only target visited with
      one, and lets everything else through; so a signed-in user is never
      sent to Login and a visitor without a session never to Tasks. */
  lemma GuardSpec(meta: Meta, isAuthenticated: bool)
    ensures Guard(meta, isAuthenticated) == RedirectTo("Login") <==> meta.requiresAuth && !isAuthenticated
    ensures Guard(meta, isAuthenticated) == RedirectTo("Tasks") <==> meta.requiresGuest && isAuthenticated
    ensures Guard(meta, isAuthenticated) == Proceed <==>
      !(meta.requiresAuth && !isAuthenticated) && !(meta.requiresGuest && isAuthenticated)
    ensures isAuthenticated ==> Guard(meta, isAuthenticated) != RedirectTo("Login")
    ensures !isAuthenticated ==> Guard(meta, isAuthenticated) != RedirectTo("Tasks")
    ensures !meta.requiresAuth && !meta.requiresGuest ==> Guard(meta, isAuthenticated) == Proceed
  {
  }

  /** Paths and names are unique; only /login and /register are guest-only;
      every other record with a page requires a session; only / redirects,
      and it redirects to /tasks. */
  lemma RouteTableSpec()
    ensures forall i, j :: 0 <= i < j < |Routes| ==> Routes[i].path != Routes[j].path && Routes[i].name != Routes[j].name
    ensures forall r :: r in Routes ==> (r.meta.requiresGuest <==> r.path == "/login" || r.path == "/register")
    ensures forall r :: r in Routes && r.redirect.None? ==> (r.meta.requiresAuth <==> !r.meta.requiresGuest)
    ensures forall r :: r in Routes ==> (r.redirect.Some? <==> r.path == "/")
    ensures RouteAt("/") == Some(Route("/", "Home", Some("/tasks"), NoMeta))
  {
    RoutesUnique();
    GuestOnlyRoutes();
    PageRoutes();
    RedirectRoutes();
    assert Lists.FindIndex(Routes, PathIs("/")) == 0;
  }

  /** No two records share a path or a name. */
  lemma RoutesUnique()
    ensures forall i, j :: 0 <= i < j < |Routes| ==> Routes[i].path != Routes[j].path && Routes[i].name != Routes[j].name
  {
  }

  /** Only /login and /register are guest-only. */
  lemma GuestOnlyRoutes()
    ensures forall r :: r in Routes ==> (r.meta.requiresGuest <==> r.path == "/login" || r.path == "/register")
  {
  }

  /** A record with a page needs exactly one of the two flags. */
  lemma PageRoutes()
    ensures forall r :: r in Routes && r.redirect.None? ==> (r.meta.requiresAuth <==> !r.meta.requiresGuest)
  {
  }

  /** Only / redirects. */
  lemma RedirectRoutes()
    ensures forall r :: r in Routes ==> (r.redirect.Some? <==> r.path == "/")
  {
  }

  /** A redirect always names a record of the table, and the guard lets the
      same visitor through to it: one redirect is always enough. */
  lemma RedirectsSettle(r: Route, isAuthenticated: bool)
    requires r in Routes
    ensures Guard(r.meta, isAuthenticated).RedirectTo? ==>
      var target := RouteNamed(Guard(r.meta, isAuthenticated).name);
      target.Some? && Guard(target.value.meta, isAuthenticated) == Proceed
  {
    assert Lists.FindIndex(Routes, NameIs("Login")) == 1;
    assert NameIs("Tasks")(Routes[4]) && forall i :: 0 <= i < 4 ==> !NameIs("Tasks")(Routes[i]);
    assert Lists.FindIndex(Routes, NameIs("Tasks")) == 4;
  }

  /** Visiting /, which redirects to /tasks, ends at /tasks with a session
      and at Login without one. */
  lemma HomeLeadsToTasksOrLogin(isAuthenticated: bool)
    ensures Resolve("/").Some? && Resolve("/").value.path == "/tasks"
    ensures Guard(Resolve("/").value.meta, isAuthenticated) == if isAuthenticated then Proceed else RedirectTo("Login")
  {
    assert Lists.FindIndex(Routes, PathIs("/")) == 0;
    assert PathIs("/tasks")(Routes[4]) && forall i :: 0 <= i < 4 ==> !PathIs("/tasks")(Routes[i]);
    assert Lists.FindIndex(Routes, PathIs("/tasks")) == 4;
  }
}
