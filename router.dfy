/**
 * The static route table and the `beforeEach` authentication guard of the
 * client's router (Vue Router 4).
 */
module Router {

  import opened Options
  import Storage

  /** A route record: the `/` redirect record, or a view with its `meta` flags. */
  datatype RouteRecord =
    | RedirectRecord(path: string, target: string)
    | ViewRecord(path: string, name: string, showHeader: bool, requiresAuth: bool)

  /** The table, in declaration order; the view components are identified by name. */
  const Routes: seq<RouteRecord> := [
    RedirectRecord("/", "/login"),
    ViewRecord("/login", "Login", false, false),
    ViewRecord("/register", "Register", false, false),
    ViewRecord("/home", "Home", true, true),
    ViewRecord("/settings", "Settings", true, true)
  ]

  /** The entry views, which the guard lets a signed-out user reach. */
  predicate IsEntryPath(path: string) {
    path == "/login" || path == "/register"
  }

  /** Exact-path matching of a route table: the first record whose path is `path`. */
  function Lookup(routes: seq<RouteRecord>, path: string): (r: Option<RouteRecord>)
    ensures r.Some? <==> exists i :: 0 <= i < |routes| && routes[i].path == path
    ensures r.Some? ==> r.value in routes && r.value.path == path
  {
    if routes == [] then None
    else if routes[0].path == path then Some(routes[0])
    else Lookup(routes[1..], path)
  }

  /** What the guard returns: nothing (`undefined`, go on) or a path to go to instead. */
  datatype Decision = Proceed | RedirectTo(target: string)

  /** The body of `router.beforeEach`, given whether the session counts as authenticated. */
  function Guard(authenticated: bool, to: string): Decision {
    if !authenticated && to != "/login" && to != "/register" then RedirectTo("/login")
    else if authenticated && (to == "/login" || to == "/register") then RedirectTo("/home")
    else Proceed
  }

  /** The guard as registered: it reads the slot (and only reads it). */
  function BeforeEach(slot: Storage.Slot, to: string): Decision {
    Guard(Storage.IsAuthenticated(slot), to)
  }

  /**
   * One step of resolving a navigation: a redirect record is followed before any
   * guard runs; otherwise the guard decides. `None` means the navigation lands.
   */
  function Next(authenticated: bool, path: string): Option<string> {
    match Lookup(Routes, path)
    case Some(RedirectRecord(_, target)) => Some(target)
    case _ =>
      match Guard(authenticated, path)
      case Proceed => None
      case RedirectTo(target) => Some(target)
  }

  /** Follow redirects for at most `fuel` steps; `None` when still redirecting. */
  function Navigate(authenticated: bool, path: string, fuel: nat): Option<string>
    decreases fuel
  {
    match Next(authenticated, path)
    case None => Some(path)
    case Some(target) => if fuel == 0 then None else Navigate(authenticated, target, fuel - 1)
  }

  /** Where a navigation ends, stated independently of the redirect machinery. */
  function Landing(authenticated: bool, path: string): string {
    if authenticated then
      (if path == "/" || IsEntryPath(path) then "/home" else path)
    else
      (if IsEntryPath(path) then path else "/login")
  }

  /** Signed out: every path but the entry views, listed or not, is sent to /login. */
  lemma SignedOutGuard(to: string)
    ensures Guard(false, to) == RedirectTo("/login") <==> !IsEntryPath(to)
    ensures IsEntryPath(to) ==> Guard(false, to) == Proceed
  {
  }

  /** Signed in: the entry views are sent to /home, everything else proceeds. */
  lemma SignedInGuard(to: string)
    ensures Guard(true, to) == RedirectTo("/home") <==> IsEntryPath(to)
    ensures !IsEntryPath(to) ==> Guard(true, to) == Proceed
  {
  }

  /** The guard only ever redirects to /login or /home. */
  lemma GuardTargets(authenticated: bool, to: string)
    ensures Guard(authenticated, to).RedirectTo? ==>
              Guard(authenticated, to).target == (if authenticated then "/home" else "/login")
  {
  }

  /** An empty stored token is not a session. */
  lemma EmptyTokenSignedOut(to: string)
    ensures BeforeEach(Storage.Stored(""), to) == BeforeEach(Storage.Absent, to)
    ensures BeforeEach(Storage.Absent, to) == Guard(false, to)
  {
  }

  /** No loops: the guard lets through its own redirect target under the same session. */
  lemma GuardNoLoop(authenticated: bool, to: string)
    ensures Guard(authenticated, to).RedirectTo? ==>
              Guard(authenticated, Guard(authenticated, to).target) == Proceed
  {
  }

  /** Route paths in the table are pairwise distinct. */
  lemma RoutePathsDistinct()
    ensures forall i, j :: 0 <= i < j < |Routes| ==> Routes[i].path != Routes[j].path
  {
  }

  /** The guard agrees with each view's `requiresAuth` flag for a signed-out user. */
  lemma GuardAgreesWithTable(i: nat)
    requires i < |Routes| && Routes[i].ViewRecord?
    ensures Guard(false, Routes[i].path) ==
              (if Routes[i].requiresAuth then RedirectTo("/login") else Proceed)
    ensures Routes[i].requiresAuth <==> !IsEntryPath(Routes[i].path)
  {
  }

  /** The table lookup finds the declared record for each listed path. */
  lemma {:induction false} LookupTable(i: nat)
    requires i < |Routes|
    ensures Lookup(Routes, Routes[i].path) == Some(Routes[i])
  {
    RoutePathsDistinct();
    var r := Lookup(Routes, Routes[i].path);
    var k :| k in Routes && r == Some(k);
    assert Routes[0].path != Routes[i].path ==> i != 0;
  }

  /** Only the root path is a redirect record; every other path goes to the guard. */
  lemma {:induction false} NextByPath(authenticated: bool, path: string)
    ensures Next(authenticated, path) ==
              if path == "/" then Some("/login")
              else match Guard(authenticated, path)
                case Proceed => None
                case RedirectTo(target) => Some(target)
  {
    LookupTable(0);
    var listed := Lookup(Routes, path);
    if listed.Some? && path != "/" {
      var k :| 0 <= k < |Routes| && Routes[k].path == path;
      LookupTable(k);
      assert k != 0;
    }
  }

  /** Every navigation settles within two redirects, at `Landing`, and nowhere else. */
  lemma {:induction false} NavigateLands(authenticated: bool, path: string)
    ensures Navigate(authenticated, path, 2) == Some(Landing(authenticated, path))
  {
    var land := Landing(authenticated, path);
    NextByPath(authenticated, path);
    NextByPath(authenticated, land);
    if path == "/" {
      NextByPath(authenticated, "/login");
      if authenticated {
        NextByPath(authenticated, "/home");
        assert Navigate(authenticated, "/home", 0) == Some("/home");
        assert Navigate(authenticated, "/login", 1) == Some("/home");
      } else {
        assert Navigate(authenticated, "/login", 1) == Some("/login");
      }
    } else if Next(authenticated, path).Some? {
      assert Next(authenticated, path) == Some(land);
      assert Navigate(authenticated, land, 1) == Some(land);
    }
  }

  /** A landing path is a fixed point: resolving it again redirects nowhere. */
  lemma LandingIsFixed(authenticated: bool, path: string)
    ensures Next(authenticated, Landing(authenticated, path)) == None
  {
    var p := Landing(authenticated, path);
    if p == "/" {
      assert false;
    }
  }

  /** The root redirect record ends at a fixed view for each session state. */
  lemma RootLands(authenticated: bool)
    ensures Navigate(authenticated, "/", 2) == Some(if authenticated then "/home" else "/login")
  {
    NavigateLands(authenticated, "/");
  }

  /**
   * Landing on a listed view: the header is shown exactly when signed in, and a
   * signed-out user only ever lands on a view that does not require authentication
   * (with paths matched exactly, as `Lookup` does).
   */
  lemma LandingView(authenticated: bool, path: string)
    requires Lookup(Routes, Landing(authenticated, path)).Some?
    ensures Lookup(Routes, Landing(authenticated, path)).value.ViewRecord?
    ensures Lookup(Routes, Landing(authenticated, path)).value.showHeader == authenticated
    ensures !authenticated ==> !Lookup(Routes, Landing(authenticated, path)).value.requiresAuth
  {
    var p := Landing(authenticated, path);
    var k :| 0 <= k < |Routes| && Routes[k].path == p;
    LookupTable(k);
  }
}
