/**
  The route table and the navigation guard (src/router/index.ts). The guard
  decides, before each transition, whether to let it through or to send the
  user to the sign-in page; it reads the stored token and writes nothing.
 */
module Router {
  import opened Common
  import opened LocalStorage

  /** A route's `meta.requiresAuth`: absent, or a boolean. */
  datatype Meta = Meta(requiresAuth: Option<bool>)

  datatype RouteRecord =
    | RedirectRecord(path: string, target: string)
    | ViewRecord(path: string, name: string, meta: Meta)

  const AuthPath := "/auth"

  const PublicMeta := Meta(Some(false))

  const Routes: seq<RouteRecord> := [
    RedirectRecord("/", AuthPath),
    ViewRecord(AuthPath, "Auth", PublicMeta),
    ViewRecord("/change-email", "ChangeEmail", PublicMeta),
    ViewRecord("/set-password", "SetPassword", PublicMeta),
    RedirectRecord("/login", AuthPath),
    RedirectRecord("/forgot-password", AuthPath),
    RedirectRecord("/reset-password", AuthPath)
  ]

  /** The first record of `routes` declared for `path`, if any. */
  function FindRecord(routes: seq<RouteRecord>, path: string): (r: Option<RouteRecord>)
    ensures r.Some? ==> r.value in routes && r.value.path == path
    ensures r.None? ==> forall i :: 0 <= i < |routes| ==> routes[i].path != path
  {
    if routes == [] then None
    else if routes[0].path == path then Some(routes[0])
    else FindRecord(routes[1..], path)
  }

  /** Where a navigation lands once redirects are followed; `meta` is empty when nothing matched. */
  datatype Location = Location(path: string, name: Option<string>, meta: Meta)

  /** Follows redirect records, at most `hops` of them. */
  function ResolveWithin(path: string, hops: nat): Location
    decreases hops
  {
    match FindRecord(Routes, path)
    case None => Location(path, None, Meta(None))
    case Some(RedirectRecord(_, target)) =>
      if hops == 0 then Location(path, None, Meta(None)) else ResolveWithin(target, hops - 1)
    case Some(ViewRecord(p, n, m)) => Location(p, Some(n), m)
  }

  /** The location the router hands to the guard for a requested path. */
  function Resolve(path: string): Location
  {
    ResolveWithin(path, |Routes|)
  }

  datatype Verdict = Allow | RedirectTo(target: string)

  /** Only an explicit `requiresAuth: false` makes a destination public. */
  predicate IsPublic(to: Location)
  {
    to.meta.requiresAuth == Some(false)
  }

  /**
    The `beforeEach` decision: public destinations pass; every other one
    passes only when storage holds a non-empty token, and otherwise is sent
    to the sign-in page.
   */
  function Guard(to: Location, storage: Storage): (v: Verdict)
    ensures IsPublic(to) ==> v == Allow
    ensures !IsPublic(to) ==> (v == Allow <==> StoredToken(storage) != "")
    ensures v.RedirectTo? ==> v.target == AuthPath
  {
    if to.meta.requiresAuth == Some(false) then Allow
    else
      var token := GetItem(storage, TokenKey);
      if token.None? || token.value == "" then RedirectTo(AuthPath) else Allow
  }

  datatype Navigation = Arrived(at: Location) | TooManyRedirects

  /** A navigation: resolve, ask the guard, and start over at the target of a guard redirect. */
  function Navigate(path: string, storage: Storage, hops: nat): Navigation
    decreases hops
  {
    var to := Resolve(path);
    match Guard(to, storage)
    case Allow => Arrived(to)
    case RedirectTo(target) => if hops == 0 then TooManyRedirects else Navigate(target, storage, hops - 1)
  }

  // ----- the route table -----

  /** The sign-in page resolves to its own view, however many hops are left. */
  lemma ResolveAuthWithin(hops: nat)
    ensures ResolveWithin(AuthPath, hops) == Location(AuthPath, Some("Auth"), PublicMeta)
  {
    assert Routes[0].path != AuthPath;
    assert FindRecord(Routes, AuthPath) == Some(Routes[1]);
  }

  /** The sign-in page is declared public. */
  lemma AuthIsPublic()
    ensures Resolve(AuthPath) == Location(AuthPath, Some("Auth"), PublicMeta)
    ensures IsPublic(Resolve(AuthPath))
  {
    ResolveAuthWithin(|Routes|);
  }

  /** The redirect record at index `i` of the table sends `path` to the sign-in page. */
  lemma RedirectAt(path: string, i: nat)
    requires i < |Routes| && Routes[i] == RedirectRecord(path, AuthPath)
    requires forall j :: 0 <= j < i ==> Routes[j].path != path
    ensures Resolve(path) == Resolve(AuthPath)
  {
    FindFirst(Routes, path, i);
    ResolveAuthWithin(|Routes| - 1);
    AuthIsPublic();
  }

  /** `FindRecord` yields the first record declared for `path`. */
  lemma {:induction false} FindFirst(routes: seq<RouteRecord>, path: string, i: nat)
    requires i < |routes| && routes[i].path == path
    requires forall j :: 0 <= j < i ==> routes[j].path != path
    ensures FindRecord(routes, path) == Some(routes[i])
    decreases i
  {
    if i > 0 {
      FindFirst(routes[1..], path, i - 1);
    }
  }

  /** No path is declared twice in the table. */
  lemma PathsAreDistinct()
    ensures forall i, j :: 0 <= i < j < |Routes| ==> Routes[i].path != Routes[j].path
  {
  }

  /** The root and the legacy sign-in paths all land on the sign-in page. */
  lemma LegacyPathsRedirectToAuth(path: string)
    requires path in {"/", "/login", "/forgot-password", "/reset-password"}
    ensures Resolve(path) == Resolve(AuthPath)
  {
    PathsAreDistinct();
    var i := if path == "/" then 0 else if path == "/login" then 4 else if path == "/forgot-password" then 5 else 6;
    assert Routes[i].path == path;
    RedirectAt(path, i);
  }

  /** Every named route of the table is public. */
  lemma NamedRoutesArePublic()
    ensures forall i :: 0 <= i < |Routes| && Routes[i].ViewRecord? ==> Routes[i].meta == PublicMeta
  {
  }

  /** Every redirect of the table points at a view, so one hop resolves it. */
  lemma RedirectsTargetViews()
    ensures forall i :: 0 <= i < |Routes| && Routes[i].RedirectRecord? ==>
      Routes[i].target == AuthPath && FindRecord(Routes, AuthPath) == Some(Routes[1]) && Routes[1].ViewRecord?
  {
  }

  /** A path the table does not declare is protected: the guard fails closed. */
  lemma UnknownPathsAreProtected(path: string, storage: Storage)
    requires forall i :: 0 <= i < |Routes| ==> Routes[i].path != path
    ensures !IsPublic(Resolve(path))
    ensures Guard(Resolve(path), storage) == (if StoredToken(storage) == "" then RedirectTo(AuthPath) else Allow)
  {
  }

  // ----- navigation -----

  /**
    A guard redirect is never redirected again: one hop always suffices, and
    the navigation lands on the requested page when the guard allows it and on
    the sign-in page otherwise.
   */
  lemma NavigationSettles(path: string, storage: Storage, hops: nat)
    requires hops >= 1
    ensures Navigate(path, storage, hops) ==
      if IsPublic(Resolve(path)) || StoredToken(storage) != "" then Arrived(Resolve(path))
      else Arrived(Resolve(AuthPath))
    ensures Navigate(path, storage, hops).Arrived?
    ensures Guard(Navigate(path, storage, hops).at, storage) == Allow
  {
    AuthIsPublic();
  }

  /** Without a stored token the only pages one can reach are public ones. */
  lemma SignedOutReachesOnlyPublicPages(path: string, storage: Storage, hops: nat)
    requires StoredToken(storage) == "" && hops >= 1
    ensures Navigate(path, storage, hops).Arrived?
    ensures IsPublic(Navigate(path, storage, hops).at)
  {
    NavigationSettles(path, storage, hops);
    AuthIsPublic();
  }
}
