/** The application's route table as data: every path with the guard that
    wraps its screen, and what navigating to a path shows.
 */
module Routes {
  import opened Wrappers
  import opened Roles
  import ProtectedRoute

  datatype Guard =
    | PublicOnly                 // wrapped in the logged-in redirect guard
    | Protected(roles: seq<Role>) // wrapped in ProtectedRoute with a role list
    | Unguarded                  // rendered as is

  datatype Route = Route(path: string, guard: Guard)

  const Login := Route("/", PublicOnly)
  const Verificacion := Route("/verificacion", PublicOnly)
  const ResetPassword := Route("/reset-password", PublicOnly)
  const Inicio := Route("/inicio", Protected([Logistica, Vendedor, Bodeguero]))
  const VerTienda := Route("/ver-tienda", Protected([Logistica, Vendedor]))
  const CrearTienda := Route("/crear-tienda", Protected([Logistica]))
  const CrearDueno := Route("/crear-dueño", Protected([Logistica]))
  const CrearBodega := Route("/crear-bodega", Protected([Logistica]))
  const VerBodegas := Route("/ver-bodegas", Protected([Logistica, Bodeguero, Vendedor]))
  const CrearRack := Route("/crear-rack", Protected([Bodeguero, Logistica]))
  const QrCrear := Route("/QR-Crear", Protected([Bodeguero, Logistica]))
  const VerRack := Route("/Ver-rack", Protected([Bodeguero, Logistica, Vendedor]))
  const Config := Route("/config", Protected([Logistica, Bodeguero, Vendedor]))
  const AgregarProducto := Route("/Agregar-Producto", Protected([Bodeguero, Logistica]))
  const VerProducto := Route("/ver-Producto", Protected([Bodeguero, Vendedor, Logistica]))
  const CrearUsers := Route("/Crear-users", Protected([Logistica]))
  const VerUsers := Route("/Ver-users", Protected([Logistica]))
  const AccessDenied := Route("/access-denied", Unguarded)

  /** The routes in declaration order. */
  const Table: seq<Route> := [
    Login, Verificacion, ResetPassword, Inicio, VerTienda, CrearTienda,
    CrearDueno, CrearBodega, VerBodegas, CrearRack, QrCrear, VerRack,
    Config, AgregarProducto, VerProducto, CrearUsers, VerUsers, AccessDenied
  ]

  /** The first route of `routes` whose path is `path`. */
  function Lookup(routes: seq<Route>, path: string): (r: Option<Route>)
    ensures r.None? <==> forall i :: 0 <= i < |routes| ==> routes[i].path != path
    ensures r.Some? ==> r.value in routes && r.value.path == path
  {
    if |routes| == 0 then None
    else if routes[0].path == path then Some(routes[0])
    else Lookup(routes[1..], path)
  }

  /** No path is declared twice. */
  predicate DistinctPaths(routes: seq<Route>) {
    forall i, j :: 0 <= i < j < |routes| ==> routes[i].path != routes[j].path
  }

  /** With distinct paths, looking up a declared path finds its own route. */
  lemma {:induction false} LookupDeclared(routes: seq<Route>, k: nat)
    requires DistinctPaths(routes)
    requires k < |routes|
    ensures Lookup(routes, routes[k].path) == Some(routes[k])
  {
    if k > 0 {
      assert routes[0].path != routes[k].path;
      assert routes[1..][k - 1] == routes[k];
      LookupDeclared(routes[1..], k - 1);
    }
  }

  /** The length of every path. Paths of different lengths differ, which
      settles most pairs of routes at once. */
  lemma PathLengths()
    ensures |Login.path| == 1 && |Verificacion.path| == 13 && |ResetPassword.path| == 15
    ensures |Inicio.path| == 7 && |VerTienda.path| == 11 && |CrearTienda.path| == 13
    ensures |CrearDueno.path| == 12 && |CrearBodega.path| == 13 && |VerBodegas.path| == 12
    ensures |CrearRack.path| == 11 && |QrCrear.path| == 9 && |VerRack.path| == 9
    ensures |Config.path| == 7 && |AgregarProducto.path| == 17 && |VerProducto.path| == 13
    ensures |CrearUsers.path| == 12 && |VerUsers.path| == 10 && |AccessDenied.path| == 14
  {
  }

  /** Route paths are pairwise distinct, so the first match is the only one. */
  lemma PathsDistinct()
    ensures DistinctPaths(Table)
  {
    PathLengths();
  }

  /** The path of entry `k` is guarded by that entry's guard. */
  lemma GuardAt(k: nat, path: string)
    requires k < |Table| && Table[k].path == path
    ensures GuardOf(path) == Some(Table[k].guard)
  {
    PathsDistinct();
    LookupDeclared(Table, k);
  }

  /** The guard of the route matching `path`, if any route matches. */
  function GuardOf(path: string): Option<Guard> {
    match Lookup(Table, path)
    case None => None
    case Some(rt) => Some(rt.guard)
  }

  /** What the router shows for a path. */
  datatype Screen =
    | NoMatch                             // no route: the router renders nothing
    | BehindPublicGuard                   // the logged-in redirect guard decides
    | Gated(decision: ProtectedRoute.Decision)
    | Shown                               // an unguarded screen

  /** Navigating to `path` with the given session. */
  function Navigate(path: string, loading: bool, signedIn: bool, role: Option<string>): (s: Screen)
    ensures s == NoMatch <==> GuardOf(path).None?
    ensures s.Gated? <==> GuardOf(path).Some? && GuardOf(path).value.Protected?
    ensures s.Gated? ==> s.decision == ProtectedRoute.Decide(loading, signedIn, role, Some(GuardOf(path).value.roles))
    ensures s == BehindPublicGuard <==> GuardOf(path) == Some(PublicOnly)
    ensures s == Shown <==> GuardOf(path) == Some(Unguarded)
  {
    match GuardOf(path)
    case None => NoMatch
    case Some(PublicOnly) => BehindPublicGuard
    case Some(Unguarded) => Shown
    case Some(Protected(roles)) => Gated(ProtectedRoute.Decide(loading, signedIn, role, Some(roles)))
  }

  /** The login, verification and password-reset screens sit behind the
      logged-in redirect guard, not the role guard. */
  lemma PublicOnlyPaths(path: string)
    requires path in ["/", "/verificacion", "/reset-password"]
    ensures GuardOf(path) == Some(PublicOnly)
  {
    if path == "/" { GuardAt(0, path); }
    else if path == "/verificacion" { GuardAt(1, path); }
    else { GuardAt(2, path); }
  }

  /** The access-denied screen has no guard at all. */
  lemma AccessDeniedIsOpen()
    ensures GuardOf(ProtectedRoute.AccessDeniedPath) == Some(Unguarded)
  {
    GuardAt(17, ProtectedRoute.AccessDeniedPath);
  }

  /** Creating stores, owners and warehouses is logistica-only. */
  lemma CreationPathsLogisticaOnly(path: string)
    requires path in ["/crear-tienda", "/crear-dueño", "/crear-bodega"]
    ensures GuardOf(path) == Some(Protected([Logistica]))
  {
    if path == "/crear-tienda" { GuardAt(5, path); }
    else if path == "/crear-dueño" { GuardAt(6, path); }
    else { GuardAt(7, path); }
  }

  /** User administration is logistica-only. */
  lemma UserPathsLogisticaOnly(path: string)
    requires path in ["/Crear-users", "/Ver-users"]
    ensures GuardOf(path) == Some(Protected([Logistica]))
  {
    if path == "/Crear-users" { GuardAt(15, path); }
    else { GuardAt(16, path); }
  }

  /** Rack creation, QR printing and product entry admit warehouse staff and
      logistica. */
  lemma WarehouseStaffPaths(path: string)
    requires path in ["/crear-rack", "/QR-Crear", "/Agregar-Producto"]
    ensures GuardOf(path) == Some(Protected([Bodeguero, Logistica]))
  {
    if path == "/crear-rack" { GuardAt(9, path); }
    else if path == "/QR-Crear" { GuardAt(10, path); }
    else { GuardAt(13, path); }
  }

  /** Home, settings and the product listing admit every role. */
  lemma GeneralPathsAdmitAll(path: string)
    requires path in ["/inicio", "/config", "/ver-Producto"]
    ensures GuardOf(path).Some? && GuardOf(path).value.Protected?
    ensures var rs := GuardOf(path).value.roles; Logistica in rs && Vendedor in rs && Bodeguero in rs
  {
    if path == "/inicio" { GuardAt(3, path); }
    else if path == "/config" { GuardAt(12, path); }
    else { GuardAt(14, path); }
  }

  /** The warehouse and rack listings admit every role. */
  lemma StorageListingsAdmitAll(path: string)
    requires path in ["/ver-bodegas", "/Ver-rack"]
    ensures GuardOf(path).Some? && GuardOf(path).value.Protected?
    ensures var rs := GuardOf(path).value.roles; Logistica in rs && Vendedor in rs && Bodeguero in rs
  {
    if path == "/ver-bodegas" { GuardAt(8, path); }
    else { GuardAt(11, path); }
  }

  /** The store listing admits logistica and vendedor but not bodeguero. */
  lemma StoreListingPath()
    ensures GuardOf("/ver-tienda") == Some(Protected([Logistica, Vendedor]))
    ensures Bodeguero !in GuardOf("/ver-tienda").value.roles
  {
    GuardAt(4, "/ver-tienda");
  }

  /** Every role list is non-empty, names no role twice and includes
      logistica. */
  lemma RoleListsWellFormed()
    ensures forall i :: 0 <= i < |Table| && Table[i].guard.Protected? ==>
              var rs := Table[i].guard.roles;
              && |rs| > 0
              && Logistica in rs
              && forall a, b :: 0 <= a < b < |rs| ==> rs[a] != rs[b]
  {
  }

  /** Navigating to the path of a role-guarded entry asks the role guard
      with that entry's role list. */
  lemma NavigateAt(k: nat, path: string, loading: bool, signedIn: bool, role: Option<string>)
    requires k < |Table| && Table[k].path == path && Table[k].guard.Protected?
    ensures Navigate(path, loading, signedIn, role) == Gated(ProtectedRoute.Decide(loading, signedIn, role, Some(Table[k].guard.roles)))
  {
    GuardAt(k, path);
  }

  /** A signed-in user opening a logistica-only path gets the screen exactly
      when they are logistica, and is sent to access-denied otherwise. */
  lemma LogisticaOnlyNavigation(path: string, r: Role)
    requires path in ["/crear-tienda", "/crear-dueño", "/crear-bodega", "/Crear-users", "/Ver-users"]
    ensures Navigate(path, false, true, Some(Name(r))) ==
              Gated(if r == Logistica then ProtectedRoute.RenderChildren
                    else ProtectedRoute.Redirect(ProtectedRoute.AccessDeniedPath))
  {
    if path in ["/crear-tienda", "/crear-dueño", "/crear-bodega"] {
      CreationPathsLogisticaOnly(path);
    } else {
      UserPathsLogisticaOnly(path);
    }
    ProtectedRoute.RenderIffListed(r, [Logistica]);
  }

  /** A signed-in vendedor opening a warehouse-staff path is sent to
      access-denied; the other two roles get the screen. */
  lemma WarehouseStaffNavigation(path: string, r: Role)
    requires path in ["/crear-rack", "/QR-Crear", "/Agregar-Producto"]
    ensures Navigate(path, false, true, Some(Name(r))) ==
              Gated(if r == Vendedor then ProtectedRoute.Redirect(ProtectedRoute.AccessDeniedPath)
                    else ProtectedRoute.RenderChildren)
  {
    WarehouseStaffPaths(path);
    ProtectedRoute.RenderIffListed(r, [Bodeguero, Logistica]);
  }
}
