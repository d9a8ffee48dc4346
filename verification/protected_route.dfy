/** The route guard wrapped around every role-restricted screen. The session
    (still loading, signed in or not, the profile's role) arrives as plain
    inputs; `allowed` is the route's role list, or None when the guard is
    used without one.
 */
module ProtectedRoute {
  import opened Wrappers
  import opened Roles

  datatype Decision =
    | ShowLoading            // the "Cargando..." placeholder
    | Redirect(to: string)   // a <Navigate> to another path
    | RenderChildren         // the wrapped screen

  const LoginPath: string := "/"
  const AccessDeniedPath: string := "/access-denied"

  /** `allowedRoles.includes(userData?.role)`: the profile's role string is
      the name of a listed role. An absent profile or role never matches. */
  predicate Admits(allowed: seq<Role>, role: Option<string>) {
    exists i :: 0 <= i < |allowed| && role == Some(Name(allowed[i]))
  }

  /** The guard's decision, checks taken in source order: loading, then
      sign-in, then role. */
  function Decide(loading: bool, signedIn: bool, role: Option<string>, allowed: Option<seq<Role>>): (d: Decision)
    ensures d == ShowLoading <==> loading
    ensures d == Redirect(LoginPath) <==> !loading && !signedIn
    ensures d == Redirect(AccessDeniedPath) <==> !loading && signedIn && allowed.Some? && !Admits(allowed.value, role)
    ensures d == RenderChildren <==> !loading && signedIn && (allowed.None? || Admits(allowed.value, role))
    ensures d.Redirect? ==> d.to == LoginPath || d.to == AccessDeniedPath
  {
    if loading then ShowLoading
    else if !signedIn then Redirect(LoginPath)
    else if allowed.Some? && !Admits(allowed.value, role) then Redirect(AccessDeniedPath)
    else RenderChildren
  }

  /** A role stored under its own name is admitted exactly when it is listed. */
  lemma AdmitsNamedRole(allowed: seq<Role>, r: Role)
    ensures Admits(allowed, Some(Name(r))) <==> r in allowed
  {
    if r in allowed {
      var i :| 0 <= i < |allowed| && allowed[i] == r;
      assert Some(Name(r)) == Some(Name(allowed[i]));
    }
    if Admits(allowed, Some(Name(r))) {
      var i :| 0 <= i < |allowed| && Some(Name(r)) == Some(Name(allowed[i]));
      ParseName(r);
      ParseName(allowed[i]);
    }
  }

  /** A signed-in user whose profile did not load, or whose role string is
      none of the three roles, is sent to access-denied by any role list. */
  lemma UnknownRoleDenied(allowed: seq<Role>, role: Option<string>)
    requires role.None? || Parse(role.value).None?
    ensures Decide(false, true, role, Some(allowed)) == Redirect(AccessDeniedPath)
  {
  }

  /** While loading, the guard never redirects, whatever the session holds. */
  lemma LoadingNeverRedirects(signedIn: bool, role: Option<string>, allowed: Option<seq<Role>>)
    ensures !Decide(true, signedIn, role, allowed).Redirect?
  {
  }

  /** For a signed-in, loaded user with a known role, the screen renders
      exactly when the role is listed, and otherwise the user is denied. */
  lemma RenderIffListed(r: Role, allowed: seq<Role>)
    ensures Decide(false, true, Some(Name(r)), Some(allowed)) ==
              if r in allowed then RenderChildren else Redirect(AccessDeniedPath)
  {
    AdmitsNamedRole(allowed, r);
  }
}
