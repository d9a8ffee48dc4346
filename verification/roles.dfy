/** The three application roles a user profile can carry, with the string
    each is stored under in the `users` collection (the option values of
    the user-creation form).
 */
module Roles {
  import opened Wrappers

  datatype Role = Logistica | Vendedor | Bodeguero

  const AllRoles: seq<Role> := [Logistica, Vendedor, Bodeguero]

  /** The stored role string. */
  function Name(r: Role): string {
    match r
    case Logistica => "logistica"
    case Vendedor => "vendedor"
    case Bodeguero => "bodeguero"
  }

  /** The role a stored string denotes, if it is one of the three. */
  function Parse(s: string): (r: Option<Role>)
    ensures r.Some? ==> Name(r.value) == s
    ensures r.None? ==> forall x: Role :: Name(x) != s
  {
    if s == "logistica" then Some(Logistica)
    else if s == "vendedor" then Some(Vendedor)
    else if s == "bodeguero" then Some(Bodeguero)
    else None
  }

  /** Parsing inverts naming, so distinct roles have distinct names. */
  lemma ParseName(r: Role)
    ensures Parse(Name(r)) == Some(r)
  {
  }

  lemma AllRolesComplete(r: Role)
    ensures r in AllRoles
  {
  }
}
