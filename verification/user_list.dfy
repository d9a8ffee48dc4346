/** The user listing: one row per profile with fallbacks for a missing name,
    store or creation date. Date formatting belongs to the browser's locale
    and is a parameter here.
 */
module UserList {
  import opened Wrappers
  import opened Text
  import opened Records

  const NoName: string := "Sin nombre"
  const NoStore: string := "No asignada"
  const NoDate: string := "N/A"

  const Headers: seq<string> := ["Nombre", "Email", "Rol", "Tienda Asociada", "Fecha de Creación"]

  /** `fetchUsers`: the profiles on success; on failure the list stays as it
      was, empty. Loading ends either way. */
  function LoadUsers(fetch: Result<seq<UserDoc>>): (users: seq<UserDoc>)
    ensures fetch.Failure? ==> users == []
    ensures fetch.Success? ==> users == fetch.value
  {
    if fetch.Success? then fetch.value else []
  }

  /** The row of one profile; `formatDate` renders a creation timestamp. */
  function UserRow(u: UserDoc, formatDate: nat -> string): (row: Row)
    ensures |row| == |Headers|
    ensures !Truthy(u.name) ==> row[0] == Str(NoName)
    ensures Truthy(u.name) ==> row[0] == Str(u.name.value)
    ensures row[1] == FieldCell(u.email) && row[2] == FieldCell(u.role)
    ensures !Truthy(u.store) ==> row[3] == Str(NoStore)
    ensures Truthy(u.store) ==> row[3] == Str(u.store.value)
    ensures u.createdAt.None? ==> row[4] == Str(NoDate)
    ensures u.createdAt.Some? ==> row[4] == Str(formatDate(u.createdAt.value))
  {
    [ Str(Or(u.name, NoName)),
      FieldCell(u.email),
      FieldCell(u.role),
      Str(Or(u.store, NoStore)),
      if u.createdAt.Some? then Str(formatDate(u.createdAt.value)) else Str(NoDate) ]
  }

  /** `users.map(...)`: one row per profile, in order. */
  function UserRows(users: seq<UserDoc>, formatDate: nat -> string): (rows: seq<Row>)
    ensures |rows| == |users|
    ensures forall i :: 0 <= i < |users| ==> rows[i] == UserRow(users[i], formatDate)
  {
    if |users| == 0 then [] else [UserRow(users[0], formatDate)] + UserRows(users[1..], formatDate)
  }

  /** A failed read shows no rows at all. */
  lemma FailedLoadNoRows(error: string, formatDate: nat -> string)
    ensures UserRows(LoadUsers(Failure(error)), formatDate) == []
  {
  }

  /** Rows are concatenation-compatible: the rows of two lists of profiles
      are the rows of the first followed by those of the second. */
  lemma {:induction false} UserRowsAppend(xs: seq<UserDoc>, ys: seq<UserDoc>, formatDate: nat -> string)
    ensures UserRows(xs + ys, formatDate) == UserRows(xs, formatDate) + UserRows(ys, formatDate)
  {
    if |xs| == 0 {
      assert xs + ys == ys;
    } else {
      assert (xs + ys)[1..] == xs[1..] + ys;
      UserRowsAppend(xs[1..], ys, formatDate);
    }
  }
}
