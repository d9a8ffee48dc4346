/** The home screen's role-scoped cards: which card labels each role may
    see, in which order the cards render, and where each card links.
 */
module Dashboard {
  import opened Wrappers
  import opened Roles
  import opened Seqs
  import Routes
  import ProtectedRoute

  datatype Card = Inventario | Cuentas | Racks | Bodegas | Tienda

  /** The order in which the cards are laid out on the page. */
  const CardOrder: seq<Card> := [Inventario, Cuentas, Racks, Bodegas, Tienda]

  function Label(c: Card): string {
    match c
    case Inventario => "Inventario"
    case Cuentas => "Cuentas"
    case Racks => "Racks"
    case Bodegas => "Bodegas"
    case Tienda => "Tienda"
  }

  /** Every card has a place in the layout. */
  lemma AllCardsLaidOut()
    ensures forall c: Card :: c in CardOrder
  {
    forall c: Card ensures c in CardOrder {
      match c
      case Inventario => assert CardOrder[0] == c;
      case Cuentas => assert CardOrder[1] == c;
      case Racks => assert CardOrder[2] == c;
      case Bodegas => assert CardOrder[3] == c;
      case Tienda => assert CardOrder[4] == c;
    }
  }

  /** Labels are distinct, so testing a label for membership in the allowed
      list is testing the card itself. */
  lemma LabelsDistinct(c: Card, d: Card)
    ensures Label(c) == Label(d) ==> c == d
  {
  }

  /** `roleBasedCards[userData?.role] || []`: the cards a role may see, held
      as their labels in the source; a missing profile or an unknown role
      string sees none. */
  function AllowedCards(role: Option<string>): (cs: seq<Card>)
    ensures role == Some(Name(Vendedor)) ==> cs == [Inventario]
    ensures role == Some(Name(Bodeguero)) ==> cs == [Inventario, Racks, Bodegas]
    ensures role == Some(Name(Logistica)) ==> cs == CardOrder
    ensures role.None? || Parse(role.value).None? ==> cs == []
  {
    ParseName(Vendedor);
    ParseName(Bodeguero);
    ParseName(Logistica);
    if role.None? then []
    else
      match Parse(role.value)
      case Some(Vendedor) => [Inventario]
      case Some(Bodeguero) => [Inventario, Racks, Bodegas]
      case Some(Logistica) => [Inventario, Cuentas, Racks, Bodegas, Tienda]
      case None => []
  }

  /** The cards of `layout` that appear in `allowed`, in layout order: the
      `allowedCards.includes(label) && <Card>` test made for each card. */
  function Keep(layout: seq<Card>, allowed: seq<Card>): (cs: seq<Card>)
    ensures forall c :: c in cs <==> c in layout && c in allowed
    ensures IsSubsequence(cs, layout)
  {
    if |layout| == 0 then []
    else if layout[0] in allowed then [layout[0]] + Keep(layout[1..], allowed)
    else Keep(layout[1..], allowed)
  }

  /** The cards rendered: each card of the fixed layout that the role is
      allowed, in layout order whatever the order of the allowed list. */
  function VisibleCards(role: Option<string>): (cs: seq<Card>)
    ensures forall c: Card :: c in cs <==> c in AllowedCards(role)
    ensures IsSubsequence(cs, CardOrder)
  {
    AllCardsLaidOut();
    Keep(CardOrder, AllowedCards(role))
  }

  lemma VendedorCards()
    ensures VisibleCards(Some("vendedor")) == [Inventario]
  {
    ParseName(Vendedor);
  }

  /** The layout narrowed to the warehouse-staff cards. */
  lemma KeepWarehouseCards()
    ensures Keep(CardOrder, [Inventario, Racks, Bodegas]) == [Inventario, Racks, Bodegas]
  {
    var allowed := [Inventario, Racks, Bodegas];
    assert Tienda !in allowed && Cuentas !in allowed;
    assert Keep([Tienda], allowed) == [];
    assert Keep([Bodegas, Tienda], allowed) == [Bodegas];
    assert Keep([Racks, Bodegas, Tienda], allowed) == [Racks, Bodegas];
    assert Keep([Cuentas, Racks, Bodegas, Tienda], allowed) == [Racks, Bodegas];
  }

  lemma BodegueroCards()
    ensures VisibleCards(Some("bodeguero")) == [Inventario, Racks, Bodegas]
  {
    ParseName(Bodeguero);
    assert AllowedCards(Some("bodeguero")) == [Inventario, Racks, Bodegas];
    KeepWarehouseCards();
  }

  /** A layout whose every card is allowed is kept whole. */
  lemma {:induction false} KeepAllAllowed(layout: seq<Card>, allowed: seq<Card>)
    requires forall i :: 0 <= i < |layout| ==> layout[i] in allowed
    ensures Keep(layout, allowed) == layout
  {
    if |layout| > 0 {
      KeepAllAllowed(layout[1..], allowed);
    }
  }

  lemma LogisticaCards()
    ensures VisibleCards(Some("logistica")) == CardOrder
  {
    ParseName(Logistica);
    assert AllowedCards(Some("logistica")) == CardOrder;
    KeepAllAllowed(CardOrder, CardOrder);
  }

  /** A missing profile or a role string that names no role shows no card. */
  lemma UnknownRoleNoCards(role: Option<string>)
    requires role.None? || Parse(role.value).None?
    ensures VisibleCards(role) == []
  {
  }

  /** What a vendedor sees a bodeguero sees, and what a bodeguero sees
      logistica sees. */
  lemma CardsNested(c: Card)
    ensures c in VisibleCards(Some("vendedor")) ==> c in VisibleCards(Some("bodeguero"))
    ensures c in VisibleCards(Some("bodeguero")) ==> c in VisibleCards(Some("logistica"))
  {
    ParseName(Vendedor);
    ParseName(Bodeguero);
    ParseName(Logistica);
  }

  /** The route-table entry each card's link lands on. */
  function RouteIndex(c: Card): (k: nat)
    ensures k < |Routes.Table|
    ensures Routes.Table[k].guard.Protected?
  {
    match c
    case Inventario => 14
    case Cuentas => 16
    case Racks => 11
    case Bodegas => 8
    case Tienda => 4
  }

  /** The path each card links to: the declared path of the card's entry. */
  function LinkTarget(c: Card): (p: string)
    ensures p == Routes.Table[RouteIndex(c)].path
  {
    match c
    case Inventario => "/ver-Producto"
    case Cuentas => "/Ver-users"
    case Racks => "/Ver-rack"
    case Bodegas => "/ver-bodegas"
    case Tienda => "/ver-tienda"
  }

  /** Each card links somewhere of its own. */
  lemma LinkTargetsDistinct(c: Card, d: Card)
    ensures LinkTarget(c) == LinkTarget(d) ==> c == d
  {
    if c != d {
      assert |LinkTarget(c)| != |LinkTarget(d)|;
    }
  }

  /** The entry a card lands on is role-guarded and lists every role the
      card is shown to. */
  lemma CardEntryListsRole(r: Role, c: Card)
    requires c in AllowedCards(Some(Name(r)))
    ensures Routes.Table[RouteIndex(c)].guard.Protected?
    ensures r in Routes.Table[RouteIndex(c)].guard.roles
  {
    ParseName(r);
    match c {
      case Inventario => assert Routes.Table[14].guard.roles == [Bodeguero, Vendedor, Logistica];
      case Cuentas => assert Routes.Table[16].guard.roles == [Logistica]; assert r == Logistica;
      case Racks => assert Routes.Table[11].guard.roles == [Bodeguero, Logistica, Vendedor];
      case Bodegas => assert Routes.Table[8].guard.roles == [Logistica, Bodeguero, Vendedor];
      case Tienda => assert Routes.Table[4].guard.roles == [Logistica, Vendedor]; assert r == Logistica;
    }
  }

  /** Every card shown to a role links to a route whose role list admits
      that role, so following a card never ends on access-denied. */
  lemma CardLinksAdmitRole(r: Role, c: Card)
    requires c in VisibleCards(Some(Name(r)))
    ensures Routes.GuardOf(LinkTarget(c)).Some? && Routes.GuardOf(LinkTarget(c)).value.Protected?
    ensures r in Routes.GuardOf(LinkTarget(c)).value.roles
    ensures Routes.Navigate(LinkTarget(c), false, true, Some(Name(r))) == Routes.Gated(ProtectedRoute.RenderChildren)
  {
    var k := RouteIndex(c);
    CardEntryListsRole(r, c);
    Routes.GuardAt(k, LinkTarget(c));
    Routes.NavigateAt(k, LinkTarget(c), false, true, Some(Name(r)));
    ProtectedRoute.RenderIffListed(r, Routes.Table[k].guard.roles);
  }
}
