/** The product listing: a case-insensitive search over SKU and product
    name, pagination of the matches five at a time, and a row per product
    on the current page joined to its rack (by rack code) and that rack's
    warehouse (by warehouse code). Joins never drop a product: a code that
    resolves to nothing shows a fixed sentinel instead.
 */
module ProductList {
  import opened Wrappers
  import opened Text
  import opened Seqs
  import opened Records
  import ResponsiveTable

  const ItemsPerPage: nat := 5

  const RackMissing: string := "Rack no encontrado"
  const FilaMissing: string := "Fila no encontrada"
  const NoPasillo: string := "Sin pasillo"
  const BodegaMissing: string := "Bodega no encontrada"

  const Headers: seq<string> := ["SKU", "Nombre del Producto", "Rack", "Fila", "Pasillo", "Bodega"]

  /** The component's state: the three collections, the loading flag, the
      stored (lower-cased) query and the 1-based current page. */
  datatype View = View(
    productos: seq<Product>,
    racks: seq<Rack>,
    bodegas: seq<Bodega>,
    loading: bool,
    query: string,
    page: int)

  const Initial: View := View([], [], [], true, "", 1)

  // ---------------------------------------------------------------- loading

  /** `fetchData`: the three reads run under one `Promise.all`, and the
      collections are stored only once all three have succeeded. Loading
      ends either way. */
  function Load(v: View, ps: Result<seq<Product>>, rs: Result<seq<Rack>>, bs: Result<seq<Bodega>>): (r: View)
    ensures !r.loading && r.query == v.query && r.page == v.page
    ensures ps.Success? && rs.Success? && bs.Success? ==>
              r.productos == ps.value && r.racks == rs.value && r.bodegas == bs.value
    ensures ps.Failure? || rs.Failure? || bs.Failure? ==>
              r.productos == v.productos && r.racks == v.racks && r.bodegas == v.bodegas
  {
    if ps.Success? && rs.Success? && bs.Success? then
      v.(productos := ps.value, racks := rs.value, bodegas := bs.value, loading := false)
    else
      v.(loading := false)
  }

  /** On the mount-time load either every collection is populated or none
      is: a failure of one read never leaves another one half shown. */
  lemma LoadAllOrNothing(ps: Result<seq<Product>>, rs: Result<seq<Rack>>, bs: Result<seq<Bodega>>)
    ensures var r := Load(Initial, ps, rs, bs);
            || (ps.Success? && rs.Success? && bs.Success?
                && r.productos == ps.value && r.racks == rs.value && r.bodegas == bs.value)
            || (r.productos == [] && r.racks == [] && r.bodegas == [])
    ensures var r := Load(Initial, ps, rs, bs);
            ps.Failure? ==> r.racks == [] && r.bodegas == []
  {
  }

  // ----------------------------------------------------------------- search

  /** The filter test: the query occurs in the lower-cased SKU or the
      lower-cased product name. */
  predicate Matches(p: Product, q: string) {
    Contains(Lower(p.sku), q) || Contains(Lower(p.nombreProducto), q)
  }

  /** `productos.filter(...)` with the search test. */
  function Search(ps: seq<Product>, q: string): (r: seq<Product>)
    ensures |r| <= |ps|
    ensures forall i :: 0 <= i < |r| ==> Matches(r[i], q) && r[i] in ps
    ensures forall i :: 0 <= i < |ps| ==> (ps[i] in r <==> Matches(ps[i], q))
    ensures IsSubsequence(r, ps)
  {
    if |ps| == 0 then []
    else if Matches(ps[0], q) then [ps[0]] + Search(ps[1..], q)
    else Search(ps[1..], q)
  }

  /** The empty query matches every product, so nothing is filtered out. */
  lemma {:induction false} EmptyQueryKeepsAll(ps: seq<Product>)
    ensures Search(ps, "") == ps
  {
    if |ps| > 0 {
      ContainsEmpty(Lower(ps[0].sku));
      EmptyQueryKeepsAll(ps[1..]);
    }
  }

  /** Searching distributes over concatenation, so the matches keep the
      collection's order. */
  lemma {:induction false} SearchAppend(xs: seq<Product>, ys: seq<Product>, q: string)
    ensures Search(xs + ys, q) == Search(xs, q) + Search(ys, q)
  {
    if |xs| == 0 {
      assert xs + ys == ys;
    } else {
      assert (xs + ys)[1..] == xs[1..] + ys;
      SearchAppend(xs[1..], ys, q);
    }
  }

  function Filtered(v: View): seq<Product> {
    Search(v.productos, v.query)
  }

  /** `handleSearch`: store the lower-cased input and go back to page 1. */
  function HandleSearch(v: View, input: string): (r: View)
    ensures r.page == 1
    ensures r.query == Lower(input)
    ensures |r.query| == |input| && Lower(r.query) == r.query
    ensures r.productos == v.productos && r.racks == v.racks && r.bodegas == v.bodegas && r.loading == v.loading
  {
    LowerIdempotent(input);
    v.(query := Lower(input), page := 1)
  }

  /** Inputs that differ only in letter case lead to the same state. */
  lemma SearchIgnoresCase(v: View, a: string, b: string)
    requires Lower(a) == Lower(b)
    ensures HandleSearch(v, a) == HandleSearch(v, b)
  {
  }

  // ------------------------------------------------------------- pagination

  /** `Math.ceil(n / itemsPerPage)`. */
  function TotalPages(n: nat): (t: nat)
    ensures t * ItemsPerPage >= n
    ensures t > 0 ==> (t - 1) * ItemsPerPage < n
  {
    if n % ItemsPerPage == 0 then n / ItemsPerPage else n / ItemsPerPage + 1
  }

  /** No matches means no pages; one to five matches means one page. */
  lemma TotalPagesSmall(n: nat)
    ensures TotalPages(n) == 0 <==> n == 0
    ensures TotalPages(n) == 1 <==> 1 <= n <= ItemsPerPage
  {
  }

  function Min(a: int, b: int): int {
    if a <= b then a else b
  }

  /** `slice(indexOfFirstItem, indexOfLastItem)` for a 1-based page. */
  function PageOf<T>(xs: seq<T>, page: int): (r: seq<T>)
    requires page >= 1
    ensures |r| <= ItemsPerPage
    ensures r == xs[Min((page - 1) * ItemsPerPage, |xs|)..Min(page * ItemsPerPage, |xs|)]
  {
    var last := page * ItemsPerPage;
    Slice(xs, last - ItemsPerPage, last)
  }

  /** Pages 1 through `k`, one after the other. */
  function Paged<T>(xs: seq<T>, k: nat): seq<T> {
    if k == 0 then [] else Paged(xs, k - 1) + PageOf(xs, k)
  }

  lemma {:induction false} PagedIsPrefix<T>(xs: seq<T>, k: nat)
    ensures Paged(xs, k) == xs[..Min(k * ItemsPerPage, |xs|)]
  {
    if k > 0 {
      PagedIsPrefix(xs, k - 1);
      var a := Min((k - 1) * ItemsPerPage, |xs|);
      var b := Min(k * ItemsPerPage, |xs|);
      assert xs[..a] + xs[a..b] == xs[..b];
    }
  }

  /** Reading every page in turn shows every match exactly once, in order. */
  lemma PagesCoverList<T>(xs: seq<T>)
    ensures Paged(xs, TotalPages(|xs|)) == xs
  {
    PagedIsPrefix(xs, TotalPages(|xs|));
  }

  /** A page within range is never empty. */
  lemma PageInRangeNotEmpty<T>(xs: seq<T>, page: int)
    requires 1 <= page <= TotalPages(|xs|)
    ensures 0 < |PageOf(xs, page)|
  {
  }

  /** `handlePageChange`: move only to a page between 1 and the page count. */
  function HandlePageChange(v: View, newPage: int): (r: View)
    ensures r.page == v.page || 1 <= r.page <= TotalPages(|Filtered(v)|)
    ensures r.page == newPage <==> (1 <= newPage <= TotalPages(|Filtered(v)|) || newPage == v.page)
    ensures r.(page := v.page) == v
    ensures !(1 <= newPage <= TotalPages(|Filtered(v)|)) ==> r == v
  {
    if 1 <= newPage <= TotalPages(|Filtered(v)|) then v.(page := newPage) else v
  }

  /** The page is at least 1, and past page 1 only while it has matches. */
  predicate PageValid(v: View) {
    v.page >= 1 && (v.page == 1 || v.page <= TotalPages(|Filtered(v)|))
  }

  /** The initial state, the mount-time load, a search and a page change
      all keep the page valid. */
  lemma PageValidPreserved(v: View, input: string, newPage: int,
                           ps: Result<seq<Product>>, rs: Result<seq<Rack>>, bs: Result<seq<Bodega>>)
    ensures PageValid(Initial)
    ensures PageValid(Load(Initial, ps, rs, bs))
    ensures PageValid(HandleSearch(v, input))
    ensures PageValid(v) ==> PageValid(HandlePageChange(v, newPage))
  {
  }

  /** In a valid state the page on screen shows something whenever there
      is a match. */
  lemma ValidPageShowsMatches(v: View)
    requires PageValid(v)
    requires |Filtered(v)| > 0
    ensures 0 < |PageOf(Filtered(v), v.page)|
  {
    PageInRangeNotEmpty(Filtered(v), v.page);
  }

  // -------------------------------------------------------------- the join

  /** `racks.find(r => r.codRack === producto.rack)`. */
  function RackOf(p: Product, racks: seq<Rack>): Option<Rack> {
    FindBy(racks, RackCode, p.rack)
  }

  /** `bodegas.find(b => b.codBodega === rack.codBodega)`. */
  function BodegaOf(rk: Rack, bodegas: seq<Bodega>): Option<Bodega> {
    FindBy(bodegas, BodegaCode, rk.codBodega)
  }

  /** The row of one product: SKU, name, rack number, row, aisle and
      warehouse name, joined through the first rack carrying the product's
      rack code and the first warehouse carrying that rack's warehouse code. */
  function ProductRow(p: Product, racks: seq<Rack>, bodegas: seq<Bodega>): (row: Row)
    ensures |row| == |Headers|
    ensures row[0] == Str(p.sku) && row[1] == Str(p.nombreProducto)
    ensures row[4].Str? && row[4].s != ""
    ensures (forall j :: 0 <= j < |racks| ==> racks[j].codRack != p.rack) ==>
              row[2..] == [Str(RackMissing), Str(FilaMissing), Str(NoPasillo), Str(BodegaMissing)]
    ensures forall j :: (0 <= j < |racks| && racks[j].codRack == p.rack
                && (forall i :: 0 <= i < j ==> racks[i].codRack != p.rack)) ==>
              && row[2] == FieldCell(racks[j].numRack)
              && row[3] == FieldCell(racks[j].fila)
              && row[4] == Str(Or(racks[j].pasillo, NoPasillo))
              && ((forall b :: 0 <= b < |bodegas| ==> bodegas[b].codBodega != racks[j].codBodega) ==>
                    row[5] == Str(BodegaMissing))
              && (forall b :: (0 <= b < |bodegas| && bodegas[b].codBodega == racks[j].codBodega
                    && (forall a :: 0 <= a < b ==> bodegas[a].codBodega != racks[j].codBodega)) ==>
                    row[5] == FieldCell(bodegas[b].nomBodega))
  {
    var rack := RackOf(p, racks);
    var numRack := if rack.Some? then FieldCell(rack.value.numRack) else Str(RackMissing);
    var fila := if rack.Some? then FieldCell(rack.value.fila) else Str(FilaMissing);
    var pasillo := Or(if rack.Some? then rack.value.pasillo else None, NoPasillo);
    var bodega := if rack.Some? then BodegaOf(rack.value, bodegas) else None;
    var nombreBodega := if bodega.Some? then FieldCell(bodega.value.nomBodega) else Str(BodegaMissing);
    [Str(p.sku), Str(p.nombreProducto), numRack, fila, Str(pasillo), nombreBodega]
  }

  /** The same row computed from code-indexed maps of racks and warehouses
      in which the first record carrying a code wins. */
  function IndexedRow(p: Product, rackIndex: map<Option<string>, Rack>, bodegaIndex: map<Option<string>, Bodega>): Row {
    if p.rack !in rackIndex then
      [Str(p.sku), Str(p.nombreProducto), Str(RackMissing), Str(FilaMissing), Str(NoPasillo), Str(BodegaMissing)]
    else
      var rk := rackIndex[p.rack];
      var nombreBodega :=
        if rk.codBodega in bodegaIndex then FieldCell(bodegaIndex[rk.codBodega].nomBodega) else Str(BodegaMissing);
      [Str(p.sku), Str(p.nombreProducto), FieldCell(rk.numRack), FieldCell(rk.fila), Str(Or(rk.pasillo, NoPasillo)), nombreBodega]
  }

  /** Scanning the collections with `find` and looking codes up in
      first-wins indexes give the same row. */
  lemma ProductRowByIndex(p: Product, racks: seq<Rack>, bodegas: seq<Bodega>)
    ensures ProductRow(p, racks, bodegas) == IndexedRow(p, IndexBy(racks, RackCode), IndexBy(bodegas, BodegaCode))
  {
    IndexByAgreesWithFindBy(racks, RackCode, p.rack);
    var rack := RackOf(p, racks);
    if rack.Some? {
      IndexByAgreesWithFindBy(bodegas, BodegaCode, rack.value.codBodega);
    }
  }

  /** `currentItems.map(...)`: one row per product, in order. */
  function ProductRows(items: seq<Product>, racks: seq<Rack>, bodegas: seq<Bodega>): (rows: seq<Row>)
    ensures |rows| == |items|
    ensures forall i :: 0 <= i < |items| ==> rows[i] == ProductRow(items[i], racks, bodegas)
  {
    if |items| == 0 then []
    else [ProductRow(items[0], racks, bodegas)] + ProductRows(items[1..], racks, bodegas)
  }

  /** The rows handed to the table: those of the current page. */
  function Rows(v: View): (rows: seq<Row>)
    requires v.page >= 1
    ensures |rows| == |PageOf(Filtered(v), v.page)| <= ItemsPerPage
    ensures forall i :: 0 <= i < |rows| ==> rows[i] == ProductRow(PageOf(Filtered(v), v.page)[i], v.racks, v.bodegas)
  {
    ProductRows(PageOf(Filtered(v), v.page), v.racks, v.bodegas)
  }

  /** With at most one page of matches, a valid state is on page 1 and its
      table holds one row per match, in order. */
  lemma FewMatchesAllShown(v: View)
    requires PageValid(v)
    requires |Filtered(v)| <= ItemsPerPage
    ensures v.page == 1
    ensures Rows(v) == ProductRows(Filtered(v), v.racks, v.bodegas)
  {
    assert TotalPages(|Filtered(v)|) <= 1;
    assert PageOf(Filtered(v), 1) == Filtered(v);
  }

  /** A search that leaves at most five matches shows all of them on the
      first page: for twelve products of which three match, the table
      holds exactly the three matching rows. */
  lemma SearchShowsFewMatches(v: View, input: string)
    requires |Search(v.productos, Lower(input))| <= ItemsPerPage
    ensures var r := HandleSearch(v, input);
            Rows(r) == ProductRows(Search(v.productos, Lower(input)), v.racks, v.bodegas)
    ensures |Rows(HandleSearch(v, input))| == |Search(v.productos, Lower(input))|
  {
    FewMatchesAllShown(HandleSearch(v, input));
  }

  /** The table's own fixed first-page slice shows the already paginated
      rows unchanged, and every cell of a row has its header. */
  lemma TableShowsCurrentPage(v: View)
    requires v.page >= 1
    ensures ResponsiveTable.Displayed(Rows(v)) == Rows(v)
    ensures forall i :: 0 <= i < |Rows(v)| ==> |Rows(v)[i]| == |Headers|
  {
    ResponsiveTable.ShortListShownWhole(Rows(v));
  }
}
