/** The warehouse report: the warehouses, optionally narrowed to one store,
    each shown with its store's name, the number of products stocked on
    its racks and the number of its racks. A zero count shows a sentence
    instead of the number; an unknown store shows a sentinel.
 */
module WarehouseReport {
  import opened Wrappers
  import opened Seqs
  import opened Records

  const TiendaMissing: string := "Tienda no encontrada"
  const NoProducts: string := "No hay productos registrados"
  const NoRacks: string := "No hay racks registrados"

  const Headers: seq<string> := ["Nombre de Bodega", "Tienda Asociada", "Cantidad de Productos", "Cantidad de Racks"]

  /** The four collections, held only once all four reads succeeded. */
  datatype Data = Data(bodegas: seq<Bodega>, tiendas: seq<Tienda>, productos: seq<Product>, racks: seq<Rack>)

  /** `fetchData`: four reads one after the other; any failure ends in the
      catch block before a single collection is stored. */
  function LoadReport(bs: Result<seq<Bodega>>, ts: Result<seq<Tienda>>,
                      ps: Result<seq<Product>>, rs: Result<seq<Rack>>): (d: Data)
    ensures bs.Success? && ts.Success? && ps.Success? && rs.Success? ==>
              d == Data(bs.value, ts.value, ps.value, rs.value)
    ensures bs.Failure? || ts.Failure? || ps.Failure? || rs.Failure? ==>
              d.bodegas == [] && d.tiendas == [] && d.productos == [] && d.racks == []
  {
    if bs.Success? && ts.Success? && ps.Success? && rs.Success? then
      Data(bs.value, ts.value, ps.value, rs.value)
    else
      Data([], [], [], [])
  }

  // ------------------------------------------------------------ store filter

  /** `bodegas.filter(b => b.idTienda === selectedTienda)`. */
  function OfTienda(bodegas: seq<Bodega>, id: string): (r: seq<Bodega>)
    ensures forall i :: 0 <= i < |r| ==> r[i].idTienda == Some(id) && r[i] in bodegas
    ensures forall i :: 0 <= i < |bodegas| ==> (bodegas[i] in r <==> bodegas[i].idTienda == Some(id))
    ensures IsSubsequence(r, bodegas)
  {
    if |bodegas| == 0 then []
    else if bodegas[0].idTienda == Some(id) then [bodegas[0]] + OfTienda(bodegas[1..], id)
    else OfTienda(bodegas[1..], id)
  }

  /** The filter effect: an empty selection shows every warehouse. */
  function FilterByTienda(bodegas: seq<Bodega>, selected: string): (r: seq<Bodega>)
    ensures selected == "" ==> r == bodegas
    ensures selected != "" ==> forall i :: 0 <= i < |r| ==> r[i].idTienda == Some(selected)
    ensures selected != "" ==> forall i :: 0 <= i < |bodegas| ==> (bodegas[i] in r <==> bodegas[i].idTienda == Some(selected))
    ensures IsSubsequence(r, bodegas)
  {
    SubsequenceReflexive(bodegas);
    if selected != "" then OfTienda(bodegas, selected) else bodegas
  }

  /** Filtering distributes over concatenation: identical warehouses of the
      store are each kept. */
  lemma {:induction false} OfTiendaAppend(xs: seq<Bodega>, ys: seq<Bodega>, id: string)
    ensures OfTienda(xs + ys, id) == OfTienda(xs, id) + OfTienda(ys, id)
  {
    if |xs| == 0 {
      assert xs + ys == ys;
    } else {
      assert (xs + ys)[1..] == xs[1..] + ys;
      OfTiendaAppend(xs[1..], ys, id);
    }
  }

  /** Filtering what is already filtered by the same store changes nothing. */
  lemma {:induction false} OfTiendaIdempotent(bodegas: seq<Bodega>, id: string)
    ensures OfTienda(OfTienda(bodegas, id), id) == OfTienda(bodegas, id)
  {
    if |bodegas| > 0 {
      OfTiendaIdempotent(bodegas[1..], id);
    }
  }

  lemma FilterByTiendaIdempotent(bodegas: seq<Bodega>, selected: string)
    ensures FilterByTienda(FilterByTienda(bodegas, selected), selected) == FilterByTienda(bodegas, selected)
  {
    OfTiendaIdempotent(bodegas, selected);
  }

  // ----------------------------------------------------- counts per warehouse

  /** `racks.filter(rack => rack.codBodega === codBodega)`. */
  function RacksOf(racks: seq<Rack>, cod: Option<string>): (r: seq<Rack>)
    ensures |r| <= |racks|
    ensures forall i :: 0 <= i < |r| ==> r[i].codBodega == cod && r[i] in racks
    ensures forall i :: 0 <= i < |racks| ==> (racks[i] in r <==> racks[i].codBodega == cod)
    ensures IsSubsequence(r, racks)
  {
    if |racks| == 0 then []
    else if racks[0].codBodega == cod then [racks[0]] + RacksOf(racks[1..], cod)
    else RacksOf(racks[1..], cod)
  }

  /** Filtering distributes over concatenation: every rack of the warehouse
      is kept as often as it occurs, so the rack count is the number of
      matching documents, identical ones included. */
  lemma {:induction false} RacksOfAppend(xs: seq<Rack>, ys: seq<Rack>, cod: Option<string>)
    ensures RacksOf(xs + ys, cod) == RacksOf(xs, cod) + RacksOf(ys, cod)
  {
    if |xs| == 0 {
      assert xs + ys == ys;
    } else {
      assert (xs + ys)[1..] == xs[1..] + ys;
      RacksOfAppend(xs[1..], ys, cod);
    }
  }

  /** Two identical racks of a warehouse are counted twice. */
  lemma DuplicateRacksCounted(k: Rack)
    ensures |RacksOf([k, k], k.codBodega)| == 2
  {
    RacksOfAppend([k], [k], k.codBodega);
    assert [k, k] == [k] + [k];
  }

  /** `racksForBodega.map(rack => rack.codRack)`. */
  function RackCodes(racks: seq<Rack>): (codes: seq<Option<string>>)
    ensures |codes| == |racks|
    ensures forall i :: 0 <= i < |racks| ==> codes[i] == racks[i].codRack
  {
    if |racks| == 0 then [] else [racks[0].codRack] + RackCodes(racks[1..])
  }

  /** `productos.filter(producto => rackIds.includes(producto.rack))`. */
  function OnRacks(productos: seq<Product>, codes: seq<Option<string>>): (r: seq<Product>)
    ensures |r| <= |productos|
    ensures forall i :: 0 <= i < |r| ==> r[i].rack in codes && r[i] in productos
    ensures forall i :: 0 <= i < |productos| ==> (productos[i] in r <==> productos[i].rack in codes)
    ensures IsSubsequence(r, productos)
  {
    if |productos| == 0 then []
    else if productos[0].rack in codes then [productos[0]] + OnRacks(productos[1..], codes)
    else OnRacks(productos[1..], codes)
  }

  /** Filtering distributes over concatenation, so the product count is the
      number of matching documents, identical ones included. */
  lemma {:induction false} OnRacksAppend(xs: seq<Product>, ys: seq<Product>, codes: seq<Option<string>>)
    ensures OnRacks(xs + ys, codes) == OnRacks(xs, codes) + OnRacks(ys, codes)
  {
    if |xs| == 0 {
      assert xs + ys == ys;
    } else {
      assert (xs + ys)[1..] == xs[1..] + ys;
      OnRacksAppend(xs[1..], ys, codes);
    }
  }

  /** A product is stocked in a warehouse when some rack of that warehouse
      carries the product's rack code. */
  predicate StockedIn(p: Product, racks: seq<Rack>, cod: Option<string>) {
    exists j :: 0 <= j < |racks| && racks[j].codBodega == cod && racks[j].codRack == p.rack
  }

  /** A product's rack code is among the warehouse's rack codes exactly when
      one of the warehouse's racks carries it. */
  lemma InCodesIffStocked(p: Product, racks: seq<Rack>, cod: Option<string>)
    ensures p.rack in RackCodes(RacksOf(racks, cod)) <==> StockedIn(p, racks, cod)
  {
    var mine := RacksOf(racks, cod);
    var codes := RackCodes(mine);
    if p.rack in codes {
      var k :| 0 <= k < |codes| && codes[k] == p.rack;
      var j :| 0 <= j < |racks| && racks[j] == mine[k];
      assert racks[j].codBodega == cod && racks[j].codRack == p.rack;
    }
    if StockedIn(p, racks, cod) {
      var j :| 0 <= j < |racks| && racks[j].codBodega == cod && racks[j].codRack == p.rack;
      var k :| 0 <= k < |mine| && mine[k] == racks[j];
      assert codes[k] == p.rack;
    }
  }

  lemma AllInCodesIffStocked(productos: seq<Product>, racks: seq<Rack>, cod: Option<string>)
    ensures forall i :: 0 <= i < |productos| ==>
              (productos[i].rack in RackCodes(RacksOf(racks, cod)) <==> StockedIn(productos[i], racks, cod))
  {
    forall i | 0 <= i < |productos|
      ensures productos[i].rack in RackCodes(RacksOf(racks, cod)) <==> StockedIn(productos[i], racks, cod)
    {
      InCodesIffStocked(productos[i], racks, cod);
    }
  }

  /** `getProductosForBodega`: the products stocked in the warehouse, in
      collection order. */
  function ProductosFor(productos: seq<Product>, racks: seq<Rack>, cod: Option<string>): (r: seq<Product>)
    ensures IsSubsequence(r, productos)
    ensures |r| <= |productos|
    ensures forall i :: 0 <= i < |r| ==> StockedIn(r[i], racks, cod)
    ensures forall i :: 0 <= i < |productos| ==> (productos[i] in r <==> StockedIn(productos[i], racks, cod))
  {
    AllInCodesIffStocked(productos, racks, cod);
    var r := OnRacks(productos, RackCodes(RacksOf(racks, cod)));
    AllInCodesIffStocked(r, racks, cod);
    r
  }

  /** The products of two collections together are those of each, in
      order, identical documents each counted. */
  lemma ProductosForAppend(xs: seq<Product>, ys: seq<Product>, racks: seq<Rack>, cod: Option<string>)
    ensures ProductosFor(xs + ys, racks, cod) == ProductosFor(xs, racks, cod) + ProductosFor(ys, racks, cod)
  {
    OnRacksAppend(xs, ys, RackCodes(RacksOf(racks, cod)));
  }

  /** A warehouse without racks has no products. */
  lemma NoRacksNoProducts(productos: seq<Product>, racks: seq<Rack>, cod: Option<string>)
    requires |RacksOf(racks, cod)| == 0
    ensures |ProductosFor(productos, racks, cod)| == 0
  {
  }

  // ------------------------------------------------------------------- rows

  /** `tiendas.find(t => t.id === bodega.idTienda)`. */
  function TiendaOf(b: Bodega, tiendas: seq<Tienda>): Option<Tienda> {
    FindBy(tiendas, TiendaId, b.idTienda)
  }

  /** A count cell: the number when positive, otherwise the sentence. */
  function CountCell(n: nat, none: string): (c: Cell)
    ensures c == Str(none) <==> n == 0
    ensures c.Num? <==> n > 0
    ensures c.Num? ==> c.n == n
  {
    if n > 0 then Num(n) else Str(none)
  }

  /** The store cell: the name of the first store whose id matches, or the
      sentinel when none does. */
  function TiendaCell(b: Bodega, tiendas: seq<Tienda>): (c: Cell)
    ensures (forall t :: 0 <= t < |tiendas| ==> b.idTienda != Some(tiendas[t].id)) ==> c == Str(TiendaMissing)
    ensures forall t :: (0 <= t < |tiendas| && b.idTienda == Some(tiendas[t].id)
                && (forall u :: 0 <= u < t ==> b.idTienda != Some(tiendas[u].id))) ==>
              c == FieldCell(tiendas[t].nombreTienda)
  {
    var tienda := TiendaOf(b, tiendas);
    if tienda.Some? then FieldCell(tienda.value.nombreTienda) else Str(TiendaMissing)
  }

  /** The row of one warehouse. */
  function ReportRow(b: Bodega, d: Data): (row: Row)
    ensures |row| == |Headers|
    ensures row[0] == FieldCell(b.nomBodega)
    ensures (forall t :: 0 <= t < |d.tiendas| ==> b.idTienda != Some(d.tiendas[t].id)) ==> row[1] == Str(TiendaMissing)
    ensures forall t :: (0 <= t < |d.tiendas| && b.idTienda == Some(d.tiendas[t].id)
                && (forall u :: 0 <= u < t ==> b.idTienda != Some(d.tiendas[u].id))) ==>
              row[1] == FieldCell(d.tiendas[t].nombreTienda)
    ensures row[2] == Str(NoProducts) <==> |ProductosFor(d.productos, d.racks, b.codBodega)| == 0
    ensures row[2].Num? <==> |ProductosFor(d.productos, d.racks, b.codBodega)| > 0
    ensures row[2].Num? ==> row[2].n == |ProductosFor(d.productos, d.racks, b.codBodega)| <= |d.productos|
    ensures row[3] == Str(NoRacks) <==> |RacksOf(d.racks, b.codBodega)| == 0
    ensures row[3].Num? <==> |RacksOf(d.racks, b.codBodega)| > 0
    ensures row[3].Num? ==> row[3].n == |RacksOf(d.racks, b.codBodega)| <= |d.racks|
  {
    [ FieldCell(b.nomBodega),
      TiendaCell(b, d.tiendas),
      CountCell(|ProductosFor(d.productos, d.racks, b.codBodega)|, NoProducts),
      CountCell(|RacksOf(d.racks, b.codBodega)|, NoRacks) ]
  }

  /** A row that reports no racks also reports no products. */
  lemma NoRacksRowNoProducts(b: Bodega, d: Data)
    ensures ReportRow(b, d)[3] == Str(NoRacks) ==> ReportRow(b, d)[2] == Str(NoProducts)
  {
    if |RacksOf(d.racks, b.codBodega)| == 0 {
      NoRacksNoProducts(d.productos, d.racks, b.codBodega);
    }
  }

  /** `filteredBodegas.map(...)`: one row per shown warehouse, in order. */
  function ReportRows(shown: seq<Bodega>, d: Data): (rows: seq<Row>)
    ensures |rows| == |shown|
    ensures forall i :: 0 <= i < |shown| ==> rows[i] == ReportRow(shown[i], d)
  {
    if |shown| == 0 then [] else [ReportRow(shown[0], d)] + ReportRows(shown[1..], d)
  }

  /** The rows for a store selection. */
  function Report(d: Data, selected: string): (rows: seq<Row>)
    ensures |rows| == |FilterByTienda(d.bodegas, selected)| <= |d.bodegas|
    ensures selected == "" ==> |rows| == |d.bodegas|
    ensures forall i :: 0 <= i < |rows| ==> rows[i] == ReportRow(FilterByTienda(d.bodegas, selected)[i], d)
  {
    var shown := FilterByTienda(d.bodegas, selected);
    SubsequenceNoLonger(shown, d.bodegas);
    ReportRows(shown, d)
  }

  /** A failed load shows an empty report whatever the selection. */
  lemma FailedLoadEmptyReport(bs: Result<seq<Bodega>>, ts: Result<seq<Tienda>>,
                              ps: Result<seq<Product>>, rs: Result<seq<Rack>>, selected: string)
    requires bs.Failure? || ts.Failure? || ps.Failure? || rs.Failure?
    ensures Report(LoadReport(bs, ts, ps, rs), selected) == []
  {
  }
}
