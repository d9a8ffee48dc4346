/** The rack listing: each rack resolved to the name of its warehouse, then
    shown with a fallback for every empty field. The warehouse collection
    is read only for racks that name a warehouse, and any failed read
    leaves the listing empty.
 */
module RackList {
  import opened Wrappers
  import opened Text
  import opened Seqs
  import opened Records

  const NoBodega: string := "Sin bodega"
  const NameUnavailable: string := "Nombre de bodega no disponible"
  const NoCode: string := "Sin código"
  const NoFila: string := "Sin fila"
  const NoNumber: string := "N/A"
  const NoPasillo: string := "Sin pasillo"

  const Headers: seq<string> := ["Código de Rack", "Bodega Asociada", "Fila", "Número de Rack", "Pasillo"]

  /** `{ id, ...rackData, bodegaName }`: the rack's own fields plus the
      resolved warehouse name. */
  datatype ResolvedRack = ResolvedRack(rack: Rack, bodegaName: string)

  /** The warehouse name of one rack. */
  function BodegaName(rk: Rack, bodegas: seq<Bodega>): (name: string)
    ensures name != ""
    ensures !Truthy(rk.codBodega) ==> name == NoBodega
    ensures (forall i :: 0 <= i < |bodegas| ==> bodegas[i].codBodega != rk.codBodega) ==> name == NoBodega
    ensures Truthy(rk.codBodega) ==>
              forall i :: (0 <= i < |bodegas| && bodegas[i].codBodega == rk.codBodega
                  && (forall j :: 0 <= j < i ==> bodegas[j].codBodega != rk.codBodega)) ==>
                name == Or(bodegas[i].nomBodega, NameUnavailable)
  {
    if Truthy(rk.codBodega) then
      match FindBy(bodegas, BodegaCode, rk.codBodega)
      case None => NoBodega
      case Some(b) => Or(b.nomBodega, NameUnavailable)
    else NoBodega
  }

  /** A rack naming no warehouse never consults the warehouse collection. */
  lemma NameWithoutCodeIgnoresBodegas(rk: Rack, bodegas: seq<Bodega>, others: seq<Bodega>)
    requires !Truthy(rk.codBodega)
    ensures BodegaName(rk, bodegas) == BodegaName(rk, others)
  {
  }

  /** The resolved list: one entry per rack, in order, rack fields kept. */
  function Resolve(racks: seq<Rack>, bodegas: seq<Bodega>): (r: seq<ResolvedRack>)
    ensures |r| == |racks|
    ensures forall i :: 0 <= i < |racks| ==> r[i].rack == racks[i] && r[i].bodegaName == BodegaName(racks[i], bodegas)
  {
    if |racks| == 0 then [] else [ResolvedRack(racks[0], BodegaName(racks[0], bodegas))] + Resolve(racks[1..], bodegas)
  }

  /** Some rack names a warehouse, so the warehouse collection is read. */
  predicate NeedsBodegas(racks: seq<Rack>) {
    exists i :: 0 <= i < |racks| && Truthy(racks[i].codBodega)
  }

  /** `fetchRacks`: the rack read, then one warehouse read per rack that
      names a warehouse, all under one `Promise.all`. Every warehouse read
      is modelled by the same outcome `bs`. A failure leaves the list as it
      was, empty. */
  function LoadRacks(rs: Result<seq<Rack>>, bs: Result<seq<Bodega>>): (r: seq<ResolvedRack>)
    ensures rs.Failure? ==> r == []
    ensures rs.Success? && NeedsBodegas(rs.value) && bs.Failure? ==> r == []
    ensures rs.Success? && bs.Success? ==> r == Resolve(rs.value, bs.value)
    ensures rs.Success? && !NeedsBodegas(rs.value) ==> |r| == |rs.value|
  {
    if rs.Failure? then []
    else if NeedsBodegas(rs.value) && bs.Failure? then []
    else Resolve(rs.value, if bs.Success? then bs.value else [])
  }

  /** When no rack names a warehouse the warehouse read cannot matter. */
  lemma LoadIgnoresBodegasWhenUnneeded(racks: seq<Rack>, bs: Result<seq<Bodega>>, cs: Result<seq<Bodega>>)
    requires !NeedsBodegas(racks)
    ensures LoadRacks(Success(racks), bs) == LoadRacks(Success(racks), cs)
  {
    var a := LoadRacks(Success(racks), bs);
    var b := LoadRacks(Success(racks), cs);
    forall i | 0 <= i < |racks| ensures a[i] == b[i] {
      NameWithoutCodeIgnoresBodegas(racks[i], if bs.Success? then bs.value else [], if cs.Success? then cs.value else []);
    }
  }

  /** The row of one resolved rack. */
  function RackRow(r: ResolvedRack): (row: Row)
    ensures |row| == |Headers|
    ensures forall i :: 0 <= i < |row| ==> row[i].Str? && row[i].s != ""
    ensures row[0] == Str(Or(r.rack.codRack, NoCode))
    ensures row[2] == Str(Or(r.rack.fila, NoFila))
    ensures row[3] == Str(Or(r.rack.numRack, NoNumber))
    ensures row[4] == Str(Or(r.rack.pasillo, NoPasillo))
  {
    [ Str(Or(r.rack.codRack, NoCode)),
      Str(Or(Some(r.bodegaName), NoBodega)),
      Str(Or(r.rack.fila, NoFila)),
      Str(Or(r.rack.numRack, NoNumber)),
      Str(Or(r.rack.pasillo, NoPasillo)) ]
  }

  /** The warehouse column's own fallback never fires: a resolved name is
      never empty, so the column shows the resolved name. */
  lemma WarehouseColumnIsResolvedName(rk: Rack, bodegas: seq<Bodega>)
    ensures RackRow(ResolvedRack(rk, BodegaName(rk, bodegas)))[1] == Str(BodegaName(rk, bodegas))
  {
  }

  /** `racks.map(...)`: one row per rack, in order. */
  function RackRows(rs: seq<ResolvedRack>): (rows: seq<Row>)
    ensures |rows| == |rs|
    ensures forall i :: 0 <= i < |rs| ==> rows[i] == RackRow(rs[i])
  {
    if |rs| == 0 then [] else [RackRow(rs[0])] + RackRows(rs[1..])
  }
}
