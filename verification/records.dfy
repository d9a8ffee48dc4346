/** The Firestore documents the views read, as the client sees them after
    `{ id: doc.id, ...doc.data() }`, and the cells of a rendered table row.
    Every field the client only reads is optional, because a document may
    lack it; the two product fields the search calls `toLowerCase` on are
    plain strings.
 */
module Records {
  import opened Wrappers

  /** A `productos` document. */
  datatype Product = Product(sku: string, nombreProducto: string, rack: Option<string>)

  /** A `racks` document: `codRack` is the business code products point to
      through their `rack` field, `codBodega` the warehouse it stands in. */
  datatype Rack = Rack(
    codRack: Option<string>,
    numRack: Option<string>,
    fila: Option<string>,
    pasillo: Option<string>,
    codBodega: Option<string>)

  /** A `bodegas` document; `idTienda` is the document id of its store. */
  datatype Bodega = Bodega(codBodega: Option<string>, nomBodega: Option<string>, idTienda: Option<string>)

  /** A `tiendas` document reduced to `{ id, nombreTienda }`. */
  datatype Tienda = Tienda(id: string, nombreTienda: Option<string>)

  /** A `users` profile document; `createdAt` is a store timestamp, held
      as an opaque number that only the date formatter reads. */
  datatype UserDoc = UserDoc(
    name: Option<string>,
    email: Option<string>,
    role: Option<string>,
    store: Option<string>,
    createdAt: Option<nat>)

  /** Key functions for `find` by business code. */
  function RackCode(r: Rack): Option<string> { r.codRack }
  function BodegaCode(b: Bodega): Option<string> { b.codBodega }
  function TiendaId(t: Tienda): Option<string> { Some(t.id) }

  /** One cell of a table row: text, a number, or `undefined` (which React
      renders as nothing). */
  datatype Cell = Str(s: string) | Num(n: nat) | Undefined

  type Row = seq<Cell>

  /** A possibly absent string field placed in a cell as is. */
  function FieldCell(o: Option<string>): (c: Cell)
    ensures c.Undefined? <==> o.None?
    ensures c.Str? ==> o == Some(c.s)
    ensures !c.Num?
  {
    match o
    case None => Undefined
    case Some(s) => Str(s)
  }
}
