/** The shared table component. Its page is fixed at 1 with five rows per
    page and no control changes it, so it always shows a prefix of at most
    five of the rows it is given. On narrow screens each row becomes a card
    whose cells are labelled with the header of the same position.
 */
module ResponsiveTable {
  import opened Wrappers
  import opened Seqs

  const ItemsPerPage: nat := 5
  const CurrentPage: nat := 1

  /** `rows.slice(indexOfFirstItem, indexOfLastItem)` for the fixed page. */
  function Displayed<R>(rows: seq<R>): (shown: seq<R>)
    ensures |shown| == if |rows| < ItemsPerPage then |rows| else ItemsPerPage
    ensures shown == rows[..|shown|]
  {
    var last := CurrentPage * ItemsPerPage;
    Slice(rows, last - ItemsPerPage, last)
  }

  /** At most five rows are ever shown, and rows past the fifth never are. */
  lemma DisplayedBounded<R>(rows: seq<R>)
    ensures |Displayed(rows)| <= ItemsPerPage
    ensures |rows| > ItemsPerPage ==> Displayed(rows) == rows[..ItemsPerPage]
  {
  }

  /** A list of five rows or fewer, such as an already paginated page, is
      shown unchanged; hence showing is idempotent. */
  lemma ShortListShownWhole<R>(rows: seq<R>)
    ensures |rows| <= ItemsPerPage ==> Displayed(rows) == rows
    ensures Displayed(Displayed(rows)) == Displayed(rows)
  {
  }

  /** `headers[cellIndex]`: the header over a cell, `undefined` past the
      end of the header list. */
  function HeaderAt(headers: seq<string>, i: nat): (h: Option<string>)
    ensures h.Some? <==> i < |headers|
    ensures h.Some? ==> h.value == headers[i]
  {
    if i < |headers| then Some(headers[i]) else None
  }

  /** The card view of one row: each cell beside its header, in order. */
  function CardView<C>(headers: seq<string>, row: seq<C>): (card: seq<(Option<string>, C)>)
    ensures |card| == |row|
    ensures forall i :: 0 <= i < |row| ==> card[i] == (HeaderAt(headers, i), row[i])
  {
    if |row| == 0 then []
    else CardView(headers, row[..|row| - 1]) + [(HeaderAt(headers, |row| - 1), row[|row| - 1])]
  }

  /** Taking the cells back out of a card gives the row. */
  function CardCells<C>(card: seq<(Option<string>, C)>): (row: seq<C>)
    ensures |row| == |card|
    ensures forall i :: 0 <= i < |card| ==> row[i] == card[i].1
  {
    if |card| == 0 then [] else [card[0].1] + CardCells(card[1..])
  }

  lemma CardKeepsCells<C>(headers: seq<string>, row: seq<C>)
    ensures CardCells(CardView(headers, row)) == row
  {
  }

  /** A row with no more cells than headers has every cell labelled. */
  lemma CardFullyLabelled<C>(headers: seq<string>, row: seq<C>)
    requires |row| <= |headers|
    ensures forall i :: 0 <= i < |row| ==> CardView(headers, row)[i].0 == Some(headers[i])
  {
  }
}
