/**
 * The collection view as the audio handler sees it: which audio message cell
 * is on screen at which index path. `indexPath(for:)` and `cellForItem(at:)`
 * look this up; `reloadSections` is the handler's business (it reconfigures
 * the cells of a section). Cells that are not audio message cells are not
 * represented, which is what the source's `as? AudioMessageCell` filters out.
 */
module MessagesCollectionViews {
  import opened Foundation
  import opened AudioMessageCells

  /** No cell object is on screen at two index paths. */
  ghost predicate Injective(cells: map<IndexPath, AudioMessageCell>)
  {
    forall i, j | i in cells && j in cells && i != j :: cells[i] != cells[j]
  }

  class MessagesCollectionView {
    /** The visible audio message cells, by index path. */
    var cells: map<IndexPath, AudioMessageCell>

    ghost predicate Valid()
      reads this
    {
      Injective(cells)
    }

    constructor (cells: map<IndexPath, AudioMessageCell>)
      requires Injective(cells)
      ensures this.cells == cells && Valid()
    {
      this.cells := cells;
    }

    /** `indexPath(for:)`: where the cell is on screen, or nothing if it is not visible. */
    function IndexPathFor(cell: AudioMessageCell): (ip: Option<IndexPath>)
      requires Valid()
      reads this
      ensures ip.Some? <==> cell in cells.Values
      ensures ip.Some? ==> ip.value in cells && cells[ip.value] == cell
      ensures forall i | i in cells && cells[i] == cell :: ip == Some(i)
    {
      if cell in cells.Values then
        Some(var i :| i in cells && cells[i] == cell; i)
      else
        None
    }

    /** `cellForItem(at:)` followed by the cast to an audio message cell. */
    function CellForItem(ip: IndexPath): (c: Option<AudioMessageCell>)
      reads this
      ensures c.Some? <==> ip in cells
      ensures c.Some? ==> cells[ip] == c.value
      ensures c.Some? && Valid() ==> IndexPathFor(c.value) == Some(ip)
    {
      if ip in cells then Some(cells[ip]) else None
    }

    /**
     * The container puts `cell` on screen at `ip` (scrolling, dequeueing for
     * reuse); whatever showed at `ip` before, and wherever `cell` was before,
     * are no longer visible.
     */
    method Show(cell: AudioMessageCell, ip: IndexPath)
      requires Valid()
      modifies this
      ensures Valid()
      ensures cells == (map i | i in old(cells) && old(cells)[i] != cell :: old(cells)[i])[ip := cell]
    {
      cells := (map i | i in cells && cells[i] != cell :: cells[i])[ip := cell];
    }

    /** The container takes whatever cell showed at `ip` off screen. */
    method Hide(ip: IndexPath)
      requires Valid()
      modifies this
      ensures Valid() && cells == old(cells) - {ip}
    {
      cells := cells - {ip};
    }
  }
}
