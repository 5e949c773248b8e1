/**
 * `src/components/stateful_list.rs`: a list of items with a selection cursor
 * that wraps around at both ends. Indices are `usize`; the saturating
 * arithmetic of the source is written out.
 */
module StatefulListComponent {
  import opened Wrappers
  import opened Text

  /** ratatui's `ListState`: the scroll offset and the selected row, if any. */
  datatype ListState = ListState(offset: nat, selected: Option<nat>)

  /** `ListState::default()`: no offset, nothing selected. */
  const UNSELECTED: ListState := ListState(0, None)

  /** `ListState::select`: set the selection; clearing it also resets the offset. */
  function Select(state: ListState, index: Option<nat>): (r: ListState)
    ensures r.selected == index
    ensures index.Some? ==> r.offset == state.offset
    ensures index.None? ==> r.offset == 0
  {
    if index.None? then ListState(0, None) else state.(selected := index)
  }

  /** `usize::saturating_sub(1)`. */
  function SaturatingDecrement(n: nat): (r: nat)
    ensures n == 0 ==> r == 0
    ensures n > 0 ==> r + 1 == n
  {
    if n == 0 then 0 else n - 1
  }

  /** `usize::saturating_add(1)`. */
  function SaturatingIncrement(n: nat): (r: nat)
    requires n <= USIZE_MAX
    ensures r <= USIZE_MAX
    ensures n < USIZE_MAX ==> r == n + 1
  {
    if n == USIZE_MAX then USIZE_MAX else n + 1
  }

  /** The row `next` selects: row 0 from no selection or from the last row (or beyond), else the row below. */
  function NextIndex(selected: Option<nat>, len: nat): nat
    requires selected.Some? ==> selected.value <= USIZE_MAX
  {
    match selected
    case None => 0
    case Some(i) => if i >= SaturatingDecrement(len) then 0 else SaturatingIncrement(i)
  }

  /** The row `previous` selects: row 0 from no selection, the last row from row 0, else the row above. */
  function PreviousIndex(selected: Option<nat>, len: nat): nat {
    match selected
    case None => 0
    case Some(i) => if i == 0 then SaturatingDecrement(len) else SaturatingDecrement(i)
  }

  /** On a non-empty list a selected row stays a row of the list under `next` and `previous`. */
  lemma CursorStaysInList(i: nat, len: nat)
    requires i < len <= USIZE_MAX
    ensures NextIndex(Some(i), len) < len
    ensures PreviousIndex(Some(i), len) < len
  {
  }

  /** Both ends wrap: `next` from the last row selects row 0 and `previous` from row 0 selects the last row. */
  lemma CursorWraps(len: nat)
    requires 0 < len <= USIZE_MAX
    ensures NextIndex(Some(len - 1), len) == 0
    ensures PreviousIndex(Some(0), len) == len - 1
  {
  }

  /**
   * On an empty list `next` always selects row 0, which is not a row;
   * `previous` selects row 0 from no selection or row 0, and otherwise still
   * steps a stale selection up by one.
   */
  lemma EmptyListMoves(selected: Option<nat>)
    requires selected.Some? ==> selected.value <= USIZE_MAX
    ensures NextIndex(selected, 0) == 0
    ensures selected.None? || selected.value == 0 ==> PreviousIndex(selected, 0) == 0
    ensures selected.Some? && selected.value > 0 ==> PreviousIndex(selected, 0) == selected.value - 1
  {
  }

  /** `previous` undoes `next` and `next` undoes `previous` on a selected row of a non-empty list. */
  lemma MovesUndoEachOther(i: nat, len: nat)
    requires i < len <= USIZE_MAX
    ensures PreviousIndex(Some(NextIndex(Some(i), len)), len) == i
    ensures NextIndex(Some(PreviousIndex(Some(i), len)), len) == i
  {
    CursorStaysInList(i, len);
  }

  class StatefulList<T> {
    var state: ListState
    var items: seq<T>

    /** `with_items`: the given items, and the given state or an unselected one. */
    constructor WithItems(items: seq<T>, state: Option<ListState>)
      ensures this.items == items
      ensures this.state == state.UnwrapOr(UNSELECTED)
    {
      this.state := state.UnwrapOr(UNSELECTED);
      this.items := items;
    }

    /** `first`: select row 0. */
    method First()
      modifies this`state
      ensures state == Select(old(state), Some(0))
    {
      state := Select(state, Some(0));
    }

    /** `next`: select the row below, wrapping to row 0. */
    method Next()
      requires state.selected.Some? ==> state.selected.value <= USIZE_MAX
      modifies this`state
      ensures state == Select(old(state), Some(NextIndex(old(state.selected), |items|)))
    {
      var i;
      match state.selected {
        case Some(i0) =>
          if i0 >= SaturatingDecrement(|items|) {
            i := 0;
          } else {
            i := SaturatingIncrement(i0);
          }
        case None =>
          i := 0;
      }
      state := Select(state, Some(i));
    }

    /** `previous`: select the row above, wrapping to the last row. */
    method Previous()
      modifies this`state
      ensures state == Select(old(state), Some(PreviousIndex(old(state.selected), |items|)))
    {
      var i;
      match state.selected {
        case Some(i0) =>
          if i0 == 0 {
            i := SaturatingDecrement(|items|);
          } else {
            i := SaturatingDecrement(i0);
          }
        case None =>
          i := 0;
      }
      state := Select(state, Some(i));
    }

    /** `reset`: clear the items and the selection. */
    method Reset()
      modifies this
      ensures items == [] && state == Select(old(state), None)
      ensures state.selected == None
    {
      items := [];
      state := Select(state, None);
    }
  }
}
