/**
 * Drag-and-drop reordering on the web: the drag state the list shows while a
 * card is dragged, and the reorder a drop produces. The dragged card's index
 * travels in the drag payload as decimal text.
 */
module WebDragAndDrop {
  import opened Wrappers
  import opened Text
  import opened PlantModel
  import opened PlantList

  /**
   * The reorder a drop on `index` asks for: only when the payload reads as a number
   * and that number is not the drop index.
   */
  function DropRequest(payload: string, index: int): (r: Option<ReorderRequest>)
    ensures r.Some? <==> ParseInt(payload).Some? && ParseInt(payload).value != index
    ensures r.Some? ==> r.value.from == ParseInt(payload).value && r.value.to == index
  {
    var fromIndex := ParseInt(payload);
    if fromIndex.Some? && fromIndex.value != index then Some(ReorderRequest(fromIndex.value, index))
    else None
  }

  /** Dropping the card this drag started from: a reorder exactly when it lands elsewhere. */
  lemma DropOfOwnDrag(from: int, index: int)
    ensures DropRequest(IntToDecimal(from), index)
      == if from == index then None else Some(ReorderRequest(from, index))
  {
    ParseIntOfDecimal(from);
  }

  /** A card dragged from one index and dropped on another ends up at the drop index. */
  lemma DropMovesDraggedPlant(s: seq<Plant>, from: nat, index: nat)
    requires from < |s| && index < |s| && from != index
    ensures DropRequest(IntToDecimal(from), index).Some?
    ensures var request := DropRequest(IntToDecimal(from), index).value;
      Reorder(s, request.from, request.to)[index] == s[from].(order := index)
  {
    DropOfOwnDrag(from, index);
    ReorderPermutes(s, from, index);
  }

  class DragAndDrop {
    var isDragging: bool
    var dragIndex: Option<int>
    var dropIndex: Option<int>

    /** Nothing is being dragged. */
    predicate IsIdle()
      reads this
    {
      !isDragging && dragIndex.None? && dropIndex.None?
    }

    constructor ()
      ensures IsIdle()
    {
      isDragging := false;
      dragIndex := None;
      dropIndex := None;
    }

    /** Starts dragging the card at `index`; returns the payload the drag carries. */
    method HandleDragStart(index: int) returns (payload: string)
      modifies this
      ensures isDragging && dragIndex == Some(index) && dropIndex.None?
      ensures payload == IntToDecimal(index)
    {
      payload := IntToDecimal(index);
      isDragging := true;
      dragIndex := Some(index);
      dropIndex := None;
    }

    method HandleDragEnd()
      modifies this
      ensures IsIdle()
    {
      isDragging := false;
      dragIndex := None;
      dropIndex := None;
    }

    /** The pointer is over the card at `index`. */
    method HandleDragOver(index: int)
      modifies this`dropIndex
      ensures dropIndex == Some(index)
    {
      dropIndex := Some(index);
    }

    method HandleDragLeave()
      modifies this`dropIndex
      ensures dropIndex.None?
    {
      dropIndex := None;
    }

    /** A drop on the card at `index`: returns the reorder to issue, if any, and ends the drag. */
    method HandleDrop(index: int, payload: string) returns (request: Option<ReorderRequest>)
      modifies this
      ensures request == DropRequest(payload, index)
      ensures IsIdle()
    {
      var fromIndex := ParseInt(payload);
      request := None;
      if fromIndex.Some? && fromIndex.value != index {
        request := Some(ReorderRequest(fromIndex.value, index));
      }
      isDragging := false;
      dragIndex := None;
      dropIndex := None;
    }
  }
}
