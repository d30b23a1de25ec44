/**
 * The sortable plant list on the web: it remembers the id of the card being
 * dragged and, when the drag ends over another card, turns the two ids into a
 * reorder of list indices.
 */
module WebSortableList {
  import opened Wrappers
  import opened PlantModel
  import opened PlantList

  /** `findIndex`: the first index whose plant has the id, or -1. */
  function FindIndex(plants: seq<Plant>, id: string): (i: int)
    ensures -1 <= i < |plants|
    ensures i == -1 <==> id !in Ids(plants)
    ensures 0 <= i ==> plants[i].id == id && forall j :: 0 <= j < i ==> plants[j].id != id
  {
    if plants == [] then -1
    else if plants[0].id == id then 0
    else
      var k := FindIndex(plants[1..], id);
      assert Ids(plants) == [plants[0].id] + Ids(plants[1..]);
      if k < 0 then -1 else k + 1
  }

  /** `find`: the first plant with the id. */
  function Find(plants: seq<Plant>, id: string): (p: Option<Plant>)
    ensures p.Some? <==> id in Ids(plants)
    ensures p.Some? ==> p.value == plants[FindIndex(plants, id)]
  {
    var i := FindIndex(plants, id);
    if i < 0 then None else Some(plants[i])
  }

  /** The plant shown under the pointer: none when no id is active (or the id is empty). */
  function ActivePlant(plants: seq<Plant>, activeId: Option<string>): (p: Option<Plant>)
    ensures p.Some? <==> activeId.Some? && activeId.value != "" && activeId.value in Ids(plants)
    ensures p.Some? ==> p.value.id == activeId.value
    ensures p.Some? ==> p.value == plants[FindIndex(plants, activeId.value)]
  {
    if activeId.None? || activeId.value == "" then None else Find(plants, activeId.value)
  }

  /**
   * The reorder a drag ending over `over` asks for: only over a card other than the
   * dragged one, from the dragged card's index to the target's.
   */
  function DragEndRequest(plants: seq<Plant>, active: string, over: Option<string>): (r: Option<ReorderRequest>)
    ensures r.Some? <==> over.Some? && over.value != active
    ensures r.Some? ==> r.value.from == FindIndex(plants, active) && r.value.to == FindIndex(plants, over.value)
  {
    if over.Some? && active != over.value
    then Some(ReorderRequest(FindIndex(plants, active), FindIndex(plants, over.value)))
    else None
  }

  /** Dropping a listed card on another listed card moves it to that card's index. */
  lemma DragEndMovesActiveToOver(plants: seq<Plant>, active: string, over: string)
    requires active in Ids(plants) && over in Ids(plants) && active != over
    ensures DragEndRequest(plants, active, Some(over)).Some?
    ensures var request := DragEndRequest(plants, active, Some(over)).value;
      var j := FindIndex(plants, over);
      Reorder(plants, request.from, request.to)[j] == plants[FindIndex(plants, active)].(order := j)
  {
    ReorderPermutes(plants, FindIndex(plants, active), FindIndex(plants, over));
  }

  /**
   * A dragged id no longer in the list reads as index -1, which the splice takes
   * as the last plant: that plant is the one moved.
   */
  lemma MissingActiveMovesLastPlant(plants: seq<Plant>, active: string, over: string)
    requires active !in Ids(plants) && over in Ids(plants)
    ensures DragEndRequest(plants, active, Some(over)).Some?
    ensures var request := DragEndRequest(plants, active, Some(over)).value;
      var j := FindIndex(plants, over);
      request.from == -1
      && Reorder(plants, request.from, request.to)[j] == plants[|plants| - 1].(order := j)
  {
    assert active != over;
    ReorderPermutes(plants, -1, FindIndex(plants, over));
  }

  class SortableList {
    var activeId: Option<string>

    constructor ()
      ensures activeId.None?
    {
      activeId := None;
    }

    method HandleDragStart(id: string)
      modifies this
      ensures activeId == Some(id)
    {
      activeId := Some(id);
    }

    /** Ends the drag and returns the reorder to issue, if any. */
    method HandleDragEnd(plants: seq<Plant>, active: string, over: Option<string>) returns (request: Option<ReorderRequest>)
      modifies this
      ensures activeId.None?
      ensures request == DragEndRequest(plants, active, over)
    {
      activeId := None;
      request := None;
      if over.Some? && active != over.value {
        var oldIndex := FindIndex(plants, active);
        var newIndex := FindIndex(plants, over.value);
        request := Some(ReorderRequest(oldIndex, newIndex));
      }
    }
  }
}
