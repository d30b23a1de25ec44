/**
 * The on-device plant list: the list and its loading flag, changed in place by
 * the load and the five edit operations. Each operation is specified by the
 * list function of PlantList it applies. No invariant ties the list to its
 * `order` fields: after deletes, an add can give a new plant an order below an
 * older one's (see PlantList.AddAsWrittenReloadsOutOfOrder).
 */
module LocalPlants {
  import opened Wrappers
  import opened Text
  import opened PlantModel
  import opened PlantList

  class LocalPlantStore {
    var plants: seq<Plant>
    var isLoading: bool

    /** Empty and loading until the stored list arrives. */
    constructor ()
      ensures plants == [] && isLoading
    {
      plants := [];
      isLoading := true;
    }

    /** The stored list arrives: it is sorted by order and loading ends. */
    method LoadStored(stored: seq<Plant>)
      modifies this
      ensures plants == SortByOrder(stored) && !isLoading
    {
      plants := SortByOrder(stored);
      isLoading := false;
    }

    /** Appends a plant created at `now`, with the list's length as its order. */
    method AddPlant(draft: PlantDraft, now: int)
      modifies this`plants
      ensures plants == AddAsWritten(old(plants), draft, now)
    {
      var newPlant := Plant(IntToDecimal(now), draft.name, draft.intervalDays, now, |plants|);
      plants := plants + [newPlant];
    }

    /** Merges the edit into the plant with the given id. */
    method UpdatePlant(id: string, edit: PlantEdit)
      modifies this`plants
      ensures plants == UpdateById(old(plants), id, edit)
    {
      plants := UpdateById(plants, id, edit);
    }

    /**
     * Removes the plant with the given id. Cancelling its reminders comes first and
     * its failure is swallowed, so the removal does not depend on it.
     */
    method DeletePlant(id: string)
      modifies this`plants
      ensures plants == RemoveById(old(plants), id)
    {
      plants := RemoveById(plants, id);
    }

    /** Records a watering at `now` on the plant with the given id. */
    method WaterPlant(id: string, now: int)
      modifies this`plants
      ensures plants == WaterById(old(plants), id, now)
    {
      plants := WaterById(plants, id, now);
    }

    /** Copies the list, splices the plant out of `from` and in at `to`, then renumbers the orders. */
    method ReorderPlants(request: ReorderRequest)
      modifies this`plants
      ensures plants == Reorder(old(plants), request.from, request.to)
    {
      var reordered := plants;
      var k := SpliceIndex(request.from, |reordered|);
      if k < |reordered| {
        var removed := reordered[k];
        reordered := reordered[..k] + reordered[k + 1..];
        var j := SpliceIndex(request.to, |reordered|);
        reordered := reordered[..j] + [removed] + reordered[j..];
      }
      plants := Renumber(reordered);
    }
  }
}
