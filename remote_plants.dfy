/**
 * The server-backed plant list: the list, its loading flag and its error
 * message, changed step by step by the load and the five edit operations as the
 * server's answers arrive. Each transition is first given as a pure function of
 * the state before it and the server's answers; the store's methods are proved
 * to perform exactly that transition.
 */
module RemotePlants {
  import opened Wrappers
  import opened PlantModel
  import opened PlantList

  const LoadFailed := "Failed to load plants"
  const AddFailed := "Failed to add plant"
  const UpdateFailed := "Failed to update plant"
  const DeleteFailed := "Failed to delete plant"
  const WaterFailed := "Failed to water plant"

  /**
   * The server as the store sees it: the answer to each call it can make. A
   * failure's own message is never shown, so any string will do there.
   */
  datatype Adapter = Adapter(
    list: Result<seq<Plant>>,
    create: PlantCreate -> Result<Plant>,
    update: (string, PlantPatch) -> Result<Plant>,
    delete: string -> Result<()>,
    water: string -> Result<Plant>)

  /** The store's three state fields. */
  datatype Snapshot = Snapshot(plants: seq<Plant>, isLoading: bool, error: Option<string>)

  // ---------------------------------------------------------------- transitions

  /** A load: the listed plants sorted by order, or the old list and an error; loading ends either way. */
  function Load(s: Snapshot, listed: Result<seq<Plant>>): (t: Snapshot)
    ensures !t.isLoading
    ensures listed.Success? ==> t.plants == SortByOrder(listed.value) && t.error == None
    ensures listed.Failure? ==> t.plants == s.plants && t.error == Some(LoadFailed)
  {
    match listed
    case Success(loaded) => Snapshot(SortByOrder(loaded), false, None)
    case Failure(_) => Snapshot(s.plants, false, Some(LoadFailed))
  }

  /** What an add asks the server to create: the draft, with the list's length as its order. */
  function CreateRequest(plants: seq<Plant>, draft: PlantDraft): (c: PlantCreate)
    ensures c.name == draft.name && c.intervalDays == draft.intervalDays && c.order == |plants|
  {
    PlantCreate(draft.name, draft.intervalDays, |plants|)
  }

  /** An add: the created record is appended, or the list stays and the error is set. */
  function Add(s: Snapshot, created: Result<Plant>): (t: Snapshot)
    ensures t.isLoading == s.isLoading
    ensures created.Success? ==> t.plants == s.plants + [created.value] && t.error == None
    ensures created.Failure? ==> t.plants == s.plants && t.error == Some(AddFailed)
  {
    match created
    case Success(p) => Snapshot(s.plants + [p], s.isLoading, None)
    case Failure(_) => Snapshot(s.plants, s.isLoading, Some(AddFailed))
  }

  /**
   * An update or a watering: the server's record replaces the plant with the id,
   * or the list stays and the error is the given message.
   */
  function Replace(s: Snapshot, id: string, answer: Result<Plant>, message: string): (t: Snapshot)
    ensures t.isLoading == s.isLoading
    ensures answer.Success? ==> t.plants == ReplaceById(s.plants, id, answer.value) && t.error == None
    ensures answer.Failure? ==> t.plants == s.plants && t.error == Some(message)
  {
    match answer
    case Success(p) => Snapshot(ReplaceById(s.plants, id, p), s.isLoading, None)
    case Failure(_) => Snapshot(s.plants, s.isLoading, Some(message))
  }

  /** A delete: the plant leaves the list only once the server has deleted it. */
  function Delete(s: Snapshot, id: string, deleted: Result<()>): (t: Snapshot)
    ensures t.isLoading == s.isLoading
    ensures deleted.Success? ==> t.plants == RemoveById(s.plants, id) && t.error == None
    ensures deleted.Failure? ==> t.plants == s.plants && t.error == Some(DeleteFailed)
  {
    match deleted
    case Success(_) => Snapshot(RemoveById(s.plants, id), s.isLoading, None)
    case Failure(_) => Snapshot(s.plants, s.isLoading, Some(DeleteFailed))
  }

  /** Whether the server accepted the new order of every plant in the list. */
  predicate AllOrdersPersisted(plants: seq<Plant>, adapter: Adapter) {
    forall i :: 0 <= i < |plants| ==> adapter.update(plants[i].id, OrderPatch(plants[i].order)).Success?
  }

  /**
   * A reorder: the reordered list is shown at once and kept if every order was
   * persisted; otherwise the list is loaded again. The error is not cleared first.
   */
  function ReorderOutcome(s: Snapshot, request: ReorderRequest, adapter: Adapter): (t: Snapshot)
    ensures t.plants == Reorder(s.plants, request.from, request.to)
      || (adapter.list.Success? && t.plants == SortByOrder(adapter.list.value))
    ensures t.error in {s.error, None, Some(LoadFailed)}
    ensures t.isLoading ==> t.isLoading == s.isLoading
  {
    var shown := s.(plants := Reorder(s.plants, request.from, request.to));
    if AllOrdersPersisted(shown.plants, adapter) then shown else Load(shown, adapter.list)
  }

  // ---------------------------------------------------------------- properties

  /** A listed plant is gone after a delete exactly when the server deleted it. */
  lemma DeleteOnlyAfterServer(s: Snapshot, id: string, deleted: Result<()>)
    requires id in Ids(s.plants)
    ensures (exists p :: p in Delete(s, id, deleted).plants && p.id == id) <==> deleted.Failure?
  {
    var i :| 0 <= i < |s.plants| && Ids(s.plants)[i] == id;
    RemoveMembership(s.plants, id);
    if deleted.Failure? {
      assert s.plants[i] in Delete(s, id, deleted).plants;
    }
  }

  /**
   * The server-backed add asks for the plant the on-device add appends: the
   * same name, interval and order.
   */
  lemma CreateRequestMatchesLocalAdd(plants: seq<Plant>, draft: PlantDraft, now: int)
    ensures var c := CreateRequest(plants, draft);
      var p := AddAsWritten(plants, draft, now)[|plants|];
      c.name == p.name && c.intervalDays == p.intervalDays && c.order == p.order
  {
  }

  /**
   * When the orders are 0..n-1 and the server keeps the requested order, the added
   * plant stays after the others on the next load and the orders stay 0..n.
   */
  lemma AddedPlantStaysLast(s: Snapshot, draft: PlantDraft, created: Result<Plant>)
    requires OrdersAreIndices(s.plants)
    requires created.Success? && created.value.order == CreateRequest(s.plants, draft).order
    ensures OrdersAreIndices(Add(s, created).plants)
    ensures SortByOrder(Add(s, created).plants) == Add(s, created).plants
  {
    var r := Add(s, created).plants;
    forall i | 0 <= i < |r| ensures r[i].order == i {
      if i < |s.plants| { assert r[i] == s.plants[i]; }
    }
    assert Ascending(r);
    SortOfAscending(r);
  }

  /**
   * After deletes the requested order can fall below an existing one: with one
   * plant of order 3 left, the new plant asks for order 1 and a reload sorts it first.
   */
  lemma AddedPlantCanSortFirst(d: Plant, draft: PlantDraft, created: Plant, s: Snapshot)
    requires d.order == 3 && s.plants == [d]
    requires created.order == CreateRequest(s.plants, draft).order
    ensures SortByOrder(Add(s, Success(created)).plants) == [created, d]
  {
    var r := Add(s, Success(created)).plants;
    assert r == [d, created];
    assert r[1..] == [created];
    assert SortByOrder([created]) == [created];
    assert SortByOrder(r) == InsertByOrder(d, [created]);
    assert InsertByOrder(d, [created]) == [created] + InsertByOrder(d, []);
  }

  /** A reorder whose orders were all persisted keeps the reordered list, renumbered 0..n-1. */
  lemma ReorderPersisted(s: Snapshot, request: ReorderRequest, adapter: Adapter)
    requires AllOrdersPersisted(Reorder(s.plants, request.from, request.to), adapter)
    ensures var t := ReorderOutcome(s, request, adapter);
      t.plants == Reorder(s.plants, request.from, request.to) && OrdersAreIndices(t.plants)
      && t.error == s.error && t.isLoading == s.isLoading
  {
  }

  /**
   * A reorder the server did not fully accept shows the server's list again; if
   * that load fails too, the reordered list stays on screen with the load error.
   */
  lemma ReorderNotPersisted(s: Snapshot, request: ReorderRequest, adapter: Adapter)
    requires !AllOrdersPersisted(Reorder(s.plants, request.from, request.to), adapter)
    ensures var t := ReorderOutcome(s, request, adapter);
      !t.isLoading
      && (adapter.list.Success? ==> t.plants == SortByOrder(adapter.list.value) && t.error == None)
      && (adapter.list.Failure? ==>
            t.plants == Reorder(s.plants, request.from, request.to) && t.error == Some(LoadFailed))
  {
  }

  // ---------------------------------------------------------------- the store

  class RemotePlantStore {
    var plants: seq<Plant>
    var isLoading: bool
    var error: Option<string>

    function State(): Snapshot
      reads this
    {
      Snapshot(plants, isLoading, error)
    }

    /** Empty, loading, no error. */
    constructor ()
      ensures plants == [] && isLoading && error == None
    {
      plants := [];
      isLoading := true;
      error := None;
    }

    method LoadPlants(adapter: Adapter)
      modifies this
      ensures State() == Load(old(State()), adapter.list)
    {
      error := None;
      match adapter.list {
        case Success(loaded) =>
          plants := SortByOrder(loaded);
        case Failure(_) =>
          error := Some(LoadFailed);
      }
      isLoading := false;
    }

    method AddPlant(draft: PlantDraft, adapter: Adapter)
      modifies this
      ensures State() == Add(old(State()), adapter.create(CreateRequest(old(plants), draft)))
    {
      error := None;
      var created := adapter.create(PlantCreate(draft.name, draft.intervalDays, |plants|));
      match created {
        case Success(p) =>
          plants := plants + [p];
        case Failure(_) =>
          error := Some(AddFailed);
      }
    }

    method UpdatePlant(id: string, edit: PlantEdit, adapter: Adapter)
      modifies this
      ensures State() == Replace(old(State()), id, adapter.update(id, EditPatch(edit)), UpdateFailed)
    {
      error := None;
      var updated := adapter.update(id, EditPatch(edit));
      match updated {
        case Success(p) =>
          plants := ReplaceById(plants, id, p);
        case Failure(_) =>
          error := Some(UpdateFailed);
      }
    }

    /** Cancelling the plant's reminders comes first; its failure is swallowed. */
    method DeletePlant(id: string, adapter: Adapter)
      modifies this
      ensures State() == Delete(old(State()), id, adapter.delete(id))
    {
      error := None;
      var deleted := adapter.delete(id);
      match deleted {
        case Success(_) =>
          plants := RemoveById(plants, id);
        case Failure(_) =>
          error := Some(DeleteFailed);
      }
    }

    method WaterPlant(id: string, adapter: Adapter)
      modifies this
      ensures State() == Replace(old(State()), id, adapter.water(id), WaterFailed)
    {
      error := None;
      var watered := adapter.water(id);
      match watered {
        case Success(p) =>
          plants := ReplaceById(plants, id, p);
        case Failure(_) =>
          error := Some(WaterFailed);
      }
    }

    /**
     * Shows the reordered list, then asks the server to store every plant's new
     * order; if any request fails, loads the list again.
     */
    method ReorderPlants(request: ReorderRequest, adapter: Adapter)
      modifies this
      ensures State() == ReorderOutcome(old(State()), request, adapter)
    {
      var updatedPlants := Reorder(plants, request.from, request.to);
      plants := updatedPlants;
      var allOk := true;
      var i := 0;
      while i < |updatedPlants|
        invariant 0 <= i <= |updatedPlants|
        invariant plants == updatedPlants && isLoading == old(isLoading) && error == old(error)
        invariant allOk <==> AllOrdersPersisted(updatedPlants[..i], adapter)
      {
        var p := updatedPlants[i];
        if adapter.update(p.id, OrderPatch(p.order)).Failure? {
          allOk := false;
        }
        assert updatedPlants[..i + 1] == updatedPlants[..i] + [p];
        i := i + 1;
      }
      assert updatedPlants[..i] == updatedPlants;
      ghost var shown := State();
      assert shown == old(State()).(plants := Reorder(old(plants), request.from, request.to));
      if !allOk {
        LoadPlants(adapter);
        assert State() == Load(shown, adapter.list);
      }
    }
  }
}
