/** The records the app passes between its layers. */
module PlantModel {
  import opened Wrappers

  /** A tracked plant. Times are milliseconds since the epoch; `order` is its display position. */
  datatype Plant = Plant(id: string, name: string, intervalDays: int, lastWatered: int, order: int)

  /** The edit a caller may apply to a plant: some of `name` and `intervalDays` (None = key absent). */
  datatype PlantEdit = PlantEdit(name: Option<string>, intervalDays: Option<int>)

  /** Any subset of a plant's fields, as sent to the server in an update (None = key absent). */
  datatype PlantPatch = PlantPatch(
    id: Option<string>,
    name: Option<string>,
    intervalDays: Option<int>,
    lastWatered: Option<int>,
    order: Option<int>)

  /** What the add/edit form hands to its caller. */
  datatype PlantDraft = PlantDraft(name: string, intervalDays: int)

  /** What the server-backed list asks the server to create. */
  datatype PlantCreate = PlantCreate(name: string, intervalDays: int, order: int)

  /** A request to move the plant at index `from` to index `to`. */
  datatype ReorderRequest = ReorderRequest(from: int, to: int)

  /** The patch that carries exactly the fields of an edit. */
  function EditPatch(edit: PlantEdit): (p: PlantPatch)
    ensures p.name == edit.name && p.intervalDays == edit.intervalDays
    ensures p.id.None? && p.lastWatered.None? && p.order.None?
  {
    PlantPatch(None, edit.name, edit.intervalDays, None, None)
  }

  /** The patch a reorder sends for one plant: only its new order. */
  function OrderPatch(order: int): (p: PlantPatch)
    ensures p.order == Some(order)
    ensures p.id.None? && p.name.None? && p.intervalDays.None? && p.lastWatered.None?
  {
    PlantPatch(None, None, None, None, Some(order))
  }

  /** The patch a create request carries: name, interval and order. */
  function CreatePatch(c: PlantCreate): PlantPatch {
    PlantPatch(None, Some(c.name), Some(c.intervalDays), None, Some(c.order))
  }

  /** Every field of a plant, as a patch. */
  function FullPatch(p: Plant): PlantPatch {
    PlantPatch(Some(p.id), Some(p.name), Some(p.intervalDays), Some(p.lastWatered), Some(p.order))
  }
}
