/**
 * The client of the plants REST service: the mapping between client plants and
 * the server's snake_case records, and how each call turns a response into a
 * plant or a failure. Transport is abstracted to the response it delivers;
 * date parsing and ISO formatting are parameters.
 */
module PlantsApi {
  import opened Wrappers
  import opened PlantModel

  /** A plant as the server sends it; `lastWateredAt` is None for JSON null. */
  datatype ServerPlant = ServerPlant(
    id: string,
    name: string,
    wateringIntervalDays: int,
    lastWateredAt: Option<string>,
    order: int,
    insertedAt: string,
    updatedAt: string)

  /** A value in a request body. */
  datatype WireValue = WireText(text: string) | WireNumber(number: int)

  /** A response: its `ok` flag and its decoded `data`. */
  datatype Response<T> = Response(ok: bool, data: T)

  // ---------------------------------------------------------------- server to client

  /** Whether a `last_watered_at` value is truthy: null and the empty string are not. */
  predicate HasWateringTime(lastWateredAt: Option<string>) {
    lastWateredAt.Some? && lastWateredAt.value != ""
  }

  /**
   * Renames the server's fields to the client's. A record with no watering time
   * counts as watered at `now`.
   */
  function ToClientPlant(sp: ServerPlant, parseDate: string -> int, now: int): (p: Plant)
    ensures p.id == sp.id && p.name == sp.name && p.order == sp.order
    ensures p.intervalDays == sp.wateringIntervalDays
    ensures HasWateringTime(sp.lastWateredAt) ==> p.lastWatered == parseDate(sp.lastWateredAt.value)
    ensures !HasWateringTime(sp.lastWateredAt) ==> p.lastWatered == now
  {
    Plant(sp.id, sp.name, sp.wateringIntervalDays,
          if HasWateringTime(sp.lastWateredAt) then parseDate(sp.lastWateredAt.value) else now,
          sp.order)
  }

  // ---------------------------------------------------------------- client to server

  /** The keys a request body may carry; the id is never sent. */
  const WireKeys: set<string> := {"name", "watering_interval_days", "last_watered_at", "order"}

  /** The body entry for one key: present exactly when the matching patch field is. */
  function WireField(patch: PlantPatch, formatDate: int -> string, key: string): Option<WireValue> {
    if key == "name" then
      if patch.name.Some? then Some(WireText(patch.name.value)) else None
    else if key == "watering_interval_days" then
      if patch.intervalDays.Some? then Some(WireNumber(patch.intervalDays.value)) else None
    else if key == "last_watered_at" then
      if patch.lastWatered.Some? then Some(WireText(formatDate(patch.lastWatered.value))) else None
    else if key == "order" then
      if patch.order.Some? then Some(WireNumber(patch.order.value)) else None
    else None
  }

  /** The request body for a patch, key by key. */
  function WireFields(patch: PlantPatch, formatDate: int -> string): (m: map<string, WireValue>)
    ensures m.Keys <= WireKeys
    ensures forall key :: key in m <==> WireField(patch, formatDate, key).Some?
    ensures forall key :: key in m ==> m[key] == WireField(patch, formatDate, key).value
  {
    map key | key in WireKeys && WireField(patch, formatDate, key).Some? :: WireField(patch, formatDate, key).value
  }

  /** Builds the request body one defined field at a time. */
  method ToServerPlant(patch: PlantPatch, formatDate: int -> string) returns (m: map<string, WireValue>)
    ensures m == WireFields(patch, formatDate)
  {
    m := map[];
    if patch.name.Some? {
      m := m["name" := WireText(patch.name.value)];
    }
    if patch.intervalDays.Some? {
      m := m["watering_interval_days" := WireNumber(patch.intervalDays.value)];
    }
    if patch.lastWatered.Some? {
      m := m["last_watered_at" := WireText(formatDate(patch.lastWatered.value))];
    }
    if patch.order.Some? {
      m := m["order" := WireNumber(patch.order.value)];
    }
    WireKeysFollowPatch(patch, formatDate);
  }

  /**
   * Each key is sent exactly when its field is defined, renamed to snake_case,
   * with the watering time formatted as a date string; the id is never sent.
   */
  lemma WireKeysFollowPatch(patch: PlantPatch, formatDate: int -> string)
    ensures var m := WireFields(patch, formatDate);
      ("name" in m <==> patch.name.Some?)
      && ("watering_interval_days" in m <==> patch.intervalDays.Some?)
      && ("last_watered_at" in m <==> patch.lastWatered.Some?)
      && ("order" in m <==> patch.order.Some?)
      && "id" !in m && "intervalDays" !in m && "lastWatered" !in m
      && (patch.name.Some? ==> m["name"] == WireText(patch.name.value))
      && (patch.intervalDays.Some? ==> m["watering_interval_days"] == WireNumber(patch.intervalDays.value))
      && (patch.lastWatered.Some? ==> m["last_watered_at"] == WireText(formatDate(patch.lastWatered.value)))
      && (patch.order.Some? ==> m["order"] == WireNumber(patch.order.value))
  {
    var m := WireFields(patch, formatDate);
    assert WireField(patch, formatDate, "name").Some? <==> patch.name.Some?;
    assert WireField(patch, formatDate, "watering_interval_days").Some? <==> patch.intervalDays.Some?;
    assert WireField(patch, formatDate, "last_watered_at").Some? <==> patch.lastWatered.Some?;
    assert WireField(patch, formatDate, "order").Some? <==> patch.order.Some?;
    assert WireField(patch, formatDate, "id").None?;
    assert WireField(patch, formatDate, "intervalDays").None?;
    assert WireField(patch, formatDate, "lastWatered").None?;
  }

  /** An empty patch yields an empty body. */
  lemma EmptyPatchSendsNothing(formatDate: int -> string)
    ensures WireFields(PlantPatch(None, None, None, None, None), formatDate) == map[]
  {
    var m := WireFields(PlantPatch(None, None, None, None, None), formatDate);
    forall key | key in WireKeys ensures key !in m {
      assert WireField(PlantPatch(None, None, None, None, None), formatDate, key).None?;
    }
  }

  /** A reorder's update sends the new order and nothing else. */
  lemma OrderPatchSendsOnlyOrder(order: int, formatDate: int -> string)
    ensures WireFields(OrderPatch(order), formatDate) == map["order" := WireNumber(order)]
  {
    WireKeysFollowPatch(OrderPatch(order), formatDate);
  }

  /** An edit's update sends only the edited name and interval. */
  lemma EditPatchSendsOnlyEdit(edit: PlantEdit, formatDate: int -> string)
    ensures var m := WireFields(EditPatch(edit), formatDate);
      m.Keys <= {"name", "watering_interval_days"}
      && ("name" in m <==> edit.name.Some?)
      && ("watering_interval_days" in m <==> edit.intervalDays.Some?)
  {
    WireKeysFollowPatch(EditPatch(edit), formatDate);
  }

  // ---------------------------------------------------------------- round trip

  /**
   * A server that stores what it is sent under the id it assigns: a missing or
   * mistyped field is stored as its zero value, a missing watering time as null.
   */
  function Stored(id: string, body: map<string, WireValue>, stamp: string): ServerPlant {
    ServerPlant(
      id,
      if "name" in body && body["name"].WireText? then body["name"].text else "",
      if "watering_interval_days" in body && body["watering_interval_days"].WireNumber?
        then body["watering_interval_days"].number else 0,
      if "last_watered_at" in body && body["last_watered_at"].WireText?
        then Some(body["last_watered_at"].text) else None,
      if "order" in body && body["order"].WireNumber? then body["order"].number else 0,
      stamp,
      stamp)
  }

  /**
   * A plant sent with all its fields and read back is the same plant, provided the
   * date formatting of its watering time is non-empty and parses back to it.
   */
  lemma FullRoundTrip(p: Plant, stamp: string, formatDate: int -> string, parseDate: string -> int, now: int)
    requires formatDate(p.lastWatered) != "" && parseDate(formatDate(p.lastWatered)) == p.lastWatered
    ensures ToClientPlant(Stored(p.id, WireFields(FullPatch(p), formatDate), stamp), parseDate, now) == p
  {
    WireKeysFollowPatch(FullPatch(p), formatDate);
  }

  /** A created plant reads back with the requested name, interval and order, watered `now`. */
  lemma CreateRoundTrip(c: PlantCreate, id: string, stamp: string,
                        formatDate: int -> string, parseDate: string -> int, now: int)
    ensures ToClientPlant(Stored(id, WireFields(CreatePatch(c), formatDate), stamp), parseDate, now)
      == Plant(id, c.name, c.intervalDays, now, c.order)
  {
    WireKeysFollowPatch(CreatePatch(c), formatDate);
  }

  // ---------------------------------------------------------------- the calls

  /** A response that is not ok fails with the call's message; an ok one yields its data. */
  function Checked<T>(response: Response<T>, message: string): (r: Result<T>)
    ensures r.Success? <==> response.ok
    ensures r.Success? ==> r.value == response.data
    ensures r.Failure? ==> r.error == message
  {
    if response.ok then Success(response.data) else Failure(message)
  }

  /** `list`: every server record, converted. */
  function ListResult(response: Response<seq<ServerPlant>>, parseDate: string -> int, now: int): (r: Result<seq<Plant>>)
    ensures r.Success? <==> response.ok
    ensures r.Failure? ==> r.error == "Failed to fetch plants"
    ensures r.Success? ==> |r.value| == |response.data|
    ensures r.Success? ==>
      forall i :: 0 <= i < |r.value| ==> r.value[i] == ToClientPlant(response.data[i], parseDate, now)
  {
    match Checked(response, "Failed to fetch plants")
    case Success(data) =>
      Success(seq(|data|, i requires 0 <= i < |data| => ToClientPlant(data[i], parseDate, now)))
    case Failure(e) => Failure(e)
  }

  /** `create`, `update` and `water`: the one returned record, converted. */
  function PlantResult(response: Response<ServerPlant>, message: string, parseDate: string -> int, now: int): (r: Result<Plant>)
    ensures r.Success? <==> response.ok
    ensures r.Failure? ==> r.error == message
    ensures r.Success? ==> r.value == ToClientPlant(response.data, parseDate, now)
  {
    match Checked(response, message)
    case Success(data) => Success(ToClientPlant(data, parseDate, now))
    case Failure(e) => Failure(e)
  }

  function CreateResult(response: Response<ServerPlant>, parseDate: string -> int, now: int): (r: Result<Plant>)
    ensures r.Success? <==> response.ok
    ensures r.Failure? ==> r.error == "Failed to create plant"
    ensures r.Success? ==> r.value == ToClientPlant(response.data, parseDate, now)
  {
    PlantResult(response, "Failed to create plant", parseDate, now)
  }

  function UpdateResult(response: Response<ServerPlant>, parseDate: string -> int, now: int): (r: Result<Plant>)
    ensures r.Success? <==> response.ok
    ensures r.Failure? ==> r.error == "Failed to update plant"
    ensures r.Success? ==> r.value == ToClientPlant(response.data, parseDate, now)
  {
    PlantResult(response, "Failed to update plant", parseDate, now)
  }

  function WaterResult(response: Response<ServerPlant>, parseDate: string -> int, now: int): (r: Result<Plant>)
    ensures r.Success? <==> response.ok
    ensures r.Failure? ==> r.error == "Failed to water plant"
    ensures r.Success? ==> r.value == ToClientPlant(response.data, parseDate, now)
  {
    PlantResult(response, "Failed to water plant", parseDate, now)
  }

  /** `delete`: nothing to decode. */
  function DeleteResult(response: Response<()>): (r: Result<()>)
    ensures r.Success? <==> response.ok
    ensures r.Failure? ==> r.error == "Failed to delete plant"
  {
    Checked(response, "Failed to delete plant")
  }
}
