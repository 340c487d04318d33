/** The resource screens (drivers, trucks, trailers): the per-truck fuel
    of the current month, the trailer sizes offered as a filter, the
    filtered list, and the defaults the form adds when it saves. */
module Resources {
  import opened Base
  import opened Domain
  import Occupancy
  import TripViews
  import Store

  datatype ResourceType = DriverType | TruckType | TrailerType

  function StoreList(view: ResourceType): Store.Resource {
    match view
    case DriverType => Store.Drivers
    case TruckType => Store.Trucks
    case TrailerType => Store.Trailers
  }

  // ---------------------------------------------------------------------
  // Monthly fuel consumption per truck
  // ---------------------------------------------------------------------

  /** The current month in local time, as the interval of timestamps
      `[monthStart, monthEnd)`: an event's local month and year equal the
      current ones exactly when its timestamp lies in it. */
  datatype Month = Month(monthStart: int, monthEnd: int)

  /** A refuel with non-zero gallons inside the month. */
  predicate Counted(e: Event, month: Month) {
    e.kind == Refuel && TruthyNum(e.galonaje) && month.monthStart <= e.timestamp < month.monthEnd
  }

  /** Gallons credited to a truck, in the order the loops meet them. */
  datatype Refill = Refill(truckId: string, gallons: real)

  function EventRefills(truckId: string, events: seq<Event>, month: Month): seq<Refill> {
    if |events| == 0 then []
    else
      var e := events[|events| - 1];
      EventRefills(truckId, events[..|events| - 1], month) +
      (if Counted(e, month) then [Refill(truckId, e.galonaje.value)] else [])
  }

  /** An assignment without a truck contributes nothing. */
  function AssignmentRefills(a: Assignment, month: Month): seq<Refill> {
    if a.truckId == "" then [] else EventRefills(a.truckId, a.events, month)
  }

  function AssignmentsRefills(assignments: seq<Assignment>, month: Month): seq<Refill> {
    if |assignments| == 0 then []
    else AssignmentsRefills(assignments[..|assignments| - 1], month) +
         AssignmentRefills(assignments[|assignments| - 1], month)
  }

  /** Every trip counts, whatever its status and deleted flag. */
  function TripsRefills(trips: seq<Trip>, month: Month): seq<Refill> {
    if |trips| == 0 then []
    else TripsRefills(trips[..|trips| - 1], month) + AssignmentsRefills(trips[|trips| - 1].assignments, month)
  }

  /** `map.set(truckId, (map.get(truckId) || 0) + galonaje)` for each refill. */
  function AddRefills(m: map<string, real>, refills: seq<Refill>): map<string, real> {
    if |refills| == 0 then m
    else
      var before := AddRefills(m, refills[..|refills| - 1]);
      var r := refills[|refills| - 1];
      before[r.truckId := (if r.truckId in before then before[r.truckId] else 0.0) + r.gallons]
  }

  function OfTruck(truckId: string): Refill -> bool {
    (r: Refill) => r.truckId == truckId
  }

  function Gallons(r: Refill): real { r.gallons }

  /** The table built by `monthlyFuelConsumption`; other views get an
      empty map. */
  function FuelTable(view: ResourceType, trips: seq<Trip>, month: Month): map<string, real> {
    if view == TruckType then AddRefills(map[], TripsRefills(trips, month)) else map[]
  }

  lemma {:induction false} AddRefillsAppend(m: map<string, real>, a: seq<Refill>, b: seq<Refill>)
    ensures AddRefills(m, a + b) == AddRefills(AddRefills(m, a), b)
  {
    if |b| == 0 {
      assert a + b == a;
    } else {
      assert (a + b)[..|a + b| - 1] == a + b[..|b| - 1];
      AddRefillsAppend(m, a, b[..|b| - 1]);
    }
  }

  /** A truck has an entry exactly when it had one or some refill names
      it. */
  lemma {:induction false} AddRefillsKeys(m: map<string, real>, refills: seq<Refill>, truckId: string)
    ensures truckId in AddRefills(m, refills) <==> truckId in m || truckId in TruckIds(refills)
  {
    if |refills| > 0 {
      AddRefillsKeys(m, refills[..|refills| - 1], truckId);
    }
  }

  function TruckIds(refills: seq<Refill>): (r: seq<string>)
    ensures forall id :: id in r <==> Exists(refills, OfTruck(id))
  {
    if |refills| == 0 then []
    else
      var init := refills[..|refills| - 1];
      assert refills == init + [refills[|refills| - 1]];
      TruckIds(init) + [refills[|refills| - 1].truckId]
  }

  /** The entry grows by the sum of that truck's gallons. */
  lemma {:induction false} AddRefillsValue(m: map<string, real>, refills: seq<Refill>, truckId: string)
    requires truckId in AddRefills(m, refills)
    ensures AddRefills(m, refills)[truckId] ==
            (if truckId in m then m[truckId] else 0.0) + Sum(Filter(refills, OfTruck(truckId)), Gallons)
  {
    if |refills| > 0 {
      var init := refills[..|refills| - 1];
      var r := refills[|refills| - 1];
      var f := Filter(init, OfTruck(truckId));
      if r.truckId == truckId {
        assert Filter(refills, OfTruck(truckId)) == f + [r];
        assert (f + [r])[..|f|] == f;
        if truckId in AddRefills(m, init) {
          AddRefillsValue(m, init, truckId);
        } else {
          AddRefillsKeys(m, init, truckId);
          FilterEmpty(init, OfTruck(truckId));
        }
      } else {
        AddRefillsValue(m, init, truckId);
      }
    }
  }

  /** The table has an entry for a truck exactly when some refill is
      credited to it, holding the sum of that truck's gallons. */
  lemma {:induction false} FuelTableSpec(trips: seq<Trip>, month: Month, truckId: string)
    ensures var t := FuelTable(TruckType, trips, month);
      var rs := TripsRefills(trips, month);
      (truckId in t <==> Exists(rs, OfTruck(truckId))) &&
      (truckId in t ==> t[truckId] == Sum(Filter(rs, OfTruck(truckId)), Gallons))
  {
    AddRefillsKeys(map[], TripsRefills(trips, month), truckId);
    if truckId in FuelTable(TruckType, trips, month) {
      AddRefillsValue(map[], TripsRefills(trips, month), truckId);
    }
  }

  /** What a refill of the loop over events can be. */
  lemma {:induction false} EventRefillsSpec(truckId: string, events: seq<Event>, month: Month, r: Refill)
    ensures r in EventRefills(truckId, events, month) <==>
      r.truckId == truckId && exists e :: e in events && Counted(e, month) && r.gallons == e.galonaje.value
  {
    if |events| > 0 {
      var init := events[..|events| - 1];
      var e := events[|events| - 1];
      EventRefillsSpec(truckId, init, month, r);
      assert events == init + [e];
      if exists x :: x in events && Counted(x, month) && r.gallons == x.galonaje.value {
        var x :| x in events && Counted(x, month) && r.gallons == x.galonaje.value;
        if x != e { assert x in init; }
      }
    }
  }

  lemma {:induction false} TripsRefillsIn(trips: seq<Trip>, month: Month, r: Refill)
    ensures r in TripsRefills(trips, month) <==>
      exists t :: t in trips && r in AssignmentsRefills(t.assignments, month)
  {
    if |trips| > 0 {
      var init := trips[..|trips| - 1];
      var last := trips[|trips| - 1];
      TripsRefillsIn(init, month, r);
      assert trips == init + [last];
      if exists t :: t in trips && r in AssignmentsRefills(t.assignments, month) {
        var t :| t in trips && r in AssignmentsRefills(t.assignments, month);
        if t != last { assert t in init; }
      }
    }
  }

  /** Each credited refill comes from a counted refuel of an assignment,
      with a truck, of one of the trips, and each such refuel is credited:
      neither the trip's status nor its deleted flag is consulted. */
  lemma {:induction false} TripsRefillsSpec(trips: seq<Trip>, month: Month, r: Refill)
    ensures r in TripsRefills(trips, month) <==>
      exists t, a, e :: t in trips && a in t.assignments && e in a.events &&
        a.truckId != "" && a.truckId == r.truckId && Counted(e, month) && r.gallons == e.galonaje.value
  {
    TripsRefillsIn(trips, month, r);
    forall t | t in trips {
      AssignmentsRefillsSpec(t.assignments, month, r);
    }
  }

  lemma {:induction false} AssignmentsRefillsSpec(assignments: seq<Assignment>, month: Month, r: Refill)
    ensures r in AssignmentsRefills(assignments, month) <==>
      exists a, e :: a in assignments && e in a.events &&
        a.truckId != "" && a.truckId == r.truckId && Counted(e, month) && r.gallons == e.galonaje.value
  {
    if |assignments| > 0 {
      var init := assignments[..|assignments| - 1];
      var last := assignments[|assignments| - 1];
      AssignmentsRefillsSpec(init, month, r);
      EventRefillsSpec(last.truckId, last.events, month, r);
      assert assignments == init + [last];
      if exists a, e :: a in assignments && e in a.events &&
           a.truckId != "" && a.truckId == r.truckId && Counted(e, month) && r.gallons == e.galonaje.value {
        var a, e :| a in assignments && e in a.events &&
          a.truckId != "" && a.truckId == r.truckId && Counted(e, month) && r.gallons == e.galonaje.value;
        if a != last { assert a in init; }
      }
    }
  }

  lemma {:induction false} EventRefillsStep(m0: map<string, real>, truckId: string, events: seq<Event>, k: nat, month: Month)
    requires k < |events|
    ensures var m := AddRefills(m0, EventRefills(truckId, events[..k], month));
      var e := events[k];
      AddRefills(m0, EventRefills(truckId, events[..k + 1], month)) ==
        if Counted(e, month) then m[truckId := (if truckId in m then m[truckId] else 0.0) + e.galonaje.value]
        else m
  {
    assert events[..k + 1][..k] == events[..k];
    var before := EventRefills(truckId, events[..k], month);
    if Counted(events[k], month) {
      assert (before + [Refill(truckId, events[k].galonaje.value)])[..|before|] == before;
    } else {
      assert before + [] == before;
    }
  }

  lemma {:induction false} AssignmentsRefillsStep(m0: map<string, real>, assignments: seq<Assignment>, j: nat, month: Month)
    requires j < |assignments|
    ensures AddRefills(m0, AssignmentsRefills(assignments[..j + 1], month)) ==
            AddRefills(AddRefills(m0, AssignmentsRefills(assignments[..j], month)), AssignmentRefills(assignments[j], month))
  {
    assert assignments[..j + 1][..j] == assignments[..j];
    AddRefillsAppend(m0, AssignmentsRefills(assignments[..j], month), AssignmentRefills(assignments[j], month));
  }

  /** The innermost loop: one assignment's events. */
  method AddEventRefuels(m0: map<string, real>, truckId: string, events: seq<Event>, month: Month)
    returns (m: map<string, real>)
    ensures m == AddRefills(m0, EventRefills(truckId, events, month))
  {
    m := m0;
    var k := 0;
    while k < |events|
      invariant 0 <= k <= |events|
      invariant m == AddRefills(m0, EventRefills(truckId, events[..k], month))
    {
      var event := events[k];
      EventRefillsStep(m0, truckId, events, k, month);
      if event.kind == Refuel && TruthyNum(event.galonaje) {
        if month.monthStart <= event.timestamp < month.monthEnd {
          var current := if truckId in m then m[truckId] else 0.0;
          m := m[truckId := current + event.galonaje.value];
        }
      }
      k := k + 1;
    }
    assert events[..|events|] == events;
  }

  /** The middle loop: one trip's assignments, skipping those without a
      truck. */
  method AddTripRefuels(m0: map<string, real>, trip: Trip, month: Month) returns (m: map<string, real>)
    ensures m == AddRefills(m0, AssignmentsRefills(trip.assignments, month))
  {
    m := m0;
    var assignments := trip.assignments;
    var j := 0;
    while j < |assignments|
      invariant 0 <= j <= |assignments|
      invariant m == AddRefills(m0, AssignmentsRefills(assignments[..j], month))
    {
      var assignment := assignments[j];
      AssignmentsRefillsStep(m0, assignments, j, month);
      var truckId := assignment.truckId;
      if truckId != "" {
        m := AddEventRefuels(m, truckId, assignment.events, month);
      }
      j := j + 1;
    }
    assert assignments[..|assignments|] == assignments;
  }

  method MonthlyFuelConsumption(view: ResourceType, trips: seq<Trip>, month: Month)
    returns (consumption: map<string, real>)
    ensures consumption == FuelTable(view, trips, month)
  {
    if view != TruckType {
      return map[];
    }
    consumption := map[];
    var i := 0;
    while i < |trips|
      invariant 0 <= i <= |trips|
      invariant consumption == AddRefills(map[], TripsRefills(trips[..i], month))
    {
      assert trips[..i + 1][..i] == trips[..i];
      AddRefillsAppend(map[], TripsRefills(trips[..i], month), AssignmentsRefills(trips[i].assignments, month));
      consumption := AddTripRefuels(consumption, trips[i], month);
      i := i + 1;
    }
    assert trips[..|trips|] == trips;
  }

  // ---------------------------------------------------------------------
  // Trailer sizes offered by the size filter
  // ---------------------------------------------------------------------

  /** `trailers.map(t => t.trailerSize).filter(size => !!size)`. */
  function Sizes(trailers: seq<Vehicle>): (r: seq<string>)
    ensures forall s :: s in r <==> exists v :: v in trailers && v.trailerSize == Some(s) && s != ""
  {
    if |trailers| == 0 then []
    else
      var init := trailers[..|trailers| - 1];
      var v := trailers[|trailers| - 1];
      assert trailers == init + [v];
      Sizes(init) + (if TruthyStr(v.trailerSize) then [v.trailerSize.value] else [])
  }

  /** `Array.from(new Set(...))` in the trailer view, nothing elsewhere:
      each size once, in the order the trailers first show it. */
  function UniqueTrailerSizes(view: ResourceType, trailers: seq<Vehicle>): (r: seq<string>)
    ensures view != TrailerType ==> r == []
    ensures NoDup(r)
    ensures view == TrailerType ==>
      forall s :: s in r <==> exists v :: v in trailers && v.trailerSize == Some(s) && s != ""
    ensures view == TrailerType ==> forall s :: s in r <==> s in Sizes(trailers)
    ensures view == TrailerType ==>
      forall i, j :: 0 <= i < j < |r| ==> IndexOf(Sizes(trailers), r[i]) < IndexOf(Sizes(trailers), r[j])
  {
    if view != TrailerType then []
    else
      var sizes := Sizes(trailers);
      var r := Dedup(sizes);
      DedupFirstSeen(sizes);
      assert forall s :: s in r <==> s in sizes by {
        forall s ensures s in r <==> s in sizes {
          if s in sizes {
            var i :| 0 <= i < |sizes| && sizes[i] == s;
          }
        }
      }
      r
  }

  // ---------------------------------------------------------------------
  // The listed resources
  // ---------------------------------------------------------------------

  // Visibility is the trip list's rule: an administrator showing deleted
  // items sees only those, everyone else only the others. `isAdmin` is
  // whether the signed-in user's role is the administrator role.

  function VisibleDriver(isAdmin: bool, showDeleted: bool): Driver -> bool {
    (d: Driver) => TripViews.Visible(d.isDeleted, isAdmin, showDeleted)
  }

  function VisibleVehicle(isAdmin: bool, showDeleted: bool): Vehicle -> bool {
    (v: Vehicle) => TripViews.Visible(v.isDeleted, isAdmin, showDeleted)
  }

  function OfSize(sizeFilter: string): Vehicle -> bool {
    (v: Vehicle) => v.trailerSize == Some(sizeFilter)
  }

  /** `trailerInfo.get(r.id)?.status === statusFilter`. */
  function OfStatus(info: map<string, Occupancy.TrailerView>, statusFilter: string): Vehicle -> bool {
    (v: Vehicle) => v.id in info && Occupancy.StatusLabel(info[v.id].info) == statusFilter
  }

  function FilteredDrivers(drivers: seq<Driver>, isAdmin: bool, showDeleted: bool): seq<Driver> {
    Filter(drivers, VisibleDriver(isAdmin, showDeleted))
  }

  /** In the trailer view, the size filter when it is set. */
  function BySize(view: ResourceType, vehicles: seq<Vehicle>, sizeFilter: string): seq<Vehicle> {
    if view == TrailerType && sizeFilter != "" then Filter(vehicles, OfSize(sizeFilter)) else vehicles
  }

  /** In the trailer view, the occupancy-status filter when it is set. */
  function ByStatus(view: ResourceType, vehicles: seq<Vehicle>, statusFilter: string,
                    info: map<string, Occupancy.TrailerView>): seq<Vehicle> {
    if view == TrailerType && statusFilter != "" then Filter(vehicles, OfStatus(info, statusFilter)) else vehicles
  }

  /** The vehicle list: visibility first, then, in the trailer view, the
      size and the occupancy status when those filters are set. `info` is
      the resource screen's occupancy table. */
  function FilteredVehicles(view: ResourceType, vehicles: seq<Vehicle>, isAdmin: bool, showDeleted: bool,
                            sizeFilter: string, statusFilter: string,
                            info: map<string, Occupancy.TrailerView>): seq<Vehicle>
  {
    ByStatus(view, BySize(view, Filter(vehicles, VisibleVehicle(isAdmin, showDeleted)), sizeFilter), statusFilter, info)
  }

  predicate SizeOk(view: ResourceType, sizeFilter: string, v: Vehicle) {
    view == TrailerType && sizeFilter != "" ==> v.trailerSize == Some(sizeFilter)
  }

  predicate StatusOk(view: ResourceType, statusFilter: string, info: map<string, Occupancy.TrailerView>, v: Vehicle) {
    view == TrailerType && statusFilter != "" ==>
      v.id in info && Occupancy.StatusLabel(info[v.id].info) == statusFilter
  }

  function VisibleSized(view: ResourceType, isAdmin: bool, showDeleted: bool, sizeFilter: string): Vehicle -> bool {
    (v: Vehicle) => TripViews.Visible(v.isDeleted, isAdmin, showDeleted) && SizeOk(view, sizeFilter, v)
  }

  /** Every condition the screen applies, as one test. */
  function Listed(view: ResourceType, isAdmin: bool, showDeleted: bool, sizeFilter: string,
                  statusFilter: string, info: map<string, Occupancy.TrailerView>): Vehicle -> bool {
    (v: Vehicle) => TripViews.Visible(v.isDeleted, isAdmin, showDeleted) && SizeOk(view, sizeFilter, v) &&
                    StatusOk(view, statusFilter, info, v)
  }

  lemma {:induction false} BySizeSpec(view: ResourceType, vehicles: seq<Vehicle>, isAdmin: bool, showDeleted: bool, sizeFilter: string)
    ensures BySize(view, Filter(vehicles, VisibleVehicle(isAdmin, showDeleted)), sizeFilter) ==
            Filter(vehicles, VisibleSized(view, isAdmin, showDeleted, sizeFilter))
  {
    var vis := VisibleVehicle(isAdmin, showDeleted);
    var sized := VisibleSized(view, isAdmin, showDeleted, sizeFilter);
    if view == TrailerType && sizeFilter != "" {
      FilterFilter(vehicles, vis, OfSize(sizeFilter), sized);
    } else {
      FilterSame(vehicles, vis, sized);
    }
  }

  lemma {:induction false} ByStatusSpec(view: ResourceType, vehicles: seq<Vehicle>, isAdmin: bool, showDeleted: bool,
                     sizeFilter: string, statusFilter: string, info: map<string, Occupancy.TrailerView>)
    ensures ByStatus(view, Filter(vehicles, VisibleSized(view, isAdmin, showDeleted, sizeFilter)), statusFilter, info) ==
            Filter(vehicles, Listed(view, isAdmin, showDeleted, sizeFilter, statusFilter, info))
  {
    var sized := VisibleSized(view, isAdmin, showDeleted, sizeFilter);
    var listed := Listed(view, isAdmin, showDeleted, sizeFilter, statusFilter, info);
    if view == TrailerType && statusFilter != "" {
      FilterFilter(vehicles, sized, OfStatus(info, statusFilter), listed);
    } else {
      FilterSame(vehicles, sized, listed);
    }
  }

  /** The chain of filters is one filter by all the conditions together:
      the result keeps the input order and holds a vehicle exactly when it
      passes every condition that is set. */
  lemma {:induction false} FilteredVehiclesSpec(view: ResourceType, vehicles: seq<Vehicle>, isAdmin: bool, showDeleted: bool,
                             sizeFilter: string, statusFilter: string, info: map<string, Occupancy.TrailerView>)
    ensures FilteredVehicles(view, vehicles, isAdmin, showDeleted, sizeFilter, statusFilter, info) ==
            Filter(vehicles, Listed(view, isAdmin, showDeleted, sizeFilter, statusFilter, info))
  {
    BySizeSpec(view, vehicles, isAdmin, showDeleted, sizeFilter);
    ByStatusSpec(view, vehicles, isAdmin, showDeleted, sizeFilter, statusFilter, info);
  }

  /** A vehicle is listed exactly when it passes every condition that is
      set; so with the deleted view on an administrator sees only deleted
      vehicles, and in every other case no deleted vehicle is listed. */
  lemma {:induction false} FilteredVehiclesMembers(view: ResourceType, vehicles: seq<Vehicle>, isAdmin: bool, showDeleted: bool,
                                sizeFilter: string, statusFilter: string, info: map<string, Occupancy.TrailerView>)
    ensures forall v :: v in FilteredVehicles(view, vehicles, isAdmin, showDeleted, sizeFilter, statusFilter, info) <==>
      v in vehicles && Listed(view, isAdmin, showDeleted, sizeFilter, statusFilter, info)(v)
    ensures forall v :: v in FilteredVehicles(view, vehicles, isAdmin, showDeleted, sizeFilter, statusFilter, info) ==>
      v.isDeleted == (isAdmin && showDeleted)
  {
    FilteredVehiclesSpec(view, vehicles, isAdmin, showDeleted, sizeFilter, statusFilter, info);
    var listed := Listed(view, isAdmin, showDeleted, sizeFilter, statusFilter, info);
    forall v | v in vehicles && listed(v)
      ensures v in Filter(vehicles, listed)
    {
      var i :| 0 <= i < |vehicles| && vehicles[i] == v;
    }
  }

  // ---------------------------------------------------------------------
  // Saving the form
  // ---------------------------------------------------------------------

  /** JavaScript truthiness of a stored value. */
  predicate Truthy(v: Store.Value) {
    match v
    case Str(s) => s != ""
    case Num(n) => n != 0.0
    case Bool(b) => b
    case List(_) => true
    case Object(_) => true
  }

  const ActiveStatus := Store.Str("Activo")

  /** The form starts from the edited record, or empty; a new truck starts
      as active. */
  function InitialForm(view: ResourceType, resource: Option<Store.Rec>): (f: Store.Rec)
    ensures resource.Some? ==> f == resource.value
    ensures resource.None? && view == TruckType ==> f == map["status" := ActiveStatus]
    ensures resource.None? && view != TruckType ==> f == map[]
  {
    if resource.Some? then resource.value
    else if view == TruckType then map["status" := ActiveStatus] else map[]
  }

  /** `{ ...formData, isDeleted: false }`, then an active status for a
      truck whose status is falsy. */
  function SaveData(view: ResourceType, formData: Store.Rec): (d: Store.Rec)
    ensures "isDeleted" in d && d["isDeleted"] == Store.Bool(false)
    ensures view == TruckType ==> "status" in d && Truthy(d["status"])
    ensures d.Keys == formData.Keys + {"isDeleted"} + (if view == TruckType then {"status"} else {})
    ensures forall f :: f in formData && f != "isDeleted" && !(f == "status" && view == TruckType) ==>
                        d[f] == formData[f]
    ensures view == TruckType && "status" in formData && Truthy(formData["status"]) ==>
              d["status"] == formData["status"]
    ensures view == TruckType && !("status" in formData && Truthy(formData["status"])) ==>
              d["status"] == ActiveStatus
  {
    var d := formData["isDeleted" := Store.Bool(false)];
    if view == TruckType && !("status" in d && Truthy(d["status"])) then d["status" := ActiveStatus] else d
  }

  /** A new vehicle also gets its type. */
  function CreateData(view: ResourceType, formData: Store.Rec): (d: Store.Rec)
    ensures view == DriverType ==> d == SaveData(view, formData)
    ensures view == TruckType ==> d == SaveData(view, formData)["type" := Store.Str("truck")]
    ensures view == TrailerType ==> d == SaveData(view, formData)["type" := Store.Str("trailer")]
  {
    var d := SaveData(view, formData);
    if view == DriverType then d
    else d["type" := Store.Str(if view == TruckType then "truck" else "trailer")]
  }

  /** `ResourceForm.handleSubmit`: an update of the edited record or the
      creation of a new one; a rejected update leaves the form open. */
  method SaveResource(api: Store.ApiService, view: ResourceType, resourceId: Option<string>,
                      formData: Store.Rec, freshId: string) returns (saved: bool)
    requires api.Valid()
    requires resourceId.None? ==>
      forall k :: 0 <= k < |api.ListOf(StoreList(view))| ==> !Store.HasId(api.ListOf(StoreList(view))[k], freshId)
    modifies api
    ensures resourceId.None? ==>
      saved && api.ListOf(StoreList(view)) ==
        old(api.ListOf(StoreList(view))) + [Store.WithId(CreateData(view, formData), freshId)]
    ensures resourceId.Some? ==>
      match Store.Updated(old(api.ListOf(StoreList(view))), resourceId.value, SaveData(view, formData))
      case None => !saved && api.ListOf(StoreList(view)) == old(api.ListOf(StoreList(view)))
      case Some(items) => saved && api.ListOf(StoreList(view)) == items
    ensures forall q :: q != StoreList(view) ==> api.ListOf(q) == old(api.ListOf(q))
    ensures api.lastServiceNumber == old(api.lastServiceNumber)
    ensures api.Valid()
  {
    var dataToSave := SaveData(view, formData);
    if resourceId.Some? {
      var result := api.Update(StoreList(view), resourceId.value, dataToSave);
      saved := result.Done?;
    } else {
      var item := api.Create(StoreList(view), CreateData(view, formData), freshId);
      saved := true;
    }
  }
}
