/** What the trip screen derives from the trips: the searchable list, the
    demurrage alerts, and the assignment editor's driver-to-truck rule. */
module TripViews {
  import opened Base
  import opened Text
  import opened Domain

  // ---------------------------------------------------------------------
  // Trip list
  // ---------------------------------------------------------------------

  /** An administrator who asked for deleted items sees only those;
      everyone else only the live ones. */
  predicate Visible(deleted: bool, isAdmin: bool, showDeleted: bool) {
    if isAdmin && showDeleted then deleted else !deleted
  }

  /** `-createdAt`: the key of a newest-first sort. */
  function NewestFirst(t: Trip): real {
    -(t.createdAt as real)
  }

  /** The search term occurs, ignoring case, in the service order, client,
      bill of lading or some assignment's container or merchandise. */
  predicate TripMatches(t: Trip, term: string) {
    MatchesTerm(t.serviceOrder, term) || MatchesTerm(t.clientName, term) ||
    MatchesTerm(t.billOfLading, term) || SomeAssignmentMatches(t.assignments, term)
  }

  /** Some assignment's container number or merchandise matches. */
  predicate SomeAssignmentMatches(assignments: seq<Assignment>, term: string) {
    |assignments| > 0 &&
    (MatchesTerm(assignments[0].containerNumber, term) ||
     (assignments[0].merchandiseType.Some? && MatchesTerm(assignments[0].merchandiseType.value, term)) ||
     SomeAssignmentMatches(assignments[1..], term))
  }

  lemma {:induction false} SomeAssignmentMatchesSpec(assignments: seq<Assignment>, term: string)
    ensures SomeAssignmentMatches(assignments, term) <==>
      exists i :: 0 <= i < |assignments| &&
        (MatchesTerm(assignments[i].containerNumber, term) ||
         (assignments[i].merchandiseType.Some? && MatchesTerm(assignments[i].merchandiseType.value, term)))
  {
    if |assignments| > 0 {
      var rest := assignments[1..];
      SomeAssignmentMatchesSpec(rest, term);
      assert forall i :: 0 <= i < |rest| ==> rest[i] == assignments[i + 1];
      if SomeAssignmentMatches(rest, term) && !SomeAssignmentMatches(assignments[..1], term) {
        var i :| 0 <= i < |rest| &&
          (MatchesTerm(rest[i].containerNumber, term) ||
           (rest[i].merchandiseType.Some? && MatchesTerm(rest[i].merchandiseType.value, term)));
        assert assignments[i + 1] == rest[i];
      }
      if exists i :: 0 <= i < |assignments| &&
          (MatchesTerm(assignments[i].containerNumber, term) ||
           (assignments[i].merchandiseType.Some? && MatchesTerm(assignments[i].merchandiseType.value, term))) {
        var i :| 0 <= i < |assignments| &&
          (MatchesTerm(assignments[i].containerNumber, term) ||
           (assignments[i].merchandiseType.Some? && MatchesTerm(assignments[i].merchandiseType.value, term)));
        if i > 0 {
          assert rest[i - 1] == assignments[i];
        }
      }
    }
  }

  function VisibleTrip(isAdmin: bool, showDeleted: bool): Trip -> bool {
    (t: Trip) => Visible(t.isDeleted, isAdmin, showDeleted)
  }

  function MatchingTrip(term: string): Trip -> bool {
    (t: Trip) => TripMatches(t, term)
  }

  function FilteredTrips(trips: seq<Trip>, isAdmin: bool, showDeleted: bool, term: string): seq<Trip> {
    var base := SortBy(Filter(trips, VisibleTrip(isAdmin, showDeleted)), NewestFirst);
    if term == "" then base else Filter(base, MatchingTrip(term))
  }

  /** A trip the list shows: visible, and matching a non-empty search. */
  function ShownTrip(isAdmin: bool, showDeleted: bool, term: string): Trip -> bool {
    (t: Trip) => Visible(t.isDeleted, isAdmin, showDeleted) && (term == "" || TripMatches(t, term))
  }

  /** The list holds exactly the visible trips that match the search (all
      visible ones for an empty search), each as often as in the input,
      newest first. */
  lemma {:induction false} FilteredTripsSpec(trips: seq<Trip>, isAdmin: bool, showDeleted: bool, term: string)
    ensures var r := FilteredTrips(trips, isAdmin, showDeleted, term);
      SortedBy(r, NewestFirst) && multiset(r) <= multiset(trips) &&
      multiset(r) == multiset(Filter(trips, ShownTrip(isAdmin, showDeleted, term))) &&
      (forall i :: 0 <= i < |r| ==> Visible(r[i].isDeleted, isAdmin, showDeleted) && (term != "" ==> TripMatches(r[i], term))) &&
      (forall i :: (0 <= i < |trips| && Visible(trips[i].isDeleted, isAdmin, showDeleted) &&
                    (term == "" || TripMatches(trips[i], term))) ==> trips[i] in r)
  {
    var v := VisibleTrip(isAdmin, showDeleted);
    var shown := ShownTrip(isAdmin, showDeleted, term);
    var f := Filter(trips, v);
    SortByPerm(f, NewestFirst);
    if term == "" {
      AllTripsSpec(trips, isAdmin, showDeleted);
      FilterSame(trips, v, shown);
    } else {
      SearchedTripsSpec(trips, isAdmin, showDeleted, term);
      FilterPermutation(SortBy(f, NewestFirst), f, MatchingTrip(term));
      FilterFilter(trips, v, MatchingTrip(term), shown);
    }
  }

  lemma {:induction false} AllTripsSpec(trips: seq<Trip>, isAdmin: bool, showDeleted: bool)
    ensures var r := FilteredTrips(trips, isAdmin, showDeleted, "");
      SortedBy(r, NewestFirst) && multiset(r) <= multiset(trips) &&
      (forall i :: 0 <= i < |r| ==> Visible(r[i].isDeleted, isAdmin, showDeleted)) &&
      (forall i :: (0 <= i < |trips| && Visible(trips[i].isDeleted, isAdmin, showDeleted)) ==> trips[i] in r)
  {
    SortedFilter(trips, VisibleTrip(isAdmin, showDeleted), NewestFirst);
  }

  lemma {:induction false} SearchedTripsSpec(trips: seq<Trip>, isAdmin: bool, showDeleted: bool, term: string)
    requires term != ""
    ensures var r := FilteredTrips(trips, isAdmin, showDeleted, term);
      SortedBy(r, NewestFirst) && multiset(r) <= multiset(trips) &&
      (forall i :: 0 <= i < |r| ==> Visible(r[i].isDeleted, isAdmin, showDeleted) && TripMatches(r[i], term)) &&
      (forall i :: (0 <= i < |trips| && Visible(trips[i].isDeleted, isAdmin, showDeleted) &&
                    TripMatches(trips[i], term)) ==> trips[i] in r)
  {
    var vis := VisibleTrip(isAdmin, showDeleted);
    var matching := MatchingTrip(term);
    var r := FilteredTrips(trips, isAdmin, showDeleted, term);
    assert r == Filter(SortBy(Filter(trips, vis), NewestFirst), matching);
    SortedSelection(trips, vis, matching, NewestFirst);
    forall i | 0 <= i < |r| ensures Visible(r[i].isDeleted, isAdmin, showDeleted) && TripMatches(r[i], term) {
      assert vis(r[i]) && matching(r[i]);
    }
    forall i | 0 <= i < |trips| && Visible(trips[i].isDeleted, isAdmin, showDeleted) && TripMatches(trips[i], term)
      ensures trips[i] in r
    {
      assert vis(trips[i]) && matching(trips[i]);
    }
  }

  // ---------------------------------------------------------------------
  // Demurrage alerts
  // ---------------------------------------------------------------------

  /** The assignment arrived more than a day ago and has not started its
      stay. */
  predicate Overdue(a: Assignment, now: int) {
    var arrival := FirstOfType(a.events, ArrivalAtDestination);
    arrival.Some? && FirstOfType(a.events, StayStart).None? && now > arrival.value.timestamp + DayMillis
  }

  /** A trip in progress, not deleted, with an overdue assignment. */
  predicate NeedsDemurrageAlert(t: Trip, now: int) {
    t.status == InProgress && !t.isDeleted &&
    exists i :: 0 <= i < |t.assignments| && Overdue(t.assignments[i], now)
  }

  /** The ids of the trips that need an alert. */
  function AlertIds(trips: seq<Trip>, now: int): set<string> {
    if |trips| == 0 then {}
    else AlertIds(trips[..|trips| - 1], now) +
         (if NeedsDemurrageAlert(trips[|trips| - 1], now) then {trips[|trips| - 1].id} else {})
  }

  /** An id is flagged exactly when some trip with that id needs an alert. */
  lemma {:induction false} AlertIdsSpec(trips: seq<Trip>, now: int, id: string)
    ensures id in AlertIds(trips, now) <==>
            exists i :: 0 <= i < |trips| && trips[i].id == id && NeedsDemurrageAlert(trips[i], now)
  {
    if |trips| > 0 {
      var init, last := trips[..|trips| - 1], trips[|trips| - 1];
      AlertIdsSpec(init, now, id);
      if id in AlertIds(init, now) {
        var i :| 0 <= i < |init| && init[i].id == id && NeedsDemurrageAlert(init[i], now);
        assert trips[i] == init[i];
      } else if id in AlertIds(trips, now) {
        assert last.id == id && NeedsDemurrageAlert(last, now);
      } else {
        forall i | 0 <= i < |trips| && trips[i].id == id ensures !NeedsDemurrageAlert(trips[i], now) {
          if i < |init| {
            assert init[i] == trips[i];
          }
        }
      }
    }
  }

  /** The alert loop: skips trips not in progress or deleted and adds the
      trip's id for every overdue assignment. */
  method DemurrageAlerts(trips: seq<Trip>, now: int) returns (alerts: set<string>)
    ensures alerts == AlertIds(trips, now)
  {
    alerts := {};
    var i := 0;
    while i < |trips|
      invariant 0 <= i <= |trips|
      invariant alerts == AlertIds(trips[..i], now)
    {
      var trip := trips[i];
      assert trips[..i + 1][..i] == trips[..i];
      if trip.status == InProgress && !trip.isDeleted {
        var before := alerts;
        var j := 0;
        while j < |trip.assignments|
          invariant 0 <= j <= |trip.assignments|
          invariant alerts == before + (if exists k :: 0 <= k < j && Overdue(trip.assignments[k], now) then {trip.id} else {})
        {
          var a := trip.assignments[j];
          var arrival := FirstOfType(a.events, ArrivalAtDestination);
          var stayStart := FirstOfType(a.events, StayStart);
          if arrival.Some? && stayStart.None? {
            if now > arrival.value.timestamp + DayMillis {
              alerts := alerts + {trip.id};
            }
          }
          assert Overdue(a, now) ==> exists k :: 0 <= k < j + 1 && Overdue(trip.assignments[k], now);
          j := j + 1;
        }
      }
      i := i + 1;
    }
    assert trips[..i] == trips;
  }

  // ---------------------------------------------------------------------
  // Assignment editor
  // ---------------------------------------------------------------------

  /** A truck the driver's plate may select: same plate, not deleted, active. */
  predicate SelectableTruck(t: Vehicle, plate: string) {
    t.plate == plate && !t.isDeleted && t.status == Some(VehicleActive)
  }

  /** The truck id chosen with a driver: the first selectable truck with
      the driver's plate, or '' when the driver is unknown, has no plate or
      no such truck exists. */
  function RecommendedTruck(driverId: string, drivers: seq<Driver>, trucks: seq<Vehicle>): string {
    match Find(drivers, (d: Driver) => d.id == driverId)
    case None => ""
    case Some(d) =>
      if d.truckPlate == "" then ""
      else
        match Find(trucks, (t: Vehicle) => SelectableTruck(t, d.truckPlate))
        case None => ""
        case Some(t) => t.id
  }

  /** The truck chosen is selectable for the first driver with that id; an
      empty choice means there was no such driver, no plate or no truck. */
  lemma {:induction false} RecommendedTruckSpec(driverId: string, drivers: seq<Driver>, trucks: seq<Vehicle>)
    ensures var r := RecommendedTruck(driverId, drivers, trucks);
            var d := Find(drivers, (d: Driver) => d.id == driverId);
      (d.None? ==> r == "") &&
      (d.Some? && d.value.truckPlate == "" ==> r == "") &&
      (d.Some? && d.value.truckPlate != "" && !(exists i :: 0 <= i < |trucks| && SelectableTruck(trucks[i], d.value.truckPlate)) ==> r == "") &&
      (d.Some? && d.value.truckPlate != "" && (exists i :: 0 <= i < |trucks| && SelectableTruck(trucks[i], d.value.truckPlate)) ==>
         exists i :: 0 <= i < |trucks| && trucks[i].id == r && SelectableTruck(trucks[i], d.value.truckPlate) &&
                     forall j :: 0 <= j < i ==> !SelectableTruck(trucks[j], d.value.truckPlate))
  {
    var d := Find(drivers, (d: Driver) => d.id == driverId);
    if d.Some? && d.value.truckPlate != "" {
      var p := (t: Vehicle) => SelectableTruck(t, d.value.truckPlate);
      var found := Find(trucks, p);
      if found.Some? {
        var i :| 0 <= i < |trucks| && trucks[i] == found.value && forall j :: 0 <= j < i ==> !p(trucks[j]);
        assert trucks[i].id == RecommendedTruck(driverId, drivers, trucks);
      }
    }
  }

  /** The editable fields of an assignment. */
  datatype AssignmentField = DriverField | TruckField | TrailerField | ContainerField | MerchandiseField | CostField

  /** `handleAssignmentChange`: choosing a driver also picks the truck;
      the cost is read as a number with 0 as fallback; any other field
      takes the text as given. */
  function ChangeAssignment(a: Assignment, field: AssignmentField, value: string,
                            drivers: seq<Driver>, trucks: seq<Vehicle>): (r: Assignment)
    ensures field == DriverField ==> r == a.(driverId := value, truckId := RecommendedTruck(value, drivers, trucks))
    ensures field == CostField ==> r == a.(cost := ParseFloatOrZero(value))
    ensures field == TruckField ==> r == a.(truckId := value)
    ensures field == TrailerField ==> r == a.(trailerId := value)
    ensures field == ContainerField ==> r == a.(containerNumber := value)
    ensures field == MerchandiseField ==> r == a.(merchandiseType := Some(value))
    ensures r.events == a.events && r.id == a.id && r.dmti == a.dmti && r.dmtiCost == a.dmtiCost
  {
    match field
    case DriverField => a.(driverId := value, truckId := RecommendedTruck(value, drivers, trucks))
    case TruckField => a.(truckId := value)
    case TrailerField => a.(trailerId := value)
    case ContainerField => a.(containerNumber := value)
    case MerchandiseField => a.(merchandiseType := Some(value))
    case CostField => a.(cost := ParseFloatOrZero(value))
  }

  /** The edit replaces the assignment at `index` and no other. */
  function ChangeAssignmentAt(assignments: seq<Assignment>, index: nat, field: AssignmentField, value: string,
                              drivers: seq<Driver>, trucks: seq<Vehicle>): (r: seq<Assignment>)
    requires index < |assignments|
    ensures |r| == |assignments|
    ensures r[index] == ChangeAssignment(assignments[index], field, value, drivers, trucks)
    ensures forall i :: 0 <= i < |r| && i != index ==> r[i] == assignments[i]
  {
    assignments[index := ChangeAssignment(assignments[index], field, value, drivers, trucks)]
  }
}
