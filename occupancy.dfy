/** Which trailers are in use, by whom and on which service order. The
    trip screen and the resource screen each derive this table; the
    resource screen's copy also carries a display label. Both are folds
    over the assignments of the active trips, in order, where a later
    assignment overwrites the entry an earlier one wrote. */
module Occupancy {
  import opened Base
  import opened Domain

  /** An occupancy entry: in use or available, with the driver's name and
      the trip's service order when in use. */
  datatype TrailerInfo = TrailerInfo(inUse: bool, driverName: Option<string>, tripServiceOrder: Option<string>)

  /** The resource screen's entry: the same, plus the label shown. */
  datatype TrailerView = TrailerView(info: TrailerInfo, displayStatus: string)

  const Available := TrailerInfo(false, None, None)
  const AvailableLabel := "Disponible"
  const InUseLabel := "En uso"

  function StatusLabel(i: TrailerInfo): string {
    if i.inUse then InUseLabel else AvailableLabel
  }

  /** Trips still under way: neither completed nor canceled, not deleted. */
  predicate ActiveTrip(t: Trip) {
    t.status != Completed && t.status != Canceled && !t.isDeleted
  }

  function NewestEventFirst(e: Event): real {
    -(e.timestamp as real)
  }

  /** The head of the log sorted newest first. */
  function LastEvent(events: seq<Event>): Option<Event> {
    var sorted := SortBy(events, NewestEventFirst);
    if |sorted| > 0 then Some(sorted[0]) else None
  }

  /** The head of the newest-first sort is an event with the latest
      timestamp, and the earliest in the log among those. */
  lemma {:induction false} LastEventSpec(events: seq<Event>)
    ensures LastEvent(events).None? <==> |events| == 0
    ensures LastEvent(events).Some? ==>
      (forall i :: 0 <= i < |events| ==> events[i].timestamp <= LastEvent(events).value.timestamp) &&
      exists i :: 0 <= i < |events| && events[i] == LastEvent(events).value &&
                  forall j :: 0 <= j < i ==> events[j].timestamp < LastEvent(events).value.timestamp
  {
    if |events| > 0 {
      SortByHead(events, NewestEventFirst);
      MinFirstSpec(events, NewestEventFirst);
    }
  }

  /** An assignment holds its trailer until its latest event is the end of
      the empty return. */
  predicate Holds(a: Assignment) {
    a.trailerId != "" && (LastEvent(a.events).None? || LastEvent(a.events).value.kind != EmptyReturnEnd)
  }

  /** One assignment of one trip, in processing order. */
  datatype Step = Step(trip: Trip, assignment: Assignment)

  function TripSteps(t: Trip): (r: seq<Step>)
    ensures |r| == |t.assignments|
    ensures forall j :: 0 <= j < |r| ==> r[j] == Step(t, t.assignments[j])
  {
    seq(|t.assignments|, j requires 0 <= j < |t.assignments| => Step(t, t.assignments[j]))
  }

  /** Every assignment of the given trips, trip by trip. */
  function Steps(trips: seq<Trip>): seq<Step> {
    if |trips| == 0 then [] else Steps(trips[..|trips| - 1]) + TripSteps(trips[|trips| - 1])
  }

  predicate Marks(s: Step, k: string) {
    s.assignment.trailerId == k && Holds(s.assignment)
  }

  /** `drivers.find(...)?.name || 'N/A'`. */
  function DriverName(drivers: seq<Driver>, id: string): string {
    match Find(drivers, (d: Driver) => d.id == id)
    case None => "N/A"
    case Some(d) => if d.name == "" then "N/A" else d.name
  }

  function InUseInfo(s: Step, drivers: seq<Driver>): TrailerInfo {
    TrailerInfo(true, Some(DriverName(drivers, s.assignment.driverId)), Some(s.trip.serviceOrder))
  }

  /** The fold: each holding assignment sets its trailer's entry. */
  function FoldSteps<V>(m: map<string, V>, steps: seq<Step>, entry: Step -> V): map<string, V> {
    if |steps| == 0 then m
    else
      var before := FoldSteps(m, steps[..|steps| - 1], entry);
      var s := steps[|steps| - 1];
      if Holds(s.assignment) then before[s.assignment.trailerId := entry(s)] else before
  }

  /** The last step that marks trailer `k`, if any. */
  function LastMark(steps: seq<Step>, k: string): (r: Option<nat>)
    ensures r.Some? ==> r.value < |steps| && Marks(steps[r.value], k) &&
                        forall j :: r.value < j < |steps| ==> !Marks(steps[j], k)
    ensures r.None? ==> forall j :: 0 <= j < |steps| ==> !Marks(steps[j], k)
  {
    if |steps| == 0 then None
    else if Marks(steps[|steps| - 1], k) then Some(|steps| - 1)
    else
      var r := LastMark(steps[..|steps| - 1], k);
      assert forall j :: 0 <= j < |steps| - 1 ==> steps[j] == steps[..|steps| - 1][j];
      r
  }

  /** Last writer wins: a trailer that some step marks carries the entry of
      the last such step; any other keeps its initial entry; no key appears
      that neither the initial table nor a marking step supplies. */
  lemma {:induction false} FoldStepsSpec<V>(m: map<string, V>, steps: seq<Step>, entry: Step -> V, k: string)
    ensures k in FoldSteps(m, steps, entry) <==> k in m || LastMark(steps, k).Some?
    ensures LastMark(steps, k).Some? ==> FoldSteps(m, steps, entry)[k] == entry(steps[LastMark(steps, k).value])
    ensures LastMark(steps, k).None? && k in m ==> FoldSteps(m, steps, entry)[k] == m[k]
  {
    if |steps| > 0 {
      var init := steps[..|steps| - 1];
      FoldStepsSpec(m, init, entry, k);
      if !Marks(steps[|steps| - 1], k) {
        assert LastMark(steps, k) == LastMark(init, k);
        if LastMark(init, k).Some? {
          assert steps[LastMark(init, k).value] == init[LastMark(init, k).value];
        }
      }
    }
  }

  lemma {:induction false} StepAppend(done: seq<Step>, t: Trip, j: nat)
    requires j < |t.assignments|
    ensures done + TripSteps(t)[..j + 1] == (done + TripSteps(t)[..j]) + [Step(t, t.assignments[j])]
  {
    assert TripSteps(t)[..j + 1] == TripSteps(t)[..j] + [Step(t, t.assignments[j])];
  }

  lemma {:induction false} StepsPrefix(trips: seq<Trip>, i: nat)
    requires i < |trips|
    ensures Steps(trips[..i + 1]) == Steps(trips[..i]) + TripSteps(trips[i])[..|trips[i].assignments|]
  {
    assert trips[..i + 1][..i] == trips[..i];
    assert TripSteps(trips[i])[..|trips[i].assignments|] == TripSteps(trips[i]);
  }

  lemma {:induction false} FoldStepsAppend<V>(m: map<string, V>, steps: seq<Step>, s: Step, entry: Step -> V)
    ensures FoldSteps(m, steps + [s], entry) ==
            (if Holds(s.assignment) then FoldSteps(m, steps, entry)[s.assignment.trailerId := entry(s)]
             else FoldSteps(m, steps, entry))
  {
    assert (steps + [s])[..|steps|] == steps;
  }

  /** The starting table: every trailer available. */
  function InitialTable<V>(trailers: seq<Vehicle>, v: V): map<string, V> {
    if |trailers| == 0 then map[]
    else InitialTable(trailers[..|trailers| - 1], v)[trailers[|trailers| - 1].id := v]
  }

  lemma {:induction false} InitialTableSpec<V>(trailers: seq<Vehicle>, v: V, k: string)
    ensures k in InitialTable(trailers, v) <==> exists i :: 0 <= i < |trailers| && trailers[i].id == k
    ensures k in InitialTable(trailers, v) ==> InitialTable(trailers, v)[k] == v
  {
    if |trailers| > 0 {
      var init := trailers[..|trailers| - 1];
      InitialTableSpec(init, v, k);
      if exists i :: 0 <= i < |init| && init[i].id == k {
        var i :| 0 <= i < |init| && init[i].id == k;
        assert trailers[i].id == k;
      }
      if exists i :: 0 <= i < |trailers| && trailers[i].id == k {
        var i :| 0 <= i < |trailers| && trailers[i].id == k;
        if i < |init| {
          assert init[i].id == k;
        }
      }
    }
  }

  /** The trip screen's table. */
  function TripTable(trips: seq<Trip>, trailers: seq<Vehicle>, drivers: seq<Driver>): map<string, TrailerInfo> {
    FoldSteps(InitialTable(trailers, Available), Steps(Filter(trips, ActiveTrip)), (s: Step) => InUseInfo(s, drivers))
  }

  /** A trailer is in use exactly when some assignment of an active trip
      holds it; its entry then names the driver and service order of the
      last such assignment. A known trailer no one holds is available. */
  lemma {:induction false} TripTableSpec(trips: seq<Trip>, trailers: seq<Vehicle>, drivers: seq<Driver>, k: string)
    ensures var t := TripTable(trips, trailers, drivers);
            var steps := Steps(Filter(trips, ActiveTrip));
      (k in t <==> (exists i :: 0 <= i < |trailers| && trailers[i].id == k) || LastMark(steps, k).Some?) &&
      (k in t ==> (t[k].inUse <==> LastMark(steps, k).Some?)) &&
      (LastMark(steps, k).Some? ==> t[k] == InUseInfo(steps[LastMark(steps, k).value], drivers)) &&
      (k in t && LastMark(steps, k).None? ==> t[k] == Available)
  {
    var steps := Steps(Filter(trips, ActiveTrip));
    var init := InitialTable(trailers, Available);
    var entry := (s: Step) => InUseInfo(s, drivers);
    FoldStepsSpec(init, steps, entry, k);
    InitialTableSpec(trailers, Available, k);
  }

  /** The trip screen's loops. */
  method TripTrailerInfo(trips: seq<Trip>, trailers: seq<Vehicle>, drivers: seq<Driver>) returns (info: map<string, TrailerInfo>)
    ensures info == TripTable(trips, trailers, drivers)
  {
    info := map[];
    var n := 0;
    while n < |trailers|
      invariant 0 <= n <= |trailers|
      invariant info == InitialTable(trailers[..n], Available)
    {
      assert trailers[..n + 1][..n] == trailers[..n];
      info := info[trailers[n].id := Available];
      n := n + 1;
    }
    assert trailers[..n] == trailers;
    ghost var init := info;
    ghost var entry := (s: Step) => InUseInfo(s, drivers);
    var active := Filter(trips, ActiveTrip);
    var i := 0;
    while i < |active|
      invariant 0 <= i <= |active|
      invariant info == FoldSteps(init, Steps(active[..i]), entry)
    {
      var trip := active[i];
      ghost var done := Steps(active[..i]);
      var j := 0;
      assert done + TripSteps(trip)[..0] == done;
      while j < |trip.assignments|
        invariant 0 <= j <= |trip.assignments|
        invariant info == FoldSteps(init, done + TripSteps(trip)[..j], entry)
      {
        var a := trip.assignments[j];
        StepAppend(done, trip, j);
        FoldStepsAppend(init, done + TripSteps(trip)[..j], Step(trip, a), entry);
        if a.trailerId != "" {
          var sorted := SortBy(a.events, NewestEventFirst);
          if |sorted| == 0 || sorted[0].kind != EmptyReturnEnd {
            info := info[a.trailerId := TrailerInfo(true, Some(DriverName(drivers, a.driverId)), Some(trip.serviceOrder))];
          }
        }
        j := j + 1;
      }
      StepsPrefix(active, i);
      i := i + 1;
    }
    assert active[..i] == active;
  }

  // ---------------------------------------------------------------------
  // The resource screen's copy, with its display label
  // ---------------------------------------------------------------------

  const NoCargoLabel := "Carga no especificada"
  const NoEventsLabel := "Sin Eventos"

  /** The cargo identifier (container number on Container trips, otherwise
      the merchandise, a fixed text when empty) and the latest event. */
  function DisplayStatus(s: Step): string {
    var id := if s.trip.cargoType == Container then Some(s.assignment.containerNumber) else s.assignment.merchandiseType;
    var idText := if id.Some? && id.value != "" then id.value else NoCargoLabel;
    var last := LastEvent(s.assignment.events);
    idText + " / " + (if last.Some? then EventTypeLabel(last.value.kind) else NoEventsLabel)
  }

  lemma {:induction false} DisplayStatusInline(trip: Trip, a: Assignment)
    ensures var sorted := SortBy(a.events, NewestEventFirst);
            var cargo := if trip.cargoType == Container then Some(a.containerNumber) else a.merchandiseType;
            var idText := if cargo.Some? && cargo.value != "" then cargo.value else NoCargoLabel;
            var lastText := if |sorted| > 0 then EventTypeLabel(sorted[0].kind) else NoEventsLabel;
      idText + " / " + lastText == DisplayStatus(Step(trip, a))
  {
  }

  function InUseView(s: Step, drivers: seq<Driver>): TrailerView {
    TrailerView(InUseInfo(s, drivers), DisplayStatus(s))
  }

  const AvailableView := TrailerView(Available, AvailableLabel)

  function ResourceTable(trips: seq<Trip>, trailers: seq<Vehicle>, drivers: seq<Driver>): map<string, TrailerView> {
    FoldSteps(InitialTable(trailers, AvailableView), Steps(Filter(trips, ActiveTrip)), (s: Step) => InUseView(s, drivers))
  }

  /** One assignment's turn in the resource screen's loop: a holding
      assignment writes its trailer's in-use entry and label. */
  method MarkInUse(info0: map<string, TrailerView>, trip: Trip, a: Assignment, drivers: seq<Driver>)
    returns (info: map<string, TrailerView>)
    ensures info == if Holds(a) then info0[a.trailerId := InUseView(Step(trip, a), drivers)] else info0
  {
    info := info0;
    if a.trailerId != "" {
      var sorted := SortBy(a.events, NewestEventFirst);
      if |sorted| == 0 || sorted[0].kind != EmptyReturnEnd {
        var cargo := if trip.cargoType == Container then Some(a.containerNumber) else a.merchandiseType;
        var idText := if cargo.Some? && cargo.value != "" then cargo.value else NoCargoLabel;
        var lastText := if |sorted| > 0 then EventTypeLabel(sorted[0].kind) else NoEventsLabel;
        var display := idText + " / " + lastText;
        DisplayStatusInline(trip, a);
        info := info[a.trailerId := TrailerView(TrailerInfo(true, Some(DriverName(drivers, a.driverId)), Some(trip.serviceOrder)),
                                                display)];
      }
    }
  }

  /** The resource screen's loops. */
  method ResourceTrailerInfo(trips: seq<Trip>, trailers: seq<Vehicle>, drivers: seq<Driver>) returns (info: map<string, TrailerView>)
    ensures info == ResourceTable(trips, trailers, drivers)
  {
    info := map[];
    var n := 0;
    while n < |trailers|
      invariant 0 <= n <= |trailers|
      invariant info == InitialTable(trailers[..n], AvailableView)
    {
      assert trailers[..n + 1][..n] == trailers[..n];
      info := info[trailers[n].id := TrailerView(TrailerInfo(false, None, None), AvailableLabel)];
      n := n + 1;
    }
    assert trailers[..n] == trailers;
    ghost var init := info;
    ghost var entry := (s: Step) => InUseView(s, drivers);
    var active := Filter(trips, ActiveTrip);
    var i := 0;
    while i < |active|
      invariant 0 <= i <= |active|
      invariant info == FoldSteps(init, Steps(active[..i]), entry)
    {
      var trip := active[i];
      ghost var done := Steps(active[..i]);
      var j := 0;
      assert done + TripSteps(trip)[..0] == done;
      while j < |trip.assignments|
        invariant 0 <= j <= |trip.assignments|
        invariant info == FoldSteps(init, done + TripSteps(trip)[..j], entry)
      {
        var a := trip.assignments[j];
        StepAppend(done, trip, j);
        FoldStepsAppend(init, done + TripSteps(trip)[..j], Step(trip, a), entry);
        assert entry(Step(trip, a)) == InUseView(Step(trip, a), drivers);
        info := MarkInUse(info, trip, a, drivers);
        j := j + 1;
      }
      StepsPrefix(active, i);
      i := i + 1;
    }
    assert active[..i] == active;
  }

  /** The two copies agree: the same trailers, and for each the same
      status, driver and service order. */
  lemma {:induction false} CopiesAgree(trips: seq<Trip>, trailers: seq<Vehicle>, drivers: seq<Driver>, k: string)
    ensures k in ResourceTable(trips, trailers, drivers) <==> k in TripTable(trips, trailers, drivers)
    ensures k in TripTable(trips, trailers, drivers) ==>
              ResourceTable(trips, trailers, drivers)[k].info == TripTable(trips, trailers, drivers)[k]
  {
    var steps := Steps(Filter(trips, ActiveTrip));
    FoldStepsSpec(InitialTable(trailers, AvailableView), steps, (s: Step) => InUseView(s, drivers), k);
    FoldStepsSpec(InitialTable(trailers, Available), steps, (s: Step) => InUseInfo(s, drivers), k);
    InitialTableSpec(trailers, AvailableView, k);
    InitialTableSpec(trailers, Available, k);
  }

  /** On the resource screen an available trailer reads 'Disponible' and
      one in use shows the cargo and latest event of its last holder. */
  lemma {:induction false} ResourceTableLabels(trips: seq<Trip>, trailers: seq<Vehicle>, drivers: seq<Driver>, k: string)
    requires k in ResourceTable(trips, trailers, drivers)
    ensures var v := ResourceTable(trips, trailers, drivers)[k];
            var steps := Steps(Filter(trips, ActiveTrip));
      (!v.info.inUse ==> v.displayStatus == AvailableLabel) &&
      (v.info.inUse ==> LastMark(steps, k).Some? && v.displayStatus == DisplayStatus(steps[LastMark(steps, k).value]))
  {
    var steps := Steps(Filter(trips, ActiveTrip));
    FoldStepsSpec(InitialTable(trailers, AvailableView), steps, (s: Step) => InUseView(s, drivers), k);
    InitialTableSpec(trailers, AvailableView, k);
  }

  // ---------------------------------------------------------------------
  // Trailer choice in the trip form
  // ---------------------------------------------------------------------

  /** A trailer cannot be picked when it is in use on a trip other than
      the one being edited (any trip, when creating one). */
  predicate UsedByAnotherTrip(info: map<string, TrailerInfo>, trailerId: string, editing: Option<Trip>) {
    trailerId in info && info[trailerId].inUse &&
    info[trailerId].tripServiceOrder != (if editing.Some? then Some(editing.value.serviceOrder) else None)
  }

  /** A trailer is refused exactly when some active trip holds it and its
      last holder is not the edited trip (any holder, when creating one):
      no holder means it can be picked, the edited trip as last holder
      means it can be picked, and another trip as last holder, or any
      holder while creating, means it is refused. */
  lemma {:induction false} EligibilitySpec(trips: seq<Trip>, trailers: seq<Vehicle>, drivers: seq<Driver>, k: string, editing: Option<Trip>)
    ensures var steps := Steps(Filter(trips, ActiveTrip));
            var t := TripTable(trips, trailers, drivers);
      (LastMark(steps, k).None? ==> !UsedByAnotherTrip(t, k, editing)) &&
      ((LastMark(steps, k).Some? && editing.Some? &&
        steps[LastMark(steps, k).value].trip.serviceOrder == editing.value.serviceOrder) ==> !UsedByAnotherTrip(t, k, editing)) &&
      (LastMark(steps, k).Some? && editing.None? ==> UsedByAnotherTrip(t, k, editing))
    ensures var steps := Steps(Filter(trips, ActiveTrip));
      UsedByAnotherTrip(TripTable(trips, trailers, drivers), k, editing) <==>
        LastMark(steps, k).Some? &&
        (editing.None? || steps[LastMark(steps, k).value].trip.serviceOrder != editing.value.serviceOrder)
  {
    TripTableSpec(trips, trailers, drivers, k);
  }
}
