/** The driver payment report. Every non-deleted driver gets a tally;
    each completed trip finished inside the date range credits the cost of
    each of its assignments to that assignment's driver and records the
    trip, and every paid movement event of a non-deleted trip credits its
    amount to a target driver chosen in three tiers. The summary is a list
    of rows sorted by amount owed; the drill-down for one driver lists the
    assignments and movements behind a row. */
module DriverPayments {
  import opened Base
  import opened Text
  import opened Domain

  /** One driver's running tally. */
  datatype Tally = Tally(driverId: string, name: string, totalPayment: real, tripIds: set<string>)

  /** A summary row: `tripCount` is the number of distinct trips. */
  datatype Row = Row(driverId: string, name: string, tripCount: nat, totalPayment: real)

  /** The lookup key of a driver's name: trimmed, then lower-cased. */
  function NameKey(name: string): string {
    ToLower(Trim(name))
  }

  /** Drivers by name key; for a repeated key the later driver wins, as
      when a map is built from a list of pairs. Deleted drivers are
      included. */
  function NameMap(drivers: seq<Driver>): map<string, string> {
    if |drivers| == 0 then map[]
    else
      var d := drivers[|drivers| - 1];
      NameMap(drivers[..|drivers| - 1])[NameKey(d.name) := d.id]
  }

  /** The initial tallies: one per non-deleted driver, zero and without
      trips; a repeated id keeps the later driver's name. */
  function Seed(drivers: seq<Driver>): map<string, Tally> {
    if |drivers| == 0 then map[]
    else
      var d := drivers[|drivers| - 1];
      var m := Seed(drivers[..|drivers| - 1]);
      if d.isDeleted then m else m[d.id := Tally(d.id, d.name, 0.0, {})]
  }

  /** The ids of the non-deleted drivers, in order, repeats included. */
  function SeededIds(drivers: seq<Driver>): seq<string> {
    if |drivers| == 0 then []
    else
      var d := drivers[|drivers| - 1];
      SeededIds(drivers[..|drivers| - 1]) + (if d.isDeleted then [] else [d.id])
  }

  /** The order in which the tallies are listed: the order in which their
      keys were first inserted. */
  function SeedOrder(drivers: seq<Driver>): seq<string> {
    Dedup(SeededIds(drivers))
  }

  lemma {:induction false} SeedSpec(drivers: seq<Driver>, id: string)
    ensures id in Seed(drivers) <==> id in SeededIds(drivers)
    ensures id in Seed(drivers) ==>
      var t := Seed(drivers)[id];
      t.driverId == id && t.totalPayment == 0.0 && t.tripIds == {} &&
      exists i :: 0 <= i < |drivers| && drivers[i].id == id && !drivers[i].isDeleted && drivers[i].name == t.name
    ensures id in SeededIds(drivers) <==> exists i :: 0 <= i < |drivers| && drivers[i].id == id && !drivers[i].isDeleted
  {
    if |drivers| > 0 {
      var init := drivers[..|drivers| - 1];
      SeedSpec(init, id);
      assert forall i :: 0 <= i < |init| ==> init[i] == drivers[i];
    }
  }

  /** A credit to one driver, with the trip to record when there is one. */
  datatype Credit = Credit(driverId: string, amount: real, tripId: Option<string>)

  /** Completed, not deleted, and finished inside the date range: the trips
      whose assignments are paid. */
  predicate PaysAssignments(t: Trip, range: DateRange) {
    t.status == Completed && !t.isDeleted && InRange(t.updatedAt, range)
  }

  /** A movement event with a non-zero amount. */
  predicate PaidMovement(e: Event) {
    e.kind == Movement && TruthyNum(e.amount)
  }

  /** The driver a movement itself designates: the driver the event
      names, if that driver has a tally; otherwise, when the event has
      notes, the driver whose name key the notes are, if that driver has a
      non-empty id and a tally. */
  function NamedTarget(e: Event, keys: set<string>, names: map<string, string>): Option<string> {
    if TruthyStr(e.assignedDriverId) && e.assignedDriverId.value in keys then Some(e.assignedDriverId.value)
    else if TruthyStr(e.notes) && NameKey(e.notes.value) in names &&
            names[NameKey(e.notes.value)] != "" && names[NameKey(e.notes.value)] in keys
    then Some(names[NameKey(e.notes.value)])
    else None
  }

  /** Whom the summary pays for a movement: the designated driver, else
      the assignment's driver if that driver has a tally. */
  function MovementTarget(e: Event, fallback: string, keys: set<string>, names: map<string, string>): Option<string> {
    var named := NamedTarget(e, keys, names);
    if named.Some? then named
    else if fallback in keys then Some(fallback)
    else None
  }

  /** The summary's target is always a driver with a tally: the assigned
      driver first, then the driver the notes name, then the assignment's
      driver; a movement goes unpaid exactly when none of these applies. */
  lemma {:induction false} MovementTargetSpec(e: Event, fallback: string, keys: set<string>, names: map<string, string>)
    ensures MovementTarget(e, fallback, keys, names).Some? ==> MovementTarget(e, fallback, keys, names).value in keys
    ensures fallback in keys ==> MovementTarget(e, fallback, keys, names).Some?
    ensures TruthyStr(e.assignedDriverId) && e.assignedDriverId.value in keys ==>
              MovementTarget(e, fallback, keys, names) == e.assignedDriverId
    ensures !(TruthyStr(e.assignedDriverId) && e.assignedDriverId.value in keys) &&
            TruthyStr(e.notes) && NameKey(e.notes.value) in names &&
            names[NameKey(e.notes.value)] != "" && names[NameKey(e.notes.value)] in keys ==>
              MovementTarget(e, fallback, keys, names) == Some(names[NameKey(e.notes.value)])
    ensures NamedTarget(e, keys, names).None? && fallback in keys ==>
              MovementTarget(e, fallback, keys, names) == Some(fallback)
    ensures MovementTarget(e, fallback, keys, names).None? <==>
              NamedTarget(e, keys, names).None? && fallback !in keys
  {
  }

  function AssignCredits(t: Trip, assignments: seq<Assignment>, keys: set<string>): seq<Credit> {
    if |assignments| == 0 then []
    else
      var a := assignments[|assignments| - 1];
      AssignCredits(t, assignments[..|assignments| - 1], keys) +
        (if a.driverId in keys then [Credit(a.driverId, a.cost, Some(t.id))] else [])
  }

  function EventCredits(events: seq<Event>, fallback: string, keys: set<string>, names: map<string, string>): seq<Credit> {
    if |events| == 0 then []
    else
      EventCredits(events[..|events| - 1], fallback, keys, names) + EventCredit(events[|events| - 1], fallback, keys, names)
  }

  /** A paid movement's credit to its target, if it has one. */
  function EventCredit(e: Event, fallback: string, keys: set<string>, names: map<string, string>): seq<Credit> {
    var target := MovementTarget(e, fallback, keys, names);
    if PaidMovement(e) && target.Some? then [Credit(target.value, e.amount.value, None)] else []
  }

  function MoveCredits(assignments: seq<Assignment>, keys: set<string>, names: map<string, string>): seq<Credit> {
    if |assignments| == 0 then []
    else
      var a := assignments[|assignments| - 1];
      MoveCredits(assignments[..|assignments| - 1], keys, names) + EventCredits(a.events, a.driverId, keys, names)
  }

  /** A trip's credits: assignment costs first (when it pays them), then its
      movements; a deleted trip credits nothing. */
  function TripCredits(t: Trip, keys: set<string>, names: map<string, string>, range: DateRange): seq<Credit> {
    if t.isDeleted then []
    else
      (if PaysAssignments(t, range) then AssignCredits(t, t.assignments, keys) else []) +
        MoveCredits(t.assignments, keys, names)
  }

  function Credits(trips: seq<Trip>, keys: set<string>, names: map<string, string>, range: DateRange): seq<Credit> {
    if |trips| == 0 then []
    else
      Credits(trips[..|trips| - 1], keys, names, range) + TripCredits(trips[|trips| - 1], keys, names, range)
  }

  function Credited(t: Tally, c: Credit): Tally {
    t.(totalPayment := t.totalPayment + c.amount,
       tripIds := if c.tripId.Some? then t.tripIds + {c.tripId.value} else t.tripIds)
  }

  /** Applying credits in order; a credit to a driver without a tally is
      dropped. */
  function ApplyAll(m: map<string, Tally>, cs: seq<Credit>): map<string, Tally> {
    if |cs| == 0 then m
    else
      var r := ApplyAll(m, cs[..|cs| - 1]);
      var c := cs[|cs| - 1];
      if c.driverId in r then r[c.driverId := Credited(r[c.driverId], c)] else r
  }

  /** The tallies after all credits. */
  function Report(trips: seq<Trip>, drivers: seq<Driver>, range: DateRange): map<string, Tally> {
    var seed := Seed(drivers);
    ApplyAll(seed, Credits(trips, seed.Keys, NameMap(drivers), range))
  }

  // ---------------------------------------------------------------------
  // One driver's share of a list of credits.

  function CreditTotal(cs: seq<Credit>, d: string): real {
    if |cs| == 0 then 0.0
    else CreditTotal(cs[..|cs| - 1], d) + (if cs[|cs| - 1].driverId == d then cs[|cs| - 1].amount else 0.0)
  }

  function CreditTrips(cs: seq<Credit>, d: string): set<string> {
    if |cs| == 0 then {}
    else
      var c := cs[|cs| - 1];
      CreditTrips(cs[..|cs| - 1], d) + (if c.driverId == d && c.tripId.Some? then {c.tripId.value} else {})
  }

  lemma {:induction false} CreditShareAppend(cs: seq<Credit>, ds: seq<Credit>, d: string)
    ensures CreditTotal(cs + ds, d) == CreditTotal(cs, d) + CreditTotal(ds, d)
    ensures CreditTrips(cs + ds, d) == CreditTrips(cs, d) + CreditTrips(ds, d)
    decreases |ds|
  {
    if |ds| > 0 {
      var init := ds[..|ds| - 1];
      assert (cs + ds)[..|cs + ds| - 1] == cs + init;
      assert (cs + ds)[|cs + ds| - 1] == ds[|ds| - 1];
      CreditShareAppend(cs, init, d);
    } else {
      assert cs + ds == cs;
    }
  }

  /** Each tally ends as its seed plus its share of the credits; no key is
      added or removed. */
  lemma {:induction false} ApplyAllSpec(m: map<string, Tally>, cs: seq<Credit>, d: string)
    ensures ApplyAll(m, cs).Keys == m.Keys
    ensures d in m ==>
      (ApplyAll(m, cs)[d] ==
       m[d].(totalPayment := m[d].totalPayment + CreditTotal(cs, d), tripIds := m[d].tripIds + CreditTrips(cs, d)))
  {
    if |cs| > 0 {
      ApplyAllSpec(m, cs[..|cs| - 1], d);
    }
  }

  lemma {:induction false} ApplyAllAppend(m: map<string, Tally>, cs: seq<Credit>, ds: seq<Credit>)
    ensures ApplyAll(m, cs + ds) == ApplyAll(ApplyAll(m, cs), ds)
    decreases |ds|
  {
    if |ds| > 0 {
      var init := ds[..|ds| - 1];
      var last := ds[|ds| - 1];
      assert (cs + ds)[..|cs + ds| - 1] == cs + init;
      assert (cs + ds)[|cs + ds| - 1] == last;
      ApplyAllAppend(m, cs, init);
      var r := ApplyAll(m, cs + init);
      assert ApplyAll(m, cs + ds) == if last.driverId in r then r[last.driverId := Credited(r[last.driverId], last)] else r;
    } else {
      assert cs + ds == cs;
    }
  }
  lemma {:induction false} ApplyOne(m: map<string, Tally>, c: Credit)
    ensures ApplyAll(m, [c]) == if c.driverId in m then m[c.driverId := Credited(m[c.driverId], c)] else m
  {
    assert [c][..0] == [];
  }

  /** A tally per non-deleted driver, keyed by id, and the order in which
      the keys were first inserted. */
  method SeedReport(drivers: seq<Driver>) returns (report: map<string, Tally>, order: seq<string>)
    ensures report == Seed(drivers)
    ensures order == SeedOrder(drivers)
  {
    report := map[];
    order := [];
    ghost var ids: seq<string> := [];
    for i := 0 to |drivers|
      invariant report == Seed(drivers[..i])
      invariant ids == SeededIds(drivers[..i]) && order == Dedup(ids)
      invariant forall x :: x in order <==> x in report
    {
      var d := drivers[i];
      assert drivers[..i + 1][..i] == drivers[..i];
      if !d.isDeleted {
        assert (ids + [d.id])[..|ids|] == ids;
        if d.id !in report {
          order := order + [d.id];
        }
        report := report[d.id := Tally(d.id, d.name, 0.0, {})];
        ids := ids + [d.id];
      }
    }
    assert drivers[..|drivers|] == drivers;
  }

  /** A paid trip's assignments: each cost goes to its driver's tally, if
      there is one, which also records the trip. */
  method CreditAssignments(report0: map<string, Tally>, t: Trip) returns (report: map<string, Tally>)
    ensures report == ApplyAll(report0, AssignCredits(t, t.assignments, report0.Keys))
  {
    report := report0;
    ghost var keys := report0.Keys;
    for j := 0 to |t.assignments|
      invariant report == ApplyAll(report0, AssignCredits(t, t.assignments[..j], keys))
      invariant report.Keys == keys
    {
      var a := t.assignments[j];
      ghost var before := report;
      if a.driverId in report {
        report := report[a.driverId := report[a.driverId].(
          totalPayment := report[a.driverId].totalPayment + a.cost,
          tripIds := report[a.driverId].tripIds + {t.id})];
      }
      AssignStep(report0, before, t, t.assignments, j, keys);
    }
    assert t.assignments[..|t.assignments|] == t.assignments;
  }

  /** The first two tiers: the driver the event names, else the driver
      the notes name, provided that driver has a tally. */
  method ChooseTarget(report: map<string, Tally>, e: Event, names: map<string, string>) returns (target: Option<string>)
    ensures target == NamedTarget(e, report.Keys, names)
  {
    target := None;
    if TruthyStr(e.assignedDriverId) && e.assignedDriverId.value in report {
      target := e.assignedDriverId;
    } else if TruthyStr(e.notes) {
      var key := NameKey(e.notes.value);
      var fromName := if key in names then Some(names[key]) else None;
      if fromName.Some? && fromName.value != "" && fromName.value in report {
        target := fromName;
      }
    }
  }

  /** One event: a paid movement's amount goes to the tally the three
      tiers choose; any other event changes nothing. */
  method CreditMovement(report0: map<string, Tally>, e: Event, fallback: string, names: map<string, string>)
    returns (report: map<string, Tally>)
    ensures report == ApplyAll(report0, EventCredit(e, fallback, report0.Keys, names))
  {
    report := report0;
    if e.kind == Movement && TruthyNum(e.amount) {
      var target := ChooseTarget(report, e, names);
      if target.Some? {
        report := report[target.value := report[target.value].(
          totalPayment := report[target.value].totalPayment + e.amount.value)];
        ApplyOne(report0, Credit(target.value, e.amount.value, None));
      } else if fallback in report {
        report := report[fallback := report[fallback].(
          totalPayment := report[fallback].totalPayment + e.amount.value)];
        ApplyOne(report0, Credit(fallback, e.amount.value, None));
      }
    }
  }

  /** One assignment's event log, event by event. */
  method CreditMovements(report0: map<string, Tally>, events: seq<Event>, fallback: string, names: map<string, string>)
    returns (report: map<string, Tally>)
    ensures report == ApplyAll(report0, EventCredits(events, fallback, report0.Keys, names))
  {
    report := report0;
    ghost var keys := report0.Keys;
    for k := 0 to |events|
      invariant report == ApplyAll(report0, EventCredits(events[..k], fallback, keys, names))
      invariant report.Keys == keys
    {
      ghost var before := report;
      report := CreditMovement(report, events[k], fallback, names);
      ApplyAllSpec(before, EventCredit(events[k], fallback, keys, names), "");
      EventStep(report0, before, report, events, k, fallback, keys, names);
    }
    assert events[..|events|] == events;
  }

  /** A trip's assignments, each crediting its event log's movements. */
  method CreditTripMovements(report0: map<string, Tally>, assignments: seq<Assignment>, names: map<string, string>)
    returns (report: map<string, Tally>)
    ensures report == ApplyAll(report0, MoveCredits(assignments, report0.Keys, names))
  {
    report := report0;
    ghost var keys := report0.Keys;
    for j := 0 to |assignments|
      invariant report == ApplyAll(report0, MoveCredits(assignments[..j], keys, names))
      invariant report.Keys == keys
    {
      ghost var before := report;
      report := CreditMovements(report, assignments[j].events, assignments[j].driverId, names);
      ApplyAllSpec(before, EventCredits(assignments[j].events, assignments[j].driverId, keys, names), "");
      MoveStep(report0, before, assignments, j, keys, names);
    }
    assert assignments[..|assignments|] == assignments;
  }

  /** One trip: skipped when deleted; otherwise its assignments are
      credited when it is paid, then its movements. */
  method CreditTrip(report0: map<string, Tally>, t: Trip, names: map<string, string>, range: DateRange)
    returns (report: map<string, Tally>)
    ensures report == ApplyAll(report0, TripCredits(t, report0.Keys, names, range))
  {
    report := report0;
    if !t.isDeleted {
      ghost var keys := report0.Keys;
      ghost var ac: seq<Credit> := [];
      if t.status == Completed && InRange(t.updatedAt, range) {
        report := CreditAssignments(report, t);
        ac := AssignCredits(t, t.assignments, keys);
        ApplyAllSpec(report0, ac, "");
      }
      report := CreditTripMovements(report, t.assignments, names);
      ApplyAllAppend(report0, ac, MoveCredits(t.assignments, keys, names));
    }
  }

  lemma {:induction false} MoveStep(mid: map<string, Tally>, amid: map<string, Tally>, assignments: seq<Assignment>, j: nat,
                 keys: set<string>, names: map<string, string>)
    requires j < |assignments| && amid == ApplyAll(mid, MoveCredits(assignments[..j], keys, names))
    ensures ApplyAll(amid, EventCredits(assignments[j].events, assignments[j].driverId, keys, names)) ==
            ApplyAll(mid, MoveCredits(assignments[..j + 1], keys, names))
  {
    var a := assignments[j];
    assert assignments[..j + 1][..j] == assignments[..j];
    ApplyAllAppend(mid, MoveCredits(assignments[..j], keys, names), EventCredits(a.events, a.driverId, keys, names));
  }

  /** The tallies as the report screen builds them: seeded, then the trips
      in order. Also returns the order of the tallies. */
  method BuildReport(trips: seq<Trip>, drivers: seq<Driver>, range: DateRange)
    returns (report: map<string, Tally>, order: seq<string>)
    ensures report == Report(trips, drivers, range)
    ensures order == SeedOrder(drivers)
  {
    var names := NameMap(drivers);
    report, order := SeedReport(drivers);
    ghost var seed := report;
    ghost var keys := report.Keys;
    for i := 0 to |trips|
      invariant report == ApplyAll(seed, Credits(trips[..i], keys, names, range))
      invariant report.Keys == keys
    {
      assert trips[..i + 1][..i] == trips[..i];
      ghost var start := report;
      report := CreditTrip(report, trips[i], names, range);
      ApplyAllSpec(start, TripCredits(trips[i], keys, names, range), "");
      ApplyAllAppend(seed, Credits(trips[..i], keys, names, range), TripCredits(trips[i], keys, names, range));
    }
    assert trips[..|trips|] == trips;
  }

  lemma {:induction false} AssignStep(start: map<string, Tally>, before: map<string, Tally>, t: Trip, assignments: seq<Assignment>,
                   j: nat, keys: set<string>)
    requires j < |assignments| && before == ApplyAll(start, AssignCredits(t, assignments[..j], keys))
    requires before.Keys == keys
    ensures var a := assignments[j];
      ApplyAll(start, AssignCredits(t, assignments[..j + 1], keys)) ==
      if a.driverId in before
      then before[a.driverId := before[a.driverId].(totalPayment := before[a.driverId].totalPayment + a.cost,
                                                    tripIds := before[a.driverId].tripIds + {t.id})]
      else before
  {
    var a := assignments[j];
    assert assignments[..j + 1][..j] == assignments[..j];
    var last := if a.driverId in keys then [Credit(a.driverId, a.cost, Some(t.id))] else [];
    ApplyAllAppend(start, AssignCredits(t, assignments[..j], keys), last);
    if a.driverId in keys {
      ApplyOne(before, Credit(a.driverId, a.cost, Some(t.id)));
    }
  }

  lemma {:induction false} EventStep(amid: map<string, Tally>, before: map<string, Tally>, after: map<string, Tally>,
                  events: seq<Event>, k: nat, fallback: string, keys: set<string>, names: map<string, string>)
    requires k < |events| && before == ApplyAll(amid, EventCredits(events[..k], fallback, keys, names))
    requires after == ApplyAll(before, EventCredit(events[k], fallback, keys, names))
    ensures after == ApplyAll(amid, EventCredits(events[..k + 1], fallback, keys, names))
  {
    assert events[..k + 1][..k] == events[..k];
    ApplyAllAppend(amid, EventCredits(events[..k], fallback, keys, names), EventCredit(events[k], fallback, keys, names));
  }



  // ---------------------------------------------------------------------
  // The summary rows.

  function ToRow(t: Tally): Row {
    Row(t.driverId, t.name, |t.tripIds|, t.totalPayment)
  }

  /** The tallies as rows, in the given key order. */
  function RowsOf(report: map<string, Tally>, order: seq<string>): seq<Row> {
    if |order| == 0 then []
    else
      var id := order[|order| - 1];
      RowsOf(report, order[..|order| - 1]) + (if id in report then [ToRow(report[id])] else [])
  }

  /** A row is listed when the driver has trips or is owed something. */
  predicate Shown(r: Row) {
    r.tripCount > 0 || r.totalPayment > 0.0
  }

  /** The sort key that puts larger amounts first. */
  function LargestFirst(r: Row): real {
    -r.totalPayment
  }

  /** The rows shown: restricted to the selected driver when one is
      selected, without the drivers with neither trips nor pay, largest
      amount first (ties in key order). */
  function Rows(report: map<string, Tally>, order: seq<string>, selected: string): seq<Row> {
    SortBy(Filter(Chosen(report, order, selected), Shown), LargestFirst)
  }

  lemma {:induction false} RowsOfSpec(report: map<string, Tally>, order: seq<string>)
    ensures forall r :: r in RowsOf(report, order) ==> exists id :: id in order && id in report && r == ToRow(report[id])
    ensures forall i :: 0 <= i < |order| && order[i] in report ==> ToRow(report[order[i]]) in RowsOf(report, order)
  {
    if |order| > 0 {
      var init := order[..|order| - 1];
      RowsOfSpec(report, init);
      assert forall i :: 0 <= i < |init| ==> init[i] == order[i];
    }
  }

  /** The rows drawn from before the sort. */
  function Chosen(report: map<string, Tally>, order: seq<string>, selected: string): seq<Row> {
    var all := RowsOf(report, order);
    if selected != "" then Filter(all, (r: Row) => r.driverId == selected) else all
  }

  lemma {:induction false} ChosenSpec(report: map<string, Tally>, order: seq<string>, selected: string)
    ensures forall r :: r in Chosen(report, order, selected) <==>
                        r in RowsOf(report, order) && (selected != "" ==> r.driverId == selected)
  {
    var all := RowsOf(report, order);
    forall r ensures r in Chosen(report, order, selected) <==> r in all && (selected != "" ==> r.driverId == selected) {
      if r in all && selected != "" && r.driverId == selected {
        var k :| 0 <= k < |all| && all[k] == r;
      }
    }
  }

  /** The shown rows, largest amount first. */
  lemma {:induction false} RowsSorted(report: map<string, Tally>, order: seq<string>, selected: string)
    ensures var rows := Rows(report, order, selected);
      forall i, j :: 0 <= i < j < |rows| ==> rows[i].totalPayment >= rows[j].totalPayment
  {
    var rows := Rows(report, order, selected);
    SortedFilter(Chosen(report, order, selected), Shown, LargestFirst);
    assert rows == SortBy(Filter(Chosen(report, order, selected), Shown), LargestFirst);
    forall i, j | 0 <= i < j < |rows| ensures rows[i].totalPayment >= rows[j].totalPayment {
      assert LargestFirst(rows[i]) <= LargestFirst(rows[j]);
    }
  }

  /** Every shown row is the row of a listed tally, passes the selection
      and has trips or pay. */
  lemma {:induction false} RowsSound(report: map<string, Tally>, order: seq<string>, selected: string)
    ensures var rows := Rows(report, order, selected);
      forall i :: 0 <= i < |rows| ==>
        rows[i] in RowsOf(report, order) && Shown(rows[i]) && (selected != "" ==> rows[i].driverId == selected)
  {
    var chosen := Chosen(report, order, selected);
    var rows := Rows(report, order, selected);
    assert rows == SortBy(Filter(chosen, Shown), LargestFirst);
    SortedFilter(chosen, Shown, LargestFirst);
    ChosenSpec(report, order, selected);
    forall i | 0 <= i < |rows|
      ensures rows[i] in RowsOf(report, order) && (selected != "" ==> rows[i].driverId == selected)
    {
      var x := rows[i];
      assert x in multiset(rows);
      assert x in chosen;
    }
  }

  /** Every listed tally that passes the selection and has trips or pay
      has its row shown. */
  lemma {:induction false} RowsComplete(report: map<string, Tally>, order: seq<string>, selected: string)
    ensures var rows := Rows(report, order, selected);
      forall i :: (0 <= i < |order| && order[i] in report && Shown(ToRow(report[order[i]])) &&
                   (selected != "" ==> report[order[i]].driverId == selected)) ==>
        ToRow(report[order[i]]) in rows
  {
    var chosen := Chosen(report, order, selected);
    var rows := Rows(report, order, selected);
    assert rows == SortBy(Filter(chosen, Shown), LargestFirst);
    SortedFilter(chosen, Shown, LargestFirst);
    ChosenSpec(report, order, selected);
    RowsOfSpec(report, order);
    forall i | (0 <= i < |order| && order[i] in report && Shown(ToRow(report[order[i]])) &&
                (selected != "" ==> report[order[i]].driverId == selected))
      ensures ToRow(report[order[i]]) in rows
    {
      var r := ToRow(report[order[i]]);
      assert r in chosen;
      var k :| 0 <= k < |chosen| && chosen[k] == r;
    }
  }

  // ---------------------------------------------------------------------
  // The drill-down for one driver.

  /** An assignment together with the trip it belongs to. */
  datatype CompletedAssignment = CompletedAssignment(trip: Trip, assignment: Assignment)

  /** A movement event together with its trip's service order. */
  datatype DriverMovement = DriverMovement(event: Event, tripServiceOrder: string)

  datatype DriverDetails = DriverDetails(driver: Driver, completedAssignments: seq<CompletedAssignment>, movements: seq<DriverMovement>)

  /** Which movements the drill-down lists: the rule as the drill-down
      states it, or the summary's target rule. */
  datatype Rule = AsWritten | SummaryRule

  /** The drill-down's own rule: the event names this driver; or it names
      no driver, has notes, and the notes are this driver's name key; or
      it names no driver, has no notes, and the assignment is this
      driver's. */
  predicate BelongsAsWritten(e: Event, a: Assignment, d: string, names: map<string, string>) {
    e.assignedDriverId == Some(d) ||
    (!TruthyStr(e.assignedDriverId) && TruthyStr(e.notes) &&
     NameKey(e.notes.value) in names && names[NameKey(e.notes.value)] == d) ||
    (!TruthyStr(e.assignedDriverId) && !TruthyStr(e.notes) && a.driverId == d)
  }

  predicate Belongs(rule: Rule, e: Event, a: Assignment, d: string, keys: set<string>, names: map<string, string>) {
    match rule
    case AsWritten => BelongsAsWritten(e, a, d, names)
    case SummaryRule => MovementTarget(e, a.driverId, keys, names) == Some(d)
  }

  function AssignmentsOf(t: Trip, assignments: seq<Assignment>, d: string): seq<CompletedAssignment> {
    if |assignments| == 0 then []
    else
      var a := assignments[|assignments| - 1];
      AssignmentsOf(t, assignments[..|assignments| - 1], d) +
        (if a.driverId == d then [CompletedAssignment(t, a)] else [])
  }

  /** The paid assignments of driver `d`, trip by trip. */
  function CompletedOf(trips: seq<Trip>, d: string, range: DateRange): seq<CompletedAssignment> {
    if |trips| == 0 then []
    else
      var t := trips[|trips| - 1];
      CompletedOf(trips[..|trips| - 1], d, range) +
        (if PaysAssignments(t, range) then AssignmentsOf(t, t.assignments, d) else [])
  }

  function EventMovements(so: string, a: Assignment, events: seq<Event>, d: string, rule: Rule,
                          keys: set<string>, names: map<string, string>): seq<DriverMovement>
  {
    if |events| == 0 then []
    else
      EventMovements(so, a, events[..|events| - 1], d, rule, keys, names) +
        EventMovement(so, a, events[|events| - 1], d, rule, keys, names)
  }

  function EventMovement(so: string, a: Assignment, e: Event, d: string, rule: Rule,
                         keys: set<string>, names: map<string, string>): seq<DriverMovement>
  {
    if PaidMovement(e) && Belongs(rule, e, a, d, keys, names) then [DriverMovement(e, so)] else []
  }

  function TripMovements(t: Trip, assignments: seq<Assignment>, d: string, rule: Rule,
                         keys: set<string>, names: map<string, string>): seq<DriverMovement>
  {
    if |assignments| == 0 then []
    else
      var a := assignments[|assignments| - 1];
      TripMovements(t, assignments[..|assignments| - 1], d, rule, keys, names) +
        EventMovements(t.serviceOrder, a, a.events, d, rule, keys, names)
  }

  /** The paid movements attributed to `d`, in log order. */
  function MovementsOf(trips: seq<Trip>, d: string, rule: Rule, keys: set<string>, names: map<string, string>): seq<DriverMovement> {
    if |trips| == 0 then []
    else
      var t := trips[|trips| - 1];
      MovementsOf(trips[..|trips| - 1], d, rule, keys, names) +
        (if t.isDeleted then [] else TripMovements(t, t.assignments, d, rule, keys, names))
  }

  function NewestFirst(m: DriverMovement): real {
    -(m.event.timestamp as real)
  }

  function DriverById(drivers: seq<Driver>, id: string): (r: Option<Driver>)
    ensures r.Some? ==> r.value in drivers && r.value.id == id
    ensures r.None? ==> forall i :: 0 <= i < |drivers| ==> drivers[i].id != id
  {
    if |drivers| == 0 then None
    else if drivers[0].id == id then Some(drivers[0])
    else DriverById(drivers[1..], id)
  }

  /** The drill-down for `d`: nothing when no driver has that id; otherwise
      the paid assignments and the movements under `rule`, newest first. */
  function DetailsFor(trips: seq<Trip>, drivers: seq<Driver>, d: string, range: DateRange, rule: Rule): Option<DriverDetails> {
    match DriverById(drivers, d)
    case None => None
    case Some(driver) =>
      Some(DriverDetails(driver, CompletedOf(trips, d, range),
                         SortBy(MovementsOf(trips, d, rule, Seed(drivers).Keys, NameMap(drivers)), NewestFirst)))
  }

  /** The drill-down as the report screen builds it: look the driver up,
      collect the paid assignments trip by trip, collect the movements the
      rule attributes to the driver, and sort those newest first. */
  method ViewDetails(trips: seq<Trip>, drivers: seq<Driver>, d: string, range: DateRange, rule: Rule)
    returns (details: Option<DriverDetails>)
    ensures details == DetailsFor(trips, drivers, d, range, rule)
  {
    var driver := DriverById(drivers, d);
    if driver.None? {
      return None;
    }
    var completed := CollectAssignments(trips, d, range);
    var names := NameMap(drivers);
    var movements := CollectMovements(trips, d, rule, Seed(drivers).Keys, names);
    details := Some(DriverDetails(driver.value, completed, SortBy(movements, NewestFirst)));
  }

  method CollectAssignments(trips: seq<Trip>, d: string, range: DateRange) returns (completed: seq<CompletedAssignment>)
    ensures completed == CompletedOf(trips, d, range)
  {
    completed := [];
    for i := 0 to |trips|
      invariant completed == CompletedOf(trips[..i], d, range)
    {
      var t := trips[i];
      assert trips[..i + 1][..i] == trips[..i];
      if t.status == Completed && !t.isDeleted && InRange(t.updatedAt, range) {
        ghost var before := completed;
        for j := 0 to |t.assignments|
          invariant completed == before + AssignmentsOf(t, t.assignments[..j], d)
        {
          var a := t.assignments[j];
          assert t.assignments[..j + 1][..j] == t.assignments[..j];
          if a.driverId == d {
            completed := completed + [CompletedAssignment(t, a)];
          }
        }
        assert t.assignments[..|t.assignments|] == t.assignments;
      }
    }
    assert trips[..|trips|] == trips;
  }

  method CollectMovements(trips: seq<Trip>, d: string, rule: Rule, keys: set<string>, names: map<string, string>)
    returns (movements: seq<DriverMovement>)
    ensures movements == MovementsOf(trips, d, rule, keys, names)
  {
    movements := [];
    for i := 0 to |trips|
      invariant movements == MovementsOf(trips[..i], d, rule, keys, names)
    {
      var t := trips[i];
      assert trips[..i + 1][..i] == trips[..i];
      if !t.isDeleted {
        var ms := CollectTripMovements(t, d, rule, keys, names);
        movements := movements + ms;
      }
    }
    assert trips[..|trips|] == trips;
  }

  method CollectTripMovements(t: Trip, d: string, rule: Rule, keys: set<string>, names: map<string, string>)
    returns (movements: seq<DriverMovement>)
    ensures movements == TripMovements(t, t.assignments, d, rule, keys, names)
  {
    movements := [];
    for j := 0 to |t.assignments|
      invariant movements == TripMovements(t, t.assignments[..j], d, rule, keys, names)
    {
      var a := t.assignments[j];
      assert t.assignments[..j + 1][..j] == t.assignments[..j];
      var ms := CollectEventMovements(t.serviceOrder, a, d, rule, keys, names);
      movements := movements + ms;
    }
    assert t.assignments[..|t.assignments|] == t.assignments;
  }

  method CollectEventMovements(so: string, a: Assignment, d: string, rule: Rule, keys: set<string>, names: map<string, string>)
    returns (movements: seq<DriverMovement>)
    ensures movements == EventMovements(so, a, a.events, d, rule, keys, names)
  {
    movements := [];
    for k := 0 to |a.events|
      invariant movements == EventMovements(so, a, a.events[..k], d, rule, keys, names)
    {
      var e := a.events[k];
      assert a.events[..k + 1][..k] == a.events[..k];
      if e.kind == Movement && TruthyNum(e.amount) && Belongs(rule, e, a, d, keys, names) {
        movements := movements + [DriverMovement(e, so)];
      }
    }
    assert a.events[..|a.events|] == a.events;
  }

  function AssignmentCost(c: CompletedAssignment): real {
    c.assignment.cost
  }

  function MovementAmount(m: DriverMovement): real {
    OrZero(m.event.amount)
  }

  /** The drill-down's grand total: assignment subtotal plus movement
      subtotal. */
  function DetailsTotal(details: DriverDetails): real {
    Sum(details.completedAssignments, AssignmentCost) + Sum(details.movements, MovementAmount)
  }

  /** The distinct trips behind a list of paid assignments. */
  function TripIdsOf(cas: seq<CompletedAssignment>): set<string> {
    if |cas| == 0 then {}
    else TripIdsOf(cas[..|cas| - 1]) + {cas[|cas| - 1].trip.id}
  }

  // ---------------------------------------------------------------------
  // The summary totals are the drill-down's totals under the summary rule.

  lemma {:induction false} TripIdsAppend(cs: seq<CompletedAssignment>, ds: seq<CompletedAssignment>)
    ensures TripIdsOf(cs + ds) == TripIdsOf(cs) + TripIdsOf(ds)
    decreases |ds|
  {
    if |ds| > 0 {
      assert (cs + ds)[..|cs + ds| - 1] == cs + ds[..|ds| - 1];
      assert (cs + ds)[|cs + ds| - 1] == ds[|ds| - 1];
      TripIdsAppend(cs, ds[..|ds| - 1]);
    } else {
      assert cs + ds == cs;
    }
  }

  lemma {:induction false} AssignCreditsShare(t: Trip, assignments: seq<Assignment>, keys: set<string>, d: string)
    requires d in keys
    ensures CreditTotal(AssignCredits(t, assignments, keys), d) == Sum(AssignmentsOf(t, assignments, d), AssignmentCost)
    ensures CreditTrips(AssignCredits(t, assignments, keys), d) == TripIdsOf(AssignmentsOf(t, assignments, d))
  {
    if |assignments| > 0 {
      var init := assignments[..|assignments| - 1];
      var a := assignments[|assignments| - 1];
      AssignCreditsShare(t, init, keys, d);
      var last := if a.driverId in keys then [Credit(a.driverId, a.cost, Some(t.id))] else [];
      var lastA := if a.driverId == d then [CompletedAssignment(t, a)] else [];
      CreditShareAppend(AssignCredits(t, init, keys), last, d);
      SumAppend(AssignmentsOf(t, init, d), lastA, AssignmentCost);
      TripIdsAppend(AssignmentsOf(t, init, d), lastA);
      if a.driverId == d {
        SumSingle(CompletedAssignment(t, a), AssignmentCost);
        assert TripIdsOf(lastA) == {t.id} by {
          assert lastA[..0] == [];
        }
      }
    }
  }

  lemma {:induction false} EventCreditShare(so: string, a: Assignment, e: Event, keys: set<string>, names: map<string, string>, d: string)
    ensures CreditTotal(EventCredit(e, a.driverId, keys, names), d) ==
            Sum(EventMovement(so, a, e, d, SummaryRule, keys, names), MovementAmount)
    ensures CreditTrips(EventCredit(e, a.driverId, keys, names), d) == {}
  {
    var cs := EventCredit(e, a.driverId, keys, names);
    var ms := EventMovement(so, a, e, d, SummaryRule, keys, names);
    if ms != [] {
      SumSingle(DriverMovement(e, so), MovementAmount);
    }
    if cs != [] {
      assert cs[..0] == [];
    }
  }

  lemma {:induction false} EventCreditsShare(so: string, a: Assignment, events: seq<Event>, keys: set<string>,
                                            names: map<string, string>, d: string)
    ensures CreditTotal(EventCredits(events, a.driverId, keys, names), d) ==
            Sum(EventMovements(so, a, events, d, SummaryRule, keys, names), MovementAmount)
    ensures CreditTrips(EventCredits(events, a.driverId, keys, names), d) == {}
  {
    if |events| > 0 {
      var init := events[..|events| - 1];
      var e := events[|events| - 1];
      EventCreditsShare(so, a, init, keys, names, d);
      EventCreditShare(so, a, e, keys, names, d);
      CreditShareAppend(EventCredits(init, a.driverId, keys, names), EventCredit(e, a.driverId, keys, names), d);
      SumAppend(EventMovements(so, a, init, d, SummaryRule, keys, names),
                EventMovement(so, a, e, d, SummaryRule, keys, names), MovementAmount);
    }
  }

  lemma {:induction false} MoveCreditsShare(t: Trip, assignments: seq<Assignment>, keys: set<string>,
                                           names: map<string, string>, d: string)
    ensures CreditTotal(MoveCredits(assignments, keys, names), d) ==
            Sum(TripMovements(t, assignments, d, SummaryRule, keys, names), MovementAmount)
    ensures CreditTrips(MoveCredits(assignments, keys, names), d) == {}
  {
    if |assignments| > 0 {
      var init := assignments[..|assignments| - 1];
      var a := assignments[|assignments| - 1];
      MoveCreditsShare(t, init, keys, names, d);
      EventCreditsShare(t.serviceOrder, a, a.events, keys, names, d);
      CreditShareAppend(MoveCredits(init, keys, names), EventCredits(a.events, a.driverId, keys, names), d);
      SumAppend(TripMovements(t, init, d, SummaryRule, keys, names),
                EventMovements(t.serviceOrder, a, a.events, d, SummaryRule, keys, names), MovementAmount);
    }
  }

  lemma {:induction false} TripCreditsShare(t: Trip, keys: set<string>, names: map<string, string>, range: DateRange, d: string)
    requires d in keys
    ensures CreditTotal(TripCredits(t, keys, names, range), d) ==
            Sum(if PaysAssignments(t, range) then AssignmentsOf(t, t.assignments, d) else [], AssignmentCost) +
            Sum(if t.isDeleted then [] else TripMovements(t, t.assignments, d, SummaryRule, keys, names), MovementAmount)
    ensures CreditTrips(TripCredits(t, keys, names, range), d) ==
            TripIdsOf(if PaysAssignments(t, range) then AssignmentsOf(t, t.assignments, d) else [])
  {
    if !t.isDeleted {
      var ac := if PaysAssignments(t, range) then AssignCredits(t, t.assignments, keys) else [];
      AssignCreditsShare(t, t.assignments, keys, d);
      MoveCreditsShare(t, t.assignments, keys, names, d);
      CreditShareAppend(ac, MoveCredits(t.assignments, keys, names), d);
    }
  }

  lemma {:induction false} CreditsShare(trips: seq<Trip>, keys: set<string>, names: map<string, string>,
                                       range: DateRange, d: string)
    requires d in keys
    ensures CreditTotal(Credits(trips, keys, names, range), d) ==
            Sum(CompletedOf(trips, d, range), AssignmentCost) +
            Sum(MovementsOf(trips, d, SummaryRule, keys, names), MovementAmount)
    ensures CreditTrips(Credits(trips, keys, names, range), d) == TripIdsOf(CompletedOf(trips, d, range))
  {
    if |trips| > 0 {
      var init := trips[..|trips| - 1];
      var t := trips[|trips| - 1];
      CreditsShare(init, keys, names, range, d);
      var aa := if PaysAssignments(t, range) then AssignmentsOf(t, t.assignments, d) else [];
      var mm := if t.isDeleted then [] else TripMovements(t, t.assignments, d, SummaryRule, keys, names);
      TripCreditsShare(t, keys, names, range, d);
      CreditShareAppend(Credits(init, keys, names, range), TripCredits(t, keys, names, range), d);
      SumAppend(CompletedOf(init, d, range), aa, AssignmentCost);
      SumAppend(MovementsOf(init, d, SummaryRule, keys, names), mm, MovementAmount);
      TripIdsAppend(CompletedOf(init, d, range), aa);
    }
  }

  /** A driver has a tally exactly when a non-deleted driver has that id;
      the tally's amount is the cost of the driver's paid assignments plus
      the amounts of the movements the summary rule gives them, and its
      trips are the trips of those assignments. */
  lemma {:induction false} ReportSpec(trips: seq<Trip>, drivers: seq<Driver>, range: DateRange, d: string)
    ensures d in Report(trips, drivers, range) <==>
            exists i :: 0 <= i < |drivers| && drivers[i].id == d && !drivers[i].isDeleted
    ensures d in Report(trips, drivers, range) ==>
      var seed := Seed(drivers);
      var t := Report(trips, drivers, range)[d];
      t.driverId == d &&
      t.totalPayment == Sum(CompletedOf(trips, d, range), AssignmentCost) +
                        Sum(MovementsOf(trips, d, SummaryRule, seed.Keys, NameMap(drivers)), MovementAmount) &&
      t.tripIds == TripIdsOf(CompletedOf(trips, d, range))
  {
    var seed := Seed(drivers);
    var cs := Credits(trips, seed.Keys, NameMap(drivers), range);
    SeedSpec(drivers, d);
    ApplyAllSpec(seed, cs, d);
    if d in seed {
      CreditsShare(trips, seed.Keys, NameMap(drivers), range, d);
    }
  }

  /** Under the summary rule, the drill-down of a driver with a tally adds
      up to that driver's summary row: same amount, and the stated trip
      count is the number of distinct trips among the listed
      assignments. */
  lemma {:induction false} SummaryRuleDetailsMatchReport(trips: seq<Trip>, drivers: seq<Driver>, range: DateRange, d: string)
    requires d in Report(trips, drivers, range)
    ensures DetailsFor(trips, drivers, d, range, SummaryRule).Some?
    ensures DetailsTotal(DetailsFor(trips, drivers, d, range, SummaryRule).value) ==
            Report(trips, drivers, range)[d].totalPayment
    ensures TripIdsOf(DetailsFor(trips, drivers, d, range, SummaryRule).value.completedAssignments) ==
            Report(trips, drivers, range)[d].tripIds
  {
    ReportSpec(trips, drivers, range, d);
    var i :| 0 <= i < |drivers| && drivers[i].id == d && !drivers[i].isDeleted;
    assert DriverById(drivers, d).Some?;
    var ms := MovementsOf(trips, d, SummaryRule, Seed(drivers).Keys, NameMap(drivers));
    SortByPerm(ms, NewestFirst);
    SumPermutation(SortBy(ms, NewestFirst), ms, MovementAmount);
  }

  // ---------------------------------------------------------------------
  // The drill-down's own rule against the summary's.

  /** Every movement the drill-down's rule lists for a driver with a tally
      (and a non-empty id) is one the summary pays that driver. */
  lemma {:induction false} AsWrittenWithinSummary(e: Event, a: Assignment, d: string, keys: set<string>, names: map<string, string>)
    requires d in keys && d != ""
    requires BelongsAsWritten(e, a, d, names)
    ensures MovementTarget(e, a.driverId, keys, names) == Some(d)
  {
  }

  /** The converse fails: a movement that names no driver and whose notes
      are no driver's name is paid by the summary to the assignment's
      driver, yet is missing from that driver's drill-down. */
  lemma {:induction false} AsWrittenMissesUnmatchedNotes(e: Event, a: Assignment, keys: set<string>, names: map<string, string>)
    requires e.assignedDriverId.None? && TruthyStr(e.notes) && NameKey(e.notes.value) !in names
    requires a.driverId in keys
    ensures MovementTarget(e, a.driverId, keys, names) == Some(a.driverId)
    ensures !BelongsAsWritten(e, a, a.driverId, names)
  {
  }

  /** The same for a movement that names a driver without a tally (a
      deleted one, say). */
  lemma {:induction false} AsWrittenMissesUntalliedDriver(e: Event, a: Assignment, keys: set<string>, names: map<string, string>)
    requires TruthyStr(e.assignedDriverId) && e.assignedDriverId.value !in keys && e.assignedDriverId.value != a.driverId
    requires !TruthyStr(e.notes)
    requires a.driverId in keys
    ensures MovementTarget(e, a.driverId, keys, names) == Some(a.driverId)
    ensures !BelongsAsWritten(e, a, a.driverId, names)
  {
    assert e.assignedDriverId != Some(a.driverId);
  }

  /** The inputs of the counterexample below: one driver, one trip that is
      not paid (under way, say) with one assignment of that driver, whose
      log is one paid movement that names a different driver and has no
      notes. */
  predicate FallbackCase(driver: Driver, t: Trip, range: DateRange) {
    !driver.isDeleted && !t.isDeleted && !PaysAssignments(t, range) &&
    |t.assignments| == 1 && t.assignments[0].driverId == driver.id && |t.assignments[0].events| == 1 &&
    var e := t.assignments[0].events[0];
    e.kind == Movement && TruthyNum(e.amount) && e.notes.None? &&
    TruthyStr(e.assignedDriverId) && e.assignedDriverId.value != driver.id
  }

  lemma {:induction false} SingleSeed(driver: Driver)
    requires !driver.isDeleted
    ensures Seed([driver]) == map[driver.id := Tally(driver.id, driver.name, 0.0, {})]
  {
    assert [driver][..0] == [];
  }

  /** In that case the summary owes the driver the movement's amount... */
  lemma {:induction false} FallbackCaseSummary(driver: Driver, t: Trip, range: DateRange)
    requires FallbackCase(driver, t, range)
    ensures driver.id in Report([t], [driver], range)
    ensures Report([t], [driver], range)[driver.id].totalPayment == t.assignments[0].events[0].amount.value
  {
    var d := driver.id;
    var a := t.assignments[0];
    var e := a.events[0];
    var seed := Seed([driver]);
    SingleSeed(driver);
    var names := NameMap([driver]);
    var c := Credit(d, e.amount.value, None);
    var keys := seed.Keys;
    assert MovementTarget(e, d, keys, names) == Some(d);
    assert EventCredit(e, d, keys, names) == [c];
    assert a.events[..0] == [];
    assert EventCredits(a.events, d, keys, names) == [] + [c];
    assert t.assignments[..0] == [];
    assert MoveCredits(t.assignments, keys, names) == [] + [c];
    assert TripCredits(t, keys, names, range) == [] + [c];
    assert [t][..0] == [];
    assert Credits([t], keys, names, range) == [] + [c];
    ApplyOne(seed, c);
  }

  /** ...while the drill-down under its own rule lists nothing and totals
      0. */
  lemma {:induction false} FallbackCaseDrillDown(driver: Driver, t: Trip, range: DateRange)
    requires FallbackCase(driver, t, range)
    ensures DetailsFor([t], [driver], driver.id, range, AsWritten).Some?
    ensures DetailsTotal(DetailsFor([t], [driver], driver.id, range, AsWritten).value) == 0.0
  {
    var d := driver.id;
    var a := t.assignments[0];
    var e := a.events[0];
    var keys := Seed([driver]).Keys;
    var names := NameMap([driver]);
    assert !BelongsAsWritten(e, a, d, names);
    assert a.events[..0] == [];
    assert EventMovements(t.serviceOrder, a, a.events, d, AsWritten, keys, names) == [];
    assert t.assignments[..0] == [];
    assert TripMovements(t, t.assignments, d, AsWritten, keys, names) == [];
    assert [t][..0] == [];
    assert MovementsOf([t], d, AsWritten, keys, names) == [];
    assert CompletedOf([t], d, range) == [];
    assert SortBy([], NewestFirst) == [];
  }

  /** So the drill-down's grand total differs from the summary's amount
      for the same driver. */
  lemma {:induction false} DrillDownOmitsFallbackMovement(driver: Driver, t: Trip, range: DateRange)
    requires FallbackCase(driver, t, range)
    ensures driver.id in Report([t], [driver], range)
    ensures DetailsFor([t], [driver], driver.id, range, AsWritten).Some?
    ensures DetailsTotal(DetailsFor([t], [driver], driver.id, range, AsWritten).value) !=
            Report([t], [driver], range)[driver.id].totalPayment
  {
    FallbackCaseSummary(driver, t, range);
    FallbackCaseDrillDown(driver, t, range);
  }

  /** One input of that family. */
  lemma {:induction false} FallbackCaseExample()
    ensures FallbackCase(
      Driver("d1", "Ana", "P-1", false),
      Trip("t1", "OS-1", "Cliente", InProgress, false, "", Container,
           [Assignment("a1", "C-1", None, "d1", "k1", "r1", 0.0,
                       [Event(Movement, 0, None, Some(20.0), Some("d0"), None, None, None, None, None)], None, None)],
           0.0, None, None, 0, 0),
      DateRange(None, None))
  {
  }
}
