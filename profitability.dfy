/** The profitability report: for every completed, non-deleted trip last
    updated inside the chosen dates, the revenue lines (freight, DMTI
    service, unhook and demurrage charges), the cost lines (driver pay,
    movement allowances, fuel), their totals, the profit and the margin;
    rows are listed newest update first. */
module Profitability {
  import opened Base
  import opened Text
  import opened Domain

  /** One line of a revenue or cost breakdown. */
  datatype Line = Line(text: string, amount: real)

  /** One row of the report. */
  datatype Entry = Entry(
    trip: Trip,
    totalRevenue: real,
    totalCost: real,
    profit: real,
    revenueDetails: seq<Line>,
    costDetails: seq<Line>)
  {
    /** The row's margin, derived from its totals. */
    function margin(): real { Margin(totalRevenue, profit) }
  }

  function LineAmount(l: Line): real { l.amount }

  /** The stand-in name of the i-th assignment (counted from 0). */
  function Ordinal(i: nat): string {
    "Asig. " + NatToString(i + 1)
  }

  // ---------------------------------------------------------------------
  // Revenue lines
  // ---------------------------------------------------------------------

  /** A freight line names the container on a container trip and the
      merchandise otherwise, falling back to the assignment's ordinal. */
  function FreightDetail(t: Trip, a: Assignment, i: nat): string {
    var detail := if t.cargoType == Container then Some(a.containerNumber) else a.merchandiseType;
    if TruthyStr(detail) then detail.value else Ordinal(i)
  }

  predicate HasDmti(a: Assignment) {
    TruthyNum(a.dmtiCost)
  }

  /** The freight line of the i-th assignment, then its DMTI service line
      when it has a non-zero DMTI cost. */
  function AssignmentRevenue(t: Trip, a: Assignment, i: nat): seq<Line> {
    [Line("Flete (" + FreightDetail(t, a, i) + ")", a.cost)] +
    (if HasDmti(a) then [Line("Servicio DMTI (" + a.containerNumber + ")", a.dmtiCost.value)] else [])
  }

  function AssignmentsRevenue(t: Trip, assignments: seq<Assignment>): seq<Line> {
    if |assignments| == 0 then []
    else AssignmentsRevenue(t, assignments[..|assignments| - 1]) +
         AssignmentRevenue(t, assignments[|assignments| - 1], |assignments| - 1)
  }

  /** The trip's own charges, each only when non-zero. */
  function TripCharges(t: Trip): seq<Line> {
    (if TruthyNum(t.unhookCost) then [Line("Cargos por Desenganche", t.unhookCost.value)] else []) +
    (if t.demurrage != 0.0 then [Line("Cargos por Estadía", t.demurrage)] else [])
  }

  function RevenueLines(t: Trip): seq<Line> {
    AssignmentsRevenue(t, t.assignments) + TripCharges(t)
  }

  // ---------------------------------------------------------------------
  // Cost lines
  // ---------------------------------------------------------------------

  /** A pay line names the container, else the merchandise, else the
      ordinal, whatever the cargo type. */
  function PayDetail(a: Assignment, i: nat): string {
    if a.containerNumber != "" then a.containerNumber
    else if TruthyStr(a.merchandiseType) then a.merchandiseType.value
    else Ordinal(i)
  }

  /** A template literal renders a missing document number as "undefined". */
  function DocumentText(o: Option<string>): string {
    if o.Some? then o.value else "undefined"
  }

  predicate PaidMovement(e: Event) {
    e.kind == Movement && TruthyNum(e.amount)
  }

  predicate PricedRefuel(e: Event) {
    e.kind == Refuel && TruthyNum(e.galonaje) && TruthyNum(e.precioGalon)
  }

  /** The cost lines one event contributes: a movement with a non-zero
      amount, a refuel with non-zero gallons and price valued at their
      product. */
  function EventCost(e: Event): seq<Line> {
    (if PaidMovement(e)
     then [Line("Movimiento/Viático (" + (if TruthyStr(e.notes) then e.notes.value else "N/A") + ")", e.amount.value)]
     else []) +
    (if PricedRefuel(e)
     then [Line("Repostaje (" + DocumentText(e.numeroDocumento) + ")", e.galonaje.value * e.precioGalon.value)]
     else [])
  }

  function EventsCost(events: seq<Event>): seq<Line> {
    if |events| == 0 then [] else EventsCost(events[..|events| - 1]) + EventCost(events[|events| - 1])
  }

  /** The driver's pay line of the i-th assignment, then its events' lines. */
  function AssignmentCost(a: Assignment, i: nat): seq<Line> {
    [Line("Pago Motorista Flete (" + PayDetail(a, i) + ")", a.cost)] + EventsCost(a.events)
  }

  function AssignmentsCost(assignments: seq<Assignment>): seq<Line> {
    if |assignments| == 0 then []
    else AssignmentsCost(assignments[..|assignments| - 1]) +
         AssignmentCost(assignments[|assignments| - 1], |assignments| - 1)
  }

  function CostLines(t: Trip): seq<Line> {
    AssignmentsCost(t.assignments)
  }

  // ---------------------------------------------------------------------
  // One row
  // ---------------------------------------------------------------------

  /** Profit as a percentage of revenue, and 0 when there is no positive
      revenue. */
  function Margin(revenue: real, profit: real): real {
    if revenue > 0.0 then profit / revenue * 100.0 else 0.0
  }

  /** The row of a trip, its totals the sums of its lines. */
  function EntryOf(t: Trip): Entry {
    var revenue := Sum(RevenueLines(t), LineAmount);
    var cost := Sum(CostLines(t), LineAmount);
    Entry(t, revenue, cost, revenue - cost, RevenueLines(t), CostLines(t))
  }

  lemma {:induction false} PushLine(lines: seq<Line>, l: Line)
    ensures Sum(lines + [l], LineAmount) == Sum(lines, LineAmount) + l.amount
  {
    assert (lines + [l])[..|lines|] == lines;
  }

  /** One assignment's revenue appended to the lines and the running
      total: its freight line, then its DMTI service line when it has a
      non-zero DMTI cost. */
  method PushAssignmentRevenue(lines0: seq<Line>, total0: real, t: Trip, a: Assignment, i: nat)
    returns (lines: seq<Line>, total: real)
    ensures lines == lines0 + AssignmentRevenue(t, a, i)
    ensures total == total0 + Sum(AssignmentRevenue(t, a, i), LineAmount)
  {
    var detail := if t.cargoType == Container then Some(a.containerNumber) else a.merchandiseType;
    var freight := Line("Flete (" + (if TruthyStr(detail) then detail.value else "Asig. " + NatToString(i + 1)) + ")", a.cost);
    lines := lines0 + [freight];
    total := total0 + a.cost;
    ghost var added := [freight];
    SumSingle(freight, LineAmount);
    if TruthyNum(a.dmtiCost) {
      var service := Line("Servicio DMTI (" + a.containerNumber + ")", a.dmtiCost.value);
      PushLine(added, service);
      lines := lines + [service];
      total := total + a.dmtiCost.value;
      added := added + [service];
    }
    assert added == AssignmentRevenue(t, a, i);
  }

  /** The trip's unhook and demurrage charges appended, each only when
      non-zero. */
  method PushTripCharges(lines0: seq<Line>, total0: real, t: Trip) returns (lines: seq<Line>, total: real)
    ensures lines == lines0 + TripCharges(t)
    ensures total == total0 + Sum(TripCharges(t), LineAmount)
  {
    lines := lines0;
    total := total0;
    ghost var added: seq<Line> := [];
    if TruthyNum(t.unhookCost) {
      var unhook := Line("Cargos por Desenganche", t.unhookCost.value);
      lines := lines + [unhook];
      total := total + t.unhookCost.value;
      added := [unhook];
      SumSingle(unhook, LineAmount);
    }
    if t.demurrage != 0.0 {
      var stay := Line("Cargos por Estadía", t.demurrage);
      PushLine(added, stay);
      lines := lines + [stay];
      total := total + t.demurrage;
      added := added + [stay];
    }
    assert added == TripCharges(t);
  }

  /** The revenue pass: each assignment's lines, then the trip's charges,
      with a running total. */
  method TripRevenue(t: Trip) returns (lines: seq<Line>, total: real)
    ensures lines == RevenueLines(t)
    ensures total == Sum(lines, LineAmount)
  {
    lines := [];
    total := 0.0;
    for i := 0 to |t.assignments|
      invariant lines == AssignmentsRevenue(t, t.assignments[..i])
      invariant total == Sum(lines, LineAmount)
    {
      ghost var before := lines;
      lines, total := PushAssignmentRevenue(lines, total, t, t.assignments[i], i);
      SumAppend(before, AssignmentRevenue(t, t.assignments[i], i), LineAmount);
      RevenueStep(t, t.assignments, i);
    }
    assert t.assignments[..|t.assignments|] == t.assignments;
    ghost var fromAssignments := lines;
    lines, total := PushTripCharges(lines, total, t);
    SumAppend(fromAssignments, TripCharges(t), LineAmount);
  }

  lemma {:induction false} RevenueStep(t: Trip, assignments: seq<Assignment>, i: nat)
    requires i < |assignments|
    ensures AssignmentsRevenue(t, assignments[..i + 1]) ==
            AssignmentsRevenue(t, assignments[..i]) + AssignmentRevenue(t, assignments[i], i)
  {
    assert assignments[..i + 1][..i] == assignments[..i];
  }

  lemma {:induction false} EventsCostStep(events: seq<Event>, k: nat)
    requires k < |events|
    ensures EventsCost(events[..k + 1]) == EventsCost(events[..k]) + EventCost(events[k])
  {
    assert events[..k + 1][..k] == events[..k];
  }

  lemma {:induction false} CostStep(assignments: seq<Assignment>, i: nat)
    requires i < |assignments|
    ensures AssignmentsCost(assignments[..i + 1]) ==
            AssignmentsCost(assignments[..i]) + AssignmentCost(assignments[i], i)
  {
    assert assignments[..i + 1][..i] == assignments[..i];
  }

  /** One event's costs appended to the cost lines and the running total:
      a movement with a non-zero amount, a refuel with non-zero gallons
      and price. */
  method PushEventCost(lines0: seq<Line>, total0: real, e: Event) returns (lines: seq<Line>, total: real)
    ensures lines == lines0 + EventCost(e)
    ensures total == total0 + Sum(EventCost(e), LineAmount)
  {
    lines := lines0;
    total := total0;
    ghost var added: seq<Line> := [];
    if e.kind == Movement && TruthyNum(e.amount) {
      var move := Line("Movimiento/Viático (" + (if TruthyStr(e.notes) then e.notes.value else "N/A") + ")", e.amount.value);
      lines := lines + [move];
      total := total + e.amount.value;
      added := [move];
      SumSingle(move, LineAmount);
    }
    if e.kind == Refuel && TruthyNum(e.galonaje) && TruthyNum(e.precioGalon) {
      var fuelCost := e.galonaje.value * e.precioGalon.value;
      var fuel := Line("Repostaje (" + DocumentText(e.numeroDocumento) + ")", fuelCost);
      lines := lines + [fuel];
      total := total + fuelCost;
      added := [fuel];
      SumSingle(fuel, LineAmount);
    }
    assert added == EventCost(e);
  }

  /** The inner pass over one assignment's events. */
  method PushEventCosts(lines0: seq<Line>, total0: real, events: seq<Event>) returns (lines: seq<Line>, total: real)
    ensures lines == lines0 + EventsCost(events)
    ensures total == total0 + Sum(EventsCost(events), LineAmount)
  {
    lines := lines0;
    total := total0;
    for k := 0 to |events|
      invariant lines == lines0 + EventsCost(events[..k])
      invariant total == total0 + Sum(EventsCost(events[..k]), LineAmount)
    {
      ghost var before := lines;
      lines, total := PushEventCost(lines, total, events[k]);
      CostsStep(lines0, total0, events, k, before, lines, total);
    }
    assert events[..|events|] == events;
  }

  /** One event's lines and amounts extend the pass to the next prefix. */
  lemma {:induction false} CostsStep(lines0: seq<Line>, total0: real, events: seq<Event>, k: nat, before: seq<Line>, lines: seq<Line>, total: real)
    requires k < |events|
    requires before == lines0 + EventsCost(events[..k])
    requires lines == before + EventCost(events[k])
    requires total == total0 + Sum(EventsCost(events[..k]), LineAmount) + Sum(EventCost(events[k]), LineAmount)
    ensures lines == lines0 + EventsCost(events[..k + 1])
    ensures total == total0 + Sum(EventsCost(events[..k + 1]), LineAmount)
  {
    EventsCostStep(events, k);
    SumAppend(EventsCost(events[..k]), EventCost(events[k]), LineAmount);
  }

  /** One assignment's costs appended to the lines and the running total:
      the driver's pay line, then the lines of its events. */
  method PushAssignmentCost(lines0: seq<Line>, total0: real, a: Assignment, i: nat)
    returns (lines: seq<Line>, total: real)
    ensures lines == lines0 + AssignmentCost(a, i)
    ensures total == total0 + Sum(AssignmentCost(a, i), LineAmount)
  {
    var detail := if a.containerNumber != "" then a.containerNumber
                  else if TruthyStr(a.merchandiseType) then a.merchandiseType.value
                  else "Asig. " + NatToString(i + 1);
    var pay := Line("Pago Motorista Flete (" + detail + ")", a.cost);
    assert detail == PayDetail(a, i);
    lines, total := PushEventCosts(lines0 + [pay], total0 + a.cost, a.events);
    SumSingle(pay, LineAmount);
    SumAppend([pay], EventsCost(a.events), LineAmount);
    AppendAssoc(lines0, [pay], EventsCost(a.events));
  }

  /** The cost pass: per assignment the driver's pay line, then the lines
      of its events, with a running total. */
  method TripCost(t: Trip) returns (lines: seq<Line>, total: real)
    ensures lines == CostLines(t)
    ensures total == Sum(lines, LineAmount)
  {
    lines := [];
    total := 0.0;
    for i := 0 to |t.assignments|
      invariant lines == AssignmentsCost(t.assignments[..i])
      invariant total == Sum(lines, LineAmount)
    {
      ghost var before := lines;
      lines, total := PushAssignmentCost(lines, total, t.assignments[i], i);
      SumAppend(before, AssignmentCost(t.assignments[i], i), LineAmount);
      CostStep(t.assignments, i);
    }
    assert t.assignments[..|t.assignments|] == t.assignments;
  }

  /** The row of one trip. */
  method TripProfitability(t: Trip) returns (entry: Entry)
    ensures entry == EntryOf(t)
  {
    var revenueDetails, totalRevenue := TripRevenue(t);
    var costDetails, totalCost := TripCost(t);
    var profit := totalRevenue - totalCost;
    entry := Entry(t, totalRevenue, totalCost, profit, revenueDetails, costDetails);
  }

  // ---------------------------------------------------------------------
  // What the totals come to
  // ---------------------------------------------------------------------

  /** What an assignment bills: its freight plus its DMTI cost. */
  function FreightCharge(a: Assignment): real { a.cost + OrZero(a.dmtiCost) }

  function DmtiCharge(a: Assignment): real { OrZero(a.dmtiCost) }

  /** What an event costs: a movement's amount, a refuel's gallons times
      price; nothing for any other event. */
  function EventExpense(e: Event): real {
    if e.kind == Movement then OrZero(e.amount)
    else if e.kind == Refuel then OrZero(e.galonaje) * OrZero(e.precioGalon)
    else 0.0
  }

  function EventsExpense(a: Assignment): real { Sum(a.events, EventExpense) }

  /** What an assignment costs: the driver's pay plus its events' costs. */
  function AssignmentExpense(a: Assignment): real { a.cost + EventsExpense(a) }

  lemma {:induction false} AssignmentsRevenueTotal(t: Trip, assignments: seq<Assignment>)
    ensures Sum(AssignmentsRevenue(t, assignments), LineAmount) == Sum(assignments, FreightCharge)
  {
    if |assignments| > 0 {
      var n := |assignments| - 1;
      AssignmentsRevenueTotal(t, assignments[..n]);
      var a := assignments[n];
      var init := AssignmentsRevenue(t, assignments[..n]);
      var freight := Line("Flete (" + FreightDetail(t, a, n) + ")", a.cost);
      PushLine(init, freight);
      if HasDmti(a) {
        PushLine(init + [freight], Line("Servicio DMTI (" + a.containerNumber + ")", a.dmtiCost.value));
        assert init + AssignmentRevenue(t, a, n) == init + [freight] + [Line("Servicio DMTI (" + a.containerNumber + ")", a.dmtiCost.value)];
      } else {
        assert init + AssignmentRevenue(t, a, n) == init + [freight];
      }
    }
  }

  /** The revenue lines add up to every assignment's freight and DMTI
      cost plus the trip's stored unhook cost and demurrage. */
  lemma {:induction false} RevenueTotal(t: Trip)
    ensures EntryOf(t).totalRevenue ==
            Sum(t.assignments, FreightCharge) + OrZero(t.unhookCost) + t.demurrage
  {
    var lines := AssignmentsRevenue(t, t.assignments);
    AssignmentsRevenueTotal(t, t.assignments);
    var u := if TruthyNum(t.unhookCost) then [Line("Cargos por Desenganche", t.unhookCost.value)] else [];
    var d := if t.demurrage != 0.0 then [Line("Cargos por Estadía", t.demurrage)] else [];
    assert RevenueLines(t) == lines + (u + d);
    SumAppend(lines, u + d, LineAmount);
    SumAppend(u, d, LineAmount);
    if TruthyNum(t.unhookCost) { SumSingle(u[0], LineAmount); }
    if t.demurrage != 0.0 { SumSingle(d[0], LineAmount); }
  }

  lemma {:induction false} EventCostTotal(e: Event)
    ensures Sum(EventCost(e), LineAmount) == EventExpense(e)
  {
    var m := if PaidMovement(e)
             then [Line("Movimiento/Viático (" + (if TruthyStr(e.notes) then e.notes.value else "N/A") + ")", e.amount.value)]
             else [];
    var f := if PricedRefuel(e)
             then [Line("Repostaje (" + DocumentText(e.numeroDocumento) + ")", e.galonaje.value * e.precioGalon.value)]
             else [];
    SumAppend(m, f, LineAmount);
    if PaidMovement(e) { SumSingle(m[0], LineAmount); }
    if PricedRefuel(e) { SumSingle(f[0], LineAmount); }
    if e.kind == Refuel && !PricedRefuel(e) {
      assert OrZero(e.galonaje) == 0.0 || OrZero(e.precioGalon) == 0.0;
    }
  }

  lemma {:induction false} EventsCostTotal(events: seq<Event>)
    ensures Sum(EventsCost(events), LineAmount) == Sum(events, EventExpense)
  {
    if |events| > 0 {
      var n := |events| - 1;
      EventsCostTotal(events[..n]);
      SumAppend(EventsCost(events[..n]), EventCost(events[n]), LineAmount);
      EventCostTotal(events[n]);
    }
  }

  lemma {:induction false} AssignmentsCostTotal(assignments: seq<Assignment>)
    ensures Sum(AssignmentsCost(assignments), LineAmount) == Sum(assignments, AssignmentExpense)
  {
    if |assignments| > 0 {
      var n := |assignments| - 1;
      var a := assignments[n];
      AssignmentsCostTotal(assignments[..n]);
      var pay := Line("Pago Motorista Flete (" + PayDetail(a, n) + ")", a.cost);
      SumAppend(AssignmentsCost(assignments[..n]), AssignmentCost(a, n), LineAmount);
      SumAppend([pay], EventsCost(a.events), LineAmount);
      SumSingle(pay, LineAmount);
      EventsCostTotal(a.events);
    }
  }

  /** The cost lines add up to every assignment's pay plus its movement
      allowances and fuel. */
  lemma {:induction false} CostTotal(t: Trip)
    ensures EntryOf(t).totalCost == Sum(t.assignments, AssignmentExpense)
  {
    AssignmentsCostTotal(t.assignments);
  }

  /** Freight is billed and paid alike, so the profit is what the DMTI
      services, the unhook cost and the demurrage bring in, less what the
      movements and the fuel cost. */
  lemma {:induction false} ProfitIdentity(t: Trip)
    ensures EntryOf(t).profit ==
            Sum(t.assignments, DmtiCharge) + OrZero(t.unhookCost) + t.demurrage -
            Sum(t.assignments, EventsExpense)
  {
    RevenueTotal(t);
    CostTotal(t);
    var cost := (a: Assignment) => a.cost;
    SumLinear(t.assignments, cost, DmtiCharge, FreightCharge);
    SumLinear(t.assignments, cost, EventsExpense, AssignmentExpense);
  }

  lemma {:induction false} AssignmentsRevenueCount(t: Trip, assignments: seq<Assignment>)
    ensures |AssignmentsRevenue(t, assignments)| == |assignments| + Count(assignments, HasDmti)
  {
    if |assignments| > 0 {
      AssignmentsRevenueCount(t, assignments[..|assignments| - 1]);
    }
  }

  /** One revenue line per assignment, one per non-zero DMTI cost, and one
      for each of a non-zero unhook cost and a non-zero demurrage. */
  lemma {:induction false} RevenueLineCount(t: Trip)
    ensures |EntryOf(t).revenueDetails| ==
            |t.assignments| + Count(t.assignments, HasDmti) +
            (if TruthyNum(t.unhookCost) then 1 else 0) + (if t.demurrage != 0.0 then 1 else 0)
  {
    AssignmentsRevenueCount(t, t.assignments);
  }

  /** The margin of a row (`Entry.margin`, `Margin(revenue, profit)`)
      is profit over revenue in percent when there is revenue, exactly 0
      when there is none, and at most 100 when costs are not negative. */
  lemma {:induction false} MarginSpec(revenue: real, cost: real)
    ensures revenue <= 0.0 ==> Margin(revenue, revenue - cost) == 0.0
    ensures revenue > 0.0 ==> Margin(revenue, revenue - cost) * revenue == (revenue - cost) * 100.0
    ensures revenue > 0.0 && cost >= 0.0 ==> Margin(revenue, revenue - cost) <= 100.0
  {
    if revenue > 0.0 {
      var q := (revenue - cost) / revenue;
      assert q * revenue == revenue - cost;
      assert Margin(revenue, revenue - cost) == q * 100.0;
      assert (q * 100.0) * revenue == (q * revenue) * 100.0;
    }
  }

  /** A row's margin is its profit as a percentage of its revenue, and 0
      without revenue. */
  lemma {:induction false} EntryMargin(e: Entry)
    ensures e.totalRevenue <= 0.0 ==> e.margin() == 0.0
    ensures e.totalRevenue > 0.0 ==> e.margin() * e.totalRevenue == e.profit * 100.0
  {
    MarginSpec(e.totalRevenue, e.totalRevenue - e.profit);
  }

  // ---------------------------------------------------------------------
  // The report
  // ---------------------------------------------------------------------

  predicate Finished(t: Trip) {
    t.status == Completed && !t.isDeleted
  }

  function UpdatedFrom(start: int): Trip -> bool {
    (t: Trip) => t.updatedAt >= start
  }

  function UpdatedBy(end: int): Trip -> bool {
    (t: Trip) => t.updatedAt <= end + DayMillis - 1
  }

  /** The completed, non-deleted trips, then those updated on or after the
      first day, then those updated by the end of the last day, each date
      filter only when its date is chosen. */
  function Selected(trips: seq<Trip>, range: DateRange): seq<Trip> {
    var completed := Filter(trips, Finished);
    var fromStart := if range.start.Some? then Filter(completed, UpdatedFrom(range.start.value)) else completed;
    if range.end.Some? then Filter(fromStart, UpdatedBy(range.end.value)) else fromStart
  }

  function Included(range: DateRange): Trip -> bool {
    (t: Trip) => Finished(t) && InRange(t.updatedAt, range)
  }

  /** The chain of filters keeps exactly the finished trips updated in
      the range, in their order. */
  lemma {:induction false} SelectedSpec(trips: seq<Trip>, range: DateRange)
    ensures Selected(trips, range) == Filter(trips, Included(range))
  {
    var completed := Filter(trips, Finished);
    var fromStart := if range.start.Some? then Filter(completed, UpdatedFrom(range.start.value)) else completed;
    var startOnly := (t: Trip) => Finished(t) && InRange(t.updatedAt, DateRange(range.start, None));
    if range.start.Some? {
      FilterFilter(trips, Finished, UpdatedFrom(range.start.value), startOnly);
    } else {
      FilterSame(trips, Finished, startOnly);
    }
    assert fromStart == Filter(trips, startOnly);
    if range.end.Some? {
      FilterFilter(trips, startOnly, UpdatedBy(range.end.value), Included(range));
    } else {
      FilterSame(trips, startOnly, Included(range));
    }
  }

  function LatestFirst(e: Entry): real {
    -(e.trip.updatedAt as real)
  }

  function Report(trips: seq<Trip>, range: DateRange): seq<Entry> {
    SortBy(MapSeq(Selected(trips, range), EntryOf), LatestFirst)
  }

  /** The per-trip pass, in order. */
  method TripEntries(ts: seq<Trip>) returns (entries: seq<Entry>)
    ensures entries == MapSeq(ts, EntryOf)
  {
    entries := [];
    for i := 0 to |ts|
      invariant entries == MapSeq(ts[..i], EntryOf)
    {
      var entry := TripProfitability(ts[i]);
      MapSeqStep(ts, EntryOf, i);
      entries := entries + [entry];
    }
    assert ts[..|ts|] == ts;
  }

  /** The report: one row per selected trip, newest update first. */
  method ProfitabilityData(trips: seq<Trip>, range: DateRange) returns (rows: seq<Entry>)
    ensures rows == Report(trips, range)
  {
    var selected := Selected(trips, range);
    var entries := TripEntries(selected);
    rows := SortBy(entries, LatestFirst);
  }

  /** Rows are ordered by last update, newest first. */
  lemma {:induction false} ReportSorted(trips: seq<Trip>, range: DateRange)
    ensures var rows := Report(trips, range);
      forall i, j :: 0 <= i < j < |rows| ==> rows[i].trip.updatedAt >= rows[j].trip.updatedAt
  {
    var rows := Report(trips, range);
    SortByCorrect(MapSeq(Selected(trips, range), EntryOf), LatestFirst);
    forall i, j | 0 <= i < j < |rows| ensures rows[i].trip.updatedAt >= rows[j].trip.updatedAt {
      assert LatestFirst(rows[i]) <= LatestFirst(rows[j]);
    }
  }

  /** There are exactly as many rows as selected trips. */
  lemma {:induction false} ReportCount(trips: seq<Trip>, range: DateRange)
    ensures |Report(trips, range)| == Count(trips, Included(range))
  {
    SelectedSpec(trips, range);
  }

  /** Every row is the row of a completed, non-deleted trip of the input
      updated within the range. */
  lemma {:induction false} ReportSound(trips: seq<Trip>, range: DateRange)
    ensures var rows := Report(trips, range);
      forall i :: 0 <= i < |rows| ==>
        rows[i] == EntryOf(rows[i].trip) && rows[i].trip in trips &&
        Finished(rows[i].trip) && InRange(rows[i].trip.updatedAt, range)
  {
    SelectedSpec(trips, range);
    var selected := Selected(trips, range);
    var entries := MapSeq(selected, EntryOf);
    var rows := Report(trips, range);
    var inc := Included(range);
    SortByMembers(entries, LatestFirst);
    forall i | 0 <= i < |rows|
      ensures rows[i] == EntryOf(rows[i].trip) && rows[i].trip in trips &&
              Finished(rows[i].trip) && InRange(rows[i].trip.updatedAt, range)
    {
      var x := rows[i];
      assert x in entries;
      var k :| 0 <= k < |entries| && entries[k] == x;
      MapSeqAt(selected, EntryOf, k);
      assert selected[k] in trips && inc(selected[k]);
    }
  }

  /** The rows are, up to order, the rows of the included trips, each as
      often as the trip occurs in the input. */
  lemma {:induction false} ReportRows(trips: seq<Trip>, range: DateRange)
    ensures multiset(Report(trips, range)) == multiset(MapSeq(Filter(trips, Included(range)), EntryOf))
  {
    SelectedSpec(trips, range);
    SortByPerm(MapSeq(Selected(trips, range), EntryOf), LatestFirst);
  }

  /** Every completed, non-deleted trip updated within the range has its
      row. */
  lemma {:induction false} ReportComplete(trips: seq<Trip>, range: DateRange)
    ensures forall t :: t in trips && Finished(t) && InRange(t.updatedAt, range) ==>
      EntryOf(t) in Report(trips, range)
  {
    SelectedSpec(trips, range);
    var selected := Selected(trips, range);
    var entries := MapSeq(selected, EntryOf);
    var rows := Report(trips, range);
    var inc := Included(range);
    SortByPerm(entries, LatestFirst);
    forall t | t in trips && Finished(t) && InRange(t.updatedAt, range) ensures EntryOf(t) in rows {
      assert inc(t);
      var k :| 0 <= k < |selected| && selected[k] == t;
      MapSeqAt(selected, EntryOf, k);
      assert EntryOf(t) in multiset(rows);
    }
  }
}
