/** Saving the trip form: the completion gate, the demurrage and unhook
    totals recomputed from the event logs, the cargo-field cleanup, the
    default invoice status and the checks of a DMTI process trip. */
module TripSave {
  import opened Base
  import opened Text
  import opened Domain

  // ---------------------------------------------------------------------
  // Completion gate
  // ---------------------------------------------------------------------

  /** Some assignment has logged the end of its empty return. */
  predicate HasEmptyReturnEnd(assignments: seq<Assignment>) {
    exists i :: 0 <= i < |assignments| && HasEventOfType(assignments[i].events, EmptyReturnEnd)
  }

  /** A trip can be saved as Completed only once an empty return has ended. */
  predicate PassesCompletionGate(form: Trip) {
    form.status == Completed ==> HasEmptyReturnEnd(form.assignments)
  }

  // ---------------------------------------------------------------------
  // Demurrage
  // ---------------------------------------------------------------------

  /** `Math.ceil(ms / 86400000)` for a positive duration: the number of
      started days. */
  function CeilDays(ms: int): nat
    requires ms > 0
  {
    (ms + DayMillis - 1) / DayMillis
  }

  /** The started days are the least whole number of days covering the
      stay. */
  lemma {:induction false} CeilDaysBounds(ms: int)
    requires ms > 0
    ensures CeilDays(ms) >= 1
    ensures (CeilDays(ms) - 1) * DayMillis < ms <= CeilDays(ms) * DayMillis
  {
  }

  /** The demurrage one assignment contributes, from its events. */
  function AssignmentDemurrage(a: Assignment): real {
    StayDemurrage(a.events)
  }

  /** The rate of the first StayStart event times the started days until
      the first StayEnd event, when the rate is positive and both events
      exist. */
  function StayDemurrage(events: seq<Event>): real {
    var start := FirstOfType(events, StayStart);
    var end := FirstOfType(events, StayEnd);
    var rate := if start.Some? then OrZero(start.value.demurrageRate) else 0.0;
    if rate > 0.0 && start.Some? && end.Some? && end.value.timestamp - start.value.timestamp > 0 then
      CeilDays(end.value.timestamp - start.value.timestamp) as real * rate
    else 0.0
  }

  function TripDemurrage(assignments: seq<Assignment>): real {
    Sum(assignments, AssignmentDemurrage)
  }

  /** An assignment's demurrage is zero unless its first StayStart and
      first StayEnd both exist, the stay ends after it starts and the
      start's rate is positive; then it is the rate times the started days. */
  lemma {:induction false} AssignmentDemurrageCases(a: Assignment)
    ensures AssignmentDemurrage(a) >= 0.0
    ensures FirstOfType(a.events, StayStart).None? || FirstOfType(a.events, StayEnd).None? ==>
              AssignmentDemurrage(a) == 0.0
    ensures StayWindow(a) ==>
              AssignmentDemurrage(a) == CeilDays(StayMillis(a)) as real * FirstOfType(a.events, StayStart).value.demurrageRate.value
    ensures AssignmentDemurrage(a) > 0.0 <==> StayWindow(a)
  {
    if StayWindow(a) {
      var start := FirstOfType(a.events, StayStart);
      assert OrZero(start.value.demurrageRate) == start.value.demurrageRate.value;
    }
  }

  /** The length of the stay between the first StayStart and StayEnd. */
  function StayMillis(a: Assignment): int
    requires FirstOfType(a.events, StayStart).Some? && FirstOfType(a.events, StayEnd).Some?
  {
    FirstOfType(a.events, StayEnd).value.timestamp - FirstOfType(a.events, StayStart).value.timestamp
  }

  /** Both stay events exist, the stay has positive length and the rate
      recorded at its start is positive. */
  predicate StayWindow(a: Assignment) {
    var start := FirstOfType(a.events, StayStart);
    var end := FirstOfType(a.events, StayEnd);
    start.Some? && end.Some? && end.value.timestamp > start.value.timestamp &&
    start.value.demurrageRate.Some? && start.value.demurrageRate.value > 0.0
  }

  /** The total is never negative, since only positive rates count. */
  lemma {:induction false} TripDemurrageNonNegative(assignments: seq<Assignment>)
    ensures TripDemurrage(assignments) >= 0.0
  {
    if |assignments| > 0 {
      TripDemurrageNonNegative(assignments[..|assignments| - 1]);
      AssignmentDemurrageCases(assignments[|assignments| - 1]);
    }
  }

  /** The demurrage loop of the save handler. */
  method ComputeDemurrage(assignments: seq<Assignment>) returns (total: real)
    ensures total == TripDemurrage(assignments)
  {
    total := 0.0;
    var i := 0;
    while i < |assignments|
      invariant 0 <= i <= |assignments|
      invariant total == Sum(assignments[..i], AssignmentDemurrage)
    {
      var a := assignments[i];
      var stayStart := FirstOfType(a.events, StayStart);
      var stayEnd := FirstOfType(a.events, StayEnd);
      var rate := if stayStart.Some? then OrZero(stayStart.value.demurrageRate) else 0.0;
      var contribution := 0.0;
      if rate > 0.0 && stayStart.Some? && stayEnd.Some? {
        var duration := stayEnd.value.timestamp - stayStart.value.timestamp;
        if duration < 0 {
          duration := 0;
        }
        if duration > 0 {
          contribution := CeilDays(duration) as real * rate;
        }
      }
      assert AssignmentDemurrage(a) == StayDemurrage(a.events);
      assert contribution == AssignmentDemurrage(a);
      assert assignments[..i + 1][..i] == assignments[..i];
      total := total + contribution;
      i := i + 1;
    }
    assert assignments[..i] == assignments;
  }

  // ---------------------------------------------------------------------
  // Unhook cost
  // ---------------------------------------------------------------------

  /** An Unhook event with a non-zero cost. */
  predicate IsCostedUnhook(e: Event) {
    e.kind == Unhook && TruthyNum(e.unhookCost)
  }

  function UnhookContribution(e: Event): real {
    if IsCostedUnhook(e) then e.unhookCost.value else 0.0
  }

  function AssignmentUnhook(a: Assignment): real {
    Sum(a.events, UnhookContribution)
  }

  function TripUnhook(assignments: seq<Assignment>): real {
    Sum(assignments, AssignmentUnhook)
  }

  /** Every event of every assignment, in order. */
  function AllEvents(assignments: seq<Assignment>): (r: seq<Event>)
    ensures forall i :: 0 <= i < |assignments| ==> multiset(assignments[i].events) <= multiset(r)
  {
    if |assignments| == 0 then []
    else
      var init := assignments[..|assignments| - 1];
      var r := AllEvents(init) + assignments[|assignments| - 1].events;
      assert forall i :: 0 <= i < |init| ==> assignments[i] == init[i];
      r
  }

  /** Summing per assignment and then per event is summing over all events. */
  lemma {:induction false} SumOverAllEvents(assignments: seq<Assignment>, f: Event -> real, g: Assignment -> real)
    requires forall a :: g(a) == Sum(a.events, f)
    ensures Sum(assignments, g) == Sum(AllEvents(assignments), f)
  {
    if |assignments| > 0 {
      var init := assignments[..|assignments| - 1];
      SumOverAllEvents(init, f, g);
      SumAppend(AllEvents(init), assignments[|assignments| - 1].events, f);
    }
  }

  /** The unhook total is the sum of the costs of the costed Unhook events,
      over every assignment. */
  lemma {:induction false} UnhookIsSumOfCostedUnhooks(assignments: seq<Assignment>)
    ensures TripUnhook(assignments) ==
            Sum(Filter(AllEvents(assignments), IsCostedUnhook), UnhookContribution)
  {
    SumOverAllEvents(assignments, UnhookContribution, AssignmentUnhook);
    SumFilter(AllEvents(assignments), IsCostedUnhook, UnhookContribution);
  }

  /** The nested unhook loop of the save handler. */
  method ComputeUnhook(assignments: seq<Assignment>) returns (total: real)
    ensures total == TripUnhook(assignments)
  {
    total := 0.0;
    var i := 0;
    while i < |assignments|
      invariant 0 <= i <= |assignments|
      invariant total == Sum(assignments[..i], AssignmentUnhook)
    {
      var events := assignments[i].events;
      var sub := 0.0;
      var j := 0;
      while j < |events|
        invariant 0 <= j <= |events|
        invariant sub == Sum(events[..j], UnhookContribution)
      {
        var e := events[j];
        assert events[..j + 1][..j] == events[..j];
        if e.kind == Unhook && e.unhookCost.Some? && e.unhookCost.value != 0.0 {
          sub := sub + e.unhookCost.value;
        }
        j := j + 1;
      }
      assert events[..j] == events;
      assert assignments[..i + 1][..i] == assignments[..i];
      total := total + sub;
      i := i + 1;
    }
    assert assignments[..i] == assignments;
  }

  // ---------------------------------------------------------------------
  // Cleanup, invoice default and the DMTI checks
  // ---------------------------------------------------------------------

  /** The cargo field that does not apply is blanked: merchandise on a
      Container trip, the container number on any other. */
  function CleanAssignment(a: Assignment, cargo: CargoType): (r: Assignment)
    ensures cargo == Container ==> r == a.(merchandiseType := Some(""))
    ensures cargo != Container ==> r == a.(containerNumber := "")
  {
    if cargo == Container then a.(merchandiseType := Some("")) else a.(containerNumber := "")
  }

  function CleanAssignments(assignments: seq<Assignment>, cargo: CargoType): (r: seq<Assignment>)
    ensures |r| == |assignments|
    ensures forall i :: 0 <= i < |r| ==> r[i] == CleanAssignment(assignments[i], cargo)
  {
    seq(|assignments|, i requires 0 <= i < |assignments| => CleanAssignment(assignments[i], cargo))
  }

  /** Cleanup keeps every field but the blanked one, so it is idempotent. */
  lemma {:induction false} CleanupIdempotent(assignments: seq<Assignment>, cargo: CargoType)
    ensures CleanAssignments(CleanAssignments(assignments, cargo), cargo) == CleanAssignments(assignments, cargo)
  {
    var c := CleanAssignments(assignments, cargo);
    var cc := CleanAssignments(c, cargo);
    forall i | 0 <= i < |cc| ensures cc[i] == c[i] {
      assert cc[i] == CleanAssignment(c[i], cargo);
    }
  }

  /** Cleanup does not touch the events the totals are computed from. */
  lemma {:induction false} CleanupKeepsTotals(assignments: seq<Assignment>, cargo: CargoType)
    ensures TripDemurrage(CleanAssignments(assignments, cargo)) == TripDemurrage(assignments)
    ensures TripUnhook(CleanAssignments(assignments, cargo)) == TripUnhook(assignments)
  {
    forall a | true ensures AssignmentDemurrage(CleanAssignment(a, cargo)) == AssignmentDemurrage(a) {
      assert CleanAssignment(a, cargo).events == a.events;
    }
    forall a | true ensures AssignmentUnhook(CleanAssignment(a, cargo)) == AssignmentUnhook(a) {
      assert CleanAssignment(a, cargo).events == a.events;
    }
    SumOfCleaned(assignments, cargo, AssignmentDemurrage);
    SumOfCleaned(assignments, cargo, AssignmentUnhook);
  }

  lemma {:induction false} SumOfCleaned(assignments: seq<Assignment>, cargo: CargoType, f: Assignment -> real)
    requires forall a :: f(CleanAssignment(a, cargo)) == f(a)
    ensures Sum(CleanAssignments(assignments, cargo), f) == Sum(assignments, f)
  {
    if |assignments| > 0 {
      var init := assignments[..|assignments| - 1];
      SumOfCleaned(init, cargo, f);
      assert CleanAssignments(assignments, cargo)[..|assignments| - 1] == CleanAssignments(init, cargo);
    }
  }

  /** A Completed trip without an invoice status starts as Active. */
  function WithDefaultInvoice(t: Trip): (r: Trip)
    ensures t.status == Completed && t.invoiceStatus.None? ==> r == t.(invoiceStatus := Some(Active))
    ensures !(t.status == Completed && t.invoiceStatus.None?) ==> r == t
  {
    if t.status == Completed && t.invoiceStatus.None? then t.(invoiceStatus := Some(Active)) else t
  }

  /** A DMTI process trip needs a client and at least one assignment, and
      every assignment a container number and a starting customs office. */
  predicate ValidDmtiProcess(form: Trip) {
    form.clientName != "" && |form.assignments| > 0 &&
    forall i :: 0 <= i < |form.assignments| ==> DmtiAssignmentComplete(form.assignments[i])
  }

  predicate DmtiAssignmentComplete(a: Assignment) {
    Trim(a.containerNumber) != "" && a.dmti.Some? && Trim(a.dmti.value.startingCustoms) != ""
  }

  /** The declaration the store is asked to create for one assignment. */
  datatype DmtiRequest = DmtiRequest(clientName: string, containerNumber: string,
                                     registrationDate: string, startingCustoms: string, user: DmtiUser)

  function DmtiRequests(clientName: string, assignments: seq<Assignment>): (r: seq<DmtiRequest>)
    ensures |r| <= |assignments|
  {
    if |assignments| == 0 then []
    else
      var init := DmtiRequests(clientName, assignments[..|assignments| - 1]);
      var a := assignments[|assignments| - 1];
      match a.dmti
      case None => init
      case Some(d) => init + [DmtiRequest(clientName, a.containerNumber, d.registrationDate, d.startingCustoms, d.user)]
  }

  datatype ProcessType = TripProcess | DmtiProcess

  /** What saving the form asks of the store: nothing (with the alert
      shown), an update of the edited trip, or the DMTI declarations to
      create followed by the new trip. */
  datatype SaveOutcome =
    | Rejected(message: string)
    | UpdateTrip(id: string, data: Trip)
    | CreateTrip(dmtis: seq<DmtiRequest>, data: Trip)

  const GateMessage := "Confirme el Fin de Retorno Vacío para poder completar el viaje."
  const DmtiClientMessage := "Para un proceso DMTI, el Cliente es obligatorio y debe haber al menos un contenedor."
  const DmtiContainerMessage := "Para cada contenedor en un proceso DMTI, el número de contenedor y la Aduana de Inicio son obligatorios."

  /** The trip with the recomputed demurrage and unhook totals. */
  function WithCosts(form: Trip): Trip {
    form.(demurrage := TripDemurrage(form.assignments), unhookCost := Some(TripUnhook(form.assignments)))
  }

  /** The save handler. `editing` is the trip being edited, `serviceOrder`
      the number the store hands out for a new trip, `now` the clock. */
  function SubmitTrip(form: Trip, editing: Option<Trip>, process: ProcessType,
                      serviceOrder: string, now: int): (r: SaveOutcome)
    ensures !PassesCompletionGate(form) ==> r == Rejected(GateMessage)
    ensures r.UpdateTrip? <==> PassesCompletionGate(form) && editing.Some?
    ensures r.UpdateTrip? ==> r.id == editing.value.id && r.data.updatedAt == now
    ensures r.CreateTrip? ==> editing.None? && (process == DmtiProcess ==> ValidDmtiProcess(form))
    ensures editing.None? && process == DmtiProcess && !ValidDmtiProcess(form) ==> r.Rejected?
    ensures editing.None? && (process == TripProcess || ValidDmtiProcess(form)) && PassesCompletionGate(form) ==> r.CreateTrip?
    ensures (PassesCompletionGate(form) && editing.None? && process == DmtiProcess &&
             (form.clientName == "" || |form.assignments| == 0)) ==> r == Rejected(DmtiClientMessage)
    ensures (PassesCompletionGate(form) && editing.None? && process == DmtiProcess &&
             form.clientName != "" && |form.assignments| > 0 && !ValidDmtiProcess(form)) ==> r == Rejected(DmtiContainerMessage)
  {
    if !PassesCompletionGate(form) then Rejected(GateMessage)
    else if editing.Some? then
      UpdateTrip(editing.value.id, UpdateData(form, now))
    else if process == DmtiProcess && (form.clientName == "" || |form.assignments| == 0) then
      Rejected(DmtiClientMessage)
    else if process == DmtiProcess && !(forall i :: 0 <= i < |form.assignments| ==> DmtiAssignmentComplete(form.assignments[i])) then
      Rejected(DmtiContainerMessage)
    else
      var dmtis := if process == DmtiProcess then DmtiRequests(form.clientName, form.assignments) else [];
      CreateTrip(dmtis, NewTripData(form, serviceOrder))
  }

  /** The fields an edit sends to the store. */
  function UpdateData(form: Trip, now: int): Trip {
    var finalData := WithDefaultInvoice(WithCosts(form).(assignments := CleanAssignments(form.assignments, form.cargoType)));
    finalData.(updatedAt := now)
  }

  /** The new trip the store is asked to create. */
  function NewTripData(form: Trip, serviceOrder: string): Trip {
    var cleaned := CleanAssignments(ClearDrafts(form.assignments), form.cargoType);
    WithDefaultInvoice(WithCosts(form).(assignments := cleaned, serviceOrder := serviceOrder))
  }

  lemma {:induction false} UpdateDataFields(form: Trip, now: int)
    ensures UpdateData(form, now) ==
      form.(demurrage := TripDemurrage(form.assignments), unhookCost := Some(TripUnhook(form.assignments)),
            assignments := CleanAssignments(form.assignments, form.cargoType),
            invoiceStatus := DefaultedInvoice(form), updatedAt := now)
  {
    var t := WithCosts(form).(assignments := CleanAssignments(form.assignments, form.cargoType));
    assert WithDefaultInvoice(t) == t.(invoiceStatus := DefaultedInvoice(form));
  }

  lemma {:induction false} NewTripDataFields(form: Trip, serviceOrder: string)
    ensures NewTripData(form, serviceOrder) ==
      form.(demurrage := TripDemurrage(form.assignments), unhookCost := Some(TripUnhook(form.assignments)),
            assignments := CleanAssignments(ClearDrafts(form.assignments), form.cargoType),
            invoiceStatus := DefaultedInvoice(form), serviceOrder := serviceOrder)
  {
    var t := WithCosts(form).(assignments := CleanAssignments(ClearDrafts(form.assignments), form.cargoType),
                              serviceOrder := serviceOrder);
    assert WithDefaultInvoice(t) == t.(invoiceStatus := DefaultedInvoice(form));
  }

  /** The invoice status a saved trip carries: Active filled in for a
      completed trip that has none, the form's own otherwise. */
  function DefaultedInvoice(form: Trip): Option<InvoiceStatus> {
    if form.status == Completed && form.invoiceStatus.None? then Some(Active) else form.invoiceStatus
  }

  /** What a successful save stores: the recomputed totals replace the
      form's, the cargo fields are cleaned, a completed trip has an invoice
      status, a new trip takes the store's service order and the DMTI
      declarations of its assignments; every other field of the form is
      stored as it was. */
  lemma {:induction false} SubmitTripStores(form: Trip, editing: Option<Trip>, process: ProcessType, serviceOrder: string, now: int)
    ensures var r := SubmitTrip(form, editing, process, serviceOrder, now);
      (r.UpdateTrip? || r.CreateTrip?) ==>
        r.data.demurrage == TripDemurrage(form.assignments) &&
        r.data.unhookCost == Some(TripUnhook(form.assignments)) &&
        (r.data.status == Completed ==> r.data.invoiceStatus.Some?) &&
        r.data.invoiceStatus.Some? == (form.invoiceStatus.Some? || form.status == Completed) &&
        r.data.invoiceStatus == DefaultedInvoice(form)
    ensures var r := SubmitTrip(form, editing, process, serviceOrder, now);
      r.UpdateTrip? ==> (r.data.assignments == CleanAssignments(form.assignments, form.cargoType) &&
                         r.data.(demurrage := form.demurrage, unhookCost := form.unhookCost, assignments := form.assignments,
                                 invoiceStatus := form.invoiceStatus, updatedAt := form.updatedAt) == form)
    ensures var r := SubmitTrip(form, editing, process, serviceOrder, now);
      r.CreateTrip? ==>
        r.data.(demurrage := form.demurrage, unhookCost := form.unhookCost, assignments := form.assignments,
                invoiceStatus := form.invoiceStatus, serviceOrder := form.serviceOrder) == form
    ensures var r := SubmitTrip(form, editing, process, serviceOrder, now);
      r.CreateTrip? ==> (r.data.assignments == CleanAssignments(ClearDrafts(form.assignments), form.cargoType) &&
                         r.data.serviceOrder == serviceOrder &&
                         r.dmtis == (if process == DmtiProcess then DmtiRequests(form.clientName, form.assignments) else []))
  {
    var r := SubmitTrip(form, editing, process, serviceOrder, now);
    if r.UpdateTrip? {
      assert r.data == UpdateData(form, now);
      UpdateDataFields(form, now);
    } else if r.CreateTrip? {
      assert r.data == NewTripData(form, serviceOrder);
      NewTripDataFields(form, serviceOrder);
    }
  }

  /** A new trip keeps no DMTI form data on its assignments. */
  function ClearDrafts(assignments: seq<Assignment>): (r: seq<Assignment>)
    ensures |r| == |assignments|
    ensures forall i :: 0 <= i < |r| ==> r[i] == assignments[i].(dmti := None)
  {
    seq(|assignments|, i requires 0 <= i < |assignments| => assignments[i].(dmti := None))
  }
}
