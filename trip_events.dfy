/** Adding an event to an assignment's log from the event form: per-type
    validation of the typed-in values, then the log re-sorted by time. */
module TripEvents {
  import opened Base
  import opened Text
  import opened Domain

  /** The event form as typed: every value is text, the type may be unset. */
  datatype EventForm = EventForm(
    kind: Option<EventType>,
    notes: string,
    amount: string,
    assignedDriverId: string,
    galonaje: string,
    precioGalon: string,
    numeroDocumento: string,
    unhookCost: string,
    demurrageRate: string)

  datatype AddOutcome = AddRejected(message: string) | Added(events: seq<Event>)

  function TimestampKey(e: Event): real {
    e.timestamp as real
  }

  const NoTypeMessage := "Por favor seleccione un tipo de evento."
  const AmountMessage := "Por favor ingrese un valor numérico válido para el monto."
  const GallonsMessage := "Por favor ingrese un valor numérico válido para el galonaje."
  const PriceMessage := "Por favor ingrese un valor numérico válido para el precio por galón."
  const DocumentMessage := "Por favor ingrese el número de documento."
  const UnhookMessage := "Por favor ingrese un valor numérico válido para el costo de desenganche."
  const RateMessage := "Por favor ingrese un valor numérico válido para la tarifa de estadía."

  /** The new event the form describes, with its payload parsed; `None`
      when the form is incomplete for its type. */
  function NewEvent(form: EventForm, now: int): (r: Option<Event>)
    requires form.kind.Some?
  {
    var k := form.kind.value;
    var base := Event(k, now, Some(form.notes), None, None, None, None, None, None, None);
    match k
    case Movement =>
      (match NumericInput(form.amount)
       case None => None
       case Some(v) =>
         Some(base.(amount := Some(v),
                    assignedDriverId := if form.assignedDriverId != "" then Some(form.assignedDriverId) else None)))
    case Refuel =>
      if NumericInput(form.galonaje).None? || NumericInput(form.precioGalon).None? || Trim(form.numeroDocumento) == "" then None
      else Some(base.(galonaje := NumericInput(form.galonaje), precioGalon := NumericInput(form.precioGalon),
                      numeroDocumento := Some(Trim(form.numeroDocumento))))
    case Unhook =>
      if NumericInput(form.unhookCost).None? then None else Some(base.(unhookCost := NumericInput(form.unhookCost)))
    case StayStart =>
      if NumericInput(form.demurrageRate).None? then None else Some(base.(demurrageRate := NumericInput(form.demurrageRate)))
    case _ => Some(base)
  }

  /** The message of the first check the form fails. */
  function RejectionMessage(form: EventForm): string
    requires form.kind.Some?
  {
    match form.kind.value
    case Movement => AmountMessage
    case Refuel =>
      if NumericInput(form.galonaje).None? then GallonsMessage
      else if NumericInput(form.precioGalon).None? then PriceMessage
      else DocumentMessage
    case Unhook => UnhookMessage
    case _ => RateMessage
  }

  /** `handleAddEvent`: the old log plus the new event, stably sorted by
      timestamp, or a rejection that leaves the log as it was. */
  function AddEvent(events: seq<Event>, form: EventForm, now: int): (r: AddOutcome)
    ensures form.kind.None? ==> r == AddRejected(NoTypeMessage)
    ensures form.kind.Some? ==> (r.AddRejected? <==> NewEvent(form, now).None?)
    ensures r.Added? ==> form.kind.Some? && NewEvent(form, now).Some? &&
                         multiset(r.events) == multiset(events) + multiset{NewEvent(form, now).value} &&
                         SortedBy(r.events, TimestampKey)
  {
    if form.kind.None? then AddRejected(NoTypeMessage)
    else
      match NewEvent(form, now)
      case None => AddRejected(RejectionMessage(form))
      case Some(e) =>
        SortByCorrect(events + [e], TimestampKey);
        Added(SortBy(events + [e], TimestampKey))
  }

  /** A form with a type is refused exactly when a value its type needs is
      missing or not a number, or a refuel has a blank document. */
  lemma {:induction false} NewEventRejects(form: EventForm, now: int)
    requires form.kind.Some?
    ensures NewEvent(form, now).None? <==>
      (form.kind.value == Movement && NumericInput(form.amount).None?) ||
      (form.kind.value == Refuel && (NumericInput(form.galonaje).None? || NumericInput(form.precioGalon).None? ||
                                     Trim(form.numeroDocumento) == "")) ||
      (form.kind.value == Unhook && NumericInput(form.unhookCost).None?) ||
      (form.kind.value == StayStart && NumericInput(form.demurrageRate).None?)
  {
  }

  /** The payload the new event carries: the parsed amount (and the driver
      if one was chosen) on a Movement, gallons, price and the trimmed
      document on a Refuel, the cost on an Unhook, the rate on a StayStart,
      and nothing else on any type. */
  lemma {:induction false} NewEventPayload(form: EventForm, now: int)
    requires form.kind.Some? && NewEvent(form, now).Some?
    ensures var e := NewEvent(form, now).value;
      e.kind == form.kind.value && e.timestamp == now && e.notes == Some(form.notes) &&
      (e.amount.Some? <==> form.kind.value == Movement) &&
      (e.amount.Some? ==> e.amount == ParseFloat(form.amount)) &&
      (e.assignedDriverId.Some? <==> form.kind.value == Movement && form.assignedDriverId != "") &&
      (e.galonaje.Some? <==> form.kind.value == Refuel) &&
      (e.galonaje.Some? ==> e.galonaje == ParseFloat(form.galonaje) && e.precioGalon == ParseFloat(form.precioGalon) &&
                            e.numeroDocumento == Some(Trim(form.numeroDocumento))) &&
      (e.unhookCost.Some? <==> form.kind.value == Unhook) &&
      (e.unhookCost.Some? ==> e.unhookCost == ParseFloat(form.unhookCost)) &&
      (e.demurrageRate.Some? <==> form.kind.value == StayStart) &&
      (e.demurrageRate.Some? ==> e.demurrageRate == ParseFloat(form.demurrageRate))
  {
  }

  /** A log already in time order whose entries are not later than the new
      event simply gains it at the end. */
  lemma {:induction false} AddEventAppendsLatest(events: seq<Event>, form: EventForm, now: int)
    requires SortedBy(events, TimestampKey)
    requires forall i :: 0 <= i < |events| ==> events[i].timestamp <= now
    requires AddEvent(events, form, now).Added?
    ensures AddEvent(events, form, now).events == events + [NewEvent(form, now).value]
  {
    var e := NewEvent(form, now).value;
    var s := events + [e];
    assert SortedBy(s, TimestampKey);
    SortBySortedIsIdentity(s, TimestampKey);
  }
}
