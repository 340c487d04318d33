/** The entities of the logistics application (trips with their
    assignments and event logs, drivers, vehicles, DMTI declarations,
    clients and users), as values. Timestamps are milliseconds since the
    epoch; money, gallons and rates are exact reals. */
module Domain {
  import opened Base

  datatype TripStatus = Quoted | Confirmed | InProgress | Completed | Canceled

  datatype EventType =
    | Assigned | PortDeparture | Refuel | ArrivalAtDestination | UnloadingStart
    | StayStart | Unhook | StayEnd | UnloadingEnd | EmptyReturnStart
    | EmptyReturnEnd | Movement

  /** The label each event type carries in the data and on screen. */
  function EventTypeLabel(t: EventType): string {
    match t
    case Assigned => "Asignado"
    case PortDeparture => "Salida de puerto"
    case Refuel => "Repostaje"
    case ArrivalAtDestination => "Llegada a Destino"
    case UnloadingStart => "Inicio de descarga"
    case StayStart => "Inicio de Estadías"
    case Unhook => "Desenganche"
    case StayEnd => "Fin de Estadías"
    case UnloadingEnd => "Fin de descarga"
    case EmptyReturnStart => "Inicio de Retorno Vacío"
    case EmptyReturnEnd => "Fin de Retorno Vacío"
    case Movement => "Movimiento"
  }

  /** One entry of an assignment's event log; the optional payload fields
      belong to particular event types (amount to Movement, gallons, price
      and document to Refuel, unhook cost to Unhook, rate to StayStart). */
  datatype Event = Event(
    kind: EventType,
    timestamp: int,
    notes: Option<string>,
    amount: Option<real>,
    assignedDriverId: Option<string>,
    galonaje: Option<real>,
    precioGalon: Option<real>,
    numeroDocumento: Option<string>,
    unhookCost: Option<real>,
    demurrageRate: Option<real>)

  datatype DmtiUser = Transporte | UsNaviera

  /** The DMTI form data an assignment carries while a DMTI process trip
      is being created. */
  datatype DmtiDraft = DmtiDraft(registrationDate: string, startingCustoms: string, user: DmtiUser)

  /** One container or load of a trip: who drives it, with which truck and
      trailer, its freight cost and its event log. */
  datatype Assignment = Assignment(
    id: string,
    containerNumber: string,
    merchandiseType: Option<string>,
    driverId: string,
    truckId: string,
    trailerId: string,
    cost: real,
    events: seq<Event>,
    dmtiCost: Option<real>,
    dmti: Option<DmtiDraft>)

  datatype CargoType = Container | LooseCargo

  datatype InvoiceStatus = Active | Invoiced

  datatype Trip = Trip(
    id: string,
    serviceOrder: string,
    clientName: string,
    status: TripStatus,
    isDeleted: bool,
    billOfLading: string,
    cargoType: CargoType,
    assignments: seq<Assignment>,
    demurrage: real,
    unhookCost: Option<real>,
    invoiceStatus: Option<InvoiceStatus>,
    createdAt: int,
    updatedAt: int)

  datatype Driver = Driver(id: string, name: string, truckPlate: string, isDeleted: bool)

  datatype VehicleStatus = VehicleActive | Maintenance | OutOfService

  datatype VehicleKind = Truck | Trailer

  datatype Vehicle = Vehicle(
    id: string,
    plate: string,
    kind: VehicleKind,
    trailerSize: Option<string>,
    status: Option<VehicleStatus>,
    isDeleted: bool)

  datatype Dmti = Dmti(
    id: string,
    clientName: string,
    containerNumber: string,
    registrationDate: string,
    user: DmtiUser,
    startingCustoms: string,
    createdAt: int)

  datatype CompanySize = Pequena | Mediana | Grande

  function CompanySizeLabel(c: CompanySize): string {
    match c
    case Pequena => "Pequeña"
    case Mediana => "Mediana"
    case Grande => "Grande"
  }

  datatype Role = Admin | User

  datatype Action = View | Create | Edit | Delete

  /** The first event of the given type in array order (`events.find`). */
  function FirstOfType(events: seq<Event>, t: EventType): Option<Event> {
    if |events| == 0 then None
    else if events[0].kind == t then Some(events[0])
    else FirstOfType(events[1..], t)
  }

  /** `find` gives nothing exactly when no event has the type, and
      otherwise an event of that type preceded by none. */
  lemma {:induction false} FirstOfTypeSpec(events: seq<Event>, t: EventType)
    ensures FirstOfType(events, t).None? <==> !HasEventOfType(events, t)
    ensures FirstOfType(events, t).Some? ==>
      FirstOfType(events, t).value.kind == t &&
      exists i :: 0 <= i < |events| && events[i] == FirstOfType(events, t).value &&
                  forall j :: 0 <= j < i ==> events[j].kind != t
  {
    if |events| > 0 && events[0].kind != t {
      var rest := events[1..];
      FirstOfTypeSpec(rest, t);
      if HasEventOfType(events, t) {
        var i :| 0 <= i < |events| && events[i].kind == t;
        assert rest[i - 1].kind == t;
      }
      if HasEventOfType(rest, t) {
        var i :| 0 <= i < |rest| && rest[i].kind == t;
        assert events[i + 1].kind == t;
        var k :| 0 <= k < |rest| && rest[k] == FirstOfType(rest, t).value &&
                 forall j :: 0 <= j < k ==> rest[j].kind != t;
        assert events[k + 1] == FirstOfType(events, t).value;
        assert forall j :: 0 <= j < k + 1 ==> events[j].kind != t by {
          forall j | 0 <= j < k + 1 ensures events[j].kind != t {
            if j > 0 { assert events[j] == rest[j - 1]; }
          }
        }
      }
    }
  }

  predicate HasEventOfType(events: seq<Event>, t: EventType) {
    exists i :: 0 <= i < |events| && events[i].kind == t
  }

  /** Milliseconds in a day. */
  const DayMillis: int := 86400000

  /** A report's date filter: the UTC midnights of the chosen first and
      last days, each optional. */
  datatype DateRange = DateRange(start: Option<int>, end: Option<int>)

  /** From 00:00:00.000 UTC of the first day to 23:59:59.999 UTC of the
      last. */
  predicate InRange(at: int, r: DateRange) {
    (r.start.None? || at >= r.start.value) && (r.end.None? || at <= r.end.value + DayMillis - 1)
  }
}
