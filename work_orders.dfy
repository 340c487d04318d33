/** The work-order screen: completed trips grouped by client, each group
    newest first, the clients in string order, the active and invoiced
    counts of a group, the billed total of an order, the expanded-row
    sets, and marking an order as invoiced through the store. */
module WorkOrders {
  import opened Base
  import opened Text
  import opened Domain
  import Profitability
  import Store

  const UnnamedClient := "Cliente no especificado"

  /** Only completed trips that are not deleted are work orders. */
  predicate IsWorkOrder(t: Trip) {
    t.status == Completed && !t.isDeleted
  }

  /** `trip.clientName || 'Cliente no especificado'`. */
  function ClientKey(t: Trip): (k: string)
    ensures k != ""
    ensures t.clientName != "" ==> k == t.clientName
  {
    if t.clientName == "" then UnnamedClient else t.clientName
  }

  /** The orders of one client, in the order the trips come. */
  function OfClient(k: string): Trip -> bool {
    t => ClientKey(t) == k
  }

  /** The `reduce` accumulator: each trip pushed onto its client's list,
      a list being started the first time its client is seen. */
  function Buckets(ts: seq<Trip>): map<string, seq<Trip>> {
    if |ts| == 0 then map[]
    else
      var acc := Buckets(ts[..|ts| - 1]);
      var t := ts[|ts| - 1];
      var k := ClientKey(t);
      acc[k := (if k in acc then acc[k] else []) + [t]]
  }

  function ClientKeys(ts: seq<Trip>): (r: seq<string>)
    ensures |r| == |ts|
    ensures forall i :: 0 <= i < |ts| ==> r[i] == ClientKey(ts[i])
  {
    if |ts| == 0 then [] else ClientKeys(ts[..|ts| - 1]) + [ClientKey(ts[|ts| - 1])]
  }

  /** The accumulator has one key per client that occurs, and each key's
      list is exactly that client's trips in their original order. */
  lemma {:induction false} BucketsSpec(ts: seq<Trip>)
    ensures forall k :: k in Buckets(ts) <==> k in ClientKeys(ts)
    ensures forall k :: k in Buckets(ts) ==> Buckets(ts)[k] == Filter(ts, OfClient(k))
  {
    if |ts| > 0 {
      var init := ts[..|ts| - 1];
      var t := ts[|ts| - 1];
      BucketsSpec(init);
      assert ClientKeys(ts) == ClientKeys(init) + [ClientKey(t)];
      forall k | k in Buckets(ts) ensures Buckets(ts)[k] == Filter(ts, OfClient(k)) {
        if k == ClientKey(t) && k !in Buckets(init) {
          FilterNone(init, k);
        }
      }
    }
  }

  lemma FilterNone(ts: seq<Trip>, k: string)
    requires k !in ClientKeys(ts)
    ensures Filter(ts, OfClient(k)) == []
  {
  }

  /** A trip of the list is in the bucket of its own client and in no
      other. */
  lemma {:induction false} InBucket(ts: seq<Trip>, t: Trip, k: string)
    requires t in ts
    ensures k in Buckets(ts) && t in Buckets(ts)[k] <==> ClientKey(t) == k
  {
    BucketsSpec(ts);
    var i :| 0 <= i < |ts| && ts[i] == t;
    assert ClientKeys(ts)[i] == ClientKey(t);
    if ClientKey(t) == k {
      assert OfClient(k)(ts[i]);
    }
  }

  function NewestFirst(t: Trip): real { -(t.createdAt as real) }

  /** Every list of the accumulator sorted by creation time, newest first. */
  function SortedGroups(acc: map<string, seq<Trip>>): (g: map<string, seq<Trip>>)
    ensures g.Keys == acc.Keys
  {
    map k | k in acc :: SortBy(acc[k], NewestFirst)
  }

  /** `groupWorkOrdersByClient`: the buckets of the work orders, each
      sorted newest first. */
  function Groups(trips: seq<Trip>): map<string, seq<Trip>> {
    SortedGroups(Buckets(Filter(trips, IsWorkOrder)))
  }

  /** The client names listed on screen: the keys of the grouping in
      string order (`Object.keys(...).sort()`); the object's keys come in
      the order their clients were first seen. */
  function SortedClients(trips: seq<Trip>): seq<string> {
    SortStrings(Dedup(ClientKeys(Filter(trips, IsWorkOrder))))
  }

  // ---------------------------------------------------------------------
  // What the grouping promises
  // ---------------------------------------------------------------------

  lemma {:induction false} WorkOrderIn(trips: seq<Trip>, t: Trip)
    requires t in trips
    ensures t in Filter(trips, IsWorkOrder) <==> IsWorkOrder(t)
  {
    var i :| 0 <= i < |trips| && trips[i] == t;
  }

  /** A trip is in some group exactly when it is a work order, and then it
      is in the group of its own client and in no other. */
  lemma {:induction false} GroupMembership(trips: seq<Trip>, t: Trip, k: string)
    requires t in trips
    ensures k in Groups(trips) && t in Groups(trips)[k] <==> IsWorkOrder(t) && ClientKey(t) == k
  {
    var w := Filter(trips, IsWorkOrder);
    var b := Buckets(w);
    WorkOrderIn(trips, t);
    if k in b {
      SortByMembers(b[k], NewestFirst);
      assert Groups(trips)[k] == SortBy(b[k], NewestFirst);
    }
    if t in w {
      InBucket(w, t, k);
    } else if k in b {
      BucketsSpec(w);
      assert t !in b[k];
    }
  }

  /** Each group is newest first and holds exactly that client's work
      orders, as many times as `trips` does. */
  lemma {:induction false} GroupsSorted(trips: seq<Trip>, k: string)
    requires k in Groups(trips)
    ensures SortedBy(Groups(trips)[k], NewestFirst)
    ensures forall i, j :: 0 <= i < j < |Groups(trips)[k]| ==>
              Groups(trips)[k][i].createdAt >= Groups(trips)[k][j].createdAt
    ensures multiset(Groups(trips)[k]) == multiset(Filter(Filter(trips, IsWorkOrder), OfClient(k)))
  {
    var b := Buckets(Filter(trips, IsWorkOrder));
    BucketsSpec(Filter(trips, IsWorkOrder));
    SortByCorrect(b[k], NewestFirst);
    assert Groups(trips)[k] == SortBy(b[k], NewestFirst);
  }

  lemma {:induction false} DedupMembers(keys: seq<string>)
    ensures forall k :: k in Dedup(keys) <==> k in keys
  {
    forall k ensures k in Dedup(keys) <==> k in keys {
      if k in keys {
        var i :| 0 <= i < |keys| && keys[i] == k;
      }
    }
  }

  /** The listed clients are exactly the keys of the grouping, each once,
      in strictly ascending string order. */
  lemma {:induction false} SortedClientsSpec(trips: seq<Trip>)
    ensures forall k :: k in SortedClients(trips) <==> k in Groups(trips)
    ensures NoDup(SortedClients(trips))
    ensures forall i, j :: 0 <= i < j < |SortedClients(trips)| ==>
              StrLe(SortedClients(trips)[i], SortedClients(trips)[j]) &&
              !StrLe(SortedClients(trips)[j], SortedClients(trips)[i])
  {
    var w := Filter(trips, IsWorkOrder);
    var keys := ClientKeys(w);
    BucketsSpec(w);
    DedupMembers(keys);
    SortStringsSpec(Dedup(keys));
    StrictlySorted(SortedClients(trips));
  }

  // ---------------------------------------------------------------------
  // The grouping as the component computes it: a `reduce` that pushes
  // onto the accumulator, then an in-place sort of every group
  // ---------------------------------------------------------------------

  lemma {:induction false} BucketsStep(ts: seq<Trip>, i: nat)
    requires i < |ts|
    ensures Buckets(ts[..i + 1]) ==
      var acc := Buckets(ts[..i]);
      var k := ClientKey(ts[i]);
      acc[k := (if k in acc then acc[k] else []) + [ts[i]]]
  {
    assert ts[..i + 1][..i] == ts[..i];
  }

  /** The names every plain object inherits from `Object.prototype`
      (section 20.1.3 and annex B.2.2 of ECMA-262). On the `{}`
      accumulator `acc[name]` is then an inherited function or object:
      truthy, so no list is started, and without a `push`, so the push
      throws a TypeError. */
  const InheritedKeys: set<string> := {
    "constructor", "hasOwnProperty", "isPrototypeOf", "propertyIsEnumerable",
    "toLocaleString", "toString", "valueOf", "__proto__",
    "__defineGetter__", "__defineSetter__", "__lookupGetter__", "__lookupSetter__"}

  /** The push for this trip throws: its client key is inherited. */
  predicate ThrowsOn(t: Trip) {
    ClientKey(t) in InheritedKeys
  }

  /** The `reduce` throws on the first trip whose client key is inherited. */
  predicate ReduceThrows(ts: seq<Trip>) {
    Exists(ts, ThrowsOn)
  }

  /** The grouping as the component computes it: no grouping at all (the
      screen fails) when a work order's client key is inherited, the
      groups otherwise. */
  function GroupedAsWritten(trips: seq<Trip>): Option<map<string, seq<Trip>>> {
    if ReduceThrows(Filter(trips, IsWorkOrder)) then None else Some(Groups(trips))
  }

  /** The grouping fails exactly when some work order belongs to a client
      whose key is an inherited name; otherwise it is the groups. */
  lemma {:induction false} GroupedAsWrittenSpec(trips: seq<Trip>)
    ensures GroupedAsWritten(trips).None? <==>
      exists i :: 0 <= i < |trips| && IsWorkOrder(trips[i]) && ThrowsOn(trips[i])
    ensures GroupedAsWritten(trips).Some? ==> GroupedAsWritten(trips).value == Groups(trips)
  {
    ExistsFilter(trips, IsWorkOrder, ThrowsOn);
  }

  /** One completed order for a client named "constructor": the screen's
      grouping fails, while the intended grouping lists it under that
      client. */
  lemma {:induction false} ConstructorClientFails(t: Trip)
    requires IsWorkOrder(t) && t.clientName == "constructor"
    ensures GroupedAsWritten([t]).None?
    ensures "constructor" in Groups([t]) && t in Groups([t])["constructor"]
  {
    assert ThrowsOn([t][0]);
    GroupedAsWrittenSpec([t]);
    GroupMembership([t], t, "constructor");
  }

  /** The `reduce`: the accumulator of `ts`, or none when a push throws. */
  method BucketTrips(ts: seq<Trip>) returns (acc: Option<map<string, seq<Trip>>>)
    ensures acc == (if ReduceThrows(ts) then None else Some(Buckets(ts)))
  {
    var m := map[];
    var i := 0;
    while i < |ts|
      invariant 0 <= i <= |ts|
      invariant m == Buckets(ts[..i])
      invariant !ReduceThrows(ts[..i])
    {
      var t := ts[i];
      var clientName := ClientKey(t);
      ExistsStep(ts, ThrowsOn, i);
      if clientName in InheritedKeys {
        assert ThrowsOn(ts[i]);
        return None;
      }
      if clientName !in m {
        m := m[clientName := []];
      }
      m := m[clientName := m[clientName] + [t]];
      BucketsStep(ts, i);
      i := i + 1;
    }
    assert ts[..|ts|] == ts;
    acc := Some(m);
  }

  /** The `for ... in` loop: each client's list sorted in turn. */
  method SortEachGroup(acc: map<string, seq<Trip>>) returns (grouped: map<string, seq<Trip>>)
    ensures grouped == SortedGroups(acc)
  {
    grouped := acc;
    var pending := acc.Keys;
    while pending != {}
      invariant pending <= acc.Keys
      invariant grouped.Keys == acc.Keys
      invariant forall k :: k in grouped && k in pending ==> grouped[k] == acc[k]
      invariant forall k :: k in grouped && k !in pending ==> grouped[k] == SortBy(acc[k], NewestFirst)
      decreases |pending|
    {
      var clientName :| clientName in pending;
      grouped := grouped[clientName := SortBy(grouped[clientName], NewestFirst)];
      pending := pending - {clientName};
    }
  }

  method GroupWorkOrdersByClient(trips: seq<Trip>) returns (grouped: Option<map<string, seq<Trip>>>)
    ensures grouped == GroupedAsWritten(trips)
  {
    var completedTrips := Filter(trips, IsWorkOrder);
    var acc := BucketTrips(completedTrips);
    if acc.None? {
      return None;
    }
    var g := SortEachGroup(acc.value);
    grouped := Some(g);
  }

  // ---------------------------------------------------------------------
  // Counts and totals of the rows
  // ---------------------------------------------------------------------

  /** `order.invoiceStatus ?? InvoiceStatus.ACTIVE`. */
  function StatusOf(t: Trip): (s: InvoiceStatus)
    ensures t.invoiceStatus.Some? ==> s == t.invoiceStatus.value
    ensures t.invoiceStatus.None? ==> s == Active
  {
    if t.invoiceStatus.Some? then t.invoiceStatus.value else Active
  }

  predicate IsActiveOrder(t: Trip) { StatusOf(t) == Active }

  predicate IsBilled(t: Trip) { StatusOf(t) == Invoiced }

  function ActiveOrders(orders: seq<Trip>): nat {
    Count(orders, IsActiveOrder)
  }

  function InvoicedOrders(orders: seq<Trip>): int {
    |orders| - ActiveOrders(orders)
  }

  /** The filter and its complement split a list. */
  lemma {:induction false} CountSplit<T>(s: seq<T>, p: T -> bool, q: T -> bool)
    requires forall x :: p(x) != q(x)
    ensures Count(s, p) + Count(s, q) == |s|
  {
    if |s| > 0 {
      CountSplit(s[..|s| - 1], p, q);
    }
  }

  /** `orders.length - activeOrders` is the number of invoiced orders, so
      it is never negative. */
  lemma {:induction false} InvoicedOrdersSpec(orders: seq<Trip>)
    ensures InvoicedOrders(orders) == Count(orders, IsBilled)
    ensures 0 <= InvoicedOrders(orders) <= |orders|
  {
    forall t ensures IsActiveOrder(t) != IsBilled(t) {
    }
    CountSplit(orders, IsActiveOrder, IsBilled);
  }

  /** The figure shown beside an order:
      Σ (cost + (dmtiCost || 0)) + (demurrage || 0) + (unhookCost || 0). */
  function OrderTotal(t: Trip): real {
    Sum(t.assignments, Profitability.FreightCharge) + t.demurrage + OrZero(t.unhookCost)
  }

  /** What a work order bills is what the profitability report counts as
      its revenue, the sum of its revenue lines. */
  lemma {:induction false} OrderTotalIsRevenue(t: Trip)
    ensures OrderTotal(t) == Profitability.EntryOf(t).totalRevenue
    ensures OrderTotal(t) == Sum(Profitability.RevenueLines(t), Profitability.LineAmount)
  {
    Profitability.RevenueTotal(t);
  }

  // ---------------------------------------------------------------------
  // Expanded rows
  // ---------------------------------------------------------------------

  /** Copy the set, then delete the key if present, else add it. */
  function Toggle(s: set<string>, key: string): (r: set<string>)
    ensures key in r <==> key !in s
    ensures forall x :: x != key ==> (x in r <==> x in s)
  {
    if key in s then s - {key} else s + {key}
  }

  lemma {:induction false} ToggleTwice(s: set<string>, key: string)
    ensures Toggle(Toggle(s, key), key) == s
  {
    var once := Toggle(s, key);
    assert forall x :: x in Toggle(once, key) <==> x in s;
  }

  /** The two expansion sets the screen keeps in its state. */
  class Expansion {
    var expandedClients: set<string>
    var expandedOrders: set<string>

    constructor ()
      ensures expandedClients == {} && expandedOrders == {}
    {
      expandedClients := {};
      expandedOrders := {};
    }

    method ToggleClient(clientName: string)
      modifies this
      ensures expandedClients == Toggle(old(expandedClients), clientName)
      ensures expandedOrders == old(expandedOrders)
    {
      var newSet := expandedClients;
      if clientName in newSet {
        newSet := newSet - {clientName};
      } else {
        newSet := newSet + {clientName};
      }
      expandedClients := newSet;
    }

    method ToggleOrder(tripId: string)
      modifies this
      ensures expandedOrders == Toggle(old(expandedOrders), tripId)
      ensures expandedClients == old(expandedClients)
    {
      var newSet := expandedOrders;
      if tripId in newSet {
        newSet := newSet - {tripId};
      } else {
        newSet := newSet + {tripId};
      }
      expandedOrders := newSet;
    }

    /** Before printing, an order that is collapsed is expanded and an
        expanded one is left as it is. */
    method ExpandForPrint(orderId: string)
      modifies this
      ensures expandedOrders == old(expandedOrders) + {orderId}
      ensures expandedClients == old(expandedClients)
    {
      if orderId !in expandedOrders {
        ToggleOrder(orderId);
      }
    }
  }

  // ---------------------------------------------------------------------
  // Marking an order as invoiced
  // ---------------------------------------------------------------------

  datatype MarkOutcome =
    | NotPermitted(alert: string)
    | NotConfirmed
    | Marked(item: Store.Rec)
    | Failed(alert: string)

  /** The partial update the button sends. */
  function InvoicedPatch(): (p: Store.Rec)
    ensures p.Keys == {"invoiceStatus"}
    ensures p["invoiceStatus"] == Store.Str("Facturada")
  {
    map["invoiceStatus" := Store.Str("Facturada")]
  }

  /** `handleMarkAsInvoiced`: without edit permission an alert and no
      change; without the user's confirmation no change; otherwise the
      store's update with the patch, whose rejection becomes the error
      alert. */
  method MarkAsInvoiced(api: Store.ApiService, canEdit: bool, confirmed: bool, tripId: string)
    returns (outcome: MarkOutcome)
    requires api.Valid()
    modifies api
    ensures !canEdit ==> outcome == NotPermitted("No tiene permiso para modificar órdenes de trabajo.")
    ensures canEdit && !confirmed ==> outcome == NotConfirmed
    ensures !(canEdit && confirmed) ==> api.trips == old(api.trips)
    ensures canEdit && confirmed ==>
      match Store.Updated(old(api.trips), tripId, InvoicedPatch())
      case None => outcome == Failed("Error al actualizar el estado.") && api.trips == old(api.trips)
      case Some(items) => api.trips == items && outcome.Marked?
    ensures api.users == old(api.users) && api.drivers == old(api.drivers) &&
            api.trucks == old(api.trucks) && api.trailers == old(api.trailers) &&
            api.dmtis == old(api.dmtis) && api.clients == old(api.clients) &&
            api.lastServiceNumber == old(api.lastServiceNumber)
    ensures api.Valid()
  {
    if !canEdit {
      return NotPermitted("No tiene permiso para modificar órdenes de trabajo.");
    }
    if !confirmed {
      return NotConfirmed;
    }
    var result := api.Update(Store.Trips, tripId, InvoicedPatch());
    assert api.ListOf(Store.Users) == old(api.ListOf(Store.Users));
    assert api.ListOf(Store.Drivers) == old(api.ListOf(Store.Drivers));
    assert api.ListOf(Store.Trucks) == old(api.ListOf(Store.Trucks));
    assert api.ListOf(Store.Trailers) == old(api.ListOf(Store.Trailers));
    assert api.ListOf(Store.Dmtis) == old(api.ListOf(Store.Dmtis));
    assert api.ListOf(Store.Clients) == old(api.ListOf(Store.Clients));
    match result
    case Done(item) => outcome := Marked(item);
    case Rejected(_) => outcome := Failed("Error al actualizar el estado.");
  }

  /** The update keeps every field of the stored order but the invoice
      status, which becomes 'Facturada', and touches no other order. */
  lemma {:induction false} InvoicedPatchOnlyStatus(items: seq<Store.Rec>, tripId: string)
    requires Store.Updated(items, tripId, InvoicedPatch()).Some?
    ensures var r := Store.Updated(items, tripId, InvoicedPatch()).value;
      var i := Store.FindIndex(items, tripId).value;
      |r| == |items| &&
      (forall j :: 0 <= j < |items| && j != i ==> r[j] == items[j]) &&
      r[i]["invoiceStatus"] == Store.Str("Facturada") &&
      (forall f :: f != "invoiceStatus" ==> (f in r[i] <==> f in items[i])) &&
      (forall f :: f != "invoiceStatus" && f in items[i] ==> r[i][f] == items[i][f])
  {
    Store.UpdatedSpec(items, tripId, InvoicedPatch());
  }

  /** `disabled={!canEdit || isBilled}`. */
  predicate InvoiceButtonDisabled(canEdit: bool, t: Trip) {
    !canEdit || IsBilled(t)
  }

  /** An order as it reads back after a successful mark. */
  function MarkedInvoiced(t: Trip): (r: Trip)
    ensures IsBilled(r) && !IsActiveOrder(r)
  {
    t.(invoiceStatus := Some(Invoiced))
  }

  /** Once marked, the order stays in its client's group, keeps its total
      and its button is disabled for everyone. */
  lemma {:induction false} MarkedInvoicedStays(t: Trip, canEdit: bool)
    ensures IsWorkOrder(MarkedInvoiced(t)) == IsWorkOrder(t)
    ensures ClientKey(MarkedInvoiced(t)) == ClientKey(t)
    ensures OrderTotal(MarkedInvoiced(t)) == OrderTotal(t)
    ensures InvoiceButtonDisabled(canEdit, MarkedInvoiced(t))
  {
  }
}
