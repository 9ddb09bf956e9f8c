/**
 * The purchase-order service: creating an order from its entries, moving it
 * through its delivery statuses with an append-only history, arming and
 * disarming the customer's geofence, and deleting it. The database is the
 * class Store; each database write of the service is one assignment to one of
 * its fields, in the order the service issues them, and nothing is rolled back
 * when a later write fails.
 */
module PurchaseOrder {
  import opened Wrappers

  type OrderId = nat
  type EntryId = nat
  type CustomerId = string
  type UserId = string
  type ProductId = string

  /** The delivery statuses of an order. */
  datatype Status = Initiated | OutForDelivery | Delivered | FailedToDeliver

  /** A latitude/longitude pair, stored as given. */
  datatype Location = Location(lat: real, lon: real)

  /** One line of an order: a product and how many of it. */
  datatype OrderEntry = OrderEntry(productId: ProductId, quantity: int)

  /** One record of the audit trail: the status set, why, where and by whom. */
  datatype HistoryEntry = HistoryEntry(status: Status, description: string, location: Location, updatedBy: UserId)

  /** A stored order; `entries` are ids of rows of the entry table, `history` is oldest first. */
  datatype Order = Order(
    customerId: CustomerId,
    status: Status,
    location: Location,
    totalWeight: int,
    deliveryAttempts: nat,
    entries: seq<EntryId>,
    history: seq<HistoryEntry>)

  /** A customer's circular zone; `isActive` says whether it is armed. */
  datatype Geofence = Geofence(center: Location, radius: nat, isActive: bool)

  datatype Product = Product(weight: int)

  /** The fields of a status update request. */
  datatype UpdateRequest = UpdateRequest(status: Status, location: Location, description: string, userId: UserId)

  /** Why a call failed. */
  datatype Error =
    | NoProducts          // an order without entries
    | MaxAttemptsReached  // out for delivery again after two failed attempts
    | StoreError          // a missing record or a broken reference in the database

  /** The description of the first history entry of every order. */
  const InitiatedDescription: string := "Order was initiated at facility 1"

  /** The attempt count at which a new dispatch is refused. */
  const MaxAttempts: nat := 2

  // ---------------------------------------------------------------------
  // Order creation: weights and entry rows
  // ---------------------------------------------------------------------

  /** Every entry names a product that exists. */
  predicate Priced(orderEntries: seq<OrderEntry>, products: map<ProductId, Product>)
  {
    forall i :: 0 <= i < |orderEntries| ==> orderEntries[i].productId in products
  }

  /** The sum of product weight times quantity over the entries. */
  function TotalWeight(orderEntries: seq<OrderEntry>, products: map<ProductId, Product>): int
    requires Priced(orderEntries, products)
  {
    if orderEntries == [] then 0
    else products[orderEntries[0].productId].weight * orderEntries[0].quantity
         + TotalWeight(orderEntries[1..], products)
  }

  /** Adding one entry at the end adds its weight times its quantity. */
  lemma {:induction false} TotalWeightSnoc(orderEntries: seq<OrderEntry>, e: OrderEntry, products: map<ProductId, Product>)
    requires Priced(orderEntries, products) && e.productId in products
    ensures Priced(orderEntries + [e], products)
    ensures TotalWeight(orderEntries + [e], products)
         == TotalWeight(orderEntries, products) + products[e.productId].weight * e.quantity
  {
    if orderEntries != [] {
      assert (orderEntries + [e])[1..] == orderEntries[1..] + [e];
      TotalWeightSnoc(orderEntries[1..], e, products);
    }
  }

  /** The total weight adds up over a split of the entries and does not depend on which part comes first. */
  lemma {:induction false} TotalWeightConcat(xs: seq<OrderEntry>, ys: seq<OrderEntry>, products: map<ProductId, Product>)
    requires Priced(xs + ys, products)
    ensures Priced(xs, products) && Priced(ys, products) && Priced(ys + xs, products)
    ensures TotalWeight(xs + ys, products) == TotalWeight(xs, products) + TotalWeight(ys, products)
    ensures TotalWeight(ys + xs, products) == TotalWeight(xs + ys, products)
  {
    assert forall i :: 0 <= i < |xs| ==> xs[i] == (xs + ys)[i];
    assert forall i :: 0 <= i < |ys| ==> ys[i] == (xs + ys)[|xs| + i];
    assert forall i :: 0 <= i < |ys + xs| ==> (ys + xs)[i] == if i < |ys| then (xs + ys)[|xs| + i] else (xs + ys)[i - |ys|];
    SplitWeight(xs, ys, products);
    SplitWeight(ys, xs, products);
  }

  /** Helper: the weight of a concatenation is the sum of the weights. */
  lemma {:induction false} SplitWeight(xs: seq<OrderEntry>, ys: seq<OrderEntry>, products: map<ProductId, Product>)
    requires Priced(xs, products) && Priced(ys, products)
    ensures Priced(xs + ys, products)
    ensures TotalWeight(xs + ys, products) == TotalWeight(xs, products) + TotalWeight(ys, products)
  {
    if xs == [] {
      assert xs + ys == ys;
    } else {
      assert (xs + ys)[1..] == xs[1..] + ys;
      SplitWeight(xs[1..], ys, products);
    }
  }

  /** The index of the first entry whose product does not exist, or the number of entries. */
  function FirstUnpriced(orderEntries: seq<OrderEntry>, products: map<ProductId, Product>): (k: nat)
    ensures k <= |orderEntries|
    ensures Priced(orderEntries[..k], products)
    ensures k < |orderEntries| ==> orderEntries[k].productId !in products
    ensures k == |orderEntries| <==> Priced(orderEntries, products)
  {
    if orderEntries == [] then 0
    else if orderEntries[0].productId !in products then 0
    else
      var k := 1 + FirstUnpriced(orderEntries[1..], products);
      assert orderEntries[..k] == orderEntries[..1] + orderEntries[1..][..k - 1];
      assert orderEntries[1..] == orderEntries[..k][1..] + orderEntries[k..] by {
        assert orderEntries == orderEntries[..k] + orderEntries[k..];
      }
      k
  }

  /** `FirstUnpriced` is the first unknown product: the one after a fully known prefix. */
  lemma FirstUnpricedAt(orderEntries: seq<OrderEntry>, products: map<ProductId, Product>, i: nat)
    requires i < |orderEntries|
    requires Priced(orderEntries[..i], products)
    requires orderEntries[i].productId !in products
    ensures FirstUnpriced(orderEntries, products) == i
  {
  }

  /** The ids `start`, `start + 1`, ... given to `n` new rows. */
  function IdRange(start: nat, n: nat): (ids: seq<EntryId>)
    ensures |ids| == n
    ensures forall i :: 0 <= i < n ==> ids[i] == start + i
  {
    seq(n, i requires 0 <= i => start + i)
  }

  /** The entry rows created for `orderEntries`, with ids from `start` on. */
  function EntryRows(start: nat, orderEntries: seq<OrderEntry>): (rows: map<EntryId, OrderEntry>)
    ensures forall id :: id in rows <==> start <= id < start + |orderEntries|
    ensures forall id :: id in rows ==> rows[id] == orderEntries[id - start]
  {
    if orderEntries == [] then map[]
    else
      var last := |orderEntries| - 1;
      EntryRows(start, orderEntries[..last])[start + last := orderEntries[last]]
  }

  /** Writing the row of one more entry extends the rows written so far. */
  lemma EntryRowsSnoc(rows: map<EntryId, OrderEntry>, start: nat, orderEntries: seq<OrderEntry>, e: OrderEntry)
    ensures (rows + EntryRows(start, orderEntries))[start + |orderEntries| := e]
         == rows + EntryRows(start, orderEntries + [e])
  {
    assert (orderEntries + [e])[..|orderEntries|] == orderEntries;
  }

  /** The order as first written: status initiated, no attempts, no history yet. */
  function NewOrder(customerId: CustomerId, location: Location, totalWeight: int, entries: seq<EntryId>): Order
  {
    Order(customerId, Initiated, location, totalWeight, 0, entries, [])
  }

  /** The history entry every new order starts with. */
  function InitialEntry(location: Location, userId: UserId): HistoryEntry
  {
    HistoryEntry(Initiated, InitiatedDescription, location, userId)
  }

  // ---------------------------------------------------------------------
  // Status updates
  // ---------------------------------------------------------------------

  /**
   * Whether an update is let through: only a new dispatch with exactly two
   * recorded attempts is refused. Every other status, from every status, is
   * accepted.
   */
  function Admits(o: Order, status: Status): bool
  {
    !(status == OutForDelivery && o.deliveryAttempts == MaxAttempts)
  }

  /** The geofence's armed flag after an update with `status`. */
  function Armed(isActive: bool, status: Status): bool
  {
    match status
    case OutForDelivery => true
    case FailedToDeliver => false
    case _ => isActive
  }

  /** The history entry an update request appends. */
  function EntryFor(req: UpdateRequest): HistoryEntry
  {
    HistoryEntry(req.status, req.description, req.location, req.userId)
  }

  /** The order after every write of a successful update. */
  function Applied(o: Order, req: UpdateRequest): (o': Order)
    ensures o'.status == req.status && o'.location == req.location
    ensures o'.history == o.history + [EntryFor(req)]
    ensures o'.deliveryAttempts == if req.status == FailedToDeliver then o.deliveryAttempts + 1 else o.deliveryAttempts
    ensures o'.customerId == o.customerId && o'.totalWeight == o.totalWeight && o'.entries == o.entries
  {
    var counted := if req.status == FailedToDeliver then o.(deliveryAttempts := o.deliveryAttempts + 1) else o;
    counted.(status := req.status, location := req.location, history := counted.history + [EntryFor(req)])
  }

  /** The geofence table after a successful update of an order of `customerId`. */
  function GeofencesAfter(geofences: map<CustomerId, Geofence>, customerId: CustomerId, status: Status): map<CustomerId, Geofence>
  {
    if (status == OutForDelivery || status == FailedToDeliver) && customerId in geofences
    then geofences[customerId := geofences[customerId].(isActive := Armed(geofences[customerId].isActive, status))]
    else geofences
  }

  /**
   * An order after a run of update requests, each refused or applied in turn,
   * where the store has the acting user and the customer's geofence.
   */
  function Replay(o: Order, reqs: seq<UpdateRequest>): Order
    decreases |reqs|
  {
    if reqs == [] then o
    else Replay(if Admits(o, reqs[0].status) then Applied(o, reqs[0]) else o, reqs[1..])
  }

  /** How many requests of a run are failed deliveries. */
  function FailedCount(reqs: seq<UpdateRequest>): nat
  {
    if reqs == [] then 0
    else (if reqs[0].status == FailedToDeliver then 1 else 0) + FailedCount(reqs[1..])
  }

  /** How many requests of a run are accepted. */
  function AcceptedCount(o: Order, reqs: seq<UpdateRequest>): nat
    decreases |reqs|
  {
    if reqs == [] then 0
    else if Admits(o, reqs[0].status) then 1 + AcceptedCount(Applied(o, reqs[0]), reqs[1..])
    else AcceptedCount(o, reqs[1..])
  }

  /**
   * Updates never touch the customer, the weight or the entries; the history
   * only grows, by one entry per accepted request, keeping what was there.
   */
  lemma {:induction false} ReplayKeepsRecord(o: Order, reqs: seq<UpdateRequest>)
    ensures Replay(o, reqs).customerId == o.customerId
    ensures Replay(o, reqs).totalWeight == o.totalWeight
    ensures Replay(o, reqs).entries == o.entries
    ensures |Replay(o, reqs).history| == |o.history| + AcceptedCount(o, reqs)
    ensures Replay(o, reqs).history[..|o.history|] == o.history
    decreases |reqs|
  {
    if reqs != [] {
      var next := if Admits(o, reqs[0].status) then Applied(o, reqs[0]) else o;
      ReplayKeepsRecord(next, reqs[1..]);
      assert next.history[..|o.history|] == o.history;
      assert Replay(o, reqs).history[..|next.history|] == next.history;
      assert Replay(o, reqs).history[..|o.history|] == next.history[..|o.history|];
    }
  }

  /**
   * A failed delivery is never refused, so the attempt count grows by one
   * for each of them and by nothing else: it is not capped at two.
   */
  lemma {:induction false} ReplayCountsFailures(o: Order, reqs: seq<UpdateRequest>)
    ensures Replay(o, reqs).deliveryAttempts == o.deliveryAttempts + FailedCount(reqs)
    decreases |reqs|
  {
    if reqs != [] {
      var next := if Admits(o, reqs[0].status) then Applied(o, reqs[0]) else o;
      ReplayCountsFailures(next, reqs[1..]);
    }
  }

  /** The newest history entry records the current status, and every accepted update keeps it so. */
  predicate StatusRecorded(o: Order)
  {
    |o.history| > 0 && o.history[|o.history| - 1].status == o.status
  }

  lemma {:induction false} ReplayKeepsStatusRecorded(o: Order, reqs: seq<UpdateRequest>)
    requires StatusRecorded(o) || AcceptedCount(o, reqs) > 0
    ensures StatusRecorded(Replay(o, reqs))
    decreases |reqs|
  {
    if reqs != [] {
      var next := if Admits(o, reqs[0].status) then Applied(o, reqs[0]) else o;
      ReplayKeepsStatusRecorded(next, reqs[1..]);
    }
  }

  /**
   * There is no transition check: unless it is a dispatch with exactly two
   * attempts, any request is applied, whatever the current status, including
   * a delivered one.
   */
  lemma NoTransitionCheck(o: Order, req: UpdateRequest)
    requires req.status != OutForDelivery || o.deliveryAttempts != 2
    ensures Replay(o, [req]) == Applied(o, req)
  {
  }

  /**
   * A dispatch arms the customer's geofence and a failed delivery disarms
   * it; other statuses and other customers' geofences are left alone.
   */
  lemma GeofenceFollowsDispatch(geofences: map<CustomerId, Geofence>, customerId: CustomerId, status: Status)
    requires customerId in geofences
    ensures GeofencesAfter(geofences, customerId, status).Keys == geofences.Keys
    ensures status == OutForDelivery ==> GeofencesAfter(geofences, customerId, status)[customerId].isActive
    ensures status == FailedToDeliver ==> !GeofencesAfter(geofences, customerId, status)[customerId].isActive
    ensures status != OutForDelivery && status != FailedToDeliver ==> GeofencesAfter(geofences, customerId, status) == geofences
    ensures forall c :: c in geofences && c != customerId ==> GeofencesAfter(geofences, customerId, status)[c] == geofences[c]
    ensures GeofencesAfter(geofences, customerId, status)[customerId].center == geofences[customerId].center
    ensures GeofencesAfter(geofences, customerId, status)[customerId].radius == geofences[customerId].radius
  {
  }

  /** With exactly two attempts a new dispatch is refused and the order stays as it was. */
  lemma DispatchRefusedAtTwo(o: Order, req: UpdateRequest)
    requires o.deliveryAttempts == 2 && req.status == OutForDelivery
    ensures Replay(o, [req]) == o
  {
  }

  /** With three attempts the equality test no longer matches and a dispatch goes through. */
  lemma DispatchAcceptedAtThree(o: Order, req: UpdateRequest)
    requires o.deliveryAttempts == 3 && req.status == OutForDelivery
    ensures Replay(o, [req]).status == OutForDelivery
    ensures Replay(o, [req]).deliveryAttempts == 3
  {
  }

  /**
   * Dispatch, fail, dispatch, fail, dispatch from a fresh order: the third
   * dispatch is refused and the order stays failed with two attempts.
   */
  lemma ThirdDispatchRefused(o: Order, go: UpdateRequest, fail: UpdateRequest)
    requires o.deliveryAttempts == 0
    requires go.status == OutForDelivery && fail.status == FailedToDeliver
    ensures Replay(o, [go, fail, go, fail, go]).status == FailedToDeliver
    ensures Replay(o, [go, fail, go, fail, go]).deliveryAttempts == 2
    ensures |Replay(o, [go, fail, go, fail, go]).history| == |o.history| + 4
  {
    var o1 := Applied(o, go);
    var o2 := Applied(o1, fail);
    var o3 := Applied(o2, go);
    var o4 := Applied(o3, fail);
    assert [go, fail, go, fail, go][1..] == [fail, go, fail, go];
    assert [fail, go, fail, go][1..] == [go, fail, go];
    assert [go, fail, go][1..] == [fail, go];
    assert [fail, go][1..] == [go];
    assert o4.deliveryAttempts == 2;
    calc {
      Replay(o, [go, fail, go, fail, go]);
      Replay(o1, [fail, go, fail, go]);
      Replay(o2, [go, fail, go]);
      Replay(o3, [fail, go]);
      Replay(o4, [go]);
      Replay(o4, []);
    }
  }

  /**
   * The geofence is not tied to the status: a dispatch followed by a
   * delivered update leaves the geofence armed on a delivered order.
   */
  lemma ArmedAfterDelivery(geofences: map<CustomerId, Geofence>, customerId: CustomerId)
    requires customerId in geofences
    ensures GeofencesAfter(GeofencesAfter(geofences, customerId, OutForDelivery), customerId, Delivered)[customerId].isActive
  {
  }

  /** Newest first, as the service returns a history. */
  function Reverse<T>(s: seq<T>): (r: seq<T>)
    ensures |r| == |s|
    ensures forall i :: 0 <= i < |s| ==> r[i] == s[|s| - 1 - i]
  {
    if s == [] then [] else Reverse(s[1..]) + [s[0]]
  }

  /** An order as the service returns it: its history newest first. */
  function NewestFirst(o: Order): (v: Order)
    ensures |v.history| == |o.history|
    ensures |o.history| > 0 ==> v.history[0] == o.history[|o.history| - 1]
    ensures v.history == Reverse(o.history)
    ensures v.(history := o.history) == o
  {
    o.(history := Reverse(o.history))
  }

  // ---------------------------------------------------------------------
  // The store and the service operations
  // ---------------------------------------------------------------------

  /**
   * The database tables the service reads and writes. Orders and entry rows
   * get fresh ids from the two counters.
   */
  class Store {
    var orders: map<OrderId, Order>
    var entries: map<EntryId, OrderEntry>
    var geofences: map<CustomerId, Geofence>
    var products: map<ProductId, Product>
    var customers: set<CustomerId>
    var users: set<UserId>
    var nextOrderId: nat
    var nextEntryId: nat

    /** Every stored id is below its counter, so a counter value is always a fresh id. */
    ghost predicate Valid()
      reads this
    {
      && (forall id :: id in orders ==> id < nextOrderId)
      && (forall id :: id in entries ==> id < nextEntryId)
    }

    constructor (products: map<ProductId, Product>, customers: set<CustomerId>, users: set<UserId>,
                 geofences: map<CustomerId, Geofence>)
      ensures Valid()
      ensures orders == map[] && entries == map[]
      ensures this.products == products && this.customers == customers && this.users == users
      ensures this.geofences == geofences
    {
      this.orders := map[];
      this.entries := map[];
      this.geofences := geofences;
      this.products := products;
      this.customers := customers;
      this.users := users;
      this.nextOrderId := 0;
      this.nextEntryId := 0;
    }

    /** The stored order with this id, history newest first; reads nothing else and changes nothing. */
    function GetOrderById(id: OrderId): (r: Option<Order>)
      reads this
      ensures r.Some? <==> id in orders
      ensures r.Some? ==> r.value.status == orders[id].status && r.value.deliveryAttempts == orders[id].deliveryAttempts
      ensures r.Some? ==> r.value.history == Reverse(orders[id].history)
      ensures r.Some? ==> r.value.(history := orders[id].history) == orders[id]
    {
      if id in orders then Some(NewestFirst(orders[id])) else None
    }

    /**
     * The loop of order creation: for each entry in turn, write its row, then
     * look up its product and add weight times quantity to the total. A row
     * refers to its product, so the write of an entry whose product does not
     * exist fails; the loop stops there and the rows written before it stay
     * in the table.
     */
    method WriteEntries(orderEntries: seq<OrderEntry>) returns (ok: bool, ids: seq<EntryId>, totalWeight: int)
      requires Valid()
      modifies this`entries, this`nextEntryId
      ensures Valid()
      ensures ok <==> Priced(orderEntries, products)
      ensures entries == old(entries) + EntryRows(old(nextEntryId), orderEntries[..FirstUnpriced(orderEntries, products)])
      ensures nextEntryId == old(nextEntryId) + FirstUnpriced(orderEntries, products)
      ensures ok ==> ids == IdRange(old(nextEntryId), |orderEntries|)
      ensures ok ==> totalWeight == TotalWeight(orderEntries, products)
    {
      ids, totalWeight := [], 0;
      var i := 0;
      while i < |orderEntries|
        invariant 0 <= i <= |orderEntries|
        invariant Priced(orderEntries[..i], products)
        invariant totalWeight == TotalWeight(orderEntries[..i], products)
        invariant ids == IdRange(old(nextEntryId), i)
        invariant nextEntryId == old(nextEntryId) + i
        invariant entries == old(entries) + EntryRows(old(nextEntryId), orderEntries[..i])
        invariant Valid()
      {
        var e := orderEntries[i];
        if e.productId !in products {
          FirstUnpricedAt(orderEntries, products, i);
          return false, ids, totalWeight;
        }
        assert orderEntries[..i + 1] == orderEntries[..i] + [e];
        EntryRowsSnoc(old(entries), old(nextEntryId), orderEntries[..i], e);
        entries := entries[nextEntryId := e];
        ids := ids + [nextEntryId];
        nextEntryId := nextEntryId + 1;
        var product := products[e.productId];
        TotalWeightSnoc(orderEntries[..i], e, products);
        totalWeight := totalWeight + product.weight * e.quantity;
        i := i + 1;
      }
      assert orderEntries[..i] == orderEntries;
      ok := true;
    }

    /**
     * Creates an order. An empty entry list is refused before any write.
     * The entry rows are written first (see WriteEntries), then the order,
     * which needs an existing customer, and its first history entry last,
     * which needs an existing user. A failing step keeps the earlier writes.
     */
    method CreateOrder(customerId: CustomerId, userId: UserId, location: Location, orderEntries: seq<OrderEntry>)
      returns (r: Result<Order, Error>)
      requires Valid()
      modifies this
      ensures Valid()
      ensures products == old(products) && customers == old(customers) && users == old(users)
      ensures geofences == old(geofences)
      ensures orderEntries == [] ==>
        && r == Failure(NoProducts)
        && orders == old(orders) && entries == old(entries)
        && nextOrderId == old(nextOrderId) && nextEntryId == old(nextEntryId)
      ensures entries == old(entries) + EntryRows(old(nextEntryId), orderEntries[..FirstUnpriced(orderEntries, products)])
      ensures nextEntryId == old(nextEntryId) + FirstUnpriced(orderEntries, products)
      ensures orderEntries != [] && (!Priced(orderEntries, products) || customerId !in customers) ==>
        r == Failure(StoreError) && orders == old(orders) && nextOrderId == old(nextOrderId)
      ensures orderEntries != [] && Priced(orderEntries, products) && customerId in customers ==>
        var created := NewOrder(customerId, location, TotalWeight(orderEntries, products),
                                IdRange(old(nextEntryId), |orderEntries|));
        var stored := if userId in users then created.(history := [InitialEntry(location, userId)]) else created;
        && nextOrderId == old(nextOrderId) + 1
        && orders == old(orders)[old(nextOrderId) := stored]
        && r == if userId in users then Success(stored) else Failure(StoreError)
    {
      if orderEntries == [] {
        return Failure(NoProducts);
      }
      var ok, ids, totalWeight := WriteEntries(orderEntries);
      if !ok || customerId !in customers {
        return Failure(StoreError);
      }
      var id := nextOrderId;
      var order := NewOrder(customerId, location, totalWeight, ids);
      orders := orders[id := order];
      nextOrderId := nextOrderId + 1;
      if userId !in users {
        return Failure(StoreError);
      }
      assert order.history + [InitialEntry(location, userId)] == [InitialEntry(location, userId)];
      order := order.(history := order.history + [InitialEntry(location, userId)]);
      orders := orders[id := order];
      r := Success(order);
    }

    /**
     * Updates an order's status and location. A dispatch with exactly two
     * recorded attempts is refused. Otherwise the writes go in this order:
     * arm the geofence on a dispatch; count the attempt on a failed delivery;
     * write status, location and the new history entry; disarm the geofence
     * on a failed delivery. A write that fails ends the call and keeps the
     * writes before it.
     */
    method UpdateOrder(id: OrderId, req: UpdateRequest) returns (r: Result<Order, Error>)
      requires Valid()
      modifies this
      ensures Valid()
      ensures entries == old(entries) && products == old(products) && customers == old(customers)
      ensures users == old(users) && nextOrderId == old(nextOrderId) && nextEntryId == old(nextEntryId)
      ensures orders.Keys == old(orders.Keys)
      ensures id !in old(orders) ==> r == Failure(StoreError) && orders == old(orders) && geofences == old(geofences)
      ensures id in old(orders) && !Admits(old(orders)[id], req.status) ==>
        r == Failure(MaxAttemptsReached) && orders == old(orders) && geofences == old(geofences)
      ensures r.Failure? ==>
        r.error == if id in old(orders) && !Admits(old(orders)[id], req.status) then MaxAttemptsReached else StoreError
      ensures r.Success? <==>
        && id in old(orders) && Admits(old(orders)[id], req.status) && req.userId in users
        && (req.status in {OutForDelivery, FailedToDeliver} ==> old(orders)[id].customerId in old(geofences))
      ensures r.Success? ==>
        && orders == old(orders)[id := Applied(old(orders)[id], req)]
        && geofences == GeofencesAfter(old(geofences), old(orders)[id].customerId, req.status)
        && r.value == NewestFirst(orders[id])
      // the partial writes a failed call leaves behind
      ensures id in old(orders) && Admits(old(orders)[id], req.status) && req.status == OutForDelivery
              && old(orders)[id].customerId in old(geofences) && req.userId !in users ==>
        orders == old(orders) && geofences == GeofencesAfter(old(geofences), old(orders)[id].customerId, req.status)
      ensures id in old(orders) && req.status == FailedToDeliver && req.userId !in users ==>
        && orders == old(orders)[id := old(orders)[id].(deliveryAttempts := old(orders)[id].deliveryAttempts + 1)]
        && geofences == old(geofences)
      ensures id in old(orders) && req.status == FailedToDeliver && req.userId in users
              && old(orders)[id].customerId !in old(geofences) ==>
        orders == old(orders)[id := Applied(old(orders)[id], req)] && geofences == old(geofences)
      ensures r.Failure? && !(id in old(orders) && req.status in {OutForDelivery, FailedToDeliver}) ==>
        orders == old(orders) && geofences == old(geofences)
      ensures id in old(orders) && req.status == OutForDelivery && old(orders)[id].customerId !in old(geofences) ==>
        orders == old(orders) && geofences == old(geofences)
    {
      if id !in orders {
        return Failure(StoreError);
      }
      var order := orders[id];
      if req.status == OutForDelivery && order.deliveryAttempts == MaxAttempts {
        return Failure(MaxAttemptsReached);
      }
      if req.status == OutForDelivery {
        if order.customerId !in geofences {
          return Failure(StoreError);
        }
        geofences := geofences[order.customerId := geofences[order.customerId].(isActive := true)];
      }
      if req.status == FailedToDeliver {
        orders := orders[id := orders[id].(deliveryAttempts := order.deliveryAttempts + 1)];
      }
      if req.userId !in users {
        return Failure(StoreError);
      }
      orders := orders[id := orders[id].(status := req.status, location := req.location,
                                         history := orders[id].history + [EntryFor(req)])];
      r := Success(NewestFirst(orders[id]));
      if req.status == FailedToDeliver {
        if order.customerId !in geofences {
          return Failure(StoreError);
        }
        geofences := geofences[order.customerId := geofences[order.customerId].(isActive := false)];
      }
    }

    /** Deletes an order with its entry rows and history, returning what was deleted. */
    method DeleteOrder(id: OrderId) returns (r: Result<Order, Error>)
      requires Valid()
      modifies this
      ensures Valid()
      ensures geofences == old(geofences) && products == old(products) && customers == old(customers)
      ensures users == old(users) && nextOrderId == old(nextOrderId) && nextEntryId == old(nextEntryId)
      ensures id !in old(orders) ==> r == Failure(StoreError) && orders == old(orders) && entries == old(entries)
      ensures id in old(orders) ==>
        && r == Success(old(orders)[id])
        && orders == old(orders) - {id}
        && entries == old(entries) - (set e | e in old(orders)[id].entries)
      ensures id !in orders
    {
      if id !in orders {
        return Failure(StoreError);
      }
      var order := orders[id];
      orders := orders - {id};
      entries := entries - (set e | e in order.entries);
      r := Success(order);
    }
  }
}
