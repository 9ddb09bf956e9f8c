# TrackNTrust delivery core in Dafny

A model of the two services of the TrackNTrust delivery-tracking backend that
hold its logic, with proofs of what they promise.

- **Purchase-order lifecycle** (`purchase_order.dfy`, module `PurchaseOrder`).
  The database is the class `Store`: orders, entry rows, one geofence per
  customer, and the product, customer and user tables the service reads.
  `CreateOrder`, `UpdateOrder` and `DeleteOrder` change it in place. Each
  database write of the service is one assignment, made in the order the
  service issues it. A failing write ends the call and keeps the writes made
  before it, because the service uses no transaction.
  - `CreateOrder` refuses an empty entry list before any write.
  - Its loop (`WriteEntries`) writes one entry row per entry and adds up
    `weight × quantity`.
  - It then writes the order in status `initiated`, and after that its one
    `initiated` history entry.
  - `UpdateOrder` refuses a dispatch (`out_for_delivery`) when the order has
    exactly two attempts.
  - Otherwise it arms the geofence on a dispatch and counts the attempt on a
    failed delivery. Then it writes the status, the location and one history
    entry. Last, it disarms the geofence on a failed delivery.
  - The pure functions `Applied`, `GeofencesAfter` and `Replay` describe an
    update, and a run of updates, on values. The lemmas about them state the
    lifecycle's properties.
- **Proximity check** (`geofencing.dfy`, module `Geofencing`). `Classify`
  maps a reading to one of three notices or none. It takes two inputs: whether
  the reading is inside the customer's circle, and its distance in metres to
  the centre. The bands are under 300 m and 300–499 m inside the circle, and
  under 2000 m outside it. `SelectSms` builds the SMS for the customer's
  number and name. `GeofencingService` sends it, with the SMS gateway's answer
  as a parameter and an outbox of the messages the gateway took.
- `wrappers.dfy` holds `Option` and `Result`.

## Model

| member | source | states |
|---|---|---|
| `Geofencing.Classify` | src/geofencing/geofencing.service.ts:65-91 | Inside the circle, under 300 m is the pick-up notice and 300 m up to 500 m the 5-10 minutes notice. Outside the circle, under 2000 m is the near-your-area notice. Each is an if-and-only-if, so every other reading gets no notice. |
| `Geofencing.ThreeHundredIsProximity` | src/geofencing/geofencing.service.ts:66-84 | The boundaries are strict: exactly 300 m is in the 5-10 minutes band, 500 m inside and 2000 m outside get nothing. |
| `Geofencing.NearerIsNoLessUrgent` | src/geofencing/geofencing.service.ts:65-91 | On the same side of the circle's edge, a nearer reading never gets a less pressing notice than a farther one. |
| `Geofencing.Message` | src/geofencing/geofencing.service.ts:67-88 | Every body opens with the greeting, then the customer's name, then `",\n"`, then the notice's fixed wording. |
| `Geofencing.MessagesDistinct` | src/geofencing/geofencing.service.ts:67-88 | Different notices never give the same body for the same customer. |
| `Geofencing.SelectSms` | src/geofencing/geofencing.service.ts:65-91 | An SMS is chosen exactly when the reading is in a band. It goes to the customer's mobile number, and its body is that band's message with the customer's name. |
| `Geofencing.GeofencingService.SendSmsNotification` | src/geofencing/geofencing.service.ts:97-116 | When the gateway takes the message, the body is returned and the message is added to the outbox. A gateway error returns nothing and sends nothing; the error does not propagate. |
| `Geofencing.GeofencingService.CheckWithinRadius` | src/geofencing/geofencing.service.ts:24-95 | A failed customer lookup sends nothing. No band returns `false` and sends nothing. Otherwise exactly the selected SMS is sent, and the call returns its body, or nothing on a gateway error. At most one message is sent per call. |
| `PurchaseOrder.TotalWeightSnoc` | src/purchase-order/purchase-order.service.ts:100-122 | One more entry adds its product's weight times its quantity to the running total. This is the loop's step. |
| `PurchaseOrder.TotalWeightConcat` | src/purchase-order/purchase-order.service.ts:100-122 | The total over a split list is the sum of the parts' totals, and it does not depend on which part comes first. |
| `PurchaseOrder.FirstUnpriced` | src/purchase-order/purchase-order.service.ts:100-122 | The index where the entry loop stops: every earlier entry names an existing product, and the entry at that index does not. It equals the list's length exactly when every product exists. |
| `PurchaseOrder.Store.WriteEntries` | src/purchase-order/purchase-order.service.ts:100-122 | It succeeds exactly when every product exists. On success it returns consecutive fresh row ids and the sum of `weight × quantity`. The rows written are the entries before the first unknown product, and they stay even when the loop fails. |
| `PurchaseOrder.Store.CreateOrder` | src/purchase-order/purchase-order.service.ts:81-173 | An empty list fails with `NoProducts` and writes nothing. An unknown product or customer fails and writes no order. Otherwise a new order is stored with status `initiated`, the given customer and location, zero attempts, the summed weight and the new entry rows. With a known user it gets exactly one history entry: `initiated`, the fixed description, the location and the user. With an unknown user the order is stored without history and the call fails. |
| `PurchaseOrder.Applied` | src/purchase-order/purchase-order.service.ts:218-261 | After a full update the order has the requested status and location. It has exactly one more history entry, carrying the request's status, description, location and user. The attempts grow by one exactly on a failed delivery. Customer, weight and entries do not change. |
| `PurchaseOrder.GeofenceFollowsDispatch` | src/purchase-order/purchase-order.service.ts:207-272 | A dispatch arms the customer's geofence and a failed delivery disarms it. Any other status leaves the geofences as they are. Other customers' geofences, and the centre and radius, never change. |
| `PurchaseOrder.Store.UpdateOrder` | src/purchase-order/purchase-order.service.ts:175-278 | A missing order, or a dispatch at exactly two attempts, fails and changes nothing. Success happens exactly when the user exists and, for a dispatch or a failed delivery, the geofence exists. The order then becomes `Applied(order, request)`, the geofences become `GeofencesAfter`, and the order is returned with its history newest first. On a failure partway through, the writes already made stay: the armed geofence, the counted attempt, or the order update. A failure carries `MaxAttemptsReached` exactly when the dispatch was refused, and `StoreError` otherwise. |
| `PurchaseOrder.NoTransitionCheck` | src/purchase-order/purchase-order.service.ts:198-205 | Every request except a dispatch at exactly two attempts is applied, from any current status, including `delivered`. |
| `PurchaseOrder.DispatchRefusedAtTwo` | src/purchase-order/purchase-order.service.ts:198-205 | At exactly two attempts a dispatch leaves the order unchanged. |
| `PurchaseOrder.DispatchAcceptedAtThree` | src/purchase-order/purchase-order.service.ts:198-205 | At three attempts the equality test does not match, so a dispatch is applied. |
| `PurchaseOrder.ThirdDispatchRefused` | src/purchase-order/purchase-order.service.ts:198-228 | Start from zero attempts and send dispatch, fail, dispatch, fail, dispatch. The third dispatch is refused, and the order stays `failed_to_deliver` with two attempts and four new history entries. |
| `PurchaseOrder.ReplayCountsFailures` | src/purchase-order/purchase-order.service.ts:218-228 | After any run of updates, the attempts equal the starting count plus the number of failed-delivery requests. Those requests are never refused, so the count is not capped at two. |
| `PurchaseOrder.ReplayKeepsRecord` | src/purchase-order/purchase-order.service.ts:230-261 | After any run of updates, customer, weight and entries are unchanged. The old history is a prefix of the new one, which has one more entry per accepted request. |
| `PurchaseOrder.ReplayKeepsStatusRecorded` | src/purchase-order/purchase-order.service.ts:236-251 | The newest history entry records the current status. Every run of updates keeps this true, and any run with an accepted update makes it true. |
| `PurchaseOrder.ArmedAfterDelivery` | src/purchase-order/purchase-order.service.ts:207-272 | In the geofence table, a dispatch followed by a `delivered` update leaves the customer's geofence armed. |
| `PurchaseOrder.NewestFirst` | src/purchase-order/purchase-order.service.ts:255-259 | The returned history is the stored one reversed, so its first element is the newest entry. Every other field is the stored one. |
| `PurchaseOrder.Store.GetOrderById` | src/purchase-order/purchase-order.service.ts:45-79 | A side-effect-free read. It finds an order exactly when the id is stored, with the stored customer, status, location, weight, attempts and entries, and the history reversed, newest first. |
| `PurchaseOrder.Store.DeleteOrder` | src/purchase-order/purchase-order.service.ts:280-296 | It removes the order, its history and its entry rows, and returns the deleted order. Afterwards the id is absent. An unknown id fails and changes nothing. |

## Behaviour of the code as written

The model follows the code. In these places the code does less than the
lifecycle it is meant to implement, which caps attempts at two, keeps the
geofence armed exactly while the order is out for delivery, and makes each
operation atomic:

- There is no transition check. Any status may follow any other, including a
  status after `delivered` (`NoTransitionCheck`).
- The attempt cap is an equality test on the dispatch path only.
  - Failed deliveries are never refused, so the count can pass two
    (`ReplayCountsFailures`).
  - At three attempts dispatch is allowed again (`DispatchAcceptedAtThree`).
- The geofence changes only on a dispatch or a failed delivery. A delivered
  order can keep an armed geofence (`ArmedAfterDelivery`).
- The writes are separate and nothing is rolled back (`CreateOrder`,
  `WriteEntries`, `UpdateOrder`):
  - entry rows stay when a later product or the customer is missing;
  - an order can exist without history when the user is missing;
  - a dispatch by an unknown user leaves the geofence armed;
  - a failed delivery by an unknown user leaves the attempt counted.
- The proximity check never reads the geofence's `is_active` flag. Arming and
  disarming in `UpdateOrder` therefore do not change which SMS is sent.
- The proximity check keeps no memory between readings. A reading in the same
  band sends the same message again.

## Left out

- Distance and point-in-circle computation (the `geolib` calls): they are
  floating point in a library that is not part of this model. Their results
  are the inputs `withinRadius` and `distance`.
- The SMS gateway client, its credentials and the sender number: they are
  external I/O. The gateway's answer is the parameter `gatewayAccepts`.
- Console logging: it is I/O with no effect on results.
- `getAllOrders`: its only logic is ordering by the database's `updated_at`
  timestamps, which are not modelled. Timestamps in general (`created_at`,
  `updated_at`) are left out; sequence order stands for time order.
- The error translation of `prismaError` is not part of this model. Each
  service method except `sendSMSNotification` catches every error, its own
  thrown exceptions included, and hands it to `prismaError`.
  `sendSMSNotification` logs a gateway error and returns nothing, so that error
  never reaches the caller. The model assumes `prismaError` passes the error
  on to the caller. A database failure is `StoreError` in the purchase-order
  model and `LookupFailed` in the proximity check. The purchase-order service
  throws two exceptions: `ForbiddenException` for an empty entry list and
  `NotAcceptableException` at the attempt limit. The model keeps them apart as
  `NoProducts` and `MaxAttemptsReached`.
- PurchaseOrder.Store.GetOrderById: it returns the order record only. The
  joined rows (driver path, entry rows with products, customer with geofence)
  are not modelled.
- PurchaseOrder.Store.CreateOrder: it returns the order with entry ids, not
  the included entry rows.
- PurchaseOrder.Store.UpdateOrder: it returns the order with entry ids, not
  the included entry rows.
- PurchaseOrder.Store.DeleteOrder: it returns the order with entry ids, not
  the included entry rows.
- Weights are integers and coordinates are reals that are copied unchanged.
  Floating-point rounding of `total_weight` is not modelled.
- An entry row refers to its product, so writing a row for a product that does
  not exist fails. The later `weight` read of a missing product is therefore
  not reached. Cascade deletion of an order's entry rows is assumed from the
  database schema, which is not part of this model.
- The new order's attempt count starts at 0. This is the schema default,
  which is not part of this model.
- Concurrency: each call runs alone against the store, and parallel updates
  are not modelled.
- Controllers, module wiring, DTO validation and the customer, user and
  product services: they are routing and single database reads.
