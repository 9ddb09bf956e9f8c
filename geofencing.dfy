/**
 * The proximity check of the geofencing service: given whether a live reading
 * lies inside the customer's geofence circle and how far it is from the
 * circle's centre, choose at most one SMS for the customer and hand it to the
 * SMS gateway. The distance and point-in-circle computations are inputs here;
 * the gateway's answer is an input too.
 */
module Geofencing {
  import opened Wrappers

  /** The customer fields the check reads. */
  datatype Customer = Customer(name: string, mobile: string)

  /** An outbound SMS: the recipient's number and the body. */
  datatype Sms = Sms(phone: string, body: string)

  /** The three notifications the check can choose from. */
  datatype Notice = PickUpSoon | InProximity | NearArea

  /** What one call of the check returns to its caller. */
  datatype Check =
    | NoNotice              // no band matched: the call returns false
    | Notified(body: string) // the gateway took the message: its body is returned
    | NotSent               // the gateway refused it: the error is logged and nothing is returned
    | LookupFailed          // the customer or its geofence could not be read

  /** Band limits in metres; each limit belongs to the band above it. */
  const PickUpLimit: nat := 300
  const ProximityLimit: nat := 500
  const NearAreaLimit: nat := 2000

  /** The greeting that opens every message, before the customer's name. */
  const Greeting: string := "\nHello "

  /**
   * The band a reading falls in. Inside the circle: under 300 m is
   * PickUpSoon, from 300 m up to 500 m InProximity, 500 m and more nothing.
   * Outside the circle: under 2000 m is NearArea, anything else nothing.
   */
  function Classify(withinRadius: bool, distance: nat): (n: Option<Notice>)
    ensures n == Some(PickUpSoon) <==> withinRadius && distance < 300
    ensures n == Some(InProximity) <==> withinRadius && 300 <= distance < 500
    ensures n == Some(NearArea) <==> !withinRadius && distance < 2000
  {
    if withinRadius then
      if distance < PickUpLimit then Some(PickUpSoon)
      else if distance < ProximityLimit then Some(InProximity)
      else None
    else if distance < NearAreaLimit then Some(NearArea)
    else None
  }

  /** The fixed wording of each notification, after the greeting. */
  function Template(n: Notice): string
  {
    match n
    case PickUpSoon => "Be ready to pick up your order anytime soon"
    case InProximity => "Delivery person is in your proximity radius and will be at your doorstep in around 5-10 minutes"
    case NearArea => "Delivery person is near your area and will be at your doorstep soon"
  }

  /** The full SMS body for a notice, addressed to the customer by name. */
  function Message(n: Notice, name: string): (body: string)
    ensures |body| > |Greeting| + |name| + 2
    ensures body[..|Greeting|] == Greeting
    ensures body[|Greeting|..|Greeting| + |name|] == name
    ensures body[|Greeting| + |name|..|Greeting| + |name| + 2] == ",\n"
    ensures body[|Greeting| + |name| + 2..] == Template(n)
  {
    var head := Greeting + name + ",\n";
    assert head[..|Greeting|] == Greeting;
    assert head[|Greeting|..|Greeting| + |name|] == name;
    assert head[|Greeting| + |name|..] == ",\n";
    head + Template(n)
  }

  /** The SMS the check hands to the gateway for a reading, if any. */
  function SelectSms(customer: Customer, withinRadius: bool, distance: nat): (m: Option<Sms>)
    ensures m.Some? <==> Classify(withinRadius, distance).Some?
    ensures m.Some? ==> m.value.phone == customer.mobile
    ensures m.Some? ==> m.value.body == Message(Classify(withinRadius, distance).value, customer.name)
  {
    match Classify(withinRadius, distance)
    case None => None
    case Some(n) => Some(Sms(customer.mobile, Message(n, customer.name)))
  }

  /** How pressing a notice is: the nearer band ranks higher, no notice ranks lowest. */
  function Urgency(n: Option<Notice>): nat
  {
    match n
    case None => 0
    case Some(NearArea) => 1
    case Some(InProximity) => 2
    case Some(PickUpSoon) => 3
  }

  /** A reading of exactly 300 m inside the circle is in the 5-10 minutes band, not the pick-up band. */
  lemma ThreeHundredIsProximity()
    ensures Classify(true, 300) == Some(InProximity)
    ensures Classify(true, 299) == Some(PickUpSoon)
    ensures Classify(true, 500) == None
    ensures Classify(false, 1999) == Some(NearArea)
    ensures Classify(false, 2000) == None
  {
  }

  /** On either side of the circle's edge, a nearer reading never gets a less pressing notice. */
  lemma NearerIsNoLessUrgent(withinRadius: bool, near: nat, far: nat)
    requires near <= far
    ensures Urgency(Classify(withinRadius, near)) >= Urgency(Classify(withinRadius, far))
  {
  }

  /** Different notices never produce the same SMS body, whatever the name. */
  lemma MessagesDistinct(a: Notice, b: Notice, name: string)
    requires a != b
    ensures Message(a, name) != Message(b, name)
  {
  }

  /**
   * The check's interaction with the SMS gateway. The gateway is outside the
   * model: its answer to each send is a parameter, and the messages it took
   * are recorded in the outbox.
   */
  class GeofencingService {
    /** Every SMS the gateway has taken, oldest first. */
    var outbox: seq<Sms>

    constructor ()
      ensures outbox == []
    {
      outbox := [];
    }

    /**
     * Sends one SMS. On success the body is returned and the message is in
     * the outbox; a gateway error is swallowed and nothing is returned.
     */
    method SendSmsNotification(sms: Sms, gatewayAccepts: bool) returns (r: Option<string>)
      modifies this
      ensures r == if gatewayAccepts then Some(sms.body) else None
      ensures outbox == old(outbox) + if gatewayAccepts then [sms] else []
    {
      if gatewayAccepts {
        outbox := outbox + [sms];
        r := Some(sms.body);
      } else {
        r := None;
      }
    }

    /**
     * One proximity check for a live reading. `customer` is the stored
     * customer with its geofence (None when the lookup fails); `withinRadius`
     * and `distance` are the point-in-circle test and the distance in metres
     * to the circle's centre. At most one SMS is sent.
     */
    method CheckWithinRadius(customer: Option<Customer>, withinRadius: bool, distance: nat, gatewayAccepts: bool)
      returns (r: Check)
      modifies this
      ensures customer.None? ==> r == LookupFailed && outbox == old(outbox)
      ensures customer.Some? && SelectSms(customer.value, withinRadius, distance).None? ==>
        r == NoNotice && outbox == old(outbox)
      ensures customer.Some? && SelectSms(customer.value, withinRadius, distance).Some? ==>
        var sms := SelectSms(customer.value, withinRadius, distance).value;
        && (gatewayAccepts ==> r == Notified(sms.body) && outbox == old(outbox) + [sms])
        && (!gatewayAccepts ==> r == NotSent && outbox == old(outbox))
      ensures |outbox| <= |old(outbox)| + 1
    {
      if customer.None? {
        return LookupFailed;
      }
      var selected := SelectSms(customer.value, withinRadius, distance);
      if selected.None? {
        return NoNotice;
      }
      var sent := SendSmsNotification(selected.value, gatewayAccepts);
      r := if sent.Some? then Notified(sent.value) else NotSent;
    }
  }
}
