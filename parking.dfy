/** The records the client exchanges with the parking service, and the two
    lookups over them that several screens share: a gate by its id, and the
    zones a gate serves. */
module Parking {

  datatype Option<T> = None | Some(value: T)

  /** A decoded JSON value. Numbers are whole numbers here. */
  datatype Json =
    | JNull
    | JBool(b: bool)
    | JNum(n: int)
    | JStr(s: string)
    | JArr(items: seq<Json>)
    | JObj(fields: map<string, Json>)

  /** An authenticated user; `role` is "admin", "employee" or "guest". */
  datatype User = User(id: string, username: string, role: string)

  datatype Zone = Zone(
    id: string,
    name: string,
    categoryId: string,
    gateIds: seq<string>,
    totalSlots: int,
    occupied: int,
    free: int,
    reserved: int,
    availableForVisitors: int,
    availableForSubscribers: int,
    rateNormal: int,
    rateSpecial: int,
    open: bool)

  datatype Gate = Gate(id: string, name: string, zoneIds: seq<string>, location: string)

  datatype Category = Category(id: string, name: string, description: string, rateNormal: int, rateSpecial: int)

  /** One row of the administrator's parking-state report. */
  datatype ZoneState = ZoneState(
    zoneId: string,
    name: string,
    totalSlots: int,
    occupied: int,
    free: int,
    reserved: int,
    availableForVisitors: int,
    availableForSubscribers: int,
    subscriberCount: int,
    open: bool)

  datatype CurrentCheckin = CurrentCheckin(ticketId: string, zoneId: string, checkinAt: string)

  datatype Subscription = Subscription(
    id: string,
    userId: string,
    category: string,
    active: bool,
    startDate: string,
    endDate: string,
    currentCheckins: seq<CurrentCheckin>)

  /** The body of a successful login: the user and the bearer token for the session. */
  datatype LoginData = LoginData(user: User, token: string)

  datatype TicketType = Visitor | Subscriber

  function TicketTypeName(t: TicketType): string
  {
    match t
    case Visitor => "visitor"
    case Subscriber => "subscriber"
  }

  datatype CheckinForm = CheckinForm(gateId: string, zoneId: string, ticketType: TicketType, subscriptionId: string)

  datatype CheckoutForm = CheckoutForm(ticketId: string, forceConvertToVisitor: bool)

  /** `gates.find((g) => g.id === id)`: the first gate with that id, if any. */
  function FindGate(gates: seq<Gate>, id: string): (r: Option<Gate>)
    ensures r.None? <==> forall g :: g in gates ==> g.id != id
    ensures r.Some? ==> exists k :: 0 <= k < |gates| && gates[k] == r.value && r.value.id == id
                                   && forall j :: 0 <= j < k ==> gates[j].id != id
  {
    if gates == [] then None
    else if gates[0].id == id then Some(gates[0])
    else
      var r := FindGate(gates[1..], id);
      assert forall g :: g in gates[1..] ==> g in gates;
      assert r.Some? ==> exists k :: 1 <= k < |gates| && gates[k] == r.value && r.value.id == id
                                     && forall j :: 0 <= j < k ==> gates[j].id != id by {
        if r.Some? {
          var k :| 0 <= k < |gates[1..]| && gates[1..][k] == r.value && r.value.id == id
                   && forall j :: 0 <= j < k ==> gates[1..][j].id != id;
          assert gates[k + 1] == r.value;
          assert forall j :: 1 <= j < k + 1 ==> gates[j].id != id by {
            forall j | 1 <= j < k + 1 ensures gates[j].id != id {
              assert gates[j] == gates[1..][j - 1];
            }
          }
        }
      }
      r
  }

  /** `zones.filter((zone) => ids.includes(zone.id))`: the zones whose id is
      listed, in their original order. */
  function ZonesIn(zones: seq<Zone>, ids: seq<string>): (r: seq<Zone>)
    ensures |r| <= |zones|
    ensures forall z :: z in r <==> z in zones && z.id in ids
  {
    if zones == [] then []
    else (if zones[0].id in ids then [zones[0]] else []) + ZonesIn(zones[1..], ids)
  }

  /** Filtering works element by element: the filter of a concatenation is the
      concatenation of the filters, so the relative order of zones is kept. */
  lemma {:induction false} ZonesInAppend(a: seq<Zone>, b: seq<Zone>, ids: seq<string>)
    ensures ZonesIn(a + b, ids) == ZonesIn(a, ids) + ZonesIn(b, ids)
  {
    if a == [] {
      assert a + b == b;
    } else {
      assert (a + b)[1..] == a[1..] + b;
      ZonesInAppend(a[1..], b, ids);
    }
  }

  /** When every zone is listed, nothing is filtered out. */
  lemma {:induction false} ZonesInKeepsAll(zones: seq<Zone>, ids: seq<string>)
    requires forall z :: z in zones ==> z.id in ids
    ensures ZonesIn(zones, ids) == zones
  {
    if zones != [] {
      assert forall z :: z in zones[1..] ==> z in zones;
      ZonesInKeepsAll(zones[1..], ids);
    }
  }

  /** Filtering twice by the same ids is filtering once. */
  lemma {:induction false} ZonesInIdempotent(zones: seq<Zone>, ids: seq<string>)
    ensures ZonesIn(ZonesIn(zones, ids), ids) == ZonesIn(zones, ids)
  {
    ZonesInKeepsAll(ZonesIn(zones, ids), ids);
  }
}
