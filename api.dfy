/** `ApiClient` of lib/api.ts: the session token and its storage slot, the
    single request path with its degraded-mode latch, the calls that answer
    with canned data once degraded, the demo-account login, the local-only
    registration and the administrator calls that are simulated while
    degraded. Browser storage is a map held by the client; every network
    exchange is an input `FetchOutcome` and an output `HttpRequest`. */
module Api {
  import opened Text
  import opened Parking
  import opened Http
  import opened Accounts

  const TokenKey := "parking_token"
  const UsersKey := "registered_users"

  /** What a storage slot holds: the token text, or the list of locally
      registered accounts (kept by the browser as JSON text). */
  datatype StoredValue = StoredText(text: string) | StoredAccounts(accounts: seq<Account>)

  /** The two slots this client reads hold what it writes there. */
  predicate WellFormedStorage(storage: map<string, StoredValue>)
  {
    && (TokenKey in storage ==> storage[TokenKey].StoredText?)
    && (UsersKey in storage ==> storage[UsersKey].StoredAccounts?)
  }

  /** `localStorage.getItem("parking_token")` as the constructor reads it;
      without a window there is no storage and no token. */
  function StoredToken(inBrowser: bool, storage: map<string, StoredValue>): (t: Option<string>)
    requires WellFormedStorage(storage)
    ensures t.Some? <==> inBrowser && TokenKey in storage
  {
    if inBrowser && TokenKey in storage then Some(storage[TokenKey].text) else None
  }

  /** `JSON.parse(localStorage.getItem("registered_users") || "[]")` */
  function RegisteredAccounts(storage: map<string, StoredValue>): seq<Account>
    requires WellFormedStorage(storage)
  {
    if UsersKey in storage then storage[UsersKey].accounts else []
  }

  /** The two slots are independent: a list of accounts written to its slot
      is what the next registration reads, an empty slot reads as no
      accounts, and writing either slot leaves what the other one gives. */
  lemma StorageSlotsIndependent(storage: map<string, StoredValue>, accounts: seq<Account>, t: string)
    requires WellFormedStorage(storage)
    ensures WellFormedStorage(storage[UsersKey := StoredAccounts(accounts)])
    ensures RegisteredAccounts(storage[UsersKey := StoredAccounts(accounts)]) == accounts
    ensures UsersKey !in storage ==> RegisteredAccounts(storage) == []
    ensures RegisteredAccounts(storage[TokenKey := StoredText(t)]) == RegisteredAccounts(storage)
    ensures StoredToken(true, storage[UsersKey := StoredAccounts(accounts)]) == StoredToken(true, storage)
  {
  }

  /** A token written to its slot is what the next client constructed over
      the same storage starts with; a cleared slot gives no token. */
  lemma TokenSlotRoundTrip(storage: map<string, StoredValue>, t: string)
    requires WellFormedStorage(storage)
    ensures WellFormedStorage(storage[TokenKey := StoredText(t)])
    ensures StoredToken(true, storage[TokenKey := StoredText(t)]) == Some(t)
    ensures WellFormedStorage(storage - {TokenKey})
    ensures StoredToken(true, storage - {TokenKey}) == None
  {
  }

  /** The account `register` creates: the given name, role and time, and
      an id "user_" followed by digits that denote the timestamp. */
  function NewAccount(username: string, role: Role, now: nat, registeredAt: string): (a: Account)
    ensures a.username == username && a.role == role && a.registeredAt == registeredAt
    ensures |a.id| > 5 && a.id[..5] == "user_" && IsDigits(a.id[5..]) && DecimalValue(a.id[5..]) == now
  {
    var id := "user_" + Decimal(now);
    assert id[5..] == Decimal(now);
    DecimalRoundTrip(now);
    Account(id, username, role, registeredAt)
  }

  datatype ZoneAction = OpenZone | CloseZone

  /** The `{ zoneId, open }` echo of a simulated `toggleZone`. */
  function ToggleEcho(zoneId: string, action: ZoneAction): (r: Json)
    ensures r.JObj? && r.fields.Keys == {"zoneId", "open"}
    ensures r.fields["zoneId"] == JStr(zoneId)
    ensures r.fields["open"] == JBool(true) <==> action == OpenZone
  {
    JObj(map["zoneId" := JStr(zoneId), "open" := JBool(action == OpenZone)])
  }

  /** The `{ ...data, id }` echo of a simulated `updateCategory`: the given
      fields with `id` overwritten. */
  function CategoryEcho(id: string, data: map<string, Json>): (r: Json)
    ensures r.JObj? && r.fields.Keys == data.Keys + {"id"} && r.fields["id"] == JStr(id)
    ensures forall k :: k in data && k != "id" ==> r.fields[k] == data[k]
  {
    JObj(data["id" := JStr(id)])
  }

  /** The answer of a mutator that is simulated while degraded: the echo,
      when the latch was already up; otherwise the result of the real
      request, classified with the latch as that request leaves it. */
  function MutatorResult(offline: bool, developmentMode: bool, echo: Json, outcome: FetchOutcome<Json>): (r: ApiResponse<Json>)
    ensures offline ==> r == Success(echo)
    ensures !offline ==> r == Classify(outcome, LatchAfter(false, developmentMode, outcome))
  {
    if offline then Success(echo) else Classify(outcome, LatchAfter(false, developmentMode, outcome))
  }

  function RushHourData(weekDay: int, from: string, to: string): map<string, Json>
  {
    map["weekDay" := JNum(weekDay), "from" := JStr(from), "to" := JStr(to)]
  }

  function VacationData(name: string, from: string, to: string): map<string, Json>
  {
    map["name" := JStr(name), "from" := JStr(from), "to" := JStr(to)]
  }

  /** `{ id: "<prefix><Date.now()>", ...data }`: the fields of `data`, which
      win over the generated id, and an id that is the prefix followed by
      digits that denote the timestamp. */
  function WithTimestampId(prefix: string, now: nat, data: map<string, Json>): (r: Json)
    ensures r.JObj? && r.fields.Keys == data.Keys + {"id"}
    ensures forall k :: k in data ==> r.fields[k] == data[k]
    ensures "id" !in data ==>
              && r.fields["id"].JStr? && |r.fields["id"].s| > |prefix|
              && r.fields["id"].s[..|prefix|] == prefix
              && IsDigits(r.fields["id"].s[|prefix|..]) && DecimalValue(r.fields["id"].s[|prefix|..]) == now
  {
    var id := prefix + Decimal(now);
    assert id[..|prefix|] == prefix && id[|prefix|..] == Decimal(now);
    DecimalRoundTrip(now);
    JObj(map["id" := JStr(id)] + data)
  }

  function CheckinBody(form: CheckinForm): Json
  {
    JObj(map["gateId" := JStr(form.gateId), "zoneId" := JStr(form.zoneId),
             "type" := JStr(TicketTypeName(form.ticketType)), "subscriptionId" := JStr(form.subscriptionId)])
  }

  function CheckoutBody(form: CheckoutForm): Json
  {
    JObj(map["ticketId" := JStr(form.ticketId), "forceConvertToVisitor" := JBool(form.forceConvertToVisitor)])
  }

  /** The query of `getZones`: none without a gate, otherwise one that
      carries the gate id. */
  function ZonesQuery(gateId: string): (q: string)
    ensures q == "" <==> gateId == ""
    ensures gateId != "" ==> |q| > 8 && q[..8] == "?gateId=" && q[8..] == gateId
  {
    if gateId != "" then "?gateId=" + gateId else ""
  }

  const FallbackGates: seq<Gate> := [
    Gate("gate-1", "Main Gate", ["zone-1", "zone-2"], "Building A"),
    Gate("gate-2", "Side Gate", ["zone-3"], "Building B")
  ]

  const FallbackZones: seq<Zone> := [
    Zone("zone-1", "VIP Parking", "cat-1", ["gate-1"], 50, 32, 18, 5, 13, 18, 25, 40, true),
    Zone("zone-2", "Regular Parking", "cat-2", ["gate-1"], 100, 67, 33, 8, 25, 33, 15, 25, true),
    Zone("zone-3", "Economy Parking", "cat-3", ["gate-2"], 80, 45, 35, 6, 29, 35, 10, 18, false)
  ]

  const FallbackCategories: seq<Category> := [
    Category("cat-1", "VIP", "Premium parking spaces", 25, 40),
    Category("cat-2", "Regular", "Standard parking spaces", 15, 25),
    Category("cat-3", "Economy", "Budget parking spaces", 10, 18)
  ]

  const FallbackParkingState: seq<ZoneState> := [
    ZoneState("zone-1", "VIP Parking", 50, 32, 18, 5, 13, 18, 12, true),
    ZoneState("zone-2", "Regular Parking", 100, 67, 33, 8, 25, 33, 25, true),
    ZoneState("zone-3", "Economy Parking", 80, 45, 35, 6, 29, 35, 18, false)
  ]

  const FallbackSubscriptions: seq<Subscription> := [
    Subscription("sub-1", "user-1", "cat-1", true, "2024-01-01", "2024-12-31", []),
    Subscription("sub-2", "user-2", "cat-2", true, "2024-01-01", "2024-12-31",
                 [CurrentCheckin("t_123", "zone-2", "2024-01-15T10:00:00Z")])
  ]

  class ApiClient {
    const apiBase: string
    const developmentMode: bool
    /** `typeof window !== "undefined"` */
    const inBrowser: bool
    var token: Option<string>
    var isOfflineMode: bool
    /** The browser's `localStorage`. */
    var storage: map<string, StoredValue>

    ghost predicate Valid()
      reads this
    {
      && WellFormedStorage(storage)
      && (!inBrowser ==> storage == map[])
    }

    /** The request this client hands to `fetch` for an endpoint, with the
        headers its current token calls for. */
    function RequestFor(endpoint: string, verb: string, body: Option<Json>): HttpRequest
      reads this
    {
      HttpRequest(apiBase + endpoint, verb, AuthHeaders(token), body)
    }

    constructor (configuredBase: string, developmentMode: bool, inBrowser: bool, storage: map<string, StoredValue>)
      requires WellFormedStorage(storage)
      ensures Valid()
      ensures this.apiBase == ApiBase(configuredBase)
      ensures this.developmentMode == developmentMode && this.inBrowser == inBrowser
      ensures this.storage == if inBrowser then storage else map[]
      ensures token == StoredToken(inBrowser, storage)
      ensures !isOfflineMode
    {
      this.apiBase := ApiBase(configuredBase);
      this.developmentMode := developmentMode;
      this.inBrowser := inBrowser;
      this.storage := if inBrowser then storage else map[];
      token := StoredToken(inBrowser, storage);
      isOfflineMode := false;
    }

    method SetToken(t: string)
      requires Valid()
      modifies this`token, this`storage
      ensures Valid()
      ensures token == Some(t)
      ensures storage == if inBrowser then old(storage)[TokenKey := StoredText(t)] else old(storage)
    {
      token := Some(t);
      if inBrowser {
        storage := storage[TokenKey := StoredText(t)];
      }
    }

    method ClearToken()
      requires Valid()
      modifies this`token, this`storage
      ensures Valid()
      ensures token == None
      ensures storage == if inBrowser then old(storage) - {TokenKey} else old(storage)
    {
      token := None;
      if inBrowser {
        storage := storage - {TokenKey};
      }
    }

    /** `request`: never throws; the latch goes up on the first thrown fetch
        or decode of a development build and the error message reads the
        latch as it then stands. */
    method Request<T>(endpoint: string, verb: string, body: Option<Json>, outcome: FetchOutcome<T>)
      returns (r: ApiResponse<T>, sent: HttpRequest)
      requires Valid()
      modifies this`isOfflineMode
      ensures Valid()
      ensures sent == RequestFor(endpoint, verb, body)
      ensures isOfflineMode == LatchAfter(old(isOfflineMode), developmentMode, outcome)
      ensures r == Classify(outcome, isOfflineMode)
    {
      sent := RequestFor(endpoint, verb, body);
      match outcome {
        case Response(ok, data, message, errors) =>
          if !ok {
            r := Error(ServerMessage(message), errors);
            return;
          }
          r := Success(data);
        case _ =>
          if developmentMode && !isOfflineMode {
            isOfflineMode := true;
          }
          r := Error(if isOfflineMode then OfflineErrorMessage else NetworkErrorMessage, None);
      }
    }

    /** `requestWithFallback` */
    method RequestWithFallback<T>(endpoint: string, verb: string, body: Option<Json>, fallback: Option<T>, outcome: FetchOutcome<T>)
      returns (r: ApiResponse<T>, sent: HttpRequest)
      requires Valid()
      modifies this`isOfflineMode
      ensures Valid()
      ensures sent == RequestFor(endpoint, verb, body)
      ensures isOfflineMode == LatchAfter(old(isOfflineMode), developmentMode, outcome)
      ensures r == WithFallback(Classify(outcome, isOfflineMode), isOfflineMode, fallback)
    {
      var result;
      result, sent := Request(endpoint, verb, body, outcome);
      if result.Error? && isOfflineMode && fallback.Some? {
        r := Success(fallback.value);
        return;
      }
      r := result;
    }

    method Login(username: string, password: string, outcome: FetchOutcome<LoginData>)
      returns (r: ApiResponse<LoginData>, sent: HttpRequest)
      requires Valid()
      modifies this`isOfflineMode
      ensures Valid()
      ensures sent == RequestFor("/auth/login", "POST", Some(JObj(map["username" := JStr(username), "password" := JStr(password)])))
      ensures isOfflineMode == LatchAfter(old(isOfflineMode), developmentMode, outcome)
      ensures r == LoginResult(Classify(outcome, isOfflineMode), isOfflineMode, username, password)
    {
      var result;
      result, sent := Request("/auth/login", "POST", Some(JObj(map["username" := JStr(username), "password" := JStr(password)])), outcome);
      if result.Error? && isOfflineMode {
        r := OfflineLogin(username, password);
        return;
      }
      r := result;
    }

    /** `register`: always local. The checks run in order; on success the
        stored list gains exactly the new account and no token is issued. */
    method Register(username: string, password: string, role: Role, now: nat, registeredAt: string)
      returns (r: ApiResponse<Registration>)
      requires Valid()
      modifies this`storage
      ensures Valid()
      ensures var registered := RegisteredAccounts(old(storage));
              match RegistrationError(username, password, registered)
              case Some(m) => r == Error(m, None) && storage == old(storage)
              case None =>
                var account := NewAccount(username, role, now, registeredAt);
                && r == Success(Registration(account, AccountCreatedMessage))
                && storage == if inBrowser then old(storage)[UsersKey := StoredAccounts(registered + [account])]
                              else old(storage)
    {
      if |username| < 3 {
        return Error(UsernameTooShortMessage, None);
      }
      if |password| < 6 {
        return Error(PasswordTooShortMessage, None);
      }
      var registered := RegisteredAccounts(storage);
      if UsernameTaken(username, registered) {
        return Error(UsernameTakenMessage, None);
      }
      var account := NewAccount(username, role, now, registeredAt);
      if inBrowser {
        storage := storage[UsersKey := StoredAccounts(registered + [account])];
      }
      r := Success(Registration(account, AccountCreatedMessage));
    }

    method GetGates(outcome: FetchOutcome<Option<seq<Gate>>>)
      returns (r: ApiResponse<Option<seq<Gate>>>, sent: HttpRequest)
      requires Valid()
      modifies this`isOfflineMode
      ensures Valid()
      ensures sent == RequestFor("/master/gates", "GET", None)
      ensures isOfflineMode == LatchAfter(old(isOfflineMode), developmentMode, outcome)
      ensures r == WithFallback(Classify(outcome, isOfflineMode), isOfflineMode, Some(Some(FallbackGates)))
    {
      r, sent := RequestWithFallback("/master/gates", "GET", None, Some(Some(FallbackGates)), outcome);
    }

    method GetZones(gateId: string, outcome: FetchOutcome<Option<seq<Zone>>>)
      returns (r: ApiResponse<Option<seq<Zone>>>, sent: HttpRequest)
      requires Valid()
      modifies this`isOfflineMode
      ensures Valid()
      ensures sent == RequestFor("/master/zones" + ZonesQuery(gateId), "GET", None)
      ensures isOfflineMode == LatchAfter(old(isOfflineMode), developmentMode, outcome)
      ensures r == WithFallback(Classify(outcome, isOfflineMode), isOfflineMode, Some(Some(FallbackZones)))
    {
      r, sent := RequestWithFallback("/master/zones" + ZonesQuery(gateId), "GET", None, Some(Some(FallbackZones)), outcome);
    }

    method GetCategories(outcome: FetchOutcome<Option<seq<Category>>>)
      returns (r: ApiResponse<Option<seq<Category>>>, sent: HttpRequest)
      requires Valid()
      modifies this`isOfflineMode
      ensures Valid()
      ensures sent == RequestFor("/master/categories", "GET", None)
      ensures isOfflineMode == LatchAfter(old(isOfflineMode), developmentMode, outcome)
      ensures r == WithFallback(Classify(outcome, isOfflineMode), isOfflineMode, Some(Some(FallbackCategories)))
    {
      r, sent := RequestWithFallback("/master/categories", "GET", None, Some(Some(FallbackCategories)), outcome);
    }

    method GetParkingState(outcome: FetchOutcome<Option<seq<ZoneState>>>)
      returns (r: ApiResponse<Option<seq<ZoneState>>>, sent: HttpRequest)
      requires Valid()
      modifies this`isOfflineMode
      ensures Valid()
      ensures sent == RequestFor("/admin/reports/parking-state", "GET", None)
      ensures isOfflineMode == LatchAfter(old(isOfflineMode), developmentMode, outcome)
      ensures r == WithFallback(Classify(outcome, isOfflineMode), isOfflineMode, Some(Some(FallbackParkingState)))
    {
      r, sent := RequestWithFallback("/admin/reports/parking-state", "GET", None, Some(Some(FallbackParkingState)), outcome);
    }

    method GetSubscriptions(outcome: FetchOutcome<Option<seq<Subscription>>>)
      returns (r: ApiResponse<Option<seq<Subscription>>>, sent: HttpRequest)
      requires Valid()
      modifies this`isOfflineMode
      ensures Valid()
      ensures sent == RequestFor("/admin/subscriptions", "GET", None)
      ensures isOfflineMode == LatchAfter(old(isOfflineMode), developmentMode, outcome)
      ensures r == WithFallback(Classify(outcome, isOfflineMode), isOfflineMode, Some(Some(FallbackSubscriptions)))
    {
      r, sent := RequestWithFallback("/admin/subscriptions", "GET", None, Some(Some(FallbackSubscriptions)), outcome);
    }

    method GetSubscription(id: string, outcome: FetchOutcome<Json>)
      returns (r: ApiResponse<Json>, sent: HttpRequest)
      requires Valid()
      modifies this`isOfflineMode
      ensures Valid()
      ensures sent == RequestFor("/subscriptions/" + id, "GET", None)
      ensures isOfflineMode == LatchAfter(old(isOfflineMode), developmentMode, outcome)
      ensures r == Classify(outcome, isOfflineMode)
    {
      r, sent := Request("/subscriptions/" + id, "GET", None, outcome);
    }

    method Checkin(form: CheckinForm, outcome: FetchOutcome<Json>)
      returns (r: ApiResponse<Json>, sent: HttpRequest)
      requires Valid()
      modifies this`isOfflineMode
      ensures Valid()
      ensures sent == RequestFor("/tickets/checkin", "POST", Some(CheckinBody(form)))
      ensures isOfflineMode == LatchAfter(old(isOfflineMode), developmentMode, outcome)
      ensures r == Classify(outcome, isOfflineMode)
    {
      r, sent := Request("/tickets/checkin", "POST", Some(CheckinBody(form)), outcome);
    }

    method Checkout(form: CheckoutForm, outcome: FetchOutcome<Json>)
      returns (r: ApiResponse<Json>, sent: HttpRequest)
      requires Valid()
      modifies this`isOfflineMode
      ensures Valid()
      ensures sent == RequestFor("/tickets/checkout", "POST", Some(CheckoutBody(form)))
      ensures isOfflineMode == LatchAfter(old(isOfflineMode), developmentMode, outcome)
      ensures r == Classify(outcome, isOfflineMode)
    {
      r, sent := Request("/tickets/checkout", "POST", Some(CheckoutBody(form)), outcome);
    }

    method GetTicket(id: string, outcome: FetchOutcome<Json>)
      returns (r: ApiResponse<Json>, sent: HttpRequest)
      requires Valid()
      modifies this`isOfflineMode
      ensures Valid()
      ensures sent == RequestFor("/tickets/" + id, "GET", None)
      ensures isOfflineMode == LatchAfter(old(isOfflineMode), developmentMode, outcome)
      ensures r == Classify(outcome, isOfflineMode)
    {
      r, sent := Request("/tickets/" + id, "GET", None, outcome);
    }

    /** `updateCategory`: while degraded, no request and the data echoed with
        its id; otherwise a PUT of the data. */
    method UpdateCategory(id: string, data: map<string, Json>, outcome: FetchOutcome<Json>)
      returns (r: ApiResponse<Json>, sent: Option<HttpRequest>)
      requires Valid()
      modifies this`isOfflineMode
      ensures Valid()
      ensures isOfflineMode == LatchAfter(old(isOfflineMode), developmentMode, outcome)
      ensures sent == if old(isOfflineMode) then None
                      else Some(RequestFor("/admin/categories/" + id, "PUT", Some(JObj(data))))
      ensures r == MutatorResult(old(isOfflineMode), developmentMode, CategoryEcho(id, data), outcome)
    {
      if isOfflineMode {
        return Success(CategoryEcho(id, data)), None;
      }
      var request;
      r, request := Request("/admin/categories/" + id, "PUT", Some(JObj(data)), outcome);
      sent := Some(request);
    }

    /** `toggleZone`: while degraded, no request and `{ zoneId, open }`
        echoed; otherwise a PUT of `{ open }`. */
    method ToggleZone(zoneId: string, action: ZoneAction, outcome: FetchOutcome<Json>)
      returns (r: ApiResponse<Json>, sent: Option<HttpRequest>)
      requires Valid()
      modifies this`isOfflineMode
      ensures Valid()
      ensures isOfflineMode == LatchAfter(old(isOfflineMode), developmentMode, outcome)
      ensures sent == if old(isOfflineMode) then None
                      else Some(RequestFor("/admin/zones/" + zoneId + "/open", "PUT",
                                           Some(JObj(map["open" := JBool(action == OpenZone)]))))
      ensures r == MutatorResult(old(isOfflineMode), developmentMode, ToggleEcho(zoneId, action), outcome)
    {
      var open := action == OpenZone;
      if isOfflineMode {
        return Success(ToggleEcho(zoneId, action)), None;
      }
      var request;
      r, request := Request("/admin/zones/" + zoneId + "/open", "PUT", Some(JObj(map["open" := JBool(open)])), outcome);
      sent := Some(request);
    }

    method AddRushHour(weekDay: int, from: string, to: string, now: nat, outcome: FetchOutcome<Json>)
      returns (r: ApiResponse<Json>, sent: Option<HttpRequest>)
      requires Valid()
      modifies this`isOfflineMode
      ensures Valid()
      ensures isOfflineMode == LatchAfter(old(isOfflineMode), developmentMode, outcome)
      ensures sent == if old(isOfflineMode) then None
                      else Some(RequestFor("/admin/rush-hours", "POST", Some(JObj(RushHourData(weekDay, from, to)))))
      ensures r == MutatorResult(old(isOfflineMode), developmentMode,
                                 WithTimestampId("rush_", now, RushHourData(weekDay, from, to)), outcome)
    {
      var data := RushHourData(weekDay, from, to);
      if isOfflineMode {
        return Success(WithTimestampId("rush_", now, data)), None;
      }
      var request;
      r, request := Request("/admin/rush-hours", "POST", Some(JObj(data)), outcome);
      sent := Some(request);
    }

    method AddVacation(name: string, from: string, to: string, now: nat, outcome: FetchOutcome<Json>)
      returns (r: ApiResponse<Json>, sent: Option<HttpRequest>)
      requires Valid()
      modifies this`isOfflineMode
      ensures Valid()
      ensures isOfflineMode == LatchAfter(old(isOfflineMode), developmentMode, outcome)
      ensures sent == if old(isOfflineMode) then None
                      else Some(RequestFor("/admin/vacations", "POST", Some(JObj(VacationData(name, from, to)))))
      ensures r == MutatorResult(old(isOfflineMode), developmentMode,
                                 WithTimestampId("vac_", now, VacationData(name, from, to)), outcome)
    {
      var data := VacationData(name, from, to);
      if isOfflineMode {
        return Success(WithTimestampId("vac_", now, data)), None;
      }
      var request;
      r, request := Request("/admin/vacations", "POST", Some(JObj(data)), outcome);
      sent := Some(request);
    }
  }

  /** A simulated rush hour or vacation carries the form's fields next to
      its id. */
  lemma SimulatedEchoes(now: nat, weekDay: int, name: string, from: string, to: string)
    ensures var e := WithTimestampId("rush_", now, RushHourData(weekDay, from, to));
            && e.fields.Keys == {"id", "weekDay", "from", "to"}
            && e.fields["weekDay"] == JNum(weekDay) && e.fields["from"] == JStr(from) && e.fields["to"] == JStr(to)
    ensures var e := WithTimestampId("vac_", now, VacationData(name, from, to));
            && e.fields.Keys == {"id", "name", "from", "to"}
            && e.fields["name"] == JStr(name) && e.fields["from"] == JStr(from) && e.fields["to"] == JStr(to)
  {
    var rush := RushHourData(weekDay, from, to);
    var vacation := VacationData(name, from, to);
    assert rush.Keys == {"weekDay", "from", "to"};
    assert vacation.Keys == {"name", "from", "to"};
  }

  /** The ids of simulated rush hours and vacations tell the two kinds apart
      and, within a kind, the times they were created at. */
  lemma SimulatedEchoIds(now: nat, later: nat, rush: map<string, Json>, vacation: map<string, Json>)
    requires "id" !in rush && "id" !in vacation
    ensures WithTimestampId("rush_", now, rush).fields["id"] != WithTimestampId("vac_", later, vacation).fields["id"]
    ensures now != later ==> WithTimestampId("rush_", now, rush).fields["id"] != WithTimestampId("rush_", later, rush).fields["id"]
    ensures now != later ==> WithTimestampId("vac_", now, vacation).fields["id"] != WithTimestampId("vac_", later, vacation).fields["id"]
  {
    var r1 := WithTimestampId("rush_", now, rush).fields["id"].s;
    var v2 := WithTimestampId("vac_", later, vacation).fields["id"].s;
    assert r1[0] == r1[..5][0] == 'r';
    assert v2[0] == v2[..4][0] == 'v';
  }
}
