/** The top-level screen of app/page.tsx: the checks its form handlers make
    before they call `ApiClient`, the local zone update after a toggle, the
    logout, and the zones shown for the selected gate. React state is the
    fields of `ParkingPage`; toasts are returned as messages. */
module Page {
  import opened Text
  import opened Parking
  import opened Http
  import opened Accounts
  import opened Api

  const LoginBlankMessage := "Please enter both username and password"
  const InvalidCredentialsFallback := "Invalid credentials"
  const RegisteredNoticeFallback := "Account created successfully. Please sign in."
  const RegisterFailedFallback := "Unable to create account"
  const FillAllFieldsMessage := "Please fill in all fields"
  const PasswordsMismatchMessage := "Passwords do not match"
  const RushHourFieldsMessage := "Please fill in all rush hour fields"
  const WeekDayRangeMessage := "Weekday must be between 0 (Sunday) and 6 (Saturday)"
  const RushHourOrderMessage := "Start time must be before end time"
  const RushHourFailedMessage := "Failed to add rush hour"
  const VacationFieldsMessage := "Please fill in all vacation period fields"
  const VacationOrderMessage := "Start date must be before end date"
  const VacationFailedMessage := "Failed to add vacation period"

  /** Some character of `s` is not white space, so `s.trim()` is truthy. */
  predicate HasVisible(s: string)
  {
    exists i :: 0 <= i < |s| && !IsSpace(s[i])
  }

  /** The check at the head of `handleLogin`. */
  function LoginValidation(username: string, password: string): (r: Option<string>)
    ensures r.None? <==> HasVisible(username) && HasVisible(password)
    ensures r.Some? ==> r.value == LoginBlankMessage
  {
    if IsBlank(username) || IsBlank(password) then Some(LoginBlankMessage) else None
  }

  /** The checks of `handleRegister`, in order; the lengths are those of the
      untrimmed input. */
  function RegisterValidation(username: string, password: string, confirm: string): (r: Option<string>)
    ensures r == Some(FillAllFieldsMessage) <==> !(HasVisible(username) && HasVisible(password) && HasVisible(confirm))
    ensures r == Some(UsernameTooShortMessage) <==>
              HasVisible(username) && HasVisible(password) && HasVisible(confirm) && |username| < 3
    ensures r == Some(PasswordTooShortMessage) <==>
              HasVisible(username) && HasVisible(password) && HasVisible(confirm) && |username| >= 3 && |password| < 6
    ensures r == Some(PasswordsMismatchMessage) <==>
              HasVisible(username) && HasVisible(password) && HasVisible(confirm) && |username| >= 3 && |password| >= 6
              && password != confirm
    ensures r.None? <==>
              HasVisible(username) && HasVisible(password) && HasVisible(confirm) && |username| >= 3 && |password| >= 6
              && password == confirm
  {
    if IsBlank(username) || IsBlank(password) || IsBlank(confirm) then Some(FillAllFieldsMessage)
    else if |username| < 3 then Some(UsernameTooShortMessage)
    else if |password| < 6 then Some(PasswordTooShortMessage)
    else if password != confirm then Some(PasswordsMismatchMessage)
    else None
  }

  /** What the page lets through, `register` no longer rejects for length:
      only a taken name can still fail. */
  lemma PageChecksCoverLengths(username: string, password: string, confirm: string, registered: seq<Account>)
    requires RegisterValidation(username, password, confirm) == None
    ensures RegistrationError(username, password, registered) in {None, Some(UsernameTakenMessage)}
  {
  }

  /** The rush-hour form as typed: the week day is still text. */
  datatype RushHourForm = RushHourForm(weekDay: string, from: string, to: string)
  datatype VacationForm = VacationForm(name: string, from: string, to: string)

  const EmptyRushHourForm := RushHourForm("", "", "")
  const EmptyVacationForm := VacationForm("", "", "")

  /** The checks of `handleAddRushHour`; `weekDay` is `Number.parseInt` of
      the typed week day. `from >= to` on strings is `!(from < to)`. */
  function RushHourValidation(form: RushHourForm, weekDay: int): (r: Option<string>)
    ensures r == Some(RushHourFieldsMessage) <==> form.weekDay == "" || form.from == "" || form.to == ""
    ensures r == Some(WeekDayRangeMessage) <==>
              form.weekDay != "" && form.from != "" && form.to != "" && !(0 <= weekDay <= 6)
    ensures r == Some(RushHourOrderMessage) <==>
              form.weekDay != "" && form.from != "" && form.to != "" && 0 <= weekDay <= 6 && !Less(form.from, form.to)
    ensures r.None? <==>
              form.weekDay != "" && form.from != "" && form.to != "" && 0 <= weekDay <= 6 && Less(form.from, form.to)
  {
    if form.weekDay == "" || form.from == "" || form.to == "" then Some(RushHourFieldsMessage)
    else if weekDay < 0 || weekDay > 6 then Some(WeekDayRangeMessage)
    else if !Less(form.from, form.to) then Some(RushHourOrderMessage)
    else None
  }

  /** The checks of `handleAddVacation`: only the name is trimmed. */
  function VacationValidation(form: VacationForm): (r: Option<string>)
    ensures r == Some(VacationFieldsMessage) <==> !HasVisible(form.name) || form.from == "" || form.to == ""
    ensures r == Some(VacationOrderMessage) <==>
              HasVisible(form.name) && form.from != "" && form.to != "" && !Less(form.from, form.to)
    ensures r.None? <==> HasVisible(form.name) && form.from != "" && form.to != "" && Less(form.from, form.to)
  {
    if IsBlank(form.name) || form.from == "" || form.to == "" then Some(VacationFieldsMessage)
    else if !Less(form.from, form.to) then Some(VacationOrderMessage)
    else None
  }

  /** An accepted rush hour or vacation is a proper interval: its start
      differs from its end and the end does not come first. */
  lemma AcceptedIntervalsAreProper(rush: RushHourForm, weekDay: int, vacation: VacationForm)
    ensures RushHourValidation(rush, weekDay).None? ==> rush.from != rush.to && !Less(rush.to, rush.from)
    ensures VacationValidation(vacation).None? ==> vacation.from != vacation.to && !Less(vacation.to, vacation.from)
  {
    LessTrichotomy(rush.from, rush.to);
    LessTrichotomy(vacation.from, vacation.to);
  }

  /** `isOpen ? "close" : "open"` */
  function ToggleAction(isOpen: bool): (a: ZoneAction)
    ensures a == CloseZone <==> isOpen
  {
    if isOpen then CloseZone else OpenZone
  }

  /** The `setZones` update after a successful toggle: every zone with the id
      gets `open` set to `!isOpen`, nothing else changes. */
  function ApplyToggle(zones: seq<Zone>, zoneId: string, isOpen: bool): (r: seq<Zone>)
    ensures |r| == |zones|
    ensures forall i :: 0 <= i < |zones| ==> r[i].(open := zones[i].open) == zones[i]
    ensures forall i :: 0 <= i < |zones| ==> r[i].open == if zones[i].id == zoneId then !isOpen else zones[i].open
  {
    seq(|zones|, i requires 0 <= i < |zones| => if zones[i].id == zoneId then zones[i].(open := !isOpen) else zones[i])
  }

  /** Toggling a zone and toggling it back restores the list, and the state the
      list takes is the one a simulated toggle echoes. */
  lemma ToggleRoundTrip(zones: seq<Zone>, zoneId: string, isOpen: bool)
    requires forall i :: 0 <= i < |zones| && zones[i].id == zoneId ==> zones[i].open == isOpen
    ensures ApplyToggle(ApplyToggle(zones, zoneId, isOpen), zoneId, !isOpen) == zones
    ensures ToggleEcho(zoneId, ToggleAction(isOpen)).fields["open"] == JBool(!isOpen)
  {
    var back := ApplyToggle(ApplyToggle(zones, zoneId, isOpen), zoneId, !isOpen);
    assert forall i :: 0 <= i < |zones| ==> back[i] == zones[i];
  }

  /** `filteredZones`: all zones unless a selected gate is found, then the
      zones that gate serves, in their order. */
  function FilteredZones(zones: seq<Zone>, gates: seq<Gate>, selectedGate: string): (r: seq<Zone>)
    ensures selectedGate == "" || (forall g :: g in gates ==> g.id != selectedGate) ==> r == zones
    ensures selectedGate != "" && (exists g :: g in gates && g.id == selectedGate) ==>
              forall z :: z in r <==> z in zones && z.id in FindGate(gates, selectedGate).value.zoneIds
    ensures selectedGate != "" && FindGate(gates, selectedGate).Some? ==>
              r == ZonesIn(zones, FindGate(gates, selectedGate).value.zoneIds)
  {
    if selectedGate == "" then zones
    else match FindGate(gates, selectedGate)
      case None => zones
      case Some(g) => ZonesIn(zones, g.zoneIds)
  }

  /** Filtering what is already filtered changes nothing. */
  lemma FilteredZonesIdempotent(zones: seq<Zone>, gates: seq<Gate>, selectedGate: string)
    ensures FilteredZones(FilteredZones(zones, gates, selectedGate), gates, selectedGate)
            == FilteredZones(zones, gates, selectedGate)
  {
    if selectedGate != "" && FindGate(gates, selectedGate).Some? {
      ZonesInIdempotent(zones, FindGate(gates, selectedGate).value.zoneIds);
    }
  }

  /** The answers `loadInitialData` acts on: the gates, then the zones, each
      with its fallback, and the latch once both requests are settled. */
  datatype InitialData = InitialData(gates: ApiResponse<Option<seq<Gate>>>, zones: ApiResponse<Option<seq<Zone>>>,
                                     latch: bool)

  function InitialLoad(latch: bool, developmentMode: bool, gatesOutcome: FetchOutcome<Option<seq<Gate>>>,
                       zonesOutcome: FetchOutcome<Option<seq<Zone>>>): (d: InitialData)
    ensures latch ==> d.latch && d.gates.Success? && d.zones.Success?
    ensures d.latch ==> d.zones.Success?
    ensures d.latch == LatchAfter(LatchAfter(latch, developmentMode, gatesOutcome), developmentMode, zonesOutcome)
  {
    var latch1 := LatchAfter(latch, developmentMode, gatesOutcome);
    var latch2 := LatchAfter(latch1, developmentMode, zonesOutcome);
    InitialData(WithFallback(Classify(gatesOutcome, latch1), latch1, Some(Some(FallbackGates))),
                WithFallback(Classify(zonesOutcome, latch2), latch2, Some(Some(FallbackZones))), latch2)
  }

  /** The gate selected after a gates answer: the first gate it lists, if any. */
  function SelectedAfter(current: string, answer: ApiResponse<Option<seq<Gate>>>): (id: string)
    ensures id != current ==> answer.Success? && answer.data.Some? && |answer.data.value| > 0
    ensures answer.Success? && answer.data.Some? && |answer.data.value| > 0 ==> id == answer.data.value[0].id
  {
    if answer.Success? && answer.data.Some? && |answer.data.value| > 0 then answer.data.value[0].id else current
  }

  class ParkingPage {
    const api: ApiClient
    var user: Option<User>
    var zones: seq<Zone>
    var gates: seq<Gate>
    var selectedGate: string
    var rushHourForm: RushHourForm
    var vacationForm: VacationForm

    ghost predicate Valid()
      reads this, api
    {
      api.Valid()
    }

    /** The screen shows the initial data `d`, loaded over the gates, zones
        and selected gate it held before. */
    ghost predicate Shows(d: InitialData, gates0: seq<Gate>, zones0: seq<Zone>, selected0: string)
      reads this, api
    {
      && api.isOfflineMode == d.latch
      && gates == Replaced(gates0, d.gates)
      && selectedGate == SelectedAfter(selected0, d.gates)
      && zones == Replaced(zones0, d.zones)
    }

    /** After a successful login with `data`, from a screen whose storage,
        gates, zones and selected gate were `storage0`, `gates0`, `zones0` and
        `selected0`: the user is set, the token is held and stored, and the
        initial data `d` is shown. */
    ghost predicate SignedIn(data: LoginData, d: InitialData, storage0: map<string, StoredValue>,
                             gates0: seq<Gate>, zones0: seq<Zone>, selected0: string)
      reads this, api
    {
      && user == Some(data.user) && api.token == Some(data.token)
      && api.storage == (if api.inBrowser then storage0[TokenKey := StoredText(data.token)] else storage0)
      && Shows(d, gates0, zones0, selected0)
    }

    constructor (api: ApiClient)
      requires api.Valid()
      ensures Valid() && this.api == api
      ensures user == None && zones == [] && gates == [] && selectedGate == ""
      ensures rushHourForm == EmptyRushHourForm && vacationForm == EmptyVacationForm
    {
      this.api := api;
      user := None;
      zones := [];
      gates := [];
      selectedGate := "";
      rushHourForm := EmptyRushHourForm;
      vacationForm := EmptyVacationForm;
    }

    /** `loadInitialData`: gates, then zones, each list replaced only by a
        successful answer with data, and the first gate selected. */
    method LoadInitialData(gatesOutcome: FetchOutcome<Option<seq<Gate>>>, zonesOutcome: FetchOutcome<Option<seq<Zone>>>)
      requires Valid()
      modifies this`gates, this`zones, this`selectedGate, api`isOfflineMode
      ensures Valid()
      ensures Shows(InitialLoad(old(api.isOfflineMode), api.developmentMode, gatesOutcome, zonesOutcome), old(gates), old(zones), old(selectedGate))
    {
      ghost var d := InitialLoad(api.isOfflineMode, api.developmentMode, gatesOutcome, zonesOutcome);
      var gatesResponse, _ := api.GetGates(gatesOutcome);
      assert gatesResponse == d.gates;
      var zonesResponse, _ := api.GetZones("", zonesOutcome);
      assert zonesResponse == d.zones && api.isOfflineMode == d.latch;
      ShowGates(gatesResponse);
      ShowZones(zonesResponse);
    }

    /** A gates answer with data replaces the gate list and selects its first
        gate, if it has one. */
    method ShowGates(answer: ApiResponse<Option<seq<Gate>>>)
      modifies this`gates, this`selectedGate
      ensures gates == Replaced(old(gates), answer)
      ensures selectedGate == SelectedAfter(old(selectedGate), answer)
    {
      if answer.Success? && answer.data.Some? {
        gates := answer.data.value;
        if |gates| > 0 {
          selectedGate := gates[0].id;
        }
      }
    }

    /** A zones answer with data replaces the zone list. */
    method ShowZones(answer: ApiResponse<Option<seq<Zone>>>)
      modifies this`zones
      ensures zones == Replaced(old(zones), answer)
    {
      if answer.Success? && answer.data.Some? {
        zones := answer.data.value;
      }
    }

    /** The success branch of `handleLogin`: the token is kept, the user set
        and the initial data loaded. */
    method SignIn(data: LoginData, gatesOutcome: FetchOutcome<Option<seq<Gate>>>, zonesOutcome: FetchOutcome<Option<seq<Zone>>>)
      requires Valid()
      modifies this`user, this`gates, this`zones, this`selectedGate, api`token, api`storage, api`isOfflineMode
      ensures Valid()
      ensures SignedIn(data, InitialLoad(old(api.isOfflineMode), api.developmentMode, gatesOutcome, zonesOutcome),
                       old(api.storage), old(gates), old(zones), old(selectedGate))
    {
      api.SetToken(data.token);
      user := Some(data.user);
      LoadInitialData(gatesOutcome, zonesOutcome);
    }

    /** `handleLogin`: blank input never reaches `login`; otherwise the
        login is submitted. */
    method HandleLogin(username: string, password: string, outcome: FetchOutcome<LoginData>,
                       gatesOutcome: FetchOutcome<Option<seq<Gate>>>, zonesOutcome: FetchOutcome<Option<seq<Zone>>>)
      returns (failure: Option<string>)
      requires Valid()
      modifies this`user, this`gates, this`zones, this`selectedGate, api`token, api`storage, api`isOfflineMode
      ensures Valid()
      ensures rushHourForm == old(rushHourForm) && vacationForm == old(vacationForm)
      ensures LoginValidation(username, password).Some? ==>
                failure == LoginValidation(username, password) && unchanged(this) && unchanged(api)
      ensures LoginValidation(username, password).None? ==>
                LoginSettled(username, password, outcome, gatesOutcome, zonesOutcome, failure, old(api.isOfflineMode),
                             old(api.token), old(api.storage), old(user), old(gates), old(zones), old(selectedGate))
    {
      failure := LoginValidation(username, password);
      if failure.Some? {
        return;
      }
      failure := SubmitLogin(username, password, outcome, gatesOutcome, zonesOutcome);
    }

    /** Where a submitted login leaves the screen, given the latch, token,
        storage, user, gates, zones and selected gate it started from: a
        successful login signs in and loads the initial data after the
        login's own latch; a failed one reports its error and changes nothing
        but the latch. */
    ghost predicate LoginSettled(username: string, password: string, outcome: FetchOutcome<LoginData>,
                                 gatesOutcome: FetchOutcome<Option<seq<Gate>>>,
                                 zonesOutcome: FetchOutcome<Option<seq<Zone>>>, failure: Option<string>,
                                 latch0: bool, token0: Option<string>, storage0: map<string, StoredValue>,
                                 user0: Option<User>, gates0: seq<Gate>, zones0: seq<Zone>, selected0: string)
      reads this, api
    {
      var latch := LatchAfter(latch0, api.developmentMode, outcome);
      var r := LoginResult(Classify(outcome, latch), latch, username, password);
      && (failure.None? <==> r.Success?)
      && (r.Success? ==>
            SignedIn(r.data, InitialLoad(latch, api.developmentMode, gatesOutcome, zonesOutcome),
                     storage0, gates0, zones0, selected0))
      && (r.Error? ==> failure == Some(r.message) && api.isOfflineMode == latch
                       && user == user0 && zones == zones0 && gates == gates0 && selectedGate == selected0
                       && api.token == token0 && api.storage == storage0)
    }

    /** The part of `handleLogin` after its checks: `login`, then what its
        answer does to the screen. */
    method SubmitLogin(username: string, password: string, outcome: FetchOutcome<LoginData>,
                       gatesOutcome: FetchOutcome<Option<seq<Gate>>>, zonesOutcome: FetchOutcome<Option<seq<Zone>>>)
      returns (failure: Option<string>)
      requires Valid()
      modifies this`user, this`gates, this`zones, this`selectedGate, api`token, api`storage, api`isOfflineMode
      ensures Valid()
      ensures LoginSettled(username, password, outcome, gatesOutcome, zonesOutcome, failure, old(api.isOfflineMode),
                           old(api.token), old(api.storage), old(user), old(gates), old(zones), old(selectedGate))
    {
      var response, _ := api.Login(username, password, outcome);
      LoginErrorsExplained(Classify(outcome, api.isOfflineMode), api.isOfflineMode, username, password);
      failure := Settle(response, gatesOutcome, zonesOutcome);
    }

    /** The answer of `login` as `handleLogin` acts on it: success signs in,
        an error is reported and nothing else changes. */
    method Settle(response: ApiResponse<LoginData>, gatesOutcome: FetchOutcome<Option<seq<Gate>>>,
                  zonesOutcome: FetchOutcome<Option<seq<Zone>>>)
      returns (failure: Option<string>)
      requires Valid()
      requires response.Error? ==> response.message != ""
      modifies this`user, this`gates, this`zones, this`selectedGate, api`token, api`storage, api`isOfflineMode
      ensures Valid()
      ensures response.Success? ==>
                && failure.None?
                && SignedIn(response.data, InitialLoad(old(api.isOfflineMode), api.developmentMode, gatesOutcome, zonesOutcome),
                            old(api.storage), old(gates), old(zones), old(selectedGate))
      ensures response.Error? ==> failure == Some(response.message) && unchanged(this) && unchanged(api)
    {
      if response.Success? {
        SignIn(response.data, gatesOutcome, zonesOutcome);
        failure := None;
      } else {
        failure := Some(if response.message != "" then response.message else InvalidCredentialsFallback);
      }
    }

    /** `handleRegister`: the page's checks, then `register`; `notice` is the
        success message shown. */
    method HandleRegister(username: string, password: string, confirm: string, role: Role, now: nat, registeredAt: string)
      returns (failure: Option<string>, notice: Option<string>)
      requires Valid()
      modifies api`storage
      ensures Valid()
      ensures RegisterValidation(username, password, confirm).Some? ==>
                failure == RegisterValidation(username, password, confirm) && notice.None? && api.storage == old(api.storage)
      ensures RegisterValidation(username, password, confirm).None? ==>
                var registered := RegisteredAccounts(old(api.storage));
                var e := RegistrationError(username, password, registered);
                && (e.Some? ==> failure == Some(UsernameTakenMessage) && notice.None? && api.storage == old(api.storage))
                && (e.None? ==> failure.None? && notice == Some(AccountCreatedMessage)
                                && api.storage == if api.inBrowser
                                                  then old(api.storage)[UsersKey := StoredAccounts(
                                                         registered + [NewAccount(username, role, now, registeredAt)])]
                                                  else old(api.storage))
    {
      notice := None;
      failure := RegisterValidation(username, password, confirm);
      if failure.Some? {
        return;
      }
      PageChecksCoverLengths(username, password, confirm, RegisteredAccounts(api.storage));
      var response := api.Register(username, password, role, now, registeredAt);
      if response.Success? {
        notice := Some(if response.data.message != "" then response.data.message else RegisteredNoticeFallback);
      } else {
        failure := Some(if response.message != "" then response.message else RegisterFailedFallback);
      }
    }

    /** The gate buttons of the main screen: picking a listed gate selects
        it, and the zones shown become the ones that gate serves. */
    method SelectGate(gateId: string)
      requires exists g :: g in gates && g.id == gateId
      modifies this`selectedGate
      ensures selectedGate == gateId
      ensures gateId != "" ==>
                forall z :: z in FilteredZones(zones, gates, selectedGate) <==>
                              z in zones && z.id in FindGate(gates, gateId).value.zoneIds
    {
      selectedGate := gateId;
    }

    /** `handleLogout`: the token becomes "" (not removed), so the slot holds
        "" and no later request carries a credential. The selected gate is
        kept. */
    method HandleLogout()
      requires Valid()
      modifies this`user, this`zones, this`gates, api`token, api`storage
      ensures Valid()
      ensures user == None && zones == [] && gates == []
      ensures api.token == Some("")
      ensures "Authorization" !in AuthHeaders(api.token)
      ensures api.storage == if api.inBrowser then old(api.storage)[TokenKey := StoredText("")] else old(api.storage)
    {
      user := None;
      zones := [];
      gates := [];
      api.SetToken("");
    }

    /** `handleToggleZone`: closes an open zone and opens a closed one; the
        list changes only on success. */
    method HandleToggleZone(zoneId: string, isOpen: bool, outcome: FetchOutcome<Json>)
      requires Valid()
      modifies this`zones, api`isOfflineMode
      ensures Valid()
      ensures api.isOfflineMode == LatchAfter(old(api.isOfflineMode), api.developmentMode, outcome)
      ensures var r := MutatorResult(old(api.isOfflineMode), api.developmentMode, ToggleEcho(zoneId, ToggleAction(isOpen)), outcome);
              zones == if r.Success? then ApplyToggle(old(zones), zoneId, isOpen) else old(zones)
    {
      var response, _ := api.ToggleZone(zoneId, ToggleAction(isOpen), outcome);
      if response.Success? {
        zones := ApplyToggle(zones, zoneId, isOpen);
      }
    }

    /** `handleAddRushHour`: the form is cleared only on success. */
    method HandleAddRushHour(weekDay: int, now: nat, outcome: FetchOutcome<Json>) returns (failure: Option<string>)
      requires Valid()
      modifies this`rushHourForm, api`isOfflineMode
      ensures Valid()
      ensures RushHourValidation(old(rushHourForm), weekDay).Some? ==>
                && failure == RushHourValidation(old(rushHourForm), weekDay)
                && rushHourForm == old(rushHourForm) && api.isOfflineMode == old(api.isOfflineMode)
      ensures RushHourValidation(old(rushHourForm), weekDay).None? ==>
                var f := old(rushHourForm);
                var r := MutatorResult(old(api.isOfflineMode), api.developmentMode,
                                       WithTimestampId("rush_", now, RushHourData(weekDay, f.from, f.to)), outcome);
                && api.isOfflineMode == LatchAfter(old(api.isOfflineMode), api.developmentMode, outcome)
                && (r.Success? ==> failure.None? && rushHourForm == EmptyRushHourForm)
                && (r.Error? ==> failure == Some(r.message) && rushHourForm == f)
    {
      failure := RushHourValidation(rushHourForm, weekDay);
      if failure.Some? {
        return;
      }
      var response, _ := api.AddRushHour(weekDay, rushHourForm.from, rushHourForm.to, now, outcome);
      if response.Success? {
        rushHourForm := EmptyRushHourForm;
      } else {
        failure := Some(if response.message != "" then response.message else RushHourFailedMessage);
      }
    }

    /** `handleAddVacation`: the form is cleared only on success. */
    method HandleAddVacation(now: nat, outcome: FetchOutcome<Json>) returns (failure: Option<string>)
      requires Valid()
      modifies this`vacationForm, api`isOfflineMode
      ensures Valid()
      ensures VacationValidation(old(vacationForm)).Some? ==>
                && failure == VacationValidation(old(vacationForm))
                && vacationForm == old(vacationForm) && api.isOfflineMode == old(api.isOfflineMode)
      ensures VacationValidation(old(vacationForm)).None? ==>
                var f := old(vacationForm);
                var r := MutatorResult(old(api.isOfflineMode), api.developmentMode,
                                       WithTimestampId("vac_", now, VacationData(f.name, f.from, f.to)), outcome);
                && api.isOfflineMode == LatchAfter(old(api.isOfflineMode), api.developmentMode, outcome)
                && (r.Success? ==> failure.None? && vacationForm == EmptyVacationForm)
                && (r.Error? ==> failure == Some(r.message) && vacationForm == f)
    {
      failure := VacationValidation(vacationForm);
      if failure.Some? {
        return;
      }
      var response, _ := api.AddVacation(vacationForm.name, vacationForm.from, vacationForm.to, now, outcome);
      if response.Success? {
        vacationForm := EmptyVacationForm;
      } else {
        failure := Some(if response.message != "" then response.message else VacationFailedMessage);
      }
    }
  }
}
