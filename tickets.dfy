/** The ticket screen of components/tickets/TicketManagement.tsx: the zones
    offered for the chosen gate, the check-in form's gate selector, and the
    check-in and check-out handlers that clear their form only on success. */
module Tickets {
  import opened Parking
  import opened Http
  import opened Api
  import Page

  /** The filter test of `availableZones` for one zone: with no gate chosen
      every zone passes; otherwise the zone must be served by the first gate
      with that id, and an unknown gate lets nothing through. */
  predicate Offered(gates: seq<Gate>, gateId: string, zone: Zone)
  {
    gateId == "" || (FindGate(gates, gateId).Some? && zone.id in FindGate(gates, gateId).value.zoneIds)
  }

  /** `availableZones` */
  function AvailableZones(zones: seq<Zone>, gates: seq<Gate>, gateId: string): (r: seq<Zone>)
    ensures gateId == "" ==> r == zones
    ensures gateId != "" && (forall g :: g in gates ==> g.id != gateId) ==> r == []
    ensures gateId != "" && FindGate(gates, gateId).Some? ==> r == ZonesIn(zones, FindGate(gates, gateId).value.zoneIds)
  {
    if zones == [] then []
    else (if Offered(gates, gateId, zones[0]) then [zones[0]] else []) + AvailableZones(zones[1..], gates, gateId)
  }

  /** The ticket screen and the main screen agree on the zones of a known
      gate and with no gate chosen; for an id no gate has, the main screen
      shows every zone and the ticket screen none. */
  lemma TicketZonesVersusPageZones(zones: seq<Zone>, gates: seq<Gate>, gateId: string)
    ensures gateId == "" || FindGate(gates, gateId).Some? ==>
              AvailableZones(zones, gates, gateId) == Page.FilteredZones(zones, gates, gateId)
    ensures gateId != "" && FindGate(gates, gateId).None? ==>
              AvailableZones(zones, gates, gateId) == [] && Page.FilteredZones(zones, gates, gateId) == zones
  {
  }

  datatype Operation = CheckinOperation | CheckoutOperation

  const EmptyCheckinForm := CheckinForm("", "", Visitor, "")
  const EmptyCheckoutForm := CheckoutForm("", false)
  const CheckinFailedMessage := "Unable to process check-in"
  const CheckoutFailedMessage := "Unable to process check-out"

  class TicketPanel {
    const api: ApiClient
    var activeOperation: Option<Operation>
    var checkinForm: CheckinForm
    var checkoutForm: CheckoutForm

    ghost predicate Valid()
      reads this, api
    {
      api.Valid()
    }

    constructor (api: ApiClient)
      requires api.Valid()
      ensures Valid() && this.api == api
      ensures activeOperation == None && checkinForm == EmptyCheckinForm && checkoutForm == EmptyCheckoutForm
    {
      this.api := api;
      activeOperation := None;
      checkinForm := EmptyCheckinForm;
      checkoutForm := EmptyCheckoutForm;
    }

    /** The gate selector: a new gate clears the chosen zone, which may not
        belong to it. */
    method SelectGate(gateId: string)
      modifies this`checkinForm
      ensures checkinForm.gateId == gateId && checkinForm.zoneId == ""
      ensures checkinForm.ticketType == old(checkinForm.ticketType)
      ensures checkinForm.subscriptionId == old(checkinForm.subscriptionId)
    {
      checkinForm := checkinForm.(gateId := gateId, zoneId := "");
    }

    /** `handleCheckin`: the form is sent as it stands; success resets it and
        closes the operation, failure leaves both as they were. */
    method HandleCheckin(outcome: FetchOutcome<Json>) returns (failure: Option<string>, sent: HttpRequest)
      requires Valid()
      modifies this`checkinForm, this`activeOperation, api`isOfflineMode
      ensures Valid()
      ensures sent.body == Some(CheckinBody(old(checkinForm)))
      ensures api.isOfflineMode == LatchAfter(old(api.isOfflineMode), api.developmentMode, outcome)
      ensures var r := Classify(outcome, api.isOfflineMode);
              && (r.Success? ==> failure.None? && checkinForm == EmptyCheckinForm && activeOperation == None)
              && (r.Error? ==> failure == Some(r.message) && checkinForm == old(checkinForm)
                               && activeOperation == old(activeOperation))
    {
      var response;
      response, sent := api.Checkin(checkinForm, outcome);
      failure := None;
      if response.Success? {
        checkinForm := EmptyCheckinForm;
        activeOperation := None;
      } else {
        failure := Some(if response.message != "" then response.message else CheckinFailedMessage);
      }
    }

    /** `handleCheckout`, likewise with the check-out form. */
    method HandleCheckout(outcome: FetchOutcome<Json>) returns (failure: Option<string>, sent: HttpRequest)
      requires Valid()
      modifies this`checkoutForm, this`activeOperation, api`isOfflineMode
      ensures Valid()
      ensures sent.body == Some(CheckoutBody(old(checkoutForm)))
      ensures api.isOfflineMode == LatchAfter(old(api.isOfflineMode), api.developmentMode, outcome)
      ensures var r := Classify(outcome, api.isOfflineMode);
              && (r.Success? ==> failure.None? && checkoutForm == EmptyCheckoutForm && activeOperation == None)
              && (r.Error? ==> failure == Some(r.message) && checkoutForm == old(checkoutForm)
                               && activeOperation == old(activeOperation))
    {
      var response;
      response, sent := api.Checkout(checkoutForm, outcome);
      failure := None;
      if response.Success? {
        checkoutForm := EmptyCheckoutForm;
        activeOperation := None;
      } else {
        failure := Some(if response.message != "" then response.message else CheckoutFailedMessage);
      }
    }
  }
}
