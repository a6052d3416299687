/** The subscription screen of
    components/subscriptions/SubscriptionManagement.tsx: the status badge of
    a subscription and the list, replaced only by a successful load. */
module Subscriptions {
  import opened Parking
  import opened Http
  import opened Api

  const Gray := "bg-gray-500"
  const Green := "bg-green-500"
  const Blue := "bg-blue-500"
  const InactiveText := "Inactive"
  const CheckedInText := "Checked In"
  const ActiveText := "Active"

  /** `getStatusColor` */
  function StatusColor(s: Subscription): (c: string)
    ensures c == Gray <==> !s.active
    ensures c == Green <==> s.active && |s.currentCheckins| > 0
    ensures c == Blue <==> s.active && |s.currentCheckins| == 0
  {
    if !s.active then Gray
    else if |s.currentCheckins| > 0 then Green
    else Blue
  }

  /** `getStatusText` */
  function StatusText(s: Subscription): (t: string)
    ensures t == InactiveText <==> !s.active
    ensures t == CheckedInText <==> s.active && |s.currentCheckins| > 0
    ensures t == ActiveText <==> s.active && |s.currentCheckins| == 0
  {
    if !s.active then InactiveText
    else if |s.currentCheckins| > 0 then CheckedInText
    else ActiveText
  }

  /** The badge's colour and text always tell the same story. */
  lemma BadgeAgrees(s: Subscription)
    ensures StatusColor(s) == Gray <==> StatusText(s) == InactiveText
    ensures StatusColor(s) == Green <==> StatusText(s) == CheckedInText
    ensures StatusColor(s) == Blue <==> StatusText(s) == ActiveText
  {
  }

  class SubscriptionPanel {
    const api: ApiClient
    var subscriptions: seq<Subscription>

    ghost predicate Valid()
      reads this, api
    {
      api.Valid()
    }

    constructor (api: ApiClient)
      requires api.Valid()
      ensures Valid() && this.api == api && subscriptions == []
    {
      this.api := api;
      subscriptions := [];
    }

    /** `loadSubscriptions`: the list is replaced only by a successful answer
        that carries data; once degraded that answer is never an error. */
    method LoadSubscriptions(outcome: FetchOutcome<Option<seq<Subscription>>>)
      requires Valid()
      modifies this`subscriptions, api`isOfflineMode
      ensures Valid()
      ensures api.isOfflineMode == LatchAfter(old(api.isOfflineMode), api.developmentMode, outcome)
      ensures subscriptions == Replaced(old(subscriptions),
                                        WithFallback(Classify(outcome, api.isOfflineMode), api.isOfflineMode,
                                                     Some(Some(FallbackSubscriptions))))
      ensures api.isOfflineMode && !(outcome.Response? && outcome.ok) ==> subscriptions == FallbackSubscriptions
    {
      var response, _ := api.GetSubscriptions(outcome);
      if response.Success? && response.data.Some? {
        subscriptions := response.data.value;
      }
    }
  }
}
