/**
 * The payment-method endpoints (aspy_backend/app/api/v1/payments.py, lines
 * 438-541, the same code as PAYMENT_METHOD_ENDPOINTS.py): reading the method
 * of the caller's ACTIVE subscription, and the update request, which only
 * points the caller to support. Neither writes anything.
 */
module PaymentMethods {
  import opened Common
  import opened Models
  import opened Gateway
  import opened Payments

  datatype MethodReply =
    | NoMethod(message: string)
    | CardMethod(brand: string, last4: string, expMonth: Option<int>, expYear: Option<int>)
    | OtherMethod(kind: string, details: seq<(string, string)>)

  const NoSubscriptionMessage := "No active subscription found"
  const NoDetailsMessage := "Payment method details not available"

  predicate IsCompletedFor(p: Payment, subscriptionId: int)
  {
    p.subscriptionId == Some(subscriptionId) && p.status == COMPLETED
  }

  /** The query of lines 37-40: the newest COMPLETED payment of the
      subscription. */
  function LastPayment(t: Tables, subscriptionId: int): Option<Payment>
  {
    NewestMatching(t.payments, (p: Payment) => IsCompletedFor(p, subscriptionId))
  }

  /** The method shown for a subscription without card columns: the last
      payment's details, when they are a non-empty object. */
  function FromLastPayment(last: Option<Payment>): MethodReply
  {
    if last.Some? && last.value.methodDetails.Details? && |last.value.methodDetails.entries| > 0 then
      var es := last.value.methodDetails.entries;
      OtherMethod(DetailsGet(es, "method", "Unknown"), es)
    else NoMethod(NoDetailsMessage)
  }

  /** `get_current_payment_method`: a card is shown exactly when the ACTIVE
      subscription has card digits, and "no subscription" exactly when there
      is no ACTIVE subscription; it never fails. */
  function CurrentPaymentMethod(t: Tables, userId: int): (r: MethodReply)
    ensures r.CardMethod? <==> ActiveSubscription(t, userId).Some? && Truthy(ActiveSubscription(t, userId).value.card.last4)
    ensures r == NoMethod(NoSubscriptionMessage) <==> ActiveSubscription(t, userId).None?
    ensures r.NoMethod? ==> r.message in {NoSubscriptionMessage, NoDetailsMessage}
  {
    match ActiveSubscription(t, userId)
    case None => NoMethod(NoSubscriptionMessage)
    case Some(sub) =>
      if Truthy(sub.card.last4) then
        CardMethod(OrElse(sub.card.brand, Some("Unknown")).value, sub.card.last4.value, sub.card.expMonth, sub.card.expYear)
      else FromLastPayment(LastPayment(t, sub.id))
  }

  /** Without an ACTIVE subscription there is no method and no error; card
      columns win, with the brand defaulting to "Unknown"; otherwise the
      newest COMPLETED payment's details give the method exactly when they are
      a non-empty object, "Unknown" when they have no `method` entry; with
      neither there is no method. */
  lemma CurrentPaymentMethodCases(t: Tables, userId: int)
    ensures var r := CurrentPaymentMethod(t, userId);
      && (ActiveSubscription(t, userId).None? ==> r == NoMethod(NoSubscriptionMessage))
      && (ActiveSubscription(t, userId).Some? ==>
            var sub := ActiveSubscription(t, userId).value;
            && (Truthy(sub.card.last4) ==>
                  r.CardMethod? && r.last4 == sub.card.last4.value
                  && (r.brand == if Truthy(sub.card.brand) then sub.card.brand.value else "Unknown"))
            && (!Truthy(sub.card.last4) && r.OtherMethod? ==>
                  var p := LastPayment(t, sub.id).value;
                  && LastPayment(t, sub.id).Some?
                  && p.methodDetails == Details(r.details) && |r.details| > 0
                  && r.kind == DetailsGet(r.details, "method", "Unknown"))
            && (!Truthy(sub.card.last4) && LastPayment(t, sub.id).None? ==> r == NoMethod(NoDetailsMessage))
            && (!Truthy(sub.card.last4) && LastPayment(t, sub.id).Some? ==>
                  var d := LastPayment(t, sub.id).value.methodDetails;
                  && (r.OtherMethod? <==> d.Details? && |d.entries| > 0)
                  && (!r.OtherMethod? ==> r == NoMethod(NoDetailsMessage))))
      && (r.NoMethod? ==> r.message in {NoSubscriptionMessage, NoDetailsMessage})
  {
  }

  /** A card read back: the reply carries the card columns verify copied. */
  lemma CardMethodFromVerifiedCard(t: Tables, userId: int, ci: CardInfo)
    requires ActiveSubscription(t, userId).Some?
    requires ActiveSubscription(t, userId).value.card == CardOf(Some(ci))
    requires Truthy(ci.last4) && Truthy(ci.network)
    ensures CurrentPaymentMethod(t, userId) == CardMethod(ci.network.value, ci.last4.value, ci.expMonth, ci.expYear)
  {
  }

  datatype UpdateReply = UpdateReply(subscriptionRef: string, supportEmail: string)

  const SupportEmail := "support@desicodes.com"

  /** The update request of lines 495-541: it only fetches the gateway
      subscription in live mode and never writes. */
  function UpdatePaymentMethod(t: Tables, userId: int, gw: Config, fetched: Call<()>): (o: Outcome<UpdateReply>)
    ensures o.tables == t
  {
    match ActiveSubscription(t, userId)
    case None => Outcome(Fail(404, NoActiveSubscription), t, [])
    case Some(sub) =>
      if !Truthy(sub.razorpaySubscriptionId) then Outcome(Fail(400, NotLinkedToGateway), t, [])
      else if IsMock(gw) then Outcome(Fail(400, TestMode), t, [])
      else
        var calls := [FetchSubscription(sub.razorpaySubscriptionId.value)];
        if fetched.Raised? then Outcome(Fail(500, GatewayFailed(fetched.message)), t, calls)
        else Outcome(Ok(UpdateReply(sub.razorpaySubscriptionId.value, SupportEmail)), t, calls)
  }

  /** Update is 404 without an ACTIVE subscription, 400 when it is not linked
      to the gateway or the gateway is in mock mode, 500 when the live fetch
      fails, and otherwise points to support with the subscription's
      reference; only the live path calls the gateway. */
  lemma UpdatePaymentMethodCases(t: Tables, userId: int, gw: Config, fetched: Call<()>)
    ensures var o := UpdatePaymentMethod(t, userId, gw, fetched);
      && (ActiveSubscription(t, userId).None? ==> o.reply == Fail(404, NoActiveSubscription))
      && (o.reply.Ok? <==>
            (ActiveSubscription(t, userId).Some? && Truthy(ActiveSubscription(t, userId).value.razorpaySubscriptionId)
             && !IsMock(gw) && fetched.Returned?))
      && (o.reply.Ok? ==> o.reply.value == UpdateReply(ActiveSubscription(t, userId).value.razorpaySubscriptionId.value, SupportEmail))
      && (o.reply.Fail? ==> o.reply.status in {400, 404, 500})
      && (IsMock(gw) ==> o.calls == [] && o.reply.Fail?)
  {
  }
}
