/** The billing webhook's decision: from a provider event, whether to reject
    it, create a subscription row, update one, or ignore it. Writing the row
    is the store's part (`Store.HandleWebhook`). */
module Webhook {
  import opened Common
  import opened Subscription

  const CHECKOUT_COMPLETED: string := "checkout.session.completed"
  const PAYMENT_SUCCEEDED: string := "invoice.payment_succeeded"

  const MS_PER_SECOND: int := 1000

  /** What the provider returns for `subscriptions.retrieve`: the subscription
      id, its customer, the price ids of its items in order, and the period
      end in seconds. */
  datatype ProviderSubscription = ProviderSubscription(id: string, customer: string, itemPriceIds: seq<string>, currentPeriodEnd: int)

  /** One POST to the endpoint, with everything the handler learns from
      outside: whether the signature verified, the event type, the session's
      `metadata.orgId`, and what retrieving the subscription gave (`None` when
      that call throws). */
  datatype WebhookEvent = WebhookEvent(
    signatureValid: bool,
    eventType: string,
    metadataOrgId: Option<string>,
    retrieved: Option<ProviderSubscription>)

  /** What the handler goes on to do. `Respond(500)` stands for an exception
      that escapes the handler. */
  datatype Effect =
    | Respond(status: int)
    | CreateRow(row: OrgSubscription)
    | UpdateRow(subscriptionId: string, priceId: string, periodEndMs: int)

  /** Event dispatch, in the handler's order: signature, then for a completed
      checkout the retrieval, the metadata check and the first item's price,
      for a paid invoice the retrieval and the first item's price. */
  function Dispatch(e: WebhookEvent): (eff: Effect)
    ensures !e.signatureValid ==> eff == Respond(400)
    ensures eff.CreateRow? ==> e.signatureValid && e.eventType == CHECKOUT_COMPLETED && Truthy(e.metadataOrgId)
    ensures eff.UpdateRow? ==> e.signatureValid && e.eventType == PAYMENT_SUCCEEDED
    ensures e.signatureValid && e.eventType != CHECKOUT_COMPLETED && e.eventType != PAYMENT_SUCCEEDED ==> eff == Respond(200)
    ensures e.signatureValid && (e.eventType == CHECKOUT_COMPLETED || e.eventType == PAYMENT_SUCCEEDED) && e.retrieved.None? ==>
              eff == Respond(500)
    ensures e.signatureValid && e.eventType == CHECKOUT_COMPLETED && e.retrieved.Some? && !Truthy(e.metadataOrgId) ==> eff == Respond(400)
    ensures e.signatureValid && e.eventType == CHECKOUT_COMPLETED && e.retrieved.Some? && Truthy(e.metadataOrgId) ==>
              (eff.CreateRow? <==> |e.retrieved.value.itemPriceIds| > 0) && (!eff.CreateRow? ==> eff == Respond(500))
    ensures e.signatureValid && e.eventType == PAYMENT_SUCCEEDED && e.retrieved.Some? ==>
              (eff.UpdateRow? <==> |e.retrieved.value.itemPriceIds| > 0) && (!eff.UpdateRow? ==> eff == Respond(500))
    ensures eff.CreateRow? || eff.UpdateRow? ==> e.retrieved.Some? && |e.retrieved.value.itemPriceIds| > 0
    ensures eff.CreateRow? ==>
              var sub := e.retrieved.value;
              && eff.row.orgId == e.metadataOrgId.value
              && eff.row.stripeSubscriptionId == Some(sub.id)
              && eff.row.stripeCustomerId == Some(sub.customer)
              && eff.row.stripePriceId == Some(sub.itemPriceIds[0])
              && eff.row.stripeCurrentPeriodEnd == Some(sub.currentPeriodEnd * MS_PER_SECOND)
    ensures eff.UpdateRow? ==>
              var sub := e.retrieved.value;
              eff == UpdateRow(sub.id, sub.itemPriceIds[0], sub.currentPeriodEnd * MS_PER_SECOND)
  {
    if !e.signatureValid then Respond(400)
    else if e.eventType == CHECKOUT_COMPLETED then
      match e.retrieved
      case None => Respond(500)
      case Some(sub) =>
        if !Truthy(e.metadataOrgId) then Respond(400)
        else if |sub.itemPriceIds| == 0 then Respond(500)
        else CreateRow(OrgSubscription(
          e.metadataOrgId.value,
          Some(sub.customer),
          Some(sub.id),
          Some(sub.itemPriceIds[0]),
          Some(sub.currentPeriodEnd * MS_PER_SECOND)))
    else if e.eventType == PAYMENT_SUCCEEDED then
      match e.retrieved
      case None => Respond(500)
      case Some(sub) =>
        if |sub.itemPriceIds| == 0 then Respond(500)
        else UpdateRow(sub.id, sub.itemPriceIds[0], sub.currentPeriodEnd * MS_PER_SECOND)
    else Respond(200)
  }

  /** The `update where { stripeSubscriptionId }`: the row holding that
      subscription id gets the new price and period end; every other row, and
      every other column, stays. */
  function UpdateBySubscriptionId(table: SubscriptionTable, subscriptionId: string, priceId: string, periodEndMs: int): (r: SubscriptionTable)
    ensures r.Keys == table.Keys
    ensures forall o :: o in table && table[o].stripeSubscriptionId != Some(subscriptionId) ==> r[o] == table[o]
    ensures forall o :: o in table && table[o].stripeSubscriptionId == Some(subscriptionId) ==>
              r[o] == table[o].(stripePriceId := Some(priceId), stripeCurrentPeriodEnd := Some(periodEndMs))
  {
    map o | o in table ::
      if table[o].stripeSubscriptionId == Some(subscriptionId)
      then table[o].(stripePriceId := Some(priceId), stripeCurrentPeriodEnd := Some(periodEndMs))
      else table[o]
  }

  /** The provider's period end, seconds, becomes the row's milliseconds:
      at the moment a renewed period ends, and for one day after, the
      organization is still subscribed; a day later it is not. */
  lemma RenewalGrantsPeriodPlusGrace(e: WebhookEvent, table: SubscriptionTable, orgId: string)
    requires Dispatch(e).UpdateRow?
    requires orgId != "" && orgId in table
    requires table[orgId].stripeSubscriptionId == Some(Dispatch(e).subscriptionId)
    ensures var sub := e.retrieved.value;
            var t := UpdateBySubscriptionId(table, sub.id, sub.itemPriceIds[0], sub.currentPeriodEnd * 1000);
            && (sub.itemPriceIds[0] != "" ==> CheckSubscription(Some(orgId), t, sub.currentPeriodEnd * 1000))
            && !CheckSubscription(Some(orgId), t, sub.currentPeriodEnd * 1000 + DAY_IN_MS)
  {
  }

  /** A completed checkout's row makes its organization subscribed until one
      day past the period end the provider reported, provided the price id is
      not empty. */
  lemma CheckoutGrantsPeriodPlusGrace(e: WebhookEvent, table: SubscriptionTable, now: int)
    requires Dispatch(e).CreateRow?
    ensures var row := Dispatch(e).row;
            var t := table[row.orgId := row];
            CheckSubscription(Some(row.orgId), t, now) <==>
              row.stripePriceId.value != "" && now < e.retrieved.value.currentPeriodEnd * 1000 + DAY_IN_MS
  {
  }
}
