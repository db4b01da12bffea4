/** The billing redirect: an organization that already has a payment-provider
    customer is sent to the billing portal; any other is sent to a new
    checkout for the monthly plan. Only the URL is returned; nothing is
    written. */
module StripeRedirect {
  import opened Common
  import opened Subscription
  import opened SafeAction

  const UNAUTHORIZED: string := "Unauthorized"
  /** The generic failure message, spelled as the application spells it. */
  const SOMETHING_WENT_WRONG: string := "Somehting went wrong!"

  /** The signed-in user as far as the handler uses it. */
  datatype User = User(emailAddresses: seq<string>)

  datatype ProductData = ProductData(name: string, description: string)
  datatype PriceData = PriceData(currency: string, productData: ProductData, unitAmount: int, recurringInterval: string)
  datatype LineItem = LineItem(priceData: PriceData, quantity: int)

  /** The arguments of `billingPortal.sessions.create`. */
  datatype PortalRequest = PortalRequest(customer: string, returnUrl: string)

  /** The arguments of `checkout.sessions.create`. */
  datatype CheckoutRequest = CheckoutRequest(
    successUrl: string,
    cancelUrl: string,
    paymentMethodTypes: seq<string>,
    mode: string,
    billingAddressCollection: string,
    customerEmail: string,
    lineItems: seq<LineItem>,
    metadata: map<string, string>)

  /** A provider call either throws or returns a value. */
  datatype Reply<+T> = Threw | Returned(value: T)

  /** The one plan on sale: "Taskify Pro", 2000 cents a month. */
  function ProPlan(): (item: LineItem)
    ensures item.quantity == 1
    ensures item.priceData.currency == "USD" && item.priceData.unitAmount == 2000
    ensures item.priceData.recurringInterval == "month"
    ensures item.priceData.productData == ProductData("Taskify Pro", "Unlimited boards for your organization")
  {
    LineItem(PriceData("USD", ProductData("Taskify Pro", "Unlimited boards for your organization"), 2000, "month"), 1)
  }

  /** The checkout the handler asks for on behalf of `orgId`, whose settings
      page is `settingUrl`, paid by the user's first e-mail address. */
  function Checkout(orgId: string, settingUrl: string, customerEmail: string): (req: CheckoutRequest)
    ensures req.mode == "subscription" && req.paymentMethodTypes == ["card"]
    ensures req.lineItems == [ProPlan()]
    ensures req.successUrl == settingUrl && req.cancelUrl == settingUrl
    ensures req.metadata.Keys == {"orgId"} && req.metadata["orgId"] == orgId
    ensures req.customerEmail == customerEmail
    ensures req.billingAddressCollection == "auto"
  {
    CheckoutRequest(settingUrl, settingUrl, ["card"], "subscription", "auto", customerEmail, [ProPlan()], map["orgId" := orgId])
  }

  /** The handler. `appUrl` is the configured origin that `absoluteUrl`
      prefixes; `portal` and `checkout` are the provider's answers to the two
      session requests (a checkout session's url may be null). */
  function Redirect(
    session: Session, user: Option<User>, table: SubscriptionTable, appUrl: string,
    portal: PortalRequest -> Reply<string>, checkout: CheckoutRequest -> Reply<Option<string>>): (r: ActionState<string>)
    ensures !Authorized(session) || user.None? ==> r == Failed(UNAUTHORIZED)
    ensures r.fieldErrors.None?
    ensures r.error.Some? <==> r.data.None?
    ensures r.error.Some? ==> r.error.value in {UNAUTHORIZED, SOMETHING_WENT_WRONG}
  {
    if !Authorized(session) || user.None? then Failed(UNAUTHORIZED)
    else
      var orgId := session.orgId.value;
      var settingUrl := appUrl + OrgPath(orgId);
      if orgId in table && Truthy(table[orgId].stripeCustomerId) then
        match portal(PortalRequest(table[orgId].stripeCustomerId.value, settingUrl))
        case Threw => Failed(SOMETHING_WENT_WRONG)
        case Returned(url) => Succeeded(url)
      else if |user.value.emailAddresses| == 0 then
        Failed(SOMETHING_WENT_WRONG)
      else
        match checkout(Checkout(orgId, settingUrl, user.value.emailAddresses[0]))
        case Threw => Failed(SOMETHING_WENT_WRONG)
        case Returned(url) => Succeeded(if url.Some? then url.value else "")
  }

  /** An organization with a customer id is sent to the billing portal for
      that customer, returning to its settings page; the checkout provider is
      never consulted. */
  lemma CustomerGoesToPortal(
    session: Session, user: Option<User>, table: SubscriptionTable, appUrl: string,
    portal: PortalRequest -> Reply<string>, c1: CheckoutRequest -> Reply<Option<string>>, c2: CheckoutRequest -> Reply<Option<string>>)
    requires Authorized(session) && user.Some?
    requires session.orgId.value in table && Truthy(table[session.orgId.value].stripeCustomerId)
    ensures var orgId := session.orgId.value;
            var req := PortalRequest(table[orgId].stripeCustomerId.value, appUrl + OrgPath(orgId));
            var r := Redirect(session, user, table, appUrl, portal, c1);
            && r == Redirect(session, user, table, appUrl, portal, c2)
            && (portal(req).Returned? ==> r == Succeeded(portal(req).value))
            && (portal(req).Threw? ==> r == Failed(SOMETHING_WENT_WRONG))
  {
  }

  /** Without a customer id the portal is never asked; the checkout asked for
      is the monthly plan, returning to the settings page either way, and
      carries the caller's org id, which the webhook later reads back as the
      new row's key. A checkout session without a url yields "". */
  lemma NoCustomerGoesToCheckout(
    session: Session, user: Option<User>, table: SubscriptionTable, appUrl: string,
    p1: PortalRequest -> Reply<string>, p2: PortalRequest -> Reply<string>, checkout: CheckoutRequest -> Reply<Option<string>>)
    requires Authorized(session) && user.Some? && |user.value.emailAddresses| > 0
    requires !(session.orgId.value in table && Truthy(table[session.orgId.value].stripeCustomerId))
    ensures var orgId := session.orgId.value;
            var req := Checkout(orgId, appUrl + OrgPath(orgId), user.value.emailAddresses[0]);
            var r := Redirect(session, user, table, appUrl, p1, checkout);
            && r == Redirect(session, user, table, appUrl, p2, checkout)
            && req.metadata["orgId"] == orgId
            && req.successUrl == appUrl + OrgPath(orgId) == req.cancelUrl
            && (checkout(req) == Returned(None) ==> r == Succeeded(""))
            && (checkout(req).Returned? && checkout(req).value.Some? ==> r == Succeeded(checkout(req).value.value))
            && (checkout(req).Threw? ==> r == Failed(SOMETHING_WENT_WRONG))
  {
  }

  /** A user without an e-mail address cannot be sent to checkout: reading
      the first address fails inside the handler's guarded block. */
  lemma NoEmailFails(
    session: Session, user: Option<User>, table: SubscriptionTable, appUrl: string,
    portal: PortalRequest -> Reply<string>, checkout: CheckoutRequest -> Reply<Option<string>>)
    requires Authorized(session) && user.Some? && |user.value.emailAddresses| == 0
    requires !(session.orgId.value in table && Truthy(table[session.orgId.value].stripeCustomerId))
    ensures Redirect(session, user, table, appUrl, portal, checkout) == Failed(SOMETHING_WENT_WRONG)
  {
  }
}
