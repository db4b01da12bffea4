# Taskify core, modelled in Dafny

Taskify is a multi-tenant board application. Every organization has boards, and each board holds ordered lists. An organization may hold five boards for free. Past that, it needs a paid subscription, which the payment provider manages. This project models the server-side rules that enforce this:

- **Subscription check**: `Subscription.CheckSubscription`. An organization counts as subscribed while its subscription row has a price id and its current period end, plus one day of grace, is still in the future.
- **Safe-action envelope**: `SafeAction.Run`. The raw input is validated against a schema. Only a parsed value reaches the business handler; a rejected input yields only field errors.
- **Free-tier ledger**: `OrgLimit`. Each organization has a counter of boards created while unsubscribed. A missing entry reads as zero, and the cap is `MAX_FREE_BOARDS = 5`.
- **Image descriptor**: `ImageDescriptor`. The board picker sends the chosen picture as five `|`-separated fields. Board creation splits them back and refuses any descriptor with a missing or empty field.
- **The store and its handlers**: the class `Store.Store`. It holds the board, list, ledger, audit-log and subscription tables, and has four methods:
  - create board;
  - delete board (scoped to the caller's organization; cascades to the board's lists);
  - reorder lists (an all-or-nothing batch);
  - the billing webhook, which creates or updates a subscription row.

  Each handler returns the answer the action gives its caller and the page it revalidates. Its contract states every write the application makes to these tables, including the partial writes left behind when a later write of the same request throws. Two differences: delete board revalidates the page it redirects to, not the misspelled path of the code (see Findings), and the audit entry leaves out the user's image and name.
- **List reordering**: `ListOrder.ApplyOrders`, the specification the reorder method is proved against.
- **Webhook decision**: `Webhook.Dispatch`. From a provider event it decides on a status code, a new subscription row, or an update of the row holding a subscription id. Period ends arrive in seconds and are stored in milliseconds.
- **Billing redirect**: `StripeRedirect.Redirect`. An organization that already has a provider customer gets a billing-portal url. Any other gets a checkout url for the monthly plan, carrying its org id as metadata.
- **Middleware guard**: `Middleware.AfterAuth`. It decides, for every request, whether to send the visitor to sign-in, to organization selection, to their organization's page, or nowhere.

Calls to the outside world become parameters of the handlers:

- the current time `now`, in milliseconds;
- the id the database generates for a new board;
- which of a handler's writes throws (`Store.Fault`);
- whether the webhook's signature verified;
- what the provider's `subscriptions.retrieve` returned;
- the portal and checkout session calls, as functions returning `Reply`;
- the application's origin (`appUrl`).

The session's `userId` and `orgId` are `Option<string>`. JavaScript truthiness is `Common.Truthy`: present and non-empty.

`Scenario.FreeTierRoundTrip` is a client of the store that walks one organization through the quota rules using only the handlers' contracts:

1. At the cap and unsubscribed, a create is refused.
2. After checkout, a sixth board is created and the ledger is untouched.
3. A redelivered checkout event writes nothing.
4. After the subscription and its grace day lapse, deleting a board counts the ledger down to 4.

Two behaviours of the code that are easy to mistake for oversights are kept as written:

- A board delete made while unsubscribed always decrements the ledger, including for an organization that was subscribed earlier.
- A failure of the ledger write or of the audit write leaves the board insert or delete in place: the handler's writes are not one transaction.

## Model

| member | source | states |
|---|---|---|
| Subscription.CheckSubscription | lib/subscription.ts:7-36 | no org, no row, an empty or missing price id, or a null period end each mean "not subscribed"; "subscribed" implies the row has a price id and `now < periodEnd + DAY_IN_MS` |
| Subscription.GraceWindow | lib/subscription.ts:30-33 | for a priced row ending at `periodEnd`, valid exactly when `now < periodEnd + 86_400_000`, so the whole first day after the period end is covered and the instant one day after is not |
| Subscription.GraceBoundaryHours | lib/subscription.ts:5-33 | 23 hours after the period end the subscription holds; 25 hours after, it does not |
| Subscription.ValidityIsAntitone | lib/subscription.ts:30-35 | valid at some instant implies valid at every earlier instant |
| Subscription.NoPriceNoSubscription | lib/subscription.ts:30-31 | a row without a price id never grants the subscription, whatever its period end |
| Subscription.OnlyOwnRowMatters | lib/subscription.ts:14-24 | the answer depends only on the caller's own row, looked up by its unique org id |
| SafeAction.Run | lib/create-safe-action.ts:63-79 | a parse failure answers with exactly the flattened field errors, no error and no data; a parse success answers with whatever the handler answers for the parsed value |
| SafeAction.HandlerNotInvokedOnInvalid | lib/create-safe-action.ts:69-75 | for a rejected input, the answer does not depend on the handler at all |
| SafeAction.HandlerSeesParsedDataOnly | lib/create-safe-action.ts:69-77 | two inputs with the same parse result get the same answer from any two handlers that agree at the parsed value |
| OrgLimit.HasAvailableCount | actions/create-board/index.ts:25 | an organization with no ledger entry may create a board; a permitted create implies a count below 5 (the exact boundary is `OrgLimit.CapBoundary`) |
| OrgLimit.Increment | actions/create-board/index.ts:69-71 | the organization's count rises by one; no other organization's entry changes |
| OrgLimit.Decrease | actions/delete-board/index.ts:42-44 | the organization's count falls by one, with no floor; no other organization's entry changes |
| OrgLimit.CapBoundary | actions/create-board/index.ts:25-33 | the cap is exclusive: at a count of 4 the fifth free board may be created, at a count of 5 a sixth may not |
| OrgLimit.DecreaseUndoesIncrement | actions/delete-board/index.ts:39-44 | creating and then deleting a free board leaves every organization's count where it was |
| ImageDescriptor.Split | actions/create-board/index.ts:37-38 | splitting on the separator yields at least one part; the parts joined with the separator give back the string; no part contains the separator |
| ImageDescriptor.Encode | components/form/form-picker.tsx:89 | the descriptor is the five fields in order with a separator between each pair: it starts with the id followed by the separator, ends with the separator followed by the user name, and is four characters longer than the fields together; `ImageDescriptor.ParseEncode` and `ImageDescriptor.ParsedIsEncoded` make it the inverse of `Parse` |
| ImageDescriptor.Parse | actions/create-board/index.ts:37-50 | the descriptor is refused exactly when it has fewer than five parts or one of the first five is empty; accepted fields are non-empty and free of the separator |
| ImageDescriptor.ParseEncode | components/form/form-picker.tsx:89 | round trip: five non-empty fields free of the separator encoded by the picker are read back unchanged by board creation |
| ImageDescriptor.ParseIgnoresExtraParts | actions/create-board/index.ts:37-38 | parts after the fifth are ignored |
| ImageDescriptor.ParsedIsEncoded | actions/create-board/index.ts:37-50 | converse of the round trip: an accepted descriptor is the picker's encoding of the parsed fields, alone or followed by the separator and further parts |
| ListOrder.Step | actions/update-list-order/index.ts:26-36 | one update succeeds exactly when the list exists and its board belongs to the caller's organization; it then changes that list's order and nothing else |
| ListOrder.ApplyOrders | actions/update-list-order/index.ts:25-44 | a committed batch keeps the set of lists and returns one row per item; a first item that matches no list of the organization aborts it; the lemmas `AllOrNothing`, `OnlyOrdersOfNamedListsChange`, `LastWriteWins` and `UpdatedRowsFollowItems` characterise it fully |
| ListOrder.StepKeepsScope | actions/update-list-order/index.ts:27-32 | writing an order never changes which lists the organization may update |
| ListOrder.AllOrNothing | actions/update-list-order/index.ts:25-47 | the transaction commits exactly when every item names a list of the caller's organization |
| ListOrder.OnlyOrdersOfNamedListsChange | actions/update-list-order/index.ts:25-44 | a committed batch adds and removes no list, changes only `order`, and leaves every list that no item names unchanged |
| ListOrder.LastWriteWins | actions/update-list-order/index.ts:25-44 | after a commit each list holds the order of the last item naming it |
| ListOrder.UpdatedRowsFollowItems | actions/update-list-order/index.ts:44-50 | the returned data has one row per item, in item order, each with the item's id and order |
| Store.Store.CreateBoard | actions/create-board/index.ts:16-87 | checks run in order: unauthorized, then quota (refused only when at the cap and not subscribed), then missing image fields, then insert failure; each failure writes nothing. Otherwise the board is inserted with the parsed fields; the ledger is incremented only when unsubscribed; a CREATE audit entry is appended. A throwing ledger or audit write answers "Failed to create." and keeps the earlier writes. `/board/{id}` is revalidated only on success. |
| Store.Store.DeleteBoard | actions/delete-board/index.ts:17-58 | a board of another organization, or a missing one, is not deleted ("Failed to delete.", nothing written). Otherwise the board and its lists are removed, the ledger is decremented only when unsubscribed, a DELETE audit entry is appended, and the request ends in a redirect to `/organization/{orgId}`, the page it revalidates. Partial writes are kept on a later throw. |
| Store.Store.UpdateListOrder | actions/update-list-order/index.ts:12-51 | the list table becomes exactly `ApplyOrders(...)` of the items when every item matches, and is unchanged otherwise ("Failed to reorder."); the data returned is the updated rows; boards, ledger, audit log and subscriptions never change |
| Store.Store.HandleWebhook | app/api/webhook/route.ts:9-111 | the status is what the dispatch decides. A new row is written only when no row holds that org id or subscription id, and otherwise answers 500. A renewal rewrites the row holding the subscription id and answers 500 if there is none. Every table other than subscriptions is untouched, and the store invariant, unique org and subscription ids included, is kept. |
| Webhook.Dispatch | app/api/webhook/route.ts:18-110 | a bad signature gives 400. A completed checkout gives 500 when the retrieval throws, then 400 without `metadata.orgId`, then 500 without items, else a row for that org with the first item's price and the period end ×1000. A paid invoice gives 500 when the retrieval throws or the subscription has no items, else an update, by subscription id, to the first item's price and the period end ×1000. Any other event gives 200. Rows and updates arise in these cases only. |
| Webhook.UpdateBySubscriptionId | app/api/webhook/route.ts:97-107 | only rows holding the subscription id change, and only their price id and period end; no row is added or removed |
| Webhook.RenewalGrantsPeriodPlusGrace | app/api/webhook/route.ts:92-107 | after a renewal the organization is subscribed at the provider's period end (converted to ms) if the price id is non-empty, and no longer one day after it |
| Webhook.CheckoutGrantsPeriodPlusGrace | app/api/webhook/route.ts:61-88 | the row a completed checkout writes makes its organization subscribed exactly until one day past the reported period end, provided the price id is non-empty |
| StripeRedirect.ProPlan | actions/stripe-redirect/index.ts:77-100 | the single line item is the product "Taskify Pro", "Unlimited boards for your organization", at 2000 USD cents a month, quantity 1 |
| StripeRedirect.Checkout | actions/stripe-redirect/index.ts:58-106 | the checkout is a card-only subscription for the Pro plan that returns to the settings page on success and on cancel, collects the billing address automatically, is paid by the given e-mail and carries exactly `{ orgId }` as metadata |
| StripeRedirect.Redirect | actions/stripe-redirect/index.ts:16-119 | no user, org or current user means "Unauthorized"; never any field errors; an answer carries an error exactly when it carries no url; every error is one of the handler's two messages |
| StripeRedirect.CustomerGoesToPortal | actions/stripe-redirect/index.ts:38-46 | with a customer id the portal is asked for that customer, returning to `{appUrl}/organization/{orgId}`; its url is returned, a throw gives "Somehting went wrong!", and checkout is never consulted |
| StripeRedirect.NoCustomerGoesToCheckout | actions/stripe-redirect/index.ts:56-110 | without a customer id the portal is never asked; the checkout carries the org id; its url is returned, a null url gives "", and a throw gives the generic error |
| StripeRedirect.NoEmailFails | actions/stripe-redirect/index.ts:75 | a user without an e-mail address gets the generic error instead of a checkout |
| Middleware.AfterAuth | middleware.ts:8-35 | signed-in on a public route: go to the org page or `/select-org`. Signed-out on a private route: sign in and come back to the same url. Signed-in without an org: go to `/select-org`, except on `/select-org` itself. Every other request proceeds. |
| Middleware.Guard | middleware.ts:5-35 | with publicity decided by the two `publicRoutes`: sign-in is asked exactly for a signed-out visitor on a private route, coming back to the same url; every redirect is for a signed-in user and is resolved against the request url; a signed-in user on a public route is always redirected |
| Middleware.TargetsArePrivate | middleware.ts:5-15 | neither redirect target is a public route |
| Middleware.RedirectsSettle | middleware.ts:11-34 | no redirect loop: the page the guard redirects to lets the same visitor through |
| Middleware.SignedOutVisitors | middleware.ts:5-29 | a signed-out visitor is served the public routes and asked to sign in, returning to the same url, everywhere else |
| Store.DeleteRevalidationPathAsWritten | actions/delete-board/index.ts:56 | the path as the code spells it: the organization's own path followed by one extra `}` |
| Store.RevalidationMissesOwnOrgPage | actions/delete-board/index.ts:56-57 | the path revalidated after a delete is the page of organization `orgId + "}"`, never the caller's own page that the handler then redirects to |

## Left out

- Authentication is not modelled. The session (`auth()`) and the current user (`currentUser()`) are parameters. Public routes are matched by exact membership in the two listed paths; the authentication library's own sign-in and sign-up pages, which it also treats as public, are not among the modelled public routes. The middleware's `matcher` regex, which selects the requests the guard runs on, is not modelled.
- The webhook's signature check and body parsing are not modelled. They become the `signatureValid` flag and the event's fields, because they are cryptography inside the provider's library.
- Schema validation is modelled only generically, in `SafeAction.Run`. The `CreateBoard`, `DeleteBoard`, `UpdateListOrder` and `StripeRedirect` schema files are not part of this model.
- The four actions are not composed with the envelope into stateful methods. `SafeAction.Run` takes the handler as a pure function, and the store's methods are the handlers themselves. The composition adds nothing beyond `Run`'s two cases.
- The bodies of `lib/org-limit.ts` and `lib/create-audit-log.ts` are not part of this model. The ledger is assumed to keep a raw per-organization counter: an increment adds one, and a decrement subtracts one with no floor, so it can go below zero. The audit log is taken as an append-only sequence. The audit entry's user image and user name, which come from the authentication provider, are left out.
- The `revalidatePath` call of the billing redirect is not modelled, because it changes no modelled state.
- Database failures are modelled only as they matter: which write of a board handler throws (`Store.Fault`), a reorder item that matches no list of the organization, and the unique constraints on the subscription table. Connection loss during the subscription lookups, and concurrent requests, are not modelled.
- The database lookup in the billing redirect is taken as total. Its `try` block is modelled for the two provider calls and for reading a missing first e-mail address.
- Uniqueness of `stripeCustomerId` is not enforced by the model's store invariant.
- The Unsplash picker, cards, copy/rename board and the other pages are outside the modelled core.

## Findings

| source | as written | input that shows it | evidently intended | confidence | as-written member | corrected member |
|---|---|---|---|---|---|---|
| actions/delete-board/index.ts:56 | the deleted board's organization page is revalidated as `/organization/${orgId}}`, with a stray `}` | any `orgId`, e.g. `"org_1"`: the path revalidated is `/organization/org_1}`, the page of another organization, while line 57 redirects to `/organization/org_1` | revalidate `/organization/${orgId}`, the page the handler redirects to | high (not executed) | Store.RevalidationMissesOwnOrgPage | Store.Store.DeleteBoard |
