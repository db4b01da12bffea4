/** A client of the store that walks one organization across the free-tier
    boundary and back, using only the handlers' contracts. */
module Scenario {
  import opened Common
  import opened Entities
  import opened SafeAction
  import opened Subscription
  import opened OrgLimit
  import opened ImageDescriptor
  import opened Webhook
  import S = Store

  /** An organization at the free cap cannot create a board; once its
      checkout completes it can, and the ledger stays where it was; after the
      subscription lapses, deleting a board counts down the ledger again,
      because the handler reads the subscription as it is at that moment. */
  method FreeTierRoundTrip(userId: string, orgId: string, img: ImageFields)
    requires userId != "" && orgId != ""
    requires img.id != "" && img.thumbUrl != "" && img.fullUrl != "" && img.linkHtml != "" && img.userName != ""
    requires SEP !in img.id && SEP !in img.thumbUrl && SEP !in img.fullUrl && SEP !in img.linkHtml && SEP !in img.userName
  {
    var store := new S.Store();
    store.orgLimits := map[orgId := MAX_FREE_BOARDS];
    var session := Session(Some(userId), Some(orgId));
    var input := S.CreateBoardInput("Roadmap", Encode(img));
    ParseEncode(img);
    var now := 1_700_000_000_000;

    // At the cap and unsubscribed: refused, nothing written.
    var r, paths := store.CreateBoard(session, input, now, "board-6", S.NoFault);
    assert r == Failed(S.LIMIT_REACHED);
    assert store.boards == map[] && store.auditLog == [];

    // The checkout completes; the row's period ends 100 seconds from now.
    var checkout := WebhookEvent(true, CHECKOUT_COMPLETED, Some(orgId),
                                 Some(ProviderSubscription("sub_1", "cus_1", ["price_1"], 1_700_000_100)));
    var status := store.HandleWebhook(checkout);
    assert status == 200;
    assert CheckSubscription(Some(orgId), store.subscriptions, now);

    // Subscribed: the sixth board is created and the ledger is untouched.
    r, paths := store.CreateBoard(session, input, now, "board-6", S.NoFault);
    assert r.data.Some? && "board-6" in store.boards;
    assert UsedCount(store.orgLimits, orgId) == MAX_FREE_BOARDS;
    assert |store.auditLog| == 1;

    // A redelivered checkout event breaks the unique org id and writes nothing.
    var subscriptionsBefore := store.subscriptions;
    status := store.HandleWebhook(checkout);
    assert status == 500 && store.subscriptions == subscriptionsBefore;

    // The grace day is over: deleting the board decrements the ledger.
    var later := 1_700_000_100_000 + DAY_IN_MS;
    assert !CheckSubscription(Some(orgId), store.subscriptions, later);
    var d, dpaths := store.DeleteBoard(session, S.DeleteBoardInput("board-6"), later, S.NoFault);
    assert d == S.RedirectTo(OrgPath(orgId));
    assert UsedCount(store.orgLimits, orgId) == MAX_FREE_BOARDS - 1;
    assert |store.auditLog| == 2 && store.auditLog[1].action == DELETE;
  }
}
