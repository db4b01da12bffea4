/** The persistent store and the handlers that change it: board creation and
    deletion, list reordering, and the billing webhook's subscription writes.
    Each handler takes the request's session and the outcome of every call it
    makes to the outside (clock, generated id, which write throws, provider
    answers) as parameters. */
module Store {
  import opened Common
  import opened Entities
  import opened SafeAction
  import opened Subscription
  import opened OrgLimit
  import opened ImageDescriptor
  import opened ListOrder
  import opened Webhook

  const UNAUTHORIZED: string := "Unauthorized"
  const LIMIT_REACHED: string := "You have reached your limit of free boards. Please upgrade to create more."
  const MISSING_FIELDS: string := "Missing fields. Failed to create board."
  const FAILED_TO_CREATE: string := "Failed to create."
  const FAILED_TO_DELETE: string := "Failed to delete."
  const FAILED_TO_REORDER: string := "Failed to reorder."

  /** Which write of a board handler throws, if any: the board insert or
      delete, the ledger update, or the audit-log append. A write that the
      handler never reaches cannot throw. */
  datatype Fault = NoFault | PrimaryWriteFails | LedgerWriteFails | AuditWriteFails

  datatype CreateBoardInput = CreateBoardInput(title: string, image: string)
  datatype DeleteBoardInput = DeleteBoardInput(id: string)
  datatype UpdateListOrderInput = UpdateListOrderInput(items: seq<ReorderItem>, boardId: string)

  /** A handler either answers with an action state or ends the request with
      a redirect (`redirect(...)` throws past the envelope). */
  datatype Response<+O> = Answer(state: ActionState<O>) | RedirectTo(path: string)

  /** The board a successful create inserts. */
  function NewBoard(id: string, title: string, orgId: string, f: ImageFields): (b: Board)
    ensures b.id == id && b.title == title && b.orgId == orgId
    ensures b.imageId == f.id && b.imageThumbUrl == f.thumbUrl && b.imageFullUrl == f.fullUrl
    ensures b.imageLinkHTML == f.linkHtml && b.imageUserName == f.userName
  {
    Board(id, title, orgId, f.id, f.thumbUrl, f.fullUrl, f.userName, f.linkHtml)
  }

  /** The path the delete handler revalidates, as the code spells it: the
      organization path followed by a stray `}`. */
  function DeleteRevalidationPathAsWritten(orgId: string): (p: string)
    ensures |p| == |OrgPath(orgId)| + 1
    ensures p[..|OrgPath(orgId)|] == OrgPath(orgId) && p[|OrgPath(orgId)|] == '}'
  {
    OrgPath(orgId) + "}"
  }

  /** The stray brace makes the delete handler revalidate the page of another
      organization, `orgId + "}"`, and never its own page, which is where it
      redirects. */
  lemma RevalidationMissesOwnOrgPage(orgId: string)
    ensures DeleteRevalidationPathAsWritten(orgId) == OrgPath(orgId + "}")
    ensures DeleteRevalidationPathAsWritten(orgId) != OrgPath(orgId)
  {
    assert |DeleteRevalidationPathAsWritten(orgId)| != |OrgPath(orgId)|;
  }

  /** Some row of the table already holds `subscriptionId`. */
  predicate SubscriptionIdTaken(table: SubscriptionTable, subscriptionId: string)
  {
    exists o :: o in table && table[o].stripeSubscriptionId == Some(subscriptionId)
  }

  class Store {
    var boards: map<string, Board>
    var lists: map<string, ListRow>
    var orgLimits: Ledger
    var auditLog: seq<AuditEntry>
    var subscriptions: SubscriptionTable

    /** Keys are the rows' ids, every list's board exists (deletes cascade),
        and `orgId` and `stripeSubscriptionId` are unique in the
        subscription table. */
    ghost predicate Valid()
      reads this
    {
      && (forall id :: id in boards ==> boards[id].id == id)
      && (forall id :: id in lists ==> lists[id].id == id && lists[id].boardId in boards)
      && (forall o :: o in subscriptions ==> subscriptions[o].orgId == o)
      && (forall o1, o2 ::
            o1 in subscriptions && o2 in subscriptions && o1 != o2 && subscriptions[o1].stripeSubscriptionId.Some? ==>
              subscriptions[o1].stripeSubscriptionId != subscriptions[o2].stripeSubscriptionId)
    }

    constructor ()
      ensures Valid()
      ensures boards == map[] && lists == map[] && orgLimits == map[] && auditLog == [] && subscriptions == map[]
    {
      boards, lists, orgLimits, auditLog, subscriptions := map[], map[], map[], [], map[];
    }

    /** The create-board handler. */
    method CreateBoard(session: Session, input: CreateBoardInput, now: int, newId: string, fault: Fault)
      returns (r: ActionState<Board>, revalidated: Option<string>)
      requires Valid()
      modifies this
      ensures Valid()
      ensures lists == old(lists) && subscriptions == old(subscriptions)
      ensures !Authorized(session) ==> r == Failed(UNAUTHORIZED) && unchanged(this)
      ensures Authorized(session) ==>
        var orgId := session.orgId.value;
        var isPro := CheckSubscription(session.orgId, old(subscriptions), now);
        var image := Parse(input.image);
        if !HasAvailableCount(old(orgLimits), orgId) && !isPro then
          r == Failed(LIMIT_REACHED) && unchanged(this)
        else if image.None? then
          r == Failed(MISSING_FIELDS) && unchanged(this)
        else if fault == PrimaryWriteFails || newId in old(boards) then
          r == Failed(FAILED_TO_CREATE) && unchanged(this)
        else
          var board := NewBoard(newId, input.title, orgId, image.value);
          var ledgerThrows := !isPro && fault == LedgerWriteFails;
          var done := !ledgerThrows && fault != AuditWriteFails;
          && boards == old(boards)[newId := board]
          && orgLimits == (if isPro || ledgerThrows then old(orgLimits) else Increment(old(orgLimits), orgId))
          && auditLog == (if done then old(auditLog) + [AuditEntry(orgId, session.userId.value, CREATE, BOARD, board.id, board.title)]
                          else old(auditLog))
          && r == (if done then Succeeded(board) else Failed(FAILED_TO_CREATE))
      ensures revalidated == if r.data.Some? then Some(BoardPath(newId)) else None
    {
      revalidated := None;
      if !Authorized(session) {
        return Failed(UNAUTHORIZED), None;
      }
      var orgId := session.orgId.value;
      var userId := session.userId.value;

      var canCreate := HasAvailableCount(orgLimits, orgId);
      var isPro := CheckSubscription(session.orgId, subscriptions, now);
      if !canCreate && !isPro {
        return Failed(LIMIT_REACHED), None;
      }

      var image := Parse(input.image);
      if image.None? {
        return Failed(MISSING_FIELDS), None;
      }

      if fault == PrimaryWriteFails || newId in boards {
        return Failed(FAILED_TO_CREATE), None;
      }
      var board := NewBoard(newId, input.title, orgId, image.value);
      boards := boards[newId := board];

      if !isPro {
        if fault == LedgerWriteFails {
          return Failed(FAILED_TO_CREATE), None;
        }
        orgLimits := Increment(orgLimits, orgId);
      }

      if fault == AuditWriteFails {
        return Failed(FAILED_TO_CREATE), None;
      }
      auditLog := auditLog + [AuditEntry(orgId, userId, CREATE, BOARD, board.id, board.title)];

      r, revalidated := Succeeded(board), Some(BoardPath(board.id));
    }

    /** The delete-board handler. On success the request ends in a redirect
        to the organization's page. */
    method DeleteBoard(session: Session, input: DeleteBoardInput, now: int, fault: Fault)
      returns (r: Response<Board>, revalidated: Option<string>)
      requires Valid()
      modifies this
      ensures Valid()
      ensures subscriptions == old(subscriptions)
      ensures !Authorized(session) ==> r == Answer(Failed(UNAUTHORIZED)) && unchanged(this)
      ensures Authorized(session) ==>
        var orgId := session.orgId.value;
        var isPro := CheckSubscription(session.orgId, old(subscriptions), now);
        var id := input.id;
        if fault == PrimaryWriteFails || id !in old(boards) || old(boards)[id].orgId != orgId then
          r == Answer(Failed(FAILED_TO_DELETE)) && unchanged(this)
        else
          var board := old(boards)[id];
          var ledgerThrows := !isPro && fault == LedgerWriteFails;
          var done := !ledgerThrows && fault != AuditWriteFails;
          && boards == old(boards) - {id}
          && lists == (map l | l in old(lists) && old(lists)[l].boardId != id :: old(lists)[l])
          && orgLimits == (if isPro || ledgerThrows then old(orgLimits) else Decrease(old(orgLimits), orgId))
          && auditLog == (if done then old(auditLog) + [AuditEntry(orgId, session.userId.value, DELETE, BOARD, board.id, board.title)]
                          else old(auditLog))
          && r == (if done then RedirectTo(OrgPath(orgId)) else Answer(Failed(FAILED_TO_DELETE)))
      ensures revalidated == if r.RedirectTo? then Some(r.path) else None
    {
      if !Authorized(session) {
        return Answer(Failed(UNAUTHORIZED)), None;
      }
      var orgId := session.orgId.value;
      var userId := session.userId.value;

      var isPro := CheckSubscription(session.orgId, subscriptions, now);

      var id := input.id;
      if fault == PrimaryWriteFails || id !in boards || boards[id].orgId != orgId {
        return Answer(Failed(FAILED_TO_DELETE)), None;
      }
      var board := boards[id];
      boards := boards - {id};
      lists := map l | l in lists && lists[l].boardId != id :: lists[l];

      if !isPro {
        if fault == LedgerWriteFails {
          return Answer(Failed(FAILED_TO_DELETE)), None;
        }
        orgLimits := Decrease(orgLimits, orgId);
      }

      if fault == AuditWriteFails {
        return Answer(Failed(FAILED_TO_DELETE)), None;
      }
      auditLog := auditLog + [AuditEntry(orgId, userId, DELETE, BOARD, board.id, board.title)];

      r, revalidated := RedirectTo(OrgPath(orgId)), Some(OrgPath(orgId));
    }

    /** The list-reorder handler: the items are applied one by one to a staged
        copy of the list table, which replaces the table only when every item
        went through. `boardId` only names the page to revalidate. */
    method UpdateListOrder(session: Session, input: UpdateListOrderInput)
      returns (r: ActionState<seq<ListRow>>, revalidated: Option<string>)
      requires Valid()
      modifies this
      ensures Valid()
      ensures boards == old(boards) && orgLimits == old(orgLimits)
      ensures auditLog == old(auditLog) && subscriptions == old(subscriptions)
      ensures !Authorized(session) ==> r == Failed(UNAUTHORIZED) && lists == old(lists) && revalidated.None?
      ensures Authorized(session) ==>
        var batch := ApplyOrders(old(lists), boards, session.orgId.value, input.items);
        if batch.None? then
          r == Failed(FAILED_TO_REORDER) && lists == old(lists) && revalidated.None?
        else
          r == Succeeded(batch.value.updated) && lists == batch.value.lists &&
          revalidated == Some(BoardPath(input.boardId))
    {
      if !Authorized(session) {
        return Failed(UNAUTHORIZED), None;
      }
      var orgId := session.orgId.value;
      var items := input.items;

      var staged := lists;
      var updated: seq<ListRow> := [];
      var i := 0;
      assert items[0..] == items;
      PrependNothing(ApplyOrders(lists, boards, orgId, items));
      while i < |items|
        invariant 0 <= i <= |items|
        invariant unchanged(this)
        invariant ApplyOrders(lists, boards, orgId, items) == Prepend(updated, ApplyOrders(staged, boards, orgId, items[i..]))
      {
        var item := items[i];
        assert items[i..][0] == item && items[i..][1..] == items[i + 1..];
        if !Matches(staged, boards, orgId, item.id) {
          return Failed(FAILED_TO_REORDER), None;
        }
        ghost var before := staged;
        staged := staged[item.id := staged[item.id].(order := item.order)];
        assert ApplyOrders(before, boards, orgId, items[i..]) ==
               Prepend([staged[item.id]], ApplyOrders(staged, boards, orgId, items[i + 1..]));
        PrependTwice(updated, [staged[item.id]], ApplyOrders(staged, boards, orgId, items[i + 1..]));
        updated := updated + [staged[item.id]];
        i := i + 1;
      }
      assert items[i..] == [];
      assert ApplyOrders(staged, boards, orgId, []) == Some(Applied(staged, []));
      assert updated + [] == updated;

      OnlyOrdersOfNamedListsChange(lists, boards, orgId, items);
      lists := staged;
      r, revalidated := Succeeded(updated), Some(BoardPath(input.boardId));
    }

    /** The webhook endpoint: the dispatched effect applied to the
        subscription table, answering with the HTTP status. A create that
        would break a unique column, or an update that finds no row, throws
        (500) and writes nothing. */
    method HandleWebhook(e: WebhookEvent) returns (status: int)
      requires Valid()
      modifies this
      ensures Valid()
      ensures boards == old(boards) && lists == old(lists) && orgLimits == old(orgLimits) && auditLog == old(auditLog)
      ensures match Dispatch(e)
        case Respond(s) =>
          status == s && subscriptions == old(subscriptions)
        case CreateRow(row) =>
          if row.orgId in old(subscriptions) || SubscriptionIdTaken(old(subscriptions), row.stripeSubscriptionId.value) then
            status == 500 && subscriptions == old(subscriptions)
          else
            status == 200 && subscriptions == old(subscriptions)[row.orgId := row]
        case UpdateRow(subscriptionId, priceId, periodEndMs) =>
          if !SubscriptionIdTaken(old(subscriptions), subscriptionId) then
            status == 500 && subscriptions == old(subscriptions)
          else
            status == 200 && subscriptions == UpdateBySubscriptionId(old(subscriptions), subscriptionId, priceId, periodEndMs)
    {
      match Dispatch(e)
      case Respond(s) =>
        status := s;
      case CreateRow(row) =>
        if row.orgId in subscriptions || SubscriptionIdTaken(subscriptions, row.stripeSubscriptionId.value) {
          status := 500;
        } else {
          subscriptions := subscriptions[row.orgId := row];
          status := 200;
        }
      case UpdateRow(subscriptionId, priceId, periodEndMs) =>
        if !SubscriptionIdTaken(subscriptions, subscriptionId) {
          status := 500;
        } else {
          subscriptions := UpdateBySubscriptionId(subscriptions, subscriptionId, priceId, periodEndMs);
          status := 200;
        }
    }
  }
}
