/** The list-reorder batch: one `order` update per item, each scoped to the
    caller's organization through the list's board, run as one transaction. */
module ListOrder {
  import opened Common
  import opened Entities

  /** One element of the batch: which list, and its new position. */
  datatype ReorderItem = ReorderItem(id: string, order: int)

  /** A committed batch: the new list table and the updated rows, one per
      item, in item order. */
  datatype Applied = Applied(lists: map<string, ListRow>, updated: seq<ListRow>)

  /** The update's `where { id, board: { orgId } }`: the list exists and its
      board belongs to `orgId`. */
  predicate Matches(lists: map<string, ListRow>, boards: map<string, Board>, orgId: string, id: string)
  {
    id in lists && lists[id].boardId in boards && boards[lists[id].boardId].orgId == orgId
  }

  /** One `update`: set the order of the matched list, or fail. */
  function Step(lists: map<string, ListRow>, boards: map<string, Board>, orgId: string, item: ReorderItem): (r: Option<map<string, ListRow>>)
    ensures r.Some? <==> Matches(lists, boards, orgId, item.id)
    ensures r.Some? ==> r.value == lists[item.id := lists[item.id].(order := item.order)]
  {
    if Matches(lists, boards, orgId, item.id) then Some(lists[item.id := lists[item.id].(order := item.order)])
    else None
  }

  /** The whole transaction applied to `lists`: the items in order, or nothing
      at all as soon as one of them fails. */
  function ApplyOrders(lists: map<string, ListRow>, boards: map<string, Board>, orgId: string, items: seq<ReorderItem>): (r: Option<Applied>)
    ensures r.Some? ==> r.value.lists.Keys == lists.Keys && |r.value.updated| == |items|
    ensures |items| > 0 && !Matches(lists, boards, orgId, items[0].id) ==> r.None?
    decreases |items|
  {
    if |items| == 0 then Some(Applied(lists, []))
    else
      match Step(lists, boards, orgId, items[0])
      case None => None
      case Some(next) =>
        match ApplyOrders(next, boards, orgId, items[1..])
        case None => None
        case Some(a) => Some(Applied(a.lists, [next[items[0].id]] + a.updated))
  }

  /** `updated` placed before the rows of a committed batch. */
  function Prepend(updated: seq<ListRow>, a: Option<Applied>): (r: Option<Applied>)
    ensures r.Some? <==> a.Some?
    ensures r.Some? ==> r.value.lists == a.value.lists && r.value.updated == updated + a.value.updated
  {
    match a
    case None => None
    case Some(x) => Some(Applied(x.lists, updated + x.updated))
  }

  lemma PrependNothing(a: Option<Applied>)
    ensures Prepend([], a) == a
  {
    if a.Some? {
      assert [] + a.value.updated == a.value.updated;
    }
  }

  lemma PrependTwice(u1: seq<ListRow>, u2: seq<ListRow>, a: Option<Applied>)
    ensures Prepend(u1, Prepend(u2, a)) == Prepend(u1 + u2, a)
  {
    if a.Some? {
      assert u1 + (u2 + a.value.updated) == (u1 + u2) + a.value.updated;
    }
  }

  /** Writing an order never changes which lists an organization may update. */
  lemma StepKeepsScope(lists: map<string, ListRow>, boards: map<string, Board>, orgId: string, item: ReorderItem, id: string)
    requires Matches(lists, boards, orgId, item.id)
    ensures Matches(Step(lists, boards, orgId, item).value, boards, orgId, id) <==> Matches(lists, boards, orgId, id)
  {
  }

  /** All or nothing: the batch commits exactly when every item names a list
      of the caller's organization. */
  lemma {:induction false} AllOrNothing(lists: map<string, ListRow>, boards: map<string, Board>, orgId: string, items: seq<ReorderItem>)
    ensures ApplyOrders(lists, boards, orgId, items).Some? <==>
            forall k :: 0 <= k < |items| ==> Matches(lists, boards, orgId, items[k].id)
    decreases |items|
  {
    if |items| > 0 {
      var s := Step(lists, boards, orgId, items[0]);
      if s.Some? {
        AllOrNothing(s.value, boards, orgId, items[1..]);
        forall k | 0 <= k < |items| - 1
          ensures Matches(s.value, boards, orgId, items[1..][k].id) <==> Matches(lists, boards, orgId, items[k + 1].id)
        {
          StepKeepsScope(lists, boards, orgId, items[0], items[k + 1].id);
        }
        if forall k :: 0 <= k < |items| ==> Matches(lists, boards, orgId, items[k].id) {
          assert forall k :: 0 <= k < |items[1..]| ==> items[1..][k] == items[k + 1];
        } else {
          var k :| 0 <= k < |items| && !Matches(lists, boards, orgId, items[k].id);
          assert k > 0;
          assert !Matches(s.value, boards, orgId, items[1..][k - 1].id);
        }
      }
    }
  }

  /** A committed batch changes no list's identity, title or board, adds and
      removes no list, and leaves every list that no item names as it was. */
  lemma {:induction false} OnlyOrdersOfNamedListsChange(lists: map<string, ListRow>, boards: map<string, Board>, orgId: string, items: seq<ReorderItem>)
    requires ApplyOrders(lists, boards, orgId, items).Some?
    ensures var a := ApplyOrders(lists, boards, orgId, items).value;
            && a.lists.Keys == lists.Keys
            && (forall id :: id in lists ==> a.lists[id] == lists[id].(order := a.lists[id].order))
            && (forall id :: id in lists && (forall k :: 0 <= k < |items| ==> items[k].id != id) ==> a.lists[id] == lists[id])
    decreases |items|
  {
    if |items| > 0 {
      var next := Step(lists, boards, orgId, items[0]).value;
      OnlyOrdersOfNamedListsChange(next, boards, orgId, items[1..]);
      var a := ApplyOrders(lists, boards, orgId, items).value;
      assert a == Applied(ApplyOrders(next, boards, orgId, items[1..]).value.lists, a.updated);
      forall id | id in lists && (forall k :: 0 <= k < |items| ==> items[k].id != id)
        ensures a.lists[id] == lists[id]
      {
        assert items[0].id != id;
        assert forall k :: 0 <= k < |items[1..]| ==> items[1..][k].id != id by {
          forall k | 0 <= k < |items[1..]| ensures items[1..][k].id != id {
            assert items[1..][k] == items[k + 1];
          }
        }
      }
    }
  }

  /** Each item's order is in place after the commit unless a later item of
      the same batch names the same list again (then the later one wins). */
  lemma {:induction false} LastWriteWins(lists: map<string, ListRow>, boards: map<string, Board>, orgId: string, items: seq<ReorderItem>, k: nat)
    requires ApplyOrders(lists, boards, orgId, items).Some?
    requires k < |items|
    requires forall j :: k < j < |items| ==> items[j].id != items[k].id
    ensures var a := ApplyOrders(lists, boards, orgId, items).value;
            items[k].id in a.lists && a.lists[items[k].id].order == items[k].order
    decreases |items|
  {
    var next := Step(lists, boards, orgId, items[0]).value;
    var rest := items[1..];
    if k == 0 {
      OnlyOrdersOfNamedListsChange(next, boards, orgId, rest);
      forall j | 0 <= j < |rest| ensures rest[j].id != items[0].id {
        assert rest[j] == items[j + 1];
      }
    } else {
      forall j | k - 1 < j < |rest| ensures rest[j].id != rest[k - 1].id {
        assert rest[j] == items[j + 1];
      }
      LastWriteWins(next, boards, orgId, rest, k - 1);
    }
  }

  /** The data returned is one row per item, in item order: the named list
      with the item's order written, as the update left it. */
  lemma {:induction false} UpdatedRowsFollowItems(lists: map<string, ListRow>, boards: map<string, Board>, orgId: string, items: seq<ReorderItem>)
    requires ApplyOrders(lists, boards, orgId, items).Some?
    ensures var a := ApplyOrders(lists, boards, orgId, items).value;
            && |a.updated| == |items|
            && forall k :: 0 <= k < |items| ==>
                 items[k].id in lists && a.updated[k] == lists[items[k].id].(order := items[k].order)
    decreases |items|
  {
    if |items| > 0 {
      var next := Step(lists, boards, orgId, items[0]).value;
      var rest := items[1..];
      UpdatedRowsFollowItems(next, boards, orgId, rest);
      var a := ApplyOrders(lists, boards, orgId, items).value;
      var b := ApplyOrders(next, boards, orgId, rest).value;
      assert a.updated == [next[items[0].id]] + b.updated;
      forall k | 0 <= k < |items|
        ensures items[k].id in lists && a.updated[k] == lists[items[k].id].(order := items[k].order)
      {
        if k > 0 {
          assert items[k] == rest[k - 1];
          assert a.updated[k] == b.updated[k - 1];
        }
      }
    }
  }
}
