/** The free-tier ledger: a per-organization count of boards created while
    unsubscribed, checked against a fixed cap. The ledger's own source is not
    part of this model; it is taken as a map from org id to count in which a
    missing entry reads as zero, with raw increments and decrements. */
module OrgLimit {

  /** The number of boards an unsubscribed organization may hold. */
  const MAX_FREE_BOARDS: int := 5

  type Ledger = map<string, int>

  /** The organization's counter; an organization never counted reads 0. */
  function UsedCount(ledger: Ledger, orgId: string): int
  {
    if orgId in ledger then ledger[orgId] else 0
  }

  /** `hasAvailableCount`: another free board may be created. */
  predicate HasAvailableCount(ledger: Ledger, orgId: string)
    ensures orgId !in ledger ==> HasAvailableCount(ledger, orgId)
    ensures HasAvailableCount(ledger, orgId) ==> orgId !in ledger || ledger[orgId] < MAX_FREE_BOARDS
  {
    UsedCount(ledger, orgId) < MAX_FREE_BOARDS
  }

  /** `incrementAvailableCount`: one more free board is in use. */
  function Increment(ledger: Ledger, orgId: string): (r: Ledger)
    ensures UsedCount(r, orgId) == UsedCount(ledger, orgId) + 1
    ensures r.Keys == ledger.Keys + {orgId}
    ensures forall o :: o in ledger && o != orgId ==> r[o] == ledger[o]
  {
    ledger[orgId := UsedCount(ledger, orgId) + 1]
  }

  /** `decreaseAvailableCount`: one free board fewer, a raw decrement that
      can go below zero. */
  function Decrease(ledger: Ledger, orgId: string): (r: Ledger)
    ensures UsedCount(r, orgId) == UsedCount(ledger, orgId) - 1
    ensures r.Keys == ledger.Keys + {orgId}
    ensures forall o :: o in ledger && o != orgId ==> r[o] == ledger[o]
  {
    ledger[orgId := UsedCount(ledger, orgId) - 1]
  }

  /** The cap is exclusive: the fifth free board may be created, a sixth may not. */
  lemma CapBoundary(ledger: Ledger, orgId: string)
    ensures UsedCount(ledger, orgId) == MAX_FREE_BOARDS ==> !HasAvailableCount(ledger, orgId)
    ensures UsedCount(ledger, orgId) == MAX_FREE_BOARDS - 1 ==> HasAvailableCount(ledger, orgId)
  {
  }

  /** Creating and then deleting a free board leaves every organization's
      count where it was. */
  lemma DecreaseUndoesIncrement(ledger: Ledger, orgId: string)
    ensures forall o :: UsedCount(Decrease(Increment(ledger, orgId), orgId), o) == UsedCount(ledger, o)
    ensures orgId in ledger ==> Decrease(Increment(ledger, orgId), orgId) == ledger
  {
    var r := Decrease(Increment(ledger, orgId), orgId);
    forall o ensures UsedCount(r, o) == UsedCount(ledger, o) {
      if o != orgId {
        assert o in r <==> o in ledger;
      }
    }
  }
}
