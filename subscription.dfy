/** Subscription validity: an organization is on the paid plan while its
    subscription row has a price id and its period end, plus one day of grace,
    lies in the future. Times are integer milliseconds. */
module Subscription {
  import opened Common

  /** One day in milliseconds, the grace window after a period ends. */
  const DAY_IN_MS: int := 86_400_000

  /** A row of the `orgSubscription` table; every column but `orgId` may be null. */
  datatype OrgSubscription = OrgSubscription(
    orgId: string,
    stripeCustomerId: Option<string>,
    stripeSubscriptionId: Option<string>,
    stripePriceId: Option<string>,
    stripeCurrentPeriodEnd: Option<int>)

  /** The table, keyed by its unique `orgId` column. */
  type SubscriptionTable = map<string, OrgSubscription>

  /** `checkSubscription` for the session's `orgId` at time `now`. A null
      period end makes the sum NaN, and `NaN > now` is false. */
  function CheckSubscription(orgId: Option<string>, table: SubscriptionTable, now: int): (valid: bool)
    ensures !Truthy(orgId) ==> !valid
    ensures Truthy(orgId) && orgId.value !in table ==> !valid
    ensures Truthy(orgId) && orgId.value in table && !Truthy(table[orgId.value].stripePriceId) ==> !valid
    ensures Truthy(orgId) && orgId.value in table && table[orgId.value].stripeCurrentPeriodEnd.None? ==> !valid
    ensures valid ==> Truthy(orgId) && orgId.value in table && Truthy(table[orgId.value].stripePriceId) &&
                      table[orgId.value].stripeCurrentPeriodEnd.Some? &&
                      now < table[orgId.value].stripeCurrentPeriodEnd.value + DAY_IN_MS
  {
    if !Truthy(orgId) then false
    else if orgId.value !in table then false
    else
      var row := table[orgId.value];
      Truthy(row.stripePriceId) &&
      match row.stripeCurrentPeriodEnd
      case None => false
      case Some(periodEnd) => periodEnd + DAY_IN_MS > now
  }

  /** The grace window is exactly one day, half open: a priced subscription
      whose period ends at `periodEnd` is valid at every instant before
      `periodEnd + DAY_IN_MS` and at none from then on; in particular it has
      expired at `now == periodEnd + DAY_IN_MS`. */
  lemma GraceWindow(orgId: string, table: SubscriptionTable, periodEnd: int, now: int)
    requires orgId != "" && orgId in table
    requires Truthy(table[orgId].stripePriceId)
    requires table[orgId].stripeCurrentPeriodEnd == Some(periodEnd)
    ensures CheckSubscription(Some(orgId), table, now) <==> now < periodEnd + DAY_IN_MS
    ensures now == periodEnd + DAY_IN_MS ==> !CheckSubscription(Some(orgId), table, now)
    ensures periodEnd <= now < periodEnd + DAY_IN_MS ==> CheckSubscription(Some(orgId), table, now)
  {
  }

  /** One hour short of the grace window's end the subscription still holds;
      one hour past it, it does not. */
  lemma GraceBoundaryHours(orgId: string, table: SubscriptionTable, now: int)
    requires orgId != "" && orgId in table
    requires Truthy(table[orgId].stripePriceId)
    ensures table[orgId].stripeCurrentPeriodEnd == Some(now - 23 * 3_600_000) ==> CheckSubscription(Some(orgId), table, now)
    ensures table[orgId].stripeCurrentPeriodEnd == Some(now - 25 * 3_600_000) ==> !CheckSubscription(Some(orgId), table, now)
  {
  }

  /** Validity never comes back with time: valid now means valid at every
      earlier instant. */
  lemma ValidityIsAntitone(orgId: Option<string>, table: SubscriptionTable, earlier: int, later: int)
    requires earlier <= later
    requires CheckSubscription(orgId, table, later)
    ensures CheckSubscription(orgId, table, earlier)
  {
  }

  /** A row whose price id is missing or empty grants nothing, however far in
      the future its period ends. */
  lemma NoPriceNoSubscription(orgId: Option<string>, table: SubscriptionTable, now: int)
    requires Truthy(orgId) && orgId.value in table
    requires !Truthy(table[orgId.value].stripePriceId)
    ensures forall t :: !CheckSubscription(orgId, table, t)
  {
  }

  /** Validity depends only on the caller's own row. */
  lemma OnlyOwnRowMatters(orgId: string, t1: SubscriptionTable, t2: SubscriptionTable, now: int)
    requires orgId in t1 <==> orgId in t2
    requires orgId in t1 ==> t1[orgId] == t2[orgId]
    ensures CheckSubscription(Some(orgId), t1, now) == CheckSubscription(Some(orgId), t2, now)
  {
  }
}
