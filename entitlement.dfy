/**
 * A row of the `user_entitlements` table, in the shape the app decodes it
 * (StripeSupabasePayment/Models/Entitlement.swift): the user id and seven
 * nullable columns describing that user's subscription.
 */
module Entitlement {
  import opened Wrappers

  /**
   * A point in time as milliseconds since the Unix epoch: the value of a
   * JavaScript Date. Its ISO-8601 spelling is not modelled.
   */
  datatype Instant = Instant(epochMillis: int)

  datatype Row = Row(
    id: string,
    subscriptionId: Option<string>,
    stripeCustomerId: Option<string>,
    priceId: Option<string>,
    productId: Option<string>,
    subscriptionStatus: Option<string>,
    currentPeriodStart: Option<Instant>,
    currentPeriodEnd: Option<Instant>)

  /** Every column that describes a plan (all but id, subscription_id and stripe_customer_id) is null. */
  predicate PlanFieldsCleared(r: Row)
  {
    && r.priceId.None?
    && r.productId.None?
    && r.subscriptionStatus.None?
    && r.currentPeriodStart.None?
    && r.currentPeriodEnd.None?
  }

  /** The row has no subscription exactly when it describes no plan. */
  predicate PlanConsistent(r: Row)
  {
    r.subscriptionId.None? <==> PlanFieldsCleared(r)
  }
}
