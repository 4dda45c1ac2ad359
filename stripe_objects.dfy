/**
 * The parts of Stripe's webhook payloads that the reconciler reads, already
 * parsed from JSON.
 */
module StripeObjects {
  import opened Wrappers

  /**
   * A field that Stripe either leaves as a bare id string, expands to the
   * inline object, or sets to null.
   */
  datatype Ref<T> = Id(id: string) | Inline(obj: T) | Null

  datatype Customer = Customer(id: string)

  /** A price plan; `product` is the product id, or null. */
  datatype Plan = Plan(id: string, product: Option<string>)

  /**
   * A subscription item. Each field is None when the item object has no own
   * property of that name (the handler checks `Object.hasOwn`). Periods are
   * Unix timestamps in seconds.
   */
  datatype SubscriptionItem = SubscriptionItem(
    plan: Option<Plan>,
    currentPeriodEnd: Option<int>,
    currentPeriodStart: Option<int>)

  /**
   * `subscription.items`: the list object either has no own `data` property,
   * has one that is not an array, or has an array of items.
   */
  datatype ItemList = NoData | NotAnArray | Data(items: seq<SubscriptionItem>)

  datatype Subscription = Subscription(
    id: string,
    customer: Ref<Customer>,
    status: string,
    items: ItemList)

  /** A Checkout Session; `clientReferenceId` is the correlation token set when the session was created. */
  datatype CheckoutSession = CheckoutSession(
    clientReferenceId: Option<string>,
    customer: Ref<Customer>,
    subscription: Ref<Subscription>)

  /** A verified event: the three types the handler reacts to, and any other by its type name. */
  datatype Event =
    | CheckoutSessionCompleted(session: CheckoutSession)
    | CustomerSubscriptionUpdated(subscription: Subscription)
    | CustomerSubscriptionDeleted(subscription: Subscription)
    | Unhandled(eventType: string)
}
