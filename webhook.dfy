/**
 * The Stripe webhook reconciler (supabase/functions/stripe-webhook/index.ts):
 * one verified event becomes at most one update of the `user_entitlements`
 * table.
 *
 * The table is a map from user id to row. The select the handler issues
 * returns rows in the table's own order, which `order` records. The
 * functions below define the reconciler on values; the class
 * EntitlementTable holds the table and runs the handler step by step, and its
 * methods are proved to follow those functions.
 */
module Webhook {
  import opened Wrappers
  import opened Http
  import opened Entitlement
  import opened StripeObjects

  type UserId = string

  /**
   * The calls the handler makes to code outside it: the signature check
   * `stripe.webhooks.constructEventAsync(raw, signature, secret)` (None when it
   * throws), `stripe.subscriptions.retrieve(id)` (None when it throws), and
   * whether the entitlement select returns an error.
   */
  datatype Backend = Backend(
    constructEvent: (string, string) -> Option<Event>,
    retrieveSubscription: string -> Option<Subscription>,
    entitlementQueryFails: bool)

  /** The request: the `stripe-signature` header when present, and the raw body. */
  datatype Request = Request(signature: Option<string>, rawBody: string)

  /** The response and the table after one request. */
  datatype Outcome = Outcome(response: Response, rows: map<UserId, Row>)

  /** The response every verified and handled event gets: 200 with no body. */
  const Acknowledged: Response := EmptyResponse(200)

  /** The largest distance from the epoch, in milliseconds, that a JavaScript Date can hold. */
  const MaxTimeMillis: int := 8_640_000_000_000_000

  // ---------------------------------------------------------------------
  // Well-formed tables
  // ---------------------------------------------------------------------

  /**
   * Each row is stored under its own id, and `order` lists every stored id
   * exactly once.
   */
  predicate TableValid(rows: map<UserId, Row>, order: seq<UserId>)
  {
    && (forall k :: k in rows ==> rows[k].id == k)
    && (forall k :: k in rows ==> k in order)
    && (forall i :: 0 <= i < |order| ==> order[i] in rows)
    && Distinct(order)
  }

  // ---------------------------------------------------------------------
  // Normalising Stripe's references
  // ---------------------------------------------------------------------

  /** `typeof ref === "string" ? ref : null`: only a bare id survives. */
  function IdOf<T>(ref: Ref<T>): (r: Option<string>)
    ensures r.Some? <==> ref.Id?
    ensures ref.Id? ==> r.value == ref.id
  {
    if ref.Id? then Some(ref.id) else None
  }

  /**
   * The customer id updateEntitlement writes: the one passed in when it is
   * not null, otherwise the subscription's customer when that is a bare id,
   * otherwise null.
   */
  function ResolveCustomer(customerId: Option<string>, subscription: Subscription): (r: Option<string>)
    ensures customerId.Some? ==> r == customerId
    ensures customerId.None? ==> (r.Some? <==> subscription.customer.Id?)
    ensures customerId.None? && r.Some? ==> r.value == subscription.customer.id
    ensures r.None? <==> customerId.None? && !subscription.customer.Id?
  {
    if customerId.Some? then customerId else IdOf(subscription.customer)
  }

  /**
   * timeStampToISO: seconds to a Date of seconds * 1000 milliseconds. Outside
   * the range a Date can hold the Date is invalid and toISOString throws,
   * here None.
   */
  function TimeStampToISO(seconds: int): (r: Option<Instant>)
    ensures r.Some? <==> -MaxTimeMillis <= seconds * 1000 <= MaxTimeMillis
    ensures r.Some? ==> r.value.epochMillis == seconds * 1000
  {
    var millis := seconds * 1000;
    if -MaxTimeMillis <= millis <= MaxTimeMillis then Some(Instant(millis)) else None
  }

  // ---------------------------------------------------------------------
  // The subscription-to-entitlement projection (updateEntitlement)
  // ---------------------------------------------------------------------

  /** The seven columns updateEntitlement writes. */
  datatype Patch = Patch(
    subscriptionId: string,
    stripeCustomerId: Option<string>,
    priceId: string,
    productId: Option<string>,
    subscriptionStatus: string,
    currentPeriodEnd: Instant,
    currentPeriodStart: Instant)

  /**
   * What updateEntitlement does with a subscription: return early without
   * writing, throw while converting a timestamp, or write a patch.
   */
  datatype Projection = Skip | Throw | Write(patch: Patch)

  /** `items.data` exists, is a non-empty array, and its first item has plan and both periods. */
  predicate HasUsableItem(subscription: Subscription)
  {
    && subscription.items.Data?
    && |subscription.items.items| > 0
    && var item := subscription.items.items[0];
       item.plan.Some? && item.currentPeriodEnd.Some? && item.currentPeriodStart.Some?
  }

  /** The first item is usable but one of its periods lies outside what a Date can hold. */
  predicate PeriodUnrepresentable(subscription: Subscription)
  {
    && HasUsableItem(subscription)
    && var item := subscription.items.items[0];
       (TimeStampToISO(item.currentPeriodEnd.value).None? || TimeStampToISO(item.currentPeriodStart.value).None?)
  }

  function Project(subscription: Subscription, customerId: Option<string>): (r: Projection)
    ensures r.Skip? <==> !HasUsableItem(subscription)
    ensures r.Throw? <==> PeriodUnrepresentable(subscription)
    ensures r.Write? ==>
      var item := subscription.items.items[0];
      && r.patch.subscriptionId == subscription.id
      && r.patch.stripeCustomerId == ResolveCustomer(customerId, subscription)
      && r.patch.priceId == item.plan.value.id
      && r.patch.productId == item.plan.value.product
      && r.patch.subscriptionStatus == subscription.status
      && r.patch.currentPeriodEnd.epochMillis == item.currentPeriodEnd.value * 1000
      && r.patch.currentPeriodStart.epochMillis == item.currentPeriodStart.value * 1000
  {
    if !HasUsableItem(subscription) then Skip
    else
      var item := subscription.items.items[0];
      var end := TimeStampToISO(item.currentPeriodEnd.value);
      var start := TimeStampToISO(item.currentPeriodStart.value);
      if end.None? || start.None? then Throw
      else
        Write(Patch(subscription.id, ResolveCustomer(customerId, subscription),
                    item.plan.value.id, item.plan.value.product, subscription.status,
                    end.value, start.value))
  }

  function ApplyPatch(row: Row, p: Patch): Row
  {
    row.(subscriptionId := Some(p.subscriptionId),
         stripeCustomerId := p.stripeCustomerId,
         priceId := Some(p.priceId),
         productId := p.productId,
         subscriptionStatus := Some(p.subscriptionStatus),
         currentPeriodEnd := Some(p.currentPeriodEnd),
         currentPeriodStart := Some(p.currentPeriodStart))
  }

  /**
   * `update(patch).eq("id", userId)`: every row whose id is userId takes the
   * seven columns of the patch and keeps its id; every other row is left as it
   * was.
   */
  function UpdateById(rows: map<UserId, Row>, userId: UserId, p: Patch): (r: map<UserId, Row>)
    ensures r.Keys == rows.Keys
    ensures forall k :: k in rows && rows[k].id != userId ==> r[k] == rows[k]
    ensures forall k :: k in rows && rows[k].id == userId ==>
      && r[k].id == userId
      && r[k].subscriptionId == Some(p.subscriptionId)
      && r[k].stripeCustomerId == p.stripeCustomerId
      && r[k].priceId == Some(p.priceId)
      && r[k].productId == p.productId
      && r[k].subscriptionStatus == Some(p.subscriptionStatus)
      && r[k].currentPeriodEnd == Some(p.currentPeriodEnd)
      && r[k].currentPeriodStart == Some(p.currentPeriodStart)
  {
    map k | k in rows :: if rows[k].id == userId then ApplyPatch(rows[k], p) else rows[k]
  }

  /** The table after updateEntitlement, and whether it threw. */
  datatype Applied = Applied(rows: map<UserId, Row>, threw: bool)

  function ApplyUpdateEntitlement(rows: map<UserId, Row>, subscription: Subscription,
                                  customerId: Option<string>, userId: UserId): (r: Applied)
    ensures r.threw <==> PeriodUnrepresentable(subscription)
    ensures r.rows.Keys == rows.Keys
    ensures !HasUsableItem(subscription) || r.threw ==> r.rows == rows
    ensures forall k :: k in rows && rows[k].id != userId ==> r.rows[k] == rows[k]
    ensures HasUsableItem(subscription) && !r.threw ==>
      var item := subscription.items.items[0];
      forall k :: k in rows && rows[k].id == userId ==>
        && r.rows[k].id == userId
        && r.rows[k].subscriptionId == Some(subscription.id)
        && r.rows[k].stripeCustomerId == ResolveCustomer(customerId, subscription)
        && r.rows[k].priceId == Some(item.plan.value.id)
        && r.rows[k].productId == item.plan.value.product
        && r.rows[k].subscriptionStatus == Some(subscription.status)
        && r.rows[k].currentPeriodEnd.Some?
        && r.rows[k].currentPeriodEnd.value.epochMillis == item.currentPeriodEnd.value * 1000
        && r.rows[k].currentPeriodStart.Some?
        && r.rows[k].currentPeriodStart.value.epochMillis == item.currentPeriodStart.value * 1000
  {
    match Project(subscription, customerId)
    case Skip => Applied(rows, false)
    case Throw => Applied(rows, true)
    case Write(p) => Applied(UpdateById(rows, userId, p), false)
  }

  // ---------------------------------------------------------------------
  // The two queries on subscription_id
  // ---------------------------------------------------------------------

  /** The row stored under `k` has the given subscription. */
  predicate HasSubscription(rows: map<UserId, Row>, k: UserId, subscriptionId: string)
  {
    k in rows && rows[k].subscriptionId == Some(subscriptionId)
  }

  /** `k` is the first id in table order whose row has the given subscription. */
  predicate FirstMatchAt(order: seq<UserId>, rows: map<UserId, Row>, subscriptionId: string, k: UserId)
  {
    exists i :: 0 <= i < |order| && order[i] == k && HasSubscription(rows, k, subscriptionId)
      && (forall j :: 0 <= j < i ==> !HasSubscription(rows, order[j], subscriptionId))
  }

  /**
   * `select("id").eq("subscription_id", subscriptionId)`: the ids of the rows
   * with that subscription, in table order.
   */
  function SelectBySubscription(order: seq<UserId>, rows: map<UserId, Row>, subscriptionId: string)
    : (ids: seq<UserId>)
    ensures forall k :: k in ids <==> k in order && HasSubscription(rows, k, subscriptionId)
    ensures |ids| > 0 ==> FirstMatchAt(order, rows, subscriptionId, ids[0])
    ensures Subsequence(ids, order)
    ensures Distinct(order) ==> Distinct(ids)
    decreases |order|
  {
    if order == [] then []
    else
      var rest := SelectBySubscription(order[1..], rows, subscriptionId);
      if HasSubscription(rows, order[0], subscriptionId) then
        assert FirstMatchAt(order, rows, subscriptionId, order[0]) by {
          assert 0 < |order| && order[0] == order[0];
        }
        assert Distinct(order) ==> Distinct([order[0]] + rest) by {
          if Distinct(order) {
            assert order[0] !in order[1..];
            assert order[0] !in rest;
            DistinctCons(order[0], rest);
          }
        }
        assert ([order[0]] + rest)[1..] == rest;
        [order[0]] + rest
      else
        assert |rest| > 0 ==> FirstMatchAt(order, rows, subscriptionId, rest[0]) by {
          if |rest| > 0 { FirstMatchSkip(order, rows, subscriptionId, rest[0]); }
        }
        rest
  }

  /** No id occurs twice. */
  predicate Distinct(s: seq<UserId>)
  {
    forall i, j :: 0 <= i < j < |s| ==> s[i] != s[j]
  }

  /** `sub` is `s` with some elements dropped and the rest kept in their order. */
  predicate Subsequence(sub: seq<UserId>, s: seq<UserId>)
    decreases |s|
  {
    if sub == [] then true
    else if s == [] then false
    else if sub[0] == s[0] then Subsequence(sub[1..], s[1..])
    else Subsequence(sub, s[1..])
  }

  lemma DistinctCons(k: UserId, s: seq<UserId>)
    requires k !in s && Distinct(s)
    ensures Distinct([k] + s)
  {
    forall i, j | 0 <= i < j < |[k] + s|
      ensures ([k] + s)[i] != ([k] + s)[j]
    {
      if i > 0 { assert ([k] + s)[i] == s[i - 1]; }
      assert ([k] + s)[j] == s[j - 1];
    }
  }

  /** A first match after a non-matching head is still the first match once the head is put back. */
  lemma FirstMatchSkip(order: seq<UserId>, rows: map<UserId, Row>, subscriptionId: string, k: UserId)
    requires |order| > 0 && !HasSubscription(rows, order[0], subscriptionId)
    requires FirstMatchAt(order[1..], rows, subscriptionId, k)
    ensures FirstMatchAt(order, rows, subscriptionId, k)
  {
    var i :| 0 <= i < |order[1..]| && order[1..][i] == k && HasSubscription(rows, k, subscriptionId)
      && (forall j :: 0 <= j < i ==> !HasSubscription(rows, order[1..][j], subscriptionId));
    assert order[i + 1] == k;
    forall j | 0 <= j < i + 1
      ensures !HasSubscription(rows, order[j], subscriptionId)
    {
      if j > 0 { assert order[j] == order[1..][j - 1]; }
    }
  }

  /** The row a subscription-deleted event leaves: no subscription, no plan, the customer id kept. */
  function ClearPlan(row: Row): Row
  {
    row.(subscriptionId := None, priceId := None, productId := None, subscriptionStatus := None,
         currentPeriodEnd := None, currentPeriodStart := None)
  }

  /**
   * `update({six columns: null}).eq("subscription_id", subscriptionId)`:
   * every row with that subscription loses it and its plan but keeps its id
   * and customer id; every other row is left as it was.
   */
  function ClearSubscription(rows: map<UserId, Row>, subscriptionId: string): (r: map<UserId, Row>)
    ensures r.Keys == rows.Keys
    ensures forall k :: k in rows && rows[k].subscriptionId != Some(subscriptionId) ==> r[k] == rows[k]
    ensures forall k :: k in rows && rows[k].subscriptionId == Some(subscriptionId) ==>
      && r[k].id == rows[k].id
      && r[k].stripeCustomerId == rows[k].stripeCustomerId
      && r[k].subscriptionId.None?
      && PlanFieldsCleared(r[k])
    ensures (forall k :: k in rows ==> rows[k].subscriptionId != Some(subscriptionId)) ==> r == rows
  {
    map k | k in rows :: if rows[k].subscriptionId == Some(subscriptionId) then ClearPlan(rows[k]) else rows[k]
  }

  // ---------------------------------------------------------------------
  // The handler
  // ---------------------------------------------------------------------

  /** `!signature`: the header is missing or empty. */
  predicate SignatureMissing(signature: Option<string>)
  {
    signature.None? || signature.value == ""
  }

  /** `!session.client_reference_id`: no correlation token, or an empty one. */
  predicate ReferenceMissing(session: CheckoutSession)
  {
    session.clientReferenceId.None? || session.clientReferenceId.value == ""
  }

  /** The response after updateEntitlement: a throw escapes the handler. */
  function Finish(applied: Applied): Outcome
  {
    if applied.threw then Outcome(UncaughtException, applied.rows) else Outcome(Acknowledged, applied.rows)
  }

  /** The subscription object a checkout session leads to, once a bare id is retrieved. */
  function SessionSubscription(session: CheckoutSession, backend: Backend): (r: Option<Subscription>)
    requires !session.subscription.Null?
    ensures session.subscription.Inline? ==> r == Some(session.subscription.obj)
    ensures session.subscription.Id? ==> r == backend.retrieveSubscription(session.subscription.id)
  {
    if session.subscription.Inline? then Some(session.subscription.obj)
    else backend.retrieveSubscription(session.subscription.id)
  }

  /**
   * The switch on the event type. Every branch acknowledges with 200 except when
   * retrieving the subscription or converting a timestamp throws: the
   * exception escapes and the runtime answers 500, with the table untouched.
   */
  function Dispatch(rows: map<UserId, Row>, order: seq<UserId>, event: Event, backend: Backend): (r: Outcome)
    ensures r.response == Acknowledged || (r.response == UncaughtException && r.rows == rows)
    ensures event.Unhandled? ==> r == Outcome(Acknowledged, rows)
    ensures r.response == UncaughtException <==>
      || (&& event.CheckoutSessionCompleted?
          && !ReferenceMissing(event.session)
          && !event.session.subscription.Null?
          && (|| SessionSubscription(event.session, backend).None?
              || PeriodUnrepresentable(SessionSubscription(event.session, backend).value)))
      || (&& event.CustomerSubscriptionUpdated?
          && !backend.entitlementQueryFails
          && |SelectBySubscription(order, rows, event.subscription.id)| > 0
          && PeriodUnrepresentable(event.subscription))
  {
    match event
    case CheckoutSessionCompleted(session) =>
      if ReferenceMissing(session) || session.subscription.Null? then Outcome(Acknowledged, rows)
      else
        var subscription := SessionSubscription(session, backend);
        if subscription.None? then Outcome(UncaughtException, rows)
        else
          Finish(ApplyUpdateEntitlement(rows, subscription.value, IdOf(session.customer),
                                        session.clientReferenceId.value))
    case CustomerSubscriptionUpdated(subscription) =>
      if backend.entitlementQueryFails then Outcome(Acknowledged, rows)
      else
        var data := SelectBySubscription(order, rows, subscription.id);
        if |data| == 0 then Outcome(Acknowledged, rows)
        else Finish(ApplyUpdateEntitlement(rows, subscription, None, data[0]))
    case CustomerSubscriptionDeleted(subscription) =>
      Outcome(Acknowledged, ClearSubscription(rows, subscription.id))
    case Unhandled(_) =>
      Outcome(Acknowledged, rows)
  }

  /**
   * One request. A missing signature is answered 401 and a signature that does
   * not verify 400, both before the table is touched; whatever happens, no row
   * is added or removed and no id changes.
   */
  function Reconcile(rows: map<UserId, Row>, order: seq<UserId>, request: Request, backend: Backend)
    : (r: Outcome)
    ensures SignatureMissing(request.signature) ==>
      r == Outcome(TextResponse("Unauthorized", 401), rows)
    ensures (!SignatureMissing(request.signature)
             && backend.constructEvent(request.rawBody, request.signature.value).None?) ==>
      r == Outcome(EmptyResponse(400), rows)
    ensures (!SignatureMissing(request.signature)
             && backend.constructEvent(request.rawBody, request.signature.value).Some?) ==>
      r == Dispatch(rows, order, backend.constructEvent(request.rawBody, request.signature.value).value, backend)
    ensures r.response.status != 200 ==> r.rows == rows
    ensures r.rows.Keys == rows.Keys
    ensures forall k :: k in rows ==> r.rows[k].id == rows[k].id
  {
    if SignatureMissing(request.signature) then Outcome(TextResponse("Unauthorized", 401), rows)
    else
      match backend.constructEvent(request.rawBody, request.signature.value)
      case None => Outcome(EmptyResponse(400), rows)
      case Some(event) => Dispatch(rows, order, event, backend)
  }

  // ---------------------------------------------------------------------
  // The table as the handler sees it
  // ---------------------------------------------------------------------

  class EntitlementTable {
    var rows: map<UserId, Row>
    /** The order in which the database returns rows to a select without ORDER BY. */
    const order: seq<UserId>

    ghost predicate Valid()
      reads this
    {
      TableValid(rows, order)
    }

    constructor (initial: map<UserId, Row>, initialOrder: seq<UserId>)
      requires TableValid(initial, initialOrder)
      ensures Valid() && rows == initial && order == initialOrder
    {
      rows := initial;
      order := initialOrder;
    }

    /**
     * updateEntitlement as written: pick the customer, return early on a
     * malformed item list, convert both periods (either may throw), and
     * update the row whose id is userId.
     */
    method UpdateEntitlement(subscription: Subscription, customerId: Option<string>, userId: UserId)
      returns (threw: bool)
      requires Valid()
      modifies this`rows
      ensures Valid()
      ensures Applied(rows, threw) == ApplyUpdateEntitlement(old(rows), subscription, customerId, userId)
    {
      var customer := customerId;
      if customerId.None? && subscription.customer.Id? {
        customer := Some(subscription.customer.id);
      }
      threw := false;
      if !subscription.items.Data? {
        return;
      }
      var data := subscription.items.items;
      if |data| == 0 {
        return;
      }
      var item := data[0];
      if item.plan.None? || item.currentPeriodEnd.None? || item.currentPeriodStart.None? {
        return;
      }
      var plan := item.plan.value;
      var periodEnd := TimeStampToISO(item.currentPeriodEnd.value);
      var periodStart := TimeStampToISO(item.currentPeriodStart.value);
      if periodEnd.None? || periodStart.None? {
        threw := true;
        return;
      }
      var patch := Patch(subscription.id, customer, plan.id, plan.product, subscription.status,
                         periodEnd.value, periodStart.value);
      rows := UpdateById(rows, userId, patch);
    }

    /** The `Deno.serve` handler as written, one branch per event type. */
    method Handle(request: Request, backend: Backend) returns (response: Response)
      requires Valid()
      modifies this`rows
      ensures Valid()
      ensures Outcome(response, rows) == Reconcile(old(rows), order, request, backend)
    {
      var signature := request.signature;
      if signature.None? || signature.value == "" {
        return TextResponse("Unauthorized", 401);
      }
      var event := backend.constructEvent(request.rawBody, signature.value);
      if event.None? {
        return EmptyResponse(400);
      }
      match event.value {
        case CheckoutSessionCompleted(session) =>
          var reference := session.clientReferenceId;
          if reference.Some? && reference.value != "" {
            var customer := IdOf(session.customer);
            var subscription := session.subscription;
            if !subscription.Null? {
              if subscription.Id? {
                var retrieved := backend.retrieveSubscription(subscription.id);
                if retrieved.None? {
                  return UncaughtException;
                }
                subscription := Inline(retrieved.value);
              }
              var threw := UpdateEntitlement(subscription.obj, customer, reference.value);
              if threw {
                return UncaughtException;
              }
            }
          }
        case CustomerSubscriptionUpdated(subscription) =>
          if !backend.entitlementQueryFails {
            var data := SelectBySubscription(order, rows, subscription.id);
            if |data| > 0 {
              var threw := UpdateEntitlement(subscription, None, data[0]);
              if threw {
                return UncaughtException;
              }
            }
          }
        case CustomerSubscriptionDeleted(subscription) =>
          rows := ClearSubscription(rows, subscription.id);
        case Unhandled(_) =>
      }
      response := Acknowledged;
    }
  }
}
