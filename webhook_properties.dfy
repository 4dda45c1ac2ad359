/**
 * What the webhook reconciler guarantees, stated over the functions of module
 * Webhook: the no-op conditions of each branch, what a projection writes and
 * leaves alone, that a redelivered event changes nothing more, and that the
 * handler keeps every row's subscription and plan columns consistent.
 */
module WebhookProperties {
  import opened Wrappers
  import opened Http
  import opened Entitlement
  import opened StripeObjects
  import opened Webhook

  // ---------------------------------------------------------------------
  // checkout.session.completed
  // ---------------------------------------------------------------------

  /** A session without a correlation token, or without a subscription, is acknowledged and ignored. */
  lemma CheckoutWithoutReferenceOrSubscriptionIsIgnored(
    rows: map<UserId, Row>, order: seq<UserId>, session: CheckoutSession, backend: Backend)
    requires ReferenceMissing(session) || session.subscription.Null?
    ensures Dispatch(rows, order, CheckoutSessionCompleted(session), backend) == Outcome(Acknowledged, rows)
  {
  }

  /**
   * A subscription given as a bare id is first retrieved from Stripe; the
   * projection then works on the retrieved object, and a failed retrieval
   * escapes as a 500 with nothing written.
   */
  lemma CheckoutProjectsSessionSubscription(
    rows: map<UserId, Row>, order: seq<UserId>, session: CheckoutSession, backend: Backend)
    requires !ReferenceMissing(session) && !session.subscription.Null?
    ensures var out := Dispatch(rows, order, CheckoutSessionCompleted(session), backend);
      match SessionSubscription(session, backend)
      case None => session.subscription.Id? && out == Outcome(UncaughtException, rows)
      case Some(subscription) =>
        && (session.subscription.Id? ==> subscription == backend.retrieveSubscription(session.subscription.id).value)
        && (session.subscription.Inline? ==> subscription == session.subscription.obj)
        && out == Finish(ApplyUpdateEntitlement(rows, subscription, IdOf(session.customer),
                                                session.clientReferenceId.value))
  {
  }

  /**
   * The customer id a checkout writes: the session's customer when it is a
   * bare id; otherwise the subscription's customer when that is a bare id;
   * otherwise null, even when the row already held an id.
   */
  lemma CheckoutCustomerChoice(
    rows: map<UserId, Row>, order: seq<UserId>, session: CheckoutSession, backend: Backend,
    subscription: Subscription, k: UserId)
    requires !ReferenceMissing(session) && !session.subscription.Null?
    requires SessionSubscription(session, backend) == Some(subscription)
    requires Project(subscription, IdOf(session.customer)).Write?
    requires k in rows && rows[k].id == session.clientReferenceId.value
    ensures var out := Dispatch(rows, order, CheckoutSessionCompleted(session), backend);
      out.rows[k].stripeCustomerId ==
        if session.customer.Id? then Some(session.customer.id)
        else if subscription.customer.Id? then Some(subscription.customer.id)
        else None
  {
  }

  /** The quirk above on a concrete delivery: an expanded customer object erases a stored customer id. */
  lemma ExpandedCustomerErasesStoredCustomerId()
    ensures
      var stored := Row("u1", Some("sub_1"), Some("cus_1"), Some("price_premium"), Some("prod_1"),
                        Some("active"), Some(Instant(1700000000000)), Some(Instant(1702592000000)));
      var subscription := Subscription("sub_1", Inline(Customer("cus_1")), "active",
        Data([SubscriptionItem(Some(Plan("price_premium", Some("prod_1"))), Some(1702592000), Some(1700000000))]));
      var session := CheckoutSession(Some("u1"), Inline(Customer("cus_1")), Inline(subscription));
      var backend := Backend((raw, signature) => Some(CheckoutSessionCompleted(session)), id => None, false);
      var out := Reconcile(map["u1" := stored], ["u1"], Request(Some("t=1,v1=sig"), "{}"), backend);
      out.response == Acknowledged && out.rows["u1"].stripeCustomerId == None
  {
  }

  // ---------------------------------------------------------------------
  // updateEntitlement
  // ---------------------------------------------------------------------

  /**
   * updateEntitlement returns without writing when `items` has no `data`,
   * when `data` is not a non-empty array, or when the first item lacks its
   * plan or either period.
   */
  lemma UpdateEntitlementSkipsMalformedItems(
    rows: map<UserId, Row>, subscription: Subscription, customerId: Option<string>, userId: UserId)
    requires || subscription.items.NoData?
             || subscription.items.NotAnArray?
             || (subscription.items.Data? && |subscription.items.items| == 0)
             || (subscription.items.Data? && |subscription.items.items| > 0 &&
                 var item := subscription.items.items[0];
                 item.plan.None? || item.currentPeriodEnd.None? || item.currentPeriodStart.None?)
    ensures ApplyUpdateEntitlement(rows, subscription, customerId, userId) == Applied(rows, false)
  {
  }

  /**
   * Otherwise, unless a period is out of a Date's range, the row whose id is
   * userId takes exactly the seven columns, its id stays, and every other row
   * stays as it was. On a valid table that is the one row stored under userId.
   */
  lemma UpdateEntitlementWritesOneRow(
    rows: map<UserId, Row>, order: seq<UserId>, subscription: Subscription,
    customerId: Option<string>, userId: UserId)
    requires TableValid(rows, order)
    requires HasUsableItem(subscription)
    ensures var item := subscription.items.items[0];
      var a := ApplyUpdateEntitlement(rows, subscription, customerId, userId);
      && a.rows.Keys == rows.Keys
      && (a.threw <==> TimeStampToISO(item.currentPeriodEnd.value).None?
                       || TimeStampToISO(item.currentPeriodStart.value).None?)
      && (forall k :: k in rows && k != userId ==> a.rows[k] == rows[k])
      && (!a.threw && userId in rows ==>
            a.rows[userId] == Row(userId, Some(subscription.id),
                                  ResolveCustomer(customerId, subscription),
                                  Some(item.plan.value.id), item.plan.value.product,
                                  Some(subscription.status),
                                  Some(Instant(item.currentPeriodStart.value * 1000)),
                                  Some(Instant(item.currentPeriodEnd.value * 1000))))
  {
  }

  /** Writing the same patch twice leaves the table as writing it once. */
  lemma UpdateByIdIdempotent(rows: map<UserId, Row>, userId: UserId, p: Patch)
    ensures UpdateById(UpdateById(rows, userId, p), userId, p) == UpdateById(rows, userId, p)
  {
    var once := UpdateById(rows, userId, p);
    var twice := UpdateById(once, userId, p);
    forall k | k in once
      ensures twice[k] == once[k]
    {
      if rows[k].id == userId {
        assert once[k] == ApplyPatch(rows[k], p);
      }
    }
  }

  /** Applying updateEntitlement twice with the same arguments gives what applying it once gives. */
  lemma ApplyUpdateEntitlementIdempotent(
    rows: map<UserId, Row>, subscription: Subscription, customerId: Option<string>, userId: UserId)
    ensures var once := ApplyUpdateEntitlement(rows, subscription, customerId, userId);
      ApplyUpdateEntitlement(once.rows, subscription, customerId, userId) == once
  {
    if Project(subscription, customerId).Write? {
      UpdateByIdIdempotent(rows, userId, Project(subscription, customerId).patch);
    }
  }

  // ---------------------------------------------------------------------
  // customer.subscription.updated and customer.subscription.deleted
  // ---------------------------------------------------------------------

  /** An updated event whose lookup fails, or whose subscription no row holds, writes nothing and is acknowledged. */
  lemma UpdatedWithoutMatchIsIgnored(
    rows: map<UserId, Row>, order: seq<UserId>, subscription: Subscription, backend: Backend)
    requires TableValid(rows, order)
    requires backend.entitlementQueryFails
             || forall k :: k in rows ==> rows[k].subscriptionId != Some(subscription.id)
    ensures Dispatch(rows, order, CustomerSubscriptionUpdated(subscription), backend) == Outcome(Acknowledged, rows)
  {
    if !backend.entitlementQueryFails {
      var data := SelectBySubscription(order, rows, subscription.id);
      assert forall k :: k in data ==> HasSubscription(rows, k, subscription.id);
    }
  }

  /** Two first matches in the same order are the same id. */
  lemma FirstMatchUnique(order: seq<UserId>, rows: map<UserId, Row>, subscriptionId: string, a: UserId, b: UserId)
    requires FirstMatchAt(order, rows, subscriptionId, a) && FirstMatchAt(order, rows, subscriptionId, b)
    ensures a == b
  {
    var i :| 0 <= i < |order| && order[i] == a && HasSubscription(rows, a, subscriptionId)
      && (forall j :: 0 <= j < i ==> !HasSubscription(rows, order[j], subscriptionId));
    var i' :| 0 <= i' < |order| && order[i'] == b && HasSubscription(rows, b, subscriptionId)
      && (forall j :: 0 <= j < i' ==> !HasSubscription(rows, order[j], subscriptionId));
  }

  /**
   * Otherwise the event is projected, without a customer id of its own, onto
   * the first row in table order that holds the subscription.
   */
  lemma UpdatedProjectsOntoFirstMatch(
    rows: map<UserId, Row>, order: seq<UserId>, subscription: Subscription, backend: Backend, k: UserId)
    requires !backend.entitlementQueryFails
    requires FirstMatchAt(order, rows, subscription.id, k)
    ensures Dispatch(rows, order, CustomerSubscriptionUpdated(subscription), backend)
            == Finish(ApplyUpdateEntitlement(rows, subscription, None, k))
  {
    var data := SelectBySubscription(order, rows, subscription.id);
    assert k in data;
    FirstMatchUnique(order, rows, subscription.id, data[0], k);
  }

  /**
   * A deleted event clears the subscription and plan of every row holding that
   * subscription, keeps their ids and customer ids, leaves the other rows and
   * writes nothing when no row matches; it is always acknowledged.
   */
  lemma DeletedClearsEveryMatchingRow(
    rows: map<UserId, Row>, order: seq<UserId>, subscription: Subscription, backend: Backend)
    ensures var out := Dispatch(rows, order, CustomerSubscriptionDeleted(subscription), backend);
      && out.response == Acknowledged
      && out.rows.Keys == rows.Keys
      && (forall k :: k in rows && rows[k].subscriptionId == Some(subscription.id) ==>
            out.rows[k] == rows[k].(subscriptionId := None, priceId := None, productId := None,
                                    subscriptionStatus := None, currentPeriodStart := None,
                                    currentPeriodEnd := None))
      && (forall k :: k in rows && rows[k].subscriptionId != Some(subscription.id) ==> out.rows[k] == rows[k])
  {
  }

  // ---------------------------------------------------------------------
  // Redelivery
  // ---------------------------------------------------------------------

  /** The select only depends on which rows hold the subscription. */
  lemma {:induction false} SelectDependsOnMatchesOnly(
    order: seq<UserId>, rows: map<UserId, Row>, rows': map<UserId, Row>, subscriptionId: string)
    requires forall k :: HasSubscription(rows, k, subscriptionId) <==> HasSubscription(rows', k, subscriptionId)
    ensures SelectBySubscription(order, rows, subscriptionId) == SelectBySubscription(order, rows', subscriptionId)
    decreases |order|
  {
    if order != [] {
      SelectDependsOnMatchesOnly(order[1..], rows, rows', subscriptionId);
    }
  }

  lemma ClearSubscriptionIdempotent(rows: map<UserId, Row>, subscriptionId: string)
    ensures ClearSubscription(ClearSubscription(rows, subscriptionId), subscriptionId)
            == ClearSubscription(rows, subscriptionId)
  {
    var once := ClearSubscription(rows, subscriptionId);
    var twice := ClearSubscription(once, subscriptionId);
    forall k | k in once
      ensures twice[k] == once[k]
    {
    }
  }

  /**
   * Redelivering an event is harmless: handling the same request again on the
   * table it produced gives the same response and the same table.
   */
  lemma ReconcileIdempotent(rows: map<UserId, Row>, order: seq<UserId>, request: Request, backend: Backend)
    requires TableValid(rows, order)
    ensures var once := Reconcile(rows, order, request, backend);
      Reconcile(once.rows, order, request, backend) == once
  {
    var once := Reconcile(rows, order, request, backend);
    if !SignatureMissing(request.signature) && backend.constructEvent(request.rawBody, request.signature.value).Some? {
      var event := backend.constructEvent(request.rawBody, request.signature.value).value;
      match event
      case CheckoutSessionCompleted(session) =>
        if !ReferenceMissing(session) && !session.subscription.Null? {
          var subscription := SessionSubscription(session, backend);
          if subscription.Some? {
            ApplyUpdateEntitlementIdempotent(rows, subscription.value, IdOf(session.customer),
                                             session.clientReferenceId.value);
          }
        }
      case CustomerSubscriptionUpdated(subscription) =>
        if !backend.entitlementQueryFails {
          var data := SelectBySubscription(order, rows, subscription.id);
          if |data| > 0 {
            var k := data[0];
            assert k in data;
            var applied := ApplyUpdateEntitlement(rows, subscription, None, k);
            ApplyUpdateEntitlementIdempotent(rows, subscription, None, k);
            forall j
              ensures HasSubscription(rows, j, subscription.id) <==> HasSubscription(applied.rows, j, subscription.id)
            {
              if j in rows && j == k && Project(subscription, None).Write? {
                assert applied.rows[j].subscriptionId == Some(subscription.id);
              }
            }
            SelectDependsOnMatchesOnly(order, rows, applied.rows, subscription.id);
          }
        }
      case CustomerSubscriptionDeleted(subscription) =>
        ClearSubscriptionIdempotent(rows, subscription.id);
      case Unhandled(_) =>
    }
  }

  // ---------------------------------------------------------------------
  // Invariants
  // ---------------------------------------------------------------------

  /**
   * No request breaks the link between a row's subscription and its plan: a
   * row has no subscription exactly when it describes no plan, before and
   * after the handler.
   */
  lemma ReconcileKeepsPlansConsistent(rows: map<UserId, Row>, order: seq<UserId>, request: Request, backend: Backend)
    requires forall k :: k in rows ==> PlanConsistent(rows[k])
    ensures var out := Reconcile(rows, order, request, backend);
      forall k :: k in out.rows ==> PlanConsistent(out.rows[k])
  {
  }

  /**
   * A table valid before the request is valid after it: the handler never adds,
   * removes or re-keys a row.
   */
  lemma ReconcileKeepsTableValid(rows: map<UserId, Row>, order: seq<UserId>, request: Request, backend: Backend)
    requires TableValid(rows, order)
    ensures TableValid(Reconcile(rows, order, request, backend).rows, order)
  {
  }

  // ---------------------------------------------------------------------
  // Event order
  // ---------------------------------------------------------------------

  /**
   * Once a checkout has linked a user to a subscription that no other row
   * holds, a later updated event for that subscription finds that user first.
   */
  lemma UpdatedAfterCheckoutFindsUser(
    rows: map<UserId, Row>, order: seq<UserId>, subscription: Subscription, customerId: Option<string>,
    userId: UserId)
    requires TableValid(rows, order) && userId in rows
    requires Project(subscription, customerId).Write?
    requires forall k :: k in rows && k != userId ==> rows[k].subscriptionId != Some(subscription.id)
    ensures var after := ApplyUpdateEntitlement(rows, subscription, customerId, userId).rows;
      FirstMatchAt(order, after, subscription.id, userId)
  {
    var after := ApplyUpdateEntitlement(rows, subscription, customerId, userId).rows;
    var i :| 0 <= i < |order| && order[i] == userId;
    assert HasSubscription(after, userId, subscription.id);
    forall j | 0 <= j < i
      ensures !HasSubscription(after, order[j], subscription.id)
    {
      assert order[j] != userId;
    }
  }

  /**
   * The lifecycle of one subscription: a checkout for user u1 with sub_1 on
   * price_premium over [1700000000, 1702592000] fills u1's row; an updated
   * event saying past_due changes only the status; a deleted event for an
   * unknown subscription changes nothing; each is acknowledged.
   */
  lemma LifecycleScenario()
    ensures
      var blank := Row("u1", None, None, None, None, None, None, None);
      var item := SubscriptionItem(Some(Plan("price_premium", Some("prod_premium"))), Some(1702592000), Some(1700000000));
      var active := Subscription("sub_1", Id("cus_1"), "active", Data([item]));
      var pastDue := active.(status := "past_due");
      var checkout := CheckoutSessionCompleted(CheckoutSession(Some("u1"), Id("cus_1"), Id("sub_1")));
      var backend := Backend((raw, signature) => None, id => if id == "sub_1" then Some(active) else None, false);
      var afterCheckout := Dispatch(map["u1" := blank], ["u1"], checkout, backend);
      var afterUpdate := Dispatch(afterCheckout.rows, ["u1"], CustomerSubscriptionUpdated(pastDue), backend);
      var afterDelete := Dispatch(afterUpdate.rows, ["u1"],
                                  CustomerSubscriptionDeleted(active.(id := "sub_999")), backend);
      && afterCheckout.response == Acknowledged
      && afterCheckout.rows["u1"] == Row("u1", Some("sub_1"), Some("cus_1"), Some("price_premium"), Some("prod_premium"),
                                         Some("active"), Some(Instant(1700000000000)), Some(Instant(1702592000000)))
      && afterUpdate.response == Acknowledged
      && afterUpdate.rows["u1"] == afterCheckout.rows["u1"].(subscriptionStatus := Some("past_due"))
      && afterDelete == Outcome(Acknowledged, afterUpdate.rows)
  {
    var blank := Row("u1", None, None, None, None, None, None, None);
    var item := SubscriptionItem(Some(Plan("price_premium", Some("prod_premium"))), Some(1702592000), Some(1700000000));
    var active := Subscription("sub_1", Id("cus_1"), "active", Data([item]));
    var pastDue := active.(status := "past_due");
    var backend := Backend((raw, signature) => None, id => if id == "sub_1" then Some(active) else None, false);
    var checkout := CheckoutSessionCompleted(CheckoutSession(Some("u1"), Id("cus_1"), Id("sub_1")));
    var afterCheckout := Dispatch(map["u1" := blank], ["u1"], checkout, backend);
    assert afterCheckout.rows["u1"].subscriptionId == Some("sub_1");
    assert ["u1"][0] == "u1";
    assert FirstMatchAt(["u1"], afterCheckout.rows, "sub_1", "u1");
    UpdatedProjectsOntoFirstMatch(afterCheckout.rows, ["u1"], pastDue, backend, "u1");
  }
}
