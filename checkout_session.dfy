/**
 * The `create-checkout-session` function (supabase/functions/create-checkout-session/index.ts):
 * a ladder of guards that turns a signed-in user's request into a Stripe
 * Checkout Session for one subscription price, answered as JSON.
 *
 * The Supabase client, the user's visible entitlement rows, `auth.getUser()`
 * and `stripe.checkout.sessions.create` are outside the model; a Backend
 * value says what each of them answers for this request.
 */
module CreateCheckoutSession {
  import opened Wrappers
  import opened Http
  import opened JsValues
  import opened Entitlement
  import opened ErrorResponse

  /** The incoming request; `body` is None when `req.json()` throws (no or malformed JSON). */
  datatype Request = Request(httpMethod: string, authorization: Option<string>, body: Option<JsValue>)

  /** The select on `user_entitlements`, limited by row-level security to the caller's rows. */
  datatype Selection = QueryFailed(queryError: JsValue) | Visible(rows: seq<Row>)

  /** `auth.getUser()`: an error, or the signed-in user's email (possibly null or empty). */
  datatype AuthUser = AuthFailed(authError: JsValue) | SignedIn(email: Option<string>)

  datatype LineItem = LineItem(price: JsValue, quantity: int)

  /** The parameters passed to `stripe.checkout.sessions.create`; an Option field left None is `undefined`. */
  datatype SessionParams = SessionParams(
    mode: string,
    clientReferenceId: string,
    customerEmail: Option<string>,
    customer: Option<string>,
    lineItems: seq<LineItem>,
    successUrl: JsValue,
    cancelUrl: JsValue,
    expand: seq<string>)

  /**
   * What the services answer. `clientError` is what `createClient` throws, if
   * anything; `createSession` gives the created session, or None when the
   * call rejects.
   */
  datatype Backend = Backend(
    clientError: Option<JsValue>,
    entitlements: Selection,
    user: AuthUser,
    createSession: SessionParams -> Option<JsValue>)

  /** A missing or empty Authorization header is falsy. */
  predicate AuthorizationMissing(header: Option<string>)
  {
    header.None? || header.value == ""
  }

  /** A missing (null) or empty email fails `!data.user.email`. */
  predicate EmailMissing(email: Option<string>)
  {
    email.None? || email.value == ""
  }

  /** `x ?? undefined` */
  function OrUndefined(v: JsValue): (r: JsValue)
    ensures r == Undefined <==> v == Null || v == Undefined
    ensures r != Undefined ==> r == v
  {
    if v == Null then Undefined else v
  }

  /** The Error that getUserEmail throws when the user has no email. */
  const EmailRequired: JsValue := ErrorObj("Error", "Email required.", [])

  /** The two checks that need no service: a POST with a non-empty Authorization header. */
  predicate AuthorizedPost(request: Request)
  {
    request.httpMethod == "POST" && !AuthorizationMissing(request.authorization)
  }

  /** The outcome of the guards that run before the body is read. */
  datatype Admission = Rejected(response: Response) | Admitted(user: Row, email: string)

  /**
   * The guards, in the handler's order: the method must be POST, an
   * Authorization header must be present, the client must be created, the
   * entitlement select must succeed and return at least one row, and the user
   * must have an email. A request is admitted exactly when all of them pass,
   * with the first visible row and the email; each refusal is a JSON error
   * response.
   */
  function Admit(request: Request, backend: Backend): (a: Admission)
    ensures a.Admitted? <==>
      && request.httpMethod == "POST"
      && !AuthorizationMissing(request.authorization)
      && backend.clientError.None?
      && backend.entitlements.Visible? && |backend.entitlements.rows| > 0
      && backend.user.SignedIn? && !EmailMissing(backend.user.email)
    ensures a.Admitted? ==> a.user == backend.entitlements.rows[0] && Some(a.email) == backend.user.email
    ensures a.Rejected? ==> a.response.contentType == Some("application/json")
                            && a.response.status in {400, 401, 405, 500}
    ensures request.httpMethod != "POST" ==> a == Rejected(ErrorResponseFor(Str("Method Not Allowed"), 405))
    ensures request.httpMethod == "POST" && AuthorizationMissing(request.authorization) ==>
              a == Rejected(ErrorResponseFor(Str("Unauthorized"), 401))
    ensures AuthorizedPost(request) && backend.clientError.Some? ==>
              a == Rejected(ErrorResponseFor(backend.clientError.value, 500))
    ensures AuthorizedPost(request) && backend.clientError.None? && backend.entitlements.QueryFailed? ==>
              a == Rejected(ErrorResponseFor(backend.entitlements.queryError, 500))
    ensures AuthorizedPost(request) && backend.clientError.None? && backend.entitlements == Visible([]) ==>
              a == Rejected(ErrorResponseFor(Str("Unknwon User"), 400))
    ensures AuthorizedPost(request) && backend.clientError.None?
            && backend.entitlements.Visible? && |backend.entitlements.rows| > 0 && backend.user.AuthFailed? ==>
              a == Rejected(ErrorResponseFor(backend.user.authError, 500))
    ensures AuthorizedPost(request) && backend.clientError.None?
            && backend.entitlements.Visible? && |backend.entitlements.rows| > 0
            && backend.user.SignedIn? && EmailMissing(backend.user.email) ==>
              a == Rejected(ErrorResponseFor(EmailRequired, 500))
  {
    if request.httpMethod != "POST" then Rejected(ErrorResponseFor(Str("Method Not Allowed"), 405))
    else if AuthorizationMissing(request.authorization) then Rejected(ErrorResponseFor(Str("Unauthorized"), 401))
    else if backend.clientError.Some? then Rejected(ErrorResponseFor(backend.clientError.value, 500))
    else match backend.entitlements
      case QueryFailed(error) => Rejected(ErrorResponseFor(error, 500))
      case Visible(rows) =>
        if |rows| == 0 then Rejected(ErrorResponseFor(Str("Unknwon User"), 400))
        else match backend.user
          case AuthFailed(error) => Rejected(ErrorResponseFor(error, 500))
          case SignedIn(email) =>
            if EmailMissing(email) then Rejected(ErrorResponseFor(EmailRequired, 500))
            else Admitted(rows[0], email.value)
  }

  /**
   * The session parameters for a user: a subscription-mode session for one
   * unit of the price, referenced by the user id, naming the stored Stripe
   * customer when there is one and otherwise prefilling the email, so that
   * exactly one of the two is sent.
   */
  function Params(user: Row, email: string, priceId: JsValue, successUrl: JsValue, cancelUrl: JsValue)
    : (p: SessionParams)
    ensures p.mode == "subscription" && p.expand == ["subscription"]
    ensures p.clientReferenceId == user.id
    ensures p.customer.Some? != p.customerEmail.Some?
    ensures p.customer == user.stripeCustomerId
    ensures p.customerEmail.Some? ==> p.customerEmail.value == email
    ensures p.lineItems == [LineItem(priceId, 1)]
    ensures p.successUrl == OrUndefined(successUrl) && p.cancelUrl == OrUndefined(cancelUrl)
  {
    SessionParams(
      "subscription",
      user.id,
      if user.stripeCustomerId.None? then Some(email) else None,
      user.stripeCustomerId,
      [LineItem(priceId, 1)],
      OrUndefined(successUrl),
      OrUndefined(cancelUrl),
      ["subscription"])
  }

  /**
   * `new Response(JSON.stringify(session), …)`: status 200 with a JSON content
   * type; a session that serialises to undefined gives an empty body, and one
   * that cannot be serialised escapes as an uncaught exception.
   */
  function SessionResponse(session: JsValue): (r: Response)
    ensures r.status == 200 <==> !HasBigInt(session)
    ensures r.status == 200 ==> r.contentType == Some("application/json")
    ensures r.status == 200 && session != Undefined ==> r.body == Some(Stringify(session).text)
    ensures r.status != 200 ==> r == UncaughtException
  {
    match Stringify(session)
    case Text(json) => Response(200, Some("application/json"), Some(json))
    case Omitted => Response(200, Some("application/json"), None)
    case Throws => UncaughtException
  }

  /**
   * The whole handler. After the guards, the body is read: a body that is not
   * JSON, or is JSON null, makes the handler throw. Only a `price_id` that is
   * exactly null is refused; otherwise the session is created with whatever
   * the body holds.
   */
  function HandleRequest(request: Request, backend: Backend): (r: Response)
    ensures Admit(request, backend).Rejected? ==> r == Admit(request, backend).response
    ensures Admit(request, backend).Admitted? && (request.body.None? || request.body.value in {Null, Undefined}) ==>
              r == UncaughtException
    ensures && Admit(request, backend).Admitted?
            && request.body.Some? && request.body.value !in {Null, Undefined}
            && Get(request.body.value, "price_id") == Null ==>
              r == ErrorResponseFor(Str("Price ID is required"), 400)
    ensures && Admit(request, backend).Admitted?
            && request.body.Some? && request.body.value !in {Null, Undefined}
            && Get(request.body.value, "price_id") != Null ==>
      var a := Admit(request, backend);
      var body := request.body.value;
      var created := backend.createSession(Params(a.user, a.email, Get(body, "price_id"),
                                                  Get(body, "success_url"), Get(body, "cancelled_url")));
      r == (if created.Some? then SessionResponse(created.value) else UncaughtException)
    ensures r.status == 200 ==>
      && Admit(request, backend).Admitted?
      && request.body.Some? && request.body.value !in {Null, Undefined}
      && Get(request.body.value, "price_id") != Null
      && var a := Admit(request, backend);
         var body := request.body.value;
         var created := backend.createSession(Params(a.user, a.email, Get(body, "price_id"),
                                                     Get(body, "success_url"), Get(body, "cancelled_url")));
         created.Some? && r == SessionResponse(created.value)
    ensures r.status in {200, 400, 401, 405, 500}
  {
    match Admit(request, backend)
    case Rejected(response) => response
    case Admitted(user, email) =>
      if request.body.None? || request.body.value in {Null, Undefined} then UncaughtException
      else
        var body := request.body.value;
        if Get(body, "price_id") == Null then ErrorResponseFor(Str("Price ID is required"), 400)
        else
          var params := Params(user, email, Get(body, "price_id"), Get(body, "success_url"), Get(body, "cancelled_url"));
          match backend.createSession(params)
          case None => UncaughtException
          case Some(session) => SessionResponse(session)
  }

  // ---------------------------------------------------------------------
  // Properties
  // ---------------------------------------------------------------------

  /**
   * The method and Authorization checks come first: their answers do not
   * depend on the services or on the body.
   */
  lemma EarlyGuardsIgnoreBackend(request: Request, request': Request, backend: Backend, backend': Backend)
    requires request.httpMethod == request'.httpMethod && request.authorization == request'.authorization
    requires request.httpMethod != "POST" || AuthorizationMissing(request.authorization)
    ensures HandleRequest(request, backend) == HandleRequest(request', backend')
    ensures HandleRequest(request, backend).status in {401, 405}
  {
  }

  /** Every refusal the handler itself words carries its reason as the `error` member of the JSON body. */
  lemma RefusalMessages(request: Request, backend: Backend)
    ensures var r := HandleRequest(request, backend);
      r.status in {400, 401, 405} ==>
        && r.contentType == Some("application/json") && r.body.Some?
        && ParseErrorBody(r.body.value) in
             {Some("Method Not Allowed"), Some("Unauthorized"), Some("Unknwon User"), Some("Price ID is required")}
  {
  }

  /** A caller with no visible entitlement row is refused with 400 "Unknwon User" before the user is fetched. */
  lemma UnknownUserRefused(request: Request, backend: Backend)
    requires request.httpMethod == "POST" && !AuthorizationMissing(request.authorization)
    requires backend.clientError.None? && backend.entitlements == Visible([])
    ensures var r := HandleRequest(request, backend);
      r.status == 400 && ParseErrorBody(r.body.value) == Some("Unknwon User")
  {
  }

  /** A user without an email gets a 500 whose error is the thrown Error's message. */
  lemma MissingEmailIsServerError(request: Request, backend: Backend)
    requires request.httpMethod == "POST" && !AuthorizationMissing(request.authorization)
    requires backend.clientError.None? && backend.entitlements.Visible? && |backend.entitlements.rows| > 0
    requires backend.user.SignedIn? && EmailMissing(backend.user.email)
    ensures var r := HandleRequest(request, backend);
      r.status == 500 && ParseErrorBody(r.body.value) == Some("Email required.")
  {
    assert ErrorMessage(EmailRequired) == "Email required.";
  }

  /** An admitted request whose `price_id` is null is refused with 400 "Price ID is required". */
  lemma NullPriceRefused(request: Request, backend: Backend, props: seq<Prop>)
    requires Admit(request, backend).Admitted?
    requires request.body == Some(Obj(props)) && Lookup(props, "price_id") == Null
    ensures var r := HandleRequest(request, backend);
      r.status == 400 && ParseErrorBody(r.body.value) == Some("Price ID is required")
  {
  }

  /**
   * A body without `price_id` is not refused: the session is requested with an
   * undefined price, and the answer is whatever Stripe then does.
   */
  lemma AbsentPriceReachesStripe(request: Request, backend: Backend, props: seq<Prop>)
    requires Admit(request, backend).Admitted?
    requires request.body == Some(Obj(props)) && forall i :: 0 <= i < |props| ==> props[i].key != "price_id"
    ensures var a := Admit(request, backend);
      var p := Params(a.user, a.email, Undefined, Lookup(props, "success_url"), Lookup(props, "cancelled_url"));
      HandleRequest(request, backend) ==
        (if backend.createSession(p).Some? then SessionResponse(backend.createSession(p).value) else UncaughtException)
  {
    var body := Obj(props);
    assert Get(body, "price_id") == Undefined;
    assert body !in {Null, Undefined};
  }

  /**
   * A successful answer always comes from a session created for the first
   * visible row's user, and names either that row's Stripe customer or the
   * user's email, never both.
   */
  lemma SuccessNamesOneCustomer(request: Request, backend: Backend)
    requires HandleRequest(request, backend).status == 200
    ensures var rows := backend.entitlements.rows;
      var body := request.body.value;
      var p := Params(rows[0], backend.user.email.value, Get(body, "price_id"),
                      Get(body, "success_url"), Get(body, "cancelled_url"));
      && p.clientReferenceId == rows[0].id
      && backend.createSession(p).Some?
      && (rows[0].stripeCustomerId.Some? ==> p.customer == rows[0].stripeCustomerId && p.customerEmail.None?)
      && (rows[0].stripeCustomerId.None? ==> p.customer.None? && p.customerEmail == backend.user.email)
  {
  }
}
