/**
 * The checkout endpoint: it authenticates the caller, validates the product
 * key and asks the payment provider for a checkout session whose metadata
 * the webhook later reads back. The provider call itself is an outside effect;
 * the model returns the request it would send and takes its outcome as input.
 */
module Checkout {
  import opened Js
  import opened Types
  import opened StripeConfig

  datatype AuthUser = AuthUser(id: UserId, email: Option<string>)

  /** The request body: JSON that fails to parse, or an object whose `productKey` may be absent. */
  datatype RequestBody = MalformedJson | Json(productKey: Option<string>)

  /** How `checkout.sessions.create` ends. */
  datatype SessionOutcome = SessionCreated(id: string, url: Option<string>) | SessionThrows(message: string)

  /** What the endpoint sends to the payment provider (the unit amount, a float computation, is left out). */
  datatype SessionRequest = SessionRequest(
    customerEmail: Option<string>,
    productName: string,
    description: string,
    successUrl: string,
    cancelUrl: string,
    metadata: map<string, string>)

  datatype CheckoutResponse =
    | NotLoaded(message: string)        // the provider module threw while loading
    | Unauthorized401
    | InvalidProduct400
    | Failed500
    | Session200(sessionId: string, url: Option<string>)

  /** `!productKey || !(productKey in STRIPE_PRODUCTS)`, restricted to the table's own keys. */
  function ValidateProductKey(productKey: Option<string>): (r: Option<ProductKey>)
    ensures r.Some? <==> TruthyString(productKey) && ParseProductKey(productKey.value).Some?
    ensures r.Some? ==> KeyName(r.value) == productKey.value
  {
    if TruthyString(productKey) then ParseProductKey(productKey.value) else None
  }

  /** `${process.env[name]}`: an unset variable prints as "undefined". */
  function EnvText(env: Env, name: string): string {
    if name in env then env[name] else "undefined"
  }

  /** The metadata the webhook later reads: the buyer, the key and the credits as a decimal string. */
  function SessionMetadata(userId: UserId, k: ProductKey, env: Env): (m: map<string, string>)
    ensures m.Keys == {"userId", "productKey", "credits"}
    ensures m["userId"] == userId && m["productKey"] == KeyName(k)
    ensures ParseInt(m["credits"]) == Num(ProductFor(k, env).credits)
  {
    var credits := ProductFor(k, env).credits;
    ParseIntOfIntToString(credits);
    MetadataMap(userId, KeyName(k), IntToString(credits))
  }

  /** The three metadata entries, all as strings. */
  function MetadataMap(userId: UserId, productKey: string, credits: string): (m: map<string, string>)
    ensures m.Keys == {"userId", "productKey", "credits"}
    ensures m["userId"] == userId && m["productKey"] == productKey && m["credits"] == credits
  {
    map["userId" := userId, "productKey" := productKey, "credits" := credits]
  }

  /** The line-item description: it opens with the product's credits. */
  function LineItemDescription(p: Product): (d: string)
    ensures ParseInt(d) == Num(p.credits)
  {
    ParseIntIgnoresTrailingText(p.credits, " créditos para usar no CertifyRPG");
    NatToString(p.credits) + " créditos para usar no CertifyRPG"
  }

  function SessionRequestFor(user: AuthUser, profileEmail: Option<string>, k: ProductKey, env: Env): SessionRequest {
    SessionRequest(
      if TruthyString(profileEmail) then profileEmail else user.email,
      ProductFor(k, env).name,
      LineItemDescription(ProductFor(k, env)),
      EnvText(env, "NEXT_PUBLIC_APP_URL") + "/dashboard/credits?success=true",
      EnvText(env, "NEXT_PUBLIC_APP_URL") + "/dashboard/credits?canceled=true",
      SessionMetadata(user.id, k, env))
  }

  /**
   * POST /api/stripe/checkout. Returns the response and the session request
   * sent to the provider, if one was sent.
   */
  function CheckoutPost(
    env: Env, user: Option<AuthUser>, body: RequestBody, profileEmail: Option<string>, session: SessionOutcome)
    : (r: (CheckoutResponse, Option<SessionRequest>))
    ensures LoadStripe(env).Failure? ==> r == (NotLoaded(SECRET_KEY_MISSING), None)
    ensures LoadStripe(env).Success? && user.None? ==> r == (Unauthorized401, None)
    ensures r.1.Some? <==>
      LoadStripe(env).Success? && user.Some? && body.Json? && ValidateProductKey(body.productKey).Some?
    ensures LoadStripe(env).Success? && user.Some? && body.Json? && ValidateProductKey(body.productKey).None? ==>
      r.0 == InvalidProduct400
    ensures r.1.Some? ==>
      r.1.value == SessionRequestFor(user.value, profileEmail, ValidateProductKey(body.productKey).value, env)
    ensures r.0.Session200? <==> r.1.Some? && session.SessionCreated?
    ensures r.0.Session200? ==> r.0 == Session200(session.id, session.url)
    ensures r.0 == Failed500 <==> LoadStripe(env).Success? && user.Some? && (body.MalformedJson? || (r.1.Some? && session.SessionThrows?))
  {
    if LoadStripe(env).Failure? then (NotLoaded(SECRET_KEY_MISSING), None)
    else if user.None? then (Unauthorized401, None)
    else if body.MalformedJson? then (Failed500, None)
    else
      match ValidateProductKey(body.productKey)
      case None => (InvalidProduct400, None)
      case Some(k) =>
        var request := SessionRequestFor(user.value, profileEmail, k, env);
        match session
        case SessionCreated(id, url) => (Session200(id, url), Some(request))
        case SessionThrows(_) => (Failed500, Some(request))
  }

  // ---------------------------------------------------------------------
  // The `in` operator as written also sees inherited keys
  // ---------------------------------------------------------------------

  lemma InheritedKeysAreNotProducts(s: string)
    requires s in INHERITED_KEYS
    ensures ParseProductKey(s).None?
  {
  }

  /**
   * The endpoint as written: `productKey in STRIPE_PRODUCTS` also accepts an
   * inherited key; the table then yields a function or Object.prototype,
   * whose `credits` is undefined, and `credits.toString()` throws while the
   * session arguments are built, so the answer is 500 and no session is requested.
   */
  function CheckoutPostAsWritten(
    env: Env, user: Option<AuthUser>, body: RequestBody, profileEmail: Option<string>, session: SessionOutcome)
    : (r: (CheckoutResponse, Option<SessionRequest>))
    ensures (body.Json? && TruthyString(body.productKey) && body.productKey.value in INHERITED_KEYS
             && LoadStripe(env).Success? && user.Some?) ==> r == (Failed500, None)
  {
    if LoadStripe(env).Success? && user.Some? && body.Json? && TruthyString(body.productKey)
      && body.productKey.value in INHERITED_KEYS
    then (Failed500, None)
    else CheckoutPost(env, user, body, profileEmail, session)
  }

  /** For an inherited key the code as written answers 500 where an invalid product (400) is meant. */
  lemma InheritedKeyAnswers500(env: Env, user: AuthUser, profileEmail: Option<string>, session: SessionOutcome)
    requires LoadStripe(env).Success?
    ensures CheckoutPostAsWritten(env, Some(user), Json(Some("toString")), profileEmail, session).0 == Failed500
    ensures CheckoutPost(env, Some(user), Json(Some("toString")), profileEmail, session).0 == InvalidProduct400
  {
    assert "toString" in INHERITED_KEYS;
    InheritedKeyRejected(env, user, "toString", profileEmail, session);
  }

  /** On every other key the code as written and the corrected check agree. */
  lemma AsWrittenAgreesElsewhere(env: Env, user: Option<AuthUser>, body: RequestBody, profileEmail: Option<string>, session: SessionOutcome)
    requires !(body.Json? && body.productKey.Some? && body.productKey.value in INHERITED_KEYS)
    ensures CheckoutPostAsWritten(env, user, body, profileEmail, session) == CheckoutPost(env, user, body, profileEmail, session)
  {
  }

  /** The corrected check never requests a session for an inherited key either, and answers 400. */
  lemma InheritedKeyRejected(env: Env, user: AuthUser, key: string, profileEmail: Option<string>, session: SessionOutcome)
    requires LoadStripe(env).Success? && key in INHERITED_KEYS
    ensures CheckoutPost(env, Some(user), Json(Some(key)), profileEmail, session) == (InvalidProduct400, None)
  {
    InheritedKeysAreNotProducts(key);
  }
}
