/**
 * The payment provider's webhook: it checks the signature, dispatches on the
 * event type and, for a completed checkout session, credits the buyer with
 * the credits named in the session's metadata through `update_user_credits`.
 * Signature verification is the provider's library: the model receives its
 * result, the verified event or nothing, as a parameter.
 */
module Webhook {
  import opened Js
  import opened Types
  import opened Ledger
  import opened StripeConfig
  import Checkout

  const CHECKOUT_COMPLETED := "checkout.session.completed"
  const PAYMENT_FAILED := "payment_intent.payment_failed"

  /** A verified event: its type and its object's metadata (absent when the object has none). */
  datatype StripeEvent = StripeEvent(kind: string, metadata: Option<map<string, string>>)

  datatype WebhookResponse =
    | NotLoaded(message: string)   // the provider module threw while loading
    | MissingSignature400
    | InvalidSignature400
    | MissingMetadata400
    | AwardFailed500               // the procedure replied with an error
    | ProcessingFailed500          // something threw while handling a verified event
    | Received200

  /** `metadata?.[key]`. */
  function MetadataField(metadata: Option<map<string, string>>, key: string): (r: Option<string>)
    ensures r.Some? <==> metadata.Some? && key in metadata.value
    ensures r.Some? ==> r.value == metadata.value[key]
  {
    if metadata.Some? && key in metadata.value then Some(metadata.value[key]) else None
  }

  /** `metadata?.credits || "0"`: a missing or empty field reads as "0". */
  function CreditsText(metadata: Option<map<string, string>>): (t: string)
    ensures TruthyString(MetadataField(metadata, "credits")) ==> t == metadata.value["credits"]
    ensures !TruthyString(MetadataField(metadata, "credits")) ==> t == "0"
  {
    var field := MetadataField(metadata, "credits");
    if TruthyString(field) then field.value else "0"
  }

  /** What a completed session entitles its buyer to. */
  datatype Grant = Grant(userId: UserId, credits: int, description: string)

  /** `Compra: ${productKey} (${credits} créditos)`. */
  function PurchaseDescription(productKey: Option<string>, credits: int): string {
    "Compra: " + Interpolate(productKey) + " (" + IntToString(credits) + " créditos)"
  }

  /**
   * The metadata gate: a grant exists iff `userId` is truthy and the parsed
   * credits are truthy (neither 0 nor NaN); the sign is not checked.
   */
  function ExtractGrant(metadata: Option<map<string, string>>): (r: Option<Grant>)
    ensures r.Some? <==>
      TruthyString(MetadataField(metadata, "userId")) && ParseInt(CreditsText(metadata)).Truthy()
    ensures r.Some? ==> r.value.userId == metadata.value["userId"]
    ensures r.Some? ==> ParseInt(CreditsText(metadata)) == Num(r.value.credits) && r.value.credits != 0
    ensures r.Some? ==>
      r.value.description == PurchaseDescription(MetadataField(metadata, "productKey"), r.value.credits)
  {
    var userId := MetadataField(metadata, "userId");
    var credits := ParseInt(CreditsText(metadata));
    if !TruthyString(userId) || !credits.Truthy() then None
    else Some(Grant(userId.value, credits.n, PurchaseDescription(MetadataField(metadata, "productKey"), credits.n)))
  }

  /** The purchase transaction a grant is recorded as (no reference id). */
  function GrantTransaction(g: Grant): Transaction {
    Transaction(g.userId, g.credits, Purchase, g.description, None)
  }

  /** The grant a delivery settles, when it passes every gate before the ledger call. */
  function PendingGrant(env: Env, signature: Option<string>, verification: Option<StripeEvent>): (g: Option<Grant>)
    ensures g.Some? <==>
      && LoadStripe(env).Success? && TruthyString(signature) && verification.Some?
      && verification.value.kind == CHECKOUT_COMPLETED && ExtractGrant(verification.value.metadata).Some?
    ensures g.Some? ==> g == ExtractGrant(verification.value.metadata)
  {
    if LoadStripe(env).Success? && TruthyString(signature) && verification.Some?
      && verification.value.kind == CHECKOUT_COMPLETED
    then ExtractGrant(verification.value.metadata)
    else None
  }

  /**
   * One delivery to POST /api/stripe/webhook, from the ledger before it to
   * the ledger after it and the response.
   */
  function Settle(
    s: LedgerState, env: Env, signature: Option<string>, verification: Option<StripeEvent>, award: CallOutcome)
    : (r: (LedgerState, WebhookResponse))
    // the ledger moves only for a pending grant, by exactly its one transaction
    ensures PendingGrant(env, signature, verification).None? ==> r.0 == s
    ensures r.0 != s ==>
      var g := PendingGrant(env, signature, verification);
      g.Some? && g.value.userId in s.credits && r.1 == Received200 && r.0 == Record(s, GrantTransaction(g.value))
    // each gate's answer
    ensures LoadStripe(env).Failure? ==> r.1 == NotLoaded(SECRET_KEY_MISSING)
    ensures LoadStripe(env).Success? && !TruthyString(signature) ==> r.1 == MissingSignature400
    ensures LoadStripe(env).Success? && TruthyString(signature) && verification.None? ==>
      r.1 == InvalidSignature400
    ensures (LoadStripe(env).Success? && TruthyString(signature) && verification.Some?
             && verification.value.kind != CHECKOUT_COMPLETED) ==> r.1 == Received200
    ensures (LoadStripe(env).Success? && TruthyString(signature) && verification.Some?
             && verification.value.kind == CHECKOUT_COMPLETED && ExtractGrant(verification.value.metadata).None?) ==>
      r.1 == MissingMetadata400
    // the ledger call's answer
    ensures PendingGrant(env, signature, verification).Some? ==>
      var g := PendingGrant(env, signature, verification).value;
      && (r.1 == Received200 <==> award == Completes && g.userId in s.credits)
      && (r.1 == Received200 ==> r.0 == Record(s, GrantTransaction(g)))
      && (award.ReturnsError? || (award == Completes && g.userId !in s.credits) ==> r.1 == AwardFailed500)
      && (award.Throws? ==> r.1 == ProcessingFailed500)
  {
    if LoadStripe(env).Failure? then (s, NotLoaded(SECRET_KEY_MISSING))
    else if !TruthyString(signature) then (s, MissingSignature400)
    else if verification.None? then (s, InvalidSignature400)
    else if verification.value.kind != CHECKOUT_COMPLETED then (s, Received200)
    else
      match ExtractGrant(verification.value.metadata)
      case None => (s, MissingMetadata400)
      case Some(g) =>
        var (t, reply) := Call(s, GrantTransaction(g), award);
        match reply
        case RpcOk => (t, Received200)
        case RpcError(_) => (t, AwardFailed500)
        case RpcThrew(_) => (t, ProcessingFailed500)
  }

  /** The route handler, step by step with early returns. */
  method HandleWebhook(
    ledger: Ledger, env: Env, signature: Option<string>, verification: Option<StripeEvent>, award: CallOutcome)
    returns (response: WebhookResponse)
    requires ledger.Valid()
    modifies ledger
    ensures ledger.Valid()
    ensures (ledger.State(), response) == Settle(old(ledger.State()), env, signature, verification, award)
  {
    if LoadStripe(env).Failure? {
      return NotLoaded(SECRET_KEY_MISSING);
    }
    if !TruthyString(signature) {
      return MissingSignature400;
    }
    if verification.None? {
      return InvalidSignature400;
    }
    var event := verification.value;
    if event.kind == CHECKOUT_COMPLETED {
      var grant := ExtractGrant(event.metadata);
      if grant.None? {
        return MissingMetadata400;
      }
      var g := grant.value;
      var reply := ledger.UpdateUserCredits(g.userId, g.credits, Purchase, g.description, None, award);
      match reply
      case RpcOk =>
      case RpcError(_) =>
        return AwardFailed500;
      case RpcThrew(_) =>
        return ProcessingFailed500;
    }
    // payment_intent.payment_failed and every other type are only logged
    response := Received200;
  }

  // ---------------------------------------------------------------------
  // The metadata gate
  // ---------------------------------------------------------------------

  /** Missing or empty credits read as "0", which is falsy: no grant. */
  lemma MissingCreditsRejected(metadata: Option<map<string, string>>)
    requires !TruthyString(MetadataField(metadata, "credits"))
    ensures ExtractGrant(metadata).None?
  {
    ParseIntOfIntToString(0);
    assert IntToString(0) == "0";
  }

  /** Credits that do not start with a number parse to NaN, which is falsy: no grant. */
  lemma NonNumericCreditsRejected(metadata: Option<map<string, string>>)
    requires TruthyString(MetadataField(metadata, "credits"))
    requires var c := metadata.value["credits"];
      !IsJsWhitespace(c[0]) && c[0] != '-' && c[0] != '+' && !IsDigitIn(c[0], 10)
    ensures ExtractGrant(metadata).None?
  {
    ParseIntOfNonNumeric(metadata.value["credits"]);
  }

  /**
   * A credits string that parses to a negative number (such as "-50") passes
   * the gate, and the grant is negative.
   */
  lemma NegativeCreditsAccepted(userId: UserId, credits: string)
    requires userId != "" && ParseInt(credits).Num? && ParseInt(credits).n < 0
    ensures ExtractGrant(Some(map["userId" := userId, "credits" := credits]))
      == Some(Grant(userId, ParseInt(credits).n, PurchaseDescription(None, ParseInt(credits).n)))
  {
    var m := map["userId" := userId, "credits" := credits];
    assert credits != "";
    assert MetadataField(Some(m), "credits") == Some(credits);
    assert MetadataField(Some(m), "userId") == Some(userId);
    assert MetadataField(Some(m), "productKey") == None;
  }

  /** Without a product key, the description reads "Compra: undefined (N créditos)". */
  lemma MissingKeyDescription(credits: int)
    ensures PurchaseDescription(None, credits) == "Compra: undefined (" + IntToString(credits) + " créditos)"
  {
    UndefinedKeyText(IntToString(credits));
  }

  lemma UndefinedKeyText(amount: string)
    ensures "Compra: " + Interpolate(None) + " (" + amount + " créditos)"
         == "Compra: undefined (" + amount + " créditos)"
  {
    assert "Compra: " + Interpolate(None) + " (" == "Compra: undefined (";
  }

  /**
   * Round trip with the checkout endpoint: the metadata it attaches to a
   * session for a valid product passes the gate and grants exactly that
   * product's credits.
   */
  lemma CheckoutMetadataGrants(userId: UserId, k: ProductKey, env: Env)
    requires userId != ""
    ensures var credits := ProductFor(k, env).credits;
      ExtractGrant(Some(Checkout.SessionMetadata(userId, k, env)))
        == Some(Grant(userId, credits, "Compra: " + KeyName(k) + " (" + NatToString(credits) + " créditos)"))
  {
    var m := Checkout.SessionMetadata(userId, k, env);
    var credits := ProductFor(k, env).credits;
    assert m["credits"] == IntToString(credits);
    assert MetadataField(Some(m), "credits") == Some(IntToString(credits));
  }

  // ---------------------------------------------------------------------
  // Deliveries
  // ---------------------------------------------------------------------

  /**
   * A paid session delivered for a buyer with a profile credits exactly the
   * product's credits, in one purchase transaction.
   */
  lemma PaidSessionCreditsBuyer(s: LedgerState, env: Env, signature: string, userId: UserId, k: ProductKey)
    requires LoadStripe(env).Success? && signature != "" && userId != "" && userId in s.credits
    ensures var event := StripeEvent(CHECKOUT_COMPLETED, Some(Checkout.SessionMetadata(userId, k, env)));
      var (t, response) := Settle(s, env, Some(signature), Some(event), Completes);
      && response == Received200
      && t.credits[userId] == s.credits[userId] + ProductFor(k, env).credits
      && t.log == s.log + [Transaction(userId, ProductFor(k, env).credits, Purchase,
           "Compra: " + KeyName(k) + " (" + NatToString(ProductFor(k, env).credits) + " créditos)", None)]
  {
    CheckoutMetadataGrants(userId, k, env);
  }

  /**
   * There is no deduplication by event or session: delivering the same
   * event twice credits the buyer twice and logs two transactions.
   */
  lemma RedeliveryCreditsTwice(s: LedgerState, env: Env, signature: Option<string>, event: StripeEvent)
    requires Settle(s, env, signature, Some(event), Completes).1 == Received200
    requires PendingGrant(env, signature, Some(event)).Some?
    ensures var g := PendingGrant(env, signature, Some(event)).value;
      var (s1, _) := Settle(s, env, signature, Some(event), Completes);
      var (s2, second) := Settle(s1, env, signature, Some(event), Completes);
      && second == Received200
      && s2.credits[g.userId] == s.credits[g.userId] + 2 * g.credits
      && s2.log == s.log + [GrantTransaction(g), GrantTransaction(g)]
  {
    var g := PendingGrant(env, signature, Some(event)).value;
    var s1 := Settle(s, env, signature, Some(event), Completes).0;
    assert s1 == Record(s, GrantTransaction(g));
    assert s1.log + [GrantTransaction(g)] == s.log + [GrantTransaction(g), GrantTransaction(g)];
  }

  /** Events other than a completed session never touch the ledger and are acknowledged. */
  lemma OtherEventsAcknowledged(s: LedgerState, env: Env, signature: string, event: StripeEvent, award: CallOutcome)
    requires LoadStripe(env).Success? && signature != "" && event.kind != CHECKOUT_COMPLETED
    ensures Settle(s, env, Some(signature), Some(event), award) == (s, Received200)
  {
  }
}
