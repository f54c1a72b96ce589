/**
 * POST /api/ai/generate: the spend flow of an AI generation. It
 * authenticates the caller, reads the balance, rejects a request it cannot
 * pay for, builds the prompt, asks the language model, saves the generation
 * and only then debits its cost. The language model, the profile read, the
 * insert and the debit are outside calls whose outcomes are parameters.
 */
module Generate {
  import opened Js
  import opened Types
  import opened Ledger
  import opened Tables
  import opened Credits
  import opened Prompts

  /** The request body: JSON that fails to parse, or the prompt input with an optional campaign. */
  datatype GenerateBody = Unparsable | Body(input: PromptInput, campaignId: Option<string>)

  /** How the language-model call and the parsing of its JSON reply end. */
  datatype ModelOutcome = ModelReplied(content: string, model: string, tokens: int) | ModelThrows(message: string)

  /** One row of `ai_generations` (the prompt column holds the request body). */
  datatype GenerationRow = GenerationRow(
    userId: UserId, campaignId: Option<string>, kind: string, prompt: PromptInput,
    content: string, model: string, tokensUsed: int, costCredits: nat)

  /** The outside calls the route makes, in order. */
  datatype ExternalCall =
    | ReadProfile(userId: UserId)
    | AskModel(input: PromptInput)   // with the messages `getPromptMessages(input)` builds
    | SaveGeneration(row: GenerationRow)
    | DebitCredits(tx: Transaction)

  datatype GenerateResponse =
    | Unauthorized401
    | ProfileFailed500
    | Insufficient402(required: int, available: int)
    | SaveFailed500
    | Failed500(details: string)   // anything thrown inside the handler
    | Generated200(id: string, row: GenerationRow, creditsUsed: int, creditsRemaining: int)

  /**
   * What `CREDIT_COSTS.AI_GENERATION[type] || 10` yields: a number, or, for
   * an inherited key, a member of Object.prototype (a function or the
   * prototype itself). Such a member is truthy, so the fallback does not
   * apply, and it converts to NaN when compared with a number.
   */
  datatype Cost = Amount(n: nat) | InheritedMember

  /** `profile.credits < cost`: false whenever the cost is not a number. */
  predicate Below(balance: int, cost: Cost) {
    cost.Amount? && balance < cost.n
  }

  function CostForType(kind: string): (c: Cost)
    ensures c.InheritedMember? <==> kind in INHERITED_KEYS
    ensures c.Amount? ==> 8 <= c.n <= 20
    ensures ParseGenerationType(kind).Some? ==> c == Amount(GenerationCost(ParseGenerationType(kind).value))
    ensures ParseGenerationType(kind).None? && kind !in INHERITED_KEYS ==> c == Amount(GenerationCost(Npc))
  {
    match ParseGenerationType(kind)
    case Some(g) => Amount(GenerationCost(g))
    case None => if kind in INHERITED_KEYS then InheritedMember else Amount(10)
  }

  /** The debit recorded for a saved generation. */
  function DebitFor(userId: UserId, kind: string, cost: nat, generationId: string): Transaction {
    Transaction(userId, -(cost as int), AiGeneration, "Geração de IA: " + kind, Some(generationId))
  }

  /** The balance the route reads: the profile's credits, when the read returns a row. */
  function ReadBalance(s: LedgerState, userId: UserId, read: CallOutcome): (r: Option<int>)
    ensures r.Some? <==> read == Completes && userId in s.credits
    ensures r.Some? ==> r.value == s.credits[userId]
  {
    if read == Completes && userId in s.credits then Some(s.credits[userId]) else None
  }

  /** Where the checks before the language-model call leave a request. */
  datatype Admission =
    | Rejected(response: GenerateResponse, calls: seq<ExternalCall>)
    | Admitted(userId: UserId, balance: int, cost: nat)

  /**
   * The steps before the language model is called: authentication, the body,
   * the balance read, the cost check and the prompt. None of them writes.
   */
  function Admit(s: LedgerState, user: Option<UserId>, body: GenerateBody, profileRead: CallOutcome)
    : (a: Admission)
    ensures a.Admitted? ==>
      && user.Some? && body.Body? && a.userId == user.value && a.userId in s.credits
      && a.balance == s.credits[a.userId] && CostForType(body.input.kind) == Amount(a.cost) && a.balance >= a.cost
      && ParseGenerationType(body.input.kind).Some?
    ensures a.Rejected? ==> |a.calls| <= 1
  {
    if user.None? then Rejected(Unauthorized401, [])
    else if body.Unparsable? then Rejected(Failed500("request body is not JSON"), [])
    else if profileRead.Throws? then Rejected(Failed500(profileRead.message), [ReadProfile(user.value)])
    else
      match ReadBalance(s, user.value, profileRead)
      case None => Rejected(ProfileFailed500, [ReadProfile(user.value)])
      case Some(balance) =>
        var cost := CostForType(body.input.kind);
        if Below(balance, cost) then Rejected(Insufficient402(cost.n, balance), [ReadProfile(user.value)])
        else
          // building the prompt throws exactly for a type outside the five (PromptStepFailsOnUnknownType)
          if ParseGenerationType(body.input.kind).None? then
            Rejected(Failed500("Invalid generation type"), [ReadProfile(user.value)])
          else Admitted(user.value, balance, cost.n)
  }

  /** `getPromptMessages` throws exactly when the type is none of the five, with this message. */
  lemma PromptStepFailsOnUnknownType(input: PromptInput)
    ensures GetPromptMessages(input).Failure? <==> ParseGenerationType(input.kind).None?
    ensures GetPromptMessages(input).Failure? ==> GetPromptMessages(input) == Failure("Invalid generation type")
  {
  }

  /** An unauthenticated request is turned away before anything is read. */
  lemma UnauthenticatedRejected(s: LedgerState, body: GenerateBody, profileRead: CallOutcome)
    ensures Admit(s, None, body, profileRead) == Rejected(Unauthorized401, [])
  {
  }

  /** A profile read that fails, or finds no row, answers 500 after that one read. */
  lemma ProfileReadFailureRejected(s: LedgerState, userId: UserId, input: PromptInput, campaignId: Option<string>, profileRead: CallOutcome)
    requires ReadBalance(s, userId, profileRead).None?
    ensures var a := Admit(s, Some(userId), Body(input, campaignId), profileRead);
      && a.Rejected? && a.calls == [ReadProfile(userId)]
      && a.response == (if profileRead.Throws? then Failed500(profileRead.message) else ProfileFailed500)
  {
  }

  /** A balance below the cost answers 402 with the cost and the balance. */
  lemma InsufficientBalanceRejected(s: LedgerState, userId: UserId, body: GenerateBody, profileRead: CallOutcome)
    requires body.Body? && ReadBalance(s, userId, profileRead).Some?
    requires Below(s.credits[userId], CostForType(body.input.kind))
    ensures Admit(s, Some(userId), body, profileRead)
         == Rejected(Insufficient402(CostForType(body.input.kind).n, s.credits[userId]), [ReadProfile(userId)])
  {
  }

  /** A request passes every check before the model exactly when it is authenticated, readable, affordable and of a known type. */
  lemma AdmittedExactly(s: LedgerState, user: Option<UserId>, body: GenerateBody, profileRead: CallOutcome)
    ensures Admit(s, user, body, profileRead).Admitted? <==>
      && user.Some? && body.Body? && ReadBalance(s, user.value, profileRead).Some?
      && !Below(s.credits[user.value], CostForType(body.input.kind))
      && ParseGenerationType(body.input.kind).Some?
  {
  }

  /** An unknown type costs the fallback 10 and, when affordable, fails at the prompt with 500. */
  lemma UnknownTypeRejected(s: LedgerState, userId: UserId, input: PromptInput, campaignId: Option<string>)
    requires ParseGenerationType(input.kind).None? && input.kind !in INHERITED_KEYS
    requires userId in s.credits && s.credits[userId] >= 10
    ensures CostForType(input.kind) == Amount(10)
    ensures Admit(s, Some(userId), Body(input, campaignId), Completes)
         == Rejected(Failed500("Invalid generation type"), [ReadProfile(userId)])
  {
  }

  /**
   * An inherited key such as "toString" passes the cost check whatever the
   * balance, even a negative one, and fails at the prompt with 500, never 402.
   */
  lemma InheritedTypeRejected(s: LedgerState, userId: UserId, input: PromptInput, campaignId: Option<string>)
    requires input.kind in INHERITED_KEYS && userId in s.credits
    ensures forall balance :: !Below(balance, CostForType(input.kind))
    ensures Admit(s, Some(userId), Body(input, campaignId), Completes)
         == Rejected(Failed500("Invalid generation type"), [ReadProfile(userId)])
  {
  }

  /** The row saved for an admitted request and the model's reply. */
  function RowFor(a: Admission, body: GenerateBody, model: ModelOutcome): GenerationRow
    requires a.Admitted? && body.Body? && model.ModelReplied?
  {
    GenerationRow(a.userId, OrNull(body.campaignId), body.input.kind, body.input,
                  model.content, model.model, model.tokens, a.cost)
  }

  /** The save and the debit, for an admitted request the model has answered. */
  method SaveAndDebit(
    ledger: Ledger, generations: Table<GenerationRow>, a: Admission, body: GenerateBody,
    model: ModelOutcome, insert: InsertOutcome, debit: CallOutcome)
    returns (response: GenerateResponse, saved: seq<ExternalCall>)
    requires a.Admitted? && body.Body? && model.ModelReplied?
    requires a.userId in ledger.credits && a.balance >= a.cost
    requires ledger.Valid()
    modifies ledger, generations
    ensures ledger.Valid()
    ensures |saved| >= 1 && saved[0] == SaveGeneration(RowFor(a, body, model))
    ensures insert.InsertFailed? ==>
      && response == SaveFailed500 && saved == [SaveGeneration(RowFor(a, body, model))]
      && ledger.State() == old(ledger.State()) && generations.rows == old(generations.rows)
    ensures insert.Inserted? ==>
      var row := RowFor(a, body, model);
      var tx := DebitFor(a.userId, body.input.kind, a.cost, insert.id);
      && generations.rows == old(generations.rows) + [(insert.id, row)]
      && saved == [SaveGeneration(row), DebitCredits(tx)]
      && ledger.State() == Call(old(ledger.State()), tx, debit).0
      && (debit.Throws? ==> response == Failed500(debit.message))
      && (!debit.Throws? ==> response == Generated200(insert.id, row, a.cost, a.balance - a.cost))
  {
    var row := RowFor(a, body, model);
    saved := [SaveGeneration(row)];
    var id := generations.Insert(row, insert);
    if id.None? {
      return SaveFailed500, saved;
    }
    var tx := DebitFor(a.userId, body.input.kind, a.cost, id.value);
    saved := saved + [DebitCredits(tx)];
    var reply := ledger.UpdateUserCredits(tx.userId, tx.amount, tx.kind, tx.description, tx.referenceId, debit);
    if reply.RpcThrew? {
      return Failed500(reply.message), saved;
    }
    // an error reply is only logged: the generation is kept and reported
    response := Generated200(id.value, row, a.cost, a.balance - a.cost);
  }

  method GenerateContent(
    ledger: Ledger, generations: Table<GenerationRow>,
    user: Option<UserId>, body: GenerateBody,
    profileRead: CallOutcome, model: ModelOutcome, insert: InsertOutcome, debit: CallOutcome)
    returns (response: GenerateResponse, calls: seq<ExternalCall>)
    requires ledger.Valid()
    modifies ledger, generations
    ensures ledger.Valid()
    // a rejected request reads at most the profile and writes nothing
    ensures Admit(old(ledger.State()), user, body, profileRead).Rejected? ==>
      var a := Admit(old(ledger.State()), user, body, profileRead);
      && response == a.response && calls == a.calls
      && ledger.State() == old(ledger.State()) && generations.rows == old(generations.rows)
    // an admitted one asks the model with the built prompt
    ensures Admit(old(ledger.State()), user, body, profileRead).Admitted? ==>
      var a := Admit(old(ledger.State()), user, body, profileRead);
      && |calls| >= 2 && calls[0] == ReadProfile(a.userId) && calls[1] == AskModel(body.input)
      && (model.ModelThrows? ==>
            && response == Failed500(model.message) && |calls| == 2
            && ledger.State() == old(ledger.State()) && generations.rows == old(generations.rows))
    // then saves the generation, and debits only once it is saved
    ensures Admit(old(ledger.State()), user, body, profileRead).Admitted? && model.ModelReplied? ==>
      var a := Admit(old(ledger.State()), user, body, profileRead);
      var row := RowFor(a, body, model);
      && |calls| >= 3 && calls[2] == SaveGeneration(row)
      && (insert.InsertFailed? ==>
            && response == SaveFailed500 && |calls| == 3
            && ledger.State() == old(ledger.State()) && generations.rows == old(generations.rows))
      && (insert.Inserted? ==>
            var tx := DebitFor(a.userId, body.input.kind, a.cost, insert.id);
            && generations.rows == old(generations.rows) + [(insert.id, row)]
            && |calls| == 4 && calls[3] == DebitCredits(tx)
            && ledger.State() == Call(old(ledger.State()), tx, debit).0
            && (debit.Throws? ==> response == Failed500(debit.message))
            && (!debit.Throws? ==> response == Generated200(insert.id, row, a.cost, a.balance - a.cost)))
  {
    var a := Admit(ledger.State(), user, body, profileRead);
    assert a == Admit(old(ledger.State()), user, body, profileRead);
    if a.Rejected? {
      return a.response, a.calls;
    }
    var asked := [ReadProfile(a.userId), AskModel(body.input)];
    calls := asked;
    if model.ModelThrows? {
      return Failed500(model.message), calls;
    }
    var saved;
    response, saved := SaveAndDebit(ledger, generations, a, body, model, insert, debit);
    calls := asked + saved;
    assert calls[2] == saved[0];
    assert insert.Inserted? ==> calls[3] == saved[1];
  }
}
