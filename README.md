# CertifyRPG credit economy in Dafny

CertifyRPG is a web application for tabletop role-playing groups. Players
create certificates for in-game achievements, manage campaigns and ask a
language model to generate NPCs, items, locations, stories and quests. Two of
those actions cost credits:

- a certificate costs a flat 5 credits;
- an AI generation costs 8 to 20 credits, depending on its type.

Credits are bought through the payment provider's checkout and credited back
by its webhook. Every balance change goes through one stored procedure,
`update_user_credits`, which adds a signed amount to the user's balance and
logs one transaction.

This project models that credit economy:

| Module | File | What it models |
|---|---|---|
| `Js` | `js.dfy` | The JavaScript behaviours the code relies on: truthiness, `value \|\| null`, `${…}` interpolation, integer `toString` and `parseInt` |
| `Types` | `types.dfy` | The enumerations and their wire strings |
| `Ledger` | `ledger.dfy` | The ledger: balances plus the transaction log, with the procedure as one atomic method of a `Ledger` class |
| `Tables` | `ledger.dfy` | Plain table inserts |
| `Credits` | `credits.dfy` | The cost, reward, package and tier tables; `addCredits`, `deductCredits` and `hasEnoughCredits`; the paged transaction history |
| `StripeConfig` | `stripe.dfy` | The product table and the module-load guard |
| `Checkout` | `checkout.dfy` | The checkout endpoint |
| `Webhook` | `webhook.dfy` | The webhook that settles purchases |
| `Prompts` | `prompts.dfy` | The prompt builder |
| `Generate` | `generate.dfy` | The AI-generation spend flow |
| `Forms`, `CertificateForm`, `CampaignForm` | `forms.dfy`, `certificate_form.dfy`, `campaign_form.dfy` | The two dashboard forms: their schemas and their submit handlers |

The ledger keeps one invariant, `Ledger.Valid()`: every balance equals the sum
of that user's logged amounts, and every transaction belongs to a user with a
profile. Every method that writes to the ledger requires this invariant and
preserves it.

Each state-changing handler is a method, and its `ensures` ties the new state
and the response to a pure function of the old state and of the outside
outcomes. Those outside outcomes are:

- the database call's outcome;
- the insert's outcome;
- the language model's reply;
- the signature check's verified event.

The properties are then proved about those functions:

- No debit happens without a saved artifact.
- A rejected request leaves the ledger unchanged.
- A successful action makes exactly one signed transaction.
- The checkout metadata round-trips through the webhook's `parseInt`.
- Redelivered events are not deduplicated.

## Model

| member | source | states |
|---|---|---|
| Js.OrNull | apps/web/lib/credits/index.ts:51 | `value \|\| null`: the result is present iff the string is present and non-empty, and it is then that same string |
| Js.NatToString | apps/web/app/api/stripe/checkout/route.ts:58 | A decimal rendering: at least one character, all of them decimal digits, no leading zero for a positive number, one digit below 10 |
| Js.IntToString | apps/web/app/api/stripe/webhook/route.ts:71 | How JavaScript prints an integer: a leading minus sign exactly when it is negative, then decimal digits with no leading zero (except "0") whose value is its magnitude; `Js.ParseIntOfIntToString` reads it back |
| Js.SkipWhitespace | apps/web/app/api/stripe/webhook/route.ts:55 | `parseInt` drops the run of leading white space: every dropped character is white space, the rest is a suffix of the input and does not start with white space |
| Js.LeadingDigits | apps/web/app/api/stripe/webhook/route.ts:55 | `parseInt` reads a prefix of the text made only of digits of the radix |
| Js.ParseMagnitude | apps/web/app/api/stripe/webhook/route.ts:55 | The unsigned part of `parseInt` never yields a negative number |
| Js.DigitsValueOfNatToString | apps/web/app/api/stripe/webhook/route.ts:55 | The digits that `toString` writes are read back, digit by digit, as the same number |
| Js.LeadingDigitsStopAt | apps/web/app/api/stripe/webhook/route.ts:55 | `parseInt` takes a run of digits and stops at the first non-digit after it |
| Js.ParseMagnitudeOfDigits | apps/web/app/api/stripe/webhook/route.ts:55 | A decimal rendering followed by non-digit text (and no "0x" prefix) reads back as its value |
| Js.ParseIntOfIntToString | apps/web/app/api/stripe/webhook/route.ts:55 | Round trip: `parseInt(String(n)) == n` for every integer, negative ones included |
| Js.ParseIntIgnoresTrailingText | apps/web/app/api/stripe/checkout/route.ts:45 | A description that opens with the credits, such as "N créditos para usar no CertifyRPG", parses back to N |
| Js.SkipWhitespaceDropsPrefix | apps/web/app/api/stripe/webhook/route.ts:55 | White space put in front of a string is skipped entirely, whatever follows it |
| Js.ParseIntIgnoresLeadingWhitespace | apps/web/app/api/stripe/webhook/route.ts:55 | `parseInt(ws + t) == parseInt(t)` for any run of white space `ws` |
| Js.ParseIntOfPaddedNumber | apps/web/app/api/stripe/webhook/route.ts:55 | A printed integer after any run of white space, such as " 42", reads back as that integer |
| Js.ParseIntOfNonNumeric | apps/web/app/api/stripe/webhook/route.ts:55 | Text that does not start with white space, a sign or a digit parses to NaN |
| Types.TierRank | apps/web/lib/types/index.ts:27 | The tiers are ordered bronze < silver < gold < platinum, with ranks 0 to 3 |
| Types.ParseTier | apps/web/lib/types/index.ts:27 | Reading a tier string is the inverse of the tier names: it finds exactly the tier with that name |
| Types.ParseGenerationType | apps/web/lib/types/index.ts:30 | Reading a generation type string is the inverse of the type names |
| Types.GenerationTypeNames | apps/web/lib/types/index.ts:30 | The accepted type strings are exactly "npc", "item", "location", "story" and "quest" |
| Types.ParseCampaignStatus | apps/web/lib/types/index.ts:28 | Reading a campaign status string is the inverse of the status names |
| Ledger.Record | apps/web/lib/types/database.ts:269-279 | Recording a transaction appends it to the log and moves only its user's balance, by exactly its amount |
| Ledger.Call | apps/web/lib/types/database.ts:269-279 | A procedure call succeeds iff it completes for a user with a profile. On success it records the transaction; otherwise nothing changes and the caller receives the error or the exception |
| Ledger.RecordKeepsConsistent | apps/web/lib/types/database.ts:269-279 | Recording a transaction keeps every balance equal to its user's sum of transactions |
| Ledger.CallKeepsConsistent | apps/web/lib/types/database.ts:269-279 | Every call keeps the ledger consistent, whatever its outcome |
| Ledger.CallMovesOneBalance | apps/web/lib/types/database.ts:269-279 | A successful call changes one balance, by exactly the amount, and adds exactly one log entry |
| Ledger.SumForAppend | apps/web/lib/types/database.ts:269-279 | Appending a transaction adds its amount to its own user's sum and to no other sum |
| Ledger.Ledger.constructor | apps/web/lib/types/database.ts:269-279 | A fresh ledger: every user at zero with an empty log, which is consistent |
| Ledger.Ledger.UpdateUserCredits | apps/web/lib/types/database.ts:269-279 | `update_user_credits` as one atomic step: the new state and the reply are those of `Call`, and consistency is preserved |
| Tables.Table.Insert | apps/web/app/dashboard/certificates/new/page.tsx:71-86 | A successful insert appends the row under its new id and returns that id; a failed insert leaves the table unchanged and returns nothing |
| Credits.GenerationCost | apps/web/lib/credits/index.ts:7-13 | Each generation type has a fixed cost between 8 and 20, below the image cost of 25 |
| Credits.GenerationCostsDistinct | apps/web/lib/credits/index.ts:7-13 | No two generation types share a cost |
| Credits.RewardAmount | apps/web/lib/credits/index.ts:18-24 | The reward amounts range from 5 (daily login) to 100 (welcome bonus) |
| Credits.PackagesAscending | apps/web/lib/credits/index.ts:27-32 | Later packages carry strictly more credits, an equal or larger bonus, and a strictly larger total |
| Credits.CalculateTierBands | apps/web/lib/credits/index.ts:129-134 | The tier rule as four bands, each stated as an if-and-only-if: platinum from 1000, gold from 500 to 999, silver from 100 to 499, bronze below 100 |
| Credits.CalculateTierMonotone | apps/web/lib/credits/index.ts:129-134 | Spending more never lowers the tier |
| Credits.TierThreshold | apps/web/lib/credits/index.ts:129-134 | Each tier's least spend earns that tier, and any smaller spend earns a lower tier |
| Credits.TierBenefitsMonotone | apps/web/lib/credits/index.ts:139-179 | A higher tier never has a smaller discount, monthly bonus or feature list |
| Credits.TwoDigits | apps/web/lib/credits/index.ts:151-152 | A two-digit number prints as its tens digit followed by its units digit |
| Credits.PrintedRates | apps/web/lib/credits/index.ts:151-172 | The rates 5, 10, 15, 25 and 50 print as those decimal strings |
| Credits.TierFeaturesStateDiscount | apps/web/lib/credits/index.ts:146-177 | Above bronze, the first feature line states that tier's own discount as "N% de desconto" |
| Credits.TierFeaturesStateBonus | apps/web/lib/credits/index.ts:146-177 | Above bronze, the second feature line states that tier's own monthly bonus as "+N créditos/mês" |
| Credits.TierInfoFor | apps/web/app/dashboard/credits/page.tsx:14 | A known tier string gets its own benefits, and any other string gets bronze's |
| Credits.AddCreditsEffect | apps/web/lib/credits/index.ts:37-56 | `addCredits` passes the amount on unchanged and turns a missing or empty reference into null. It returns iff the procedure succeeded; an error reply raises "Erro ao adicionar créditos: …" and leaves the ledger unchanged |
| Credits.DeductionLowersBalance | apps/web/lib/credits/index.ts:61-69 | A deduction that returns keeps the ledger consistent, lowers the balance by the amount, and logs the negated amount as its last entry |
| Credits.AddCredits | apps/web/lib/credits/index.ts:37-56 | The method's new ledger state and completion are `AddCreditsEffect`'s, and consistency is preserved |
| Credits.DeductCredits | apps/web/lib/credits/index.ts:61-69 | `deductCredits(u, n, …)` has exactly the effect of `addCredits(u, -n, …)` |
| Credits.HasEnoughCredits | apps/web/lib/credits/index.ts:74-85 | True iff the stored balance is at least the amount, so an equal balance suffices. A failed read raises "Erro ao verificar créditos: …" |
| Credits.History | apps/web/lib/credits/index.ts:113-117 | A user's history holds only that user's transactions and is no longer than the log |
| Credits.HistoryNewestFirst | apps/web/lib/credits/index.ts:117 | A new transaction of the user becomes the first entry of that user's history |
| Credits.HistoryMembers | apps/web/lib/credits/index.ts:113-116 | A transaction is in a user's history iff it is in the log and belongs to that user |
| Credits.SumAmountsConcat | apps/web/lib/credits/index.ts:113-117 | The total of two lists placed one after the other is the sum of their totals |
| Credits.HistoryTotalsBalance | apps/web/lib/credits/index.ts:113-117 | The amounts in a user's history add up to the balance that the ledger invariant keeps |
| Credits.Window | apps/web/lib/credits/index.ts:118 | `.range(offset, offset+limit-1)`: at most `limit` items, clipped at the end, with item i at position offset+i |
| Credits.WindowsTile | apps/web/lib/credits/index.ts:106-124 | Two consecutive pages together make one page of twice the size: no gap and no overlap |
| Credits.GetCreditTransactions | apps/web/lib/credits/index.ts:106-124 | Returns the user's transactions, newest first, in the requested window (limit 50 and offset 0 by default), so at most `limit` of them. A failed read raises "Erro ao obter transações: …" |
| StripeConfig.EnvOrEmpty | apps/web/lib/stripe/index.ts:18 | `process.env[name] \|\| ""`: the variable's value when it is set, and "" otherwise |
| StripeConfig.LoadStripe | apps/web/lib/stripe/index.ts:3-10 | Loading succeeds iff STRIPE_SECRET_KEY is set and non-empty. It then uses that key; otherwise it fails with the module's message |
| StripeConfig.ParseProductKey | apps/web/lib/stripe/index.ts:13-38 | The product table's own keys, found by name: the inverse of the key names |
| StripeConfig.ExactlyFourProducts | apps/web/lib/stripe/index.ts:13-38 | Exactly the four names STARTER_PACK, BASIC_PACK, PRO_PACK and ULTIMATE_PACK are products; each appears once, in declaration order |
| StripeConfig.ProductFor | apps/web/lib/stripe/index.ts:13-38 | Every product grants a positive number of credits, and its price id is its environment variable or "" |
| StripeConfig.ProductCreditsIncreasing | apps/web/lib/stripe/index.ts:15-37 | Credits increase strictly in declaration order (50, 100, 250, 500) in every environment |
| StripeConfig.PriceVariablesDistinct | apps/web/lib/stripe/index.ts:18-36 | Distinct products read distinct price variables |
| Checkout.ValidateProductKey | apps/web/app/api/stripe/checkout/route.ts:22 | A key is accepted iff it is present, non-empty and names one of the four products; the accepted product carries that name |
| Checkout.SessionMetadata | apps/web/app/api/stripe/checkout/route.ts:55-59 | The metadata has exactly userId, productKey and credits. The credits string parses back to the product's credits |
| Checkout.LineItemDescription | apps/web/app/api/stripe/checkout/route.ts:45 | The line-item description opens with the product's credits, which `parseInt` reads back |
| Checkout.CheckoutPost | apps/web/app/api/stripe/checkout/route.ts:5-70 | The endpoint's answers, gate by gate: the module-load error, 401 without a user, 400 for an invalid key, and 500 for an unparsable body or a failing provider call. A session is requested iff every gate passes, and it carries exactly the built request. 200 returns the provider's id and url |
| Checkout.InheritedKeysAreNotProducts | apps/web/app/api/stripe/checkout/route.ts:22 | No key inherited from Object.prototype names a product |
| Checkout.CheckoutPostAsWritten | apps/web/app/api/stripe/checkout/route.ts:22-58 | As written, an inherited key passes the `in` check and then fails while the session is built, so the answer is 500 and no session is requested |
| Checkout.InheritedKeyAnswers500 | apps/web/app/api/stripe/checkout/route.ts:22-26 | For "toString", the code as written answers 500 where the corrected check answers 400 |
| Checkout.AsWrittenAgreesElsewhere | apps/web/app/api/stripe/checkout/route.ts:5-70 | For every other request, the code as written and the corrected check give the same result |
| Checkout.InheritedKeyRejected | apps/web/app/api/stripe/checkout/route.ts:22-24 | The corrected check answers 400 for every inherited key and requests no session |
| Webhook.MetadataField | apps/web/app/api/stripe/webhook/route.ts:54-56 | `metadata?.key`: present iff the metadata exists and has the key, and it is then that value |
| Webhook.CreditsText | apps/web/app/api/stripe/webhook/route.ts:55 | `metadata?.credits \|\| "0"`: the field's value when it is non-empty, and "0" otherwise |
| Webhook.ExtractGrant | apps/web/app/api/stripe/webhook/route.ts:54-64 | A grant exists iff userId is non-empty and the parsed credits are neither 0 nor NaN. The grant carries that user, those credits and the description "Compra: <productKey> (<credits> créditos)" |
| Webhook.PendingGrant | apps/web/app/api/stripe/webhook/route.ts:19-64 | A delivery reaches the ledger iff the module loads, the signature header is non-empty, the event verifies, it is checkout.session.completed, and its metadata passes the gate |
| Webhook.Settle | apps/web/app/api/stripe/webhook/route.ts:19-104 | Without a pending grant the ledger is unchanged. When it changes, it is by the grant's one purchase transaction, answered 200. Each gate's answer (400s, 200 for other events) and each ledger-call outcome (200, or 500 for an error or a throw) is stated |
| Webhook.HandleWebhook | apps/web/app/api/stripe/webhook/route.ts:19-104 | The handler's new ledger and response are `Settle`'s, and consistency is preserved |
| Webhook.MissingCreditsRejected | apps/web/app/api/stripe/webhook/route.ts:55-64 | Missing or empty credits read as "0", which is falsy, so there is no grant |
| Webhook.NonNumericCreditsRejected | apps/web/app/api/stripe/webhook/route.ts:55-64 | Credits that start with neither white space, a sign nor a digit parse to NaN, so there is no grant |
| Webhook.NegativeCreditsAccepted | apps/web/app/api/stripe/webhook/route.ts:55-72 | A credits string that parses to a negative number passes the gate (the sign is never checked), and the grant debits instead of crediting |
| Webhook.MissingKeyDescription | apps/web/app/api/stripe/webhook/route.ts:56-71 | Without productKey in the metadata, the description reads "Compra: undefined (N créditos)" |
| Webhook.CheckoutMetadataGrants | apps/web/app/api/stripe/webhook/route.ts:54-71 | Round trip with checkout: a valid product's session metadata passes the gate and grants exactly that product's credits, with its key in the description |
| Webhook.PaidSessionCreditsBuyer | apps/web/app/api/stripe/webhook/route.ts:50-96 | A paid session for a buyer with a profile answers 200, raises the buyer's balance by exactly the product's credits, and logs one purchase transaction |
| Webhook.RedeliveryCreditsTwice | apps/web/app/api/stripe/webhook/route.ts:50-83 | There is no deduplication: the same event delivered twice credits the buyer twice and logs two transactions |
| Webhook.OtherEventsAcknowledged | apps/web/app/api/stripe/webhook/route.ts:86-96 | Every other event type, payment_intent.payment_failed included, is answered 200 and leaves the ledger unchanged |
| Prompts.Fields | apps/web/lib/ai/prompts.ts:81-88 | Every generator lists at least four optional fields and ends with the setting and the additional context |
| Prompts.FieldLines | apps/web/lib/ai/prompts.ts:83-88 | One template line per field, in order |
| Prompts.GeneratePrompt | apps/web/lib/ai/prompts.ts:108-111 | A generator returns exactly two messages: the system role first, then the user role |
| Prompts.GetPromptMessages | apps/web/lib/ai/prompts.ts:267-282 | Succeeds iff the type is the name of one of the five generation types, and returns that type's generator output; any other type fails with "Invalid generation type" |
| Prompts.FieldLineShowsValue | apps/web/lib/ai/prompts.ts:83-88 | A field's line is non-empty iff the field is truthy; it is then "- Label: " followed by the value, verbatim |
| Prompts.LinesBlockConcat | apps/web/lib/ai/prompts.ts:82-89 | The block of template lines splits along any split of the lines |
| Prompts.LinesBlockSplit | apps/web/lib/ai/prompts.ts:82-89 | Each line sits on a line of its own, between the lines before it and the lines after it |
| Prompts.LinesBlockPrefix | apps/web/lib/ai/prompts.ts:82-89 | Taking one more field line adds it at the end, on a line of its own |
| Prompts.ComposeFrames | apps/web/lib/ai/prompts.ts:82-106 | Whatever the fields, the user prompt begins with the fixed header and ends with the fixed reply template |
| Prompts.ComposePlacesLine | apps/web/lib/ai/prompts.ts:82-106 | The i-th field line comes right after the header and the lines before it, and the rest of the prompt follows unchanged |
| Prompts.SameFieldLines | apps/web/lib/ai/prompts.ts:83-88 | Field lists that print the same lines give the same lines |
| Prompts.SameLinesSamePrompt | apps/web/lib/ai/prompts.ts:82-106 | Inputs whose fields print the same lines get the same user prompt |
| Prompts.ZeroLevelIsAbsent | apps/web/lib/ai/prompts.ts:86 | A level or party level of 0 gives the same prompt as an absent one |
| Prompts.EmptyTextIsAbsent | apps/web/lib/ai/prompts.ts:87-88 | An empty setting or context gives the same prompt as an absent one |
| Prompts.AbsentFieldsLeaveBlankLines | apps/web/lib/ai/prompts.ts:83-88 | With every field absent, each field still leaves an empty line |
| Generate.CostForType | apps/web/app/api/ai/generate/route.ts:41-44 | The cost is the table's entry for a known type, an inherited Object.prototype member (not a number) exactly for an inherited key such as "toString", and 10 for any other type; a numeric cost lies between 8 and 20 |
| Generate.ReadBalance | apps/web/app/api/ai/generate/route.ts:27-38 | The profile read returns the stored balance iff it completes for a user with a profile |
| Generate.Admit | apps/web/app/api/ai/generate/route.ts:12-59 | An admitted request is authenticated, has a parsed body, has read the stored balance, is charged its table cost, can afford it, and is of a known type. A rejected request made at most one outside call |
| Generate.PromptStepFailsOnUnknownType | apps/web/app/api/ai/generate/route.ts:59 | Building the prompt fails exactly for a type outside the five, with "Invalid generation type" |
| Generate.UnauthenticatedRejected | apps/web/app/api/ai/generate/route.ts:12-19 | Without a user the answer is 401, before any outside call |
| Generate.ProfileReadFailureRejected | apps/web/app/api/ai/generate/route.ts:27-38 | A profile read that fails or finds no row answers 500 after that one read |
| Generate.InsufficientBalanceRejected | apps/web/app/api/ai/generate/route.ts:46-56 | A balance below a numeric cost answers 402 with required = cost and available = balance |
| Generate.AdmittedExactly | apps/web/app/api/ai/generate/route.ts:12-59 | A request reaches the model iff it is authenticated, readable, not below its cost (an equal balance suffices) and of a known type |
| Generate.UnknownTypeRejected | apps/web/app/api/ai/generate/route.ts:41-59 | An unknown type that is not an inherited key costs the fallback 10; when affordable, it fails at the prompt step with 500 |
| Generate.InheritedTypeRejected | apps/web/app/api/ai/generate/route.ts:41-59 | For an inherited key the comparison `credits < cost` is false for every balance, so there is never a 402; the request fails at the prompt step with 500 |
| Generate.SaveAndDebit | apps/web/app/api/ai/generate/route.ts:71-115 | A failed save answers 500 and never calls the ledger. Otherwise the row is saved, and exactly one debit of the cost follows, with the saved id as its reference. An error reply is only logged, and the answer reports the cost used and the balance read minus the cost |
| Generate.GenerateContent | apps/web/app/api/ai/generate/route.ts:7-126 | The whole route: a rejected request writes nothing; an admitted one asks the model. A model failure answers 500 and writes nothing. After a reply it saves the generation, then debits only if the save succeeded |
| Forms.MinLengthIssues | apps/web/app/dashboard/certificates/new/page.tsx:22-25 | A string field with a minimum length reports nothing iff it is present and long enough. Otherwise it reports one issue: "Required" when the field is missing, or the given message when it is too short |
| CertificateForm.ValidateCertificate | apps/web/app/dashboard/certificates/new/page.tsx:21-29 | Accepts iff the title has at least 3 characters, the player name at least 2 and the achievement at least 10. The accepted values are copied, the template defaults to "classic" and isPublic to false. A rejection reports one to three issues, on those three fields only |
| CertificateForm.ValidateAsInput | apps/web/app/dashboard/certificates/new/page.tsx:21-29 | Accepted values submitted again are accepted unchanged |
| CertificateForm.EmptyFormRejected | apps/web/app/dashboard/certificates/new/page.tsx:21-50 | The form's initial values fail on title, player name and achievement, in that order and with their messages |
| CertificateForm.RowFor | apps/web/app/dashboard/certificates/new/page.tsx:73-82 | An empty character name or description is stored as null; every other field is copied from the form |
| CertificateForm.NewCertificatePage.constructor | apps/web/app/dashboard/certificates/new/page.tsx:37 | The page starts with loading off and nothing shown |
| CertificateForm.NewCertificatePage.OnSubmit | apps/web/app/dashboard/certificates/new/page.tsx:53-114 | No user, or a balance below 5, shows an error and writes nothing. Otherwise loading goes on and then off on every path. A failed insert never calls the ledger. A saved certificate is debited once: −5, "Criação de certificado: <title>", with the certificate id as reference. A failed debit shows the error, does not navigate and keeps the certificate; a successful one shows success and navigates to /dashboard/certificates |
| CampaignForm.StatusIssues | apps/web/app/dashboard/campaigns/new/page.tsx:23 | A status is accepted iff it is missing or one of the three; anything else reports zod's enum message |
| CampaignForm.ValidateCampaign | apps/web/app/dashboard/campaigns/new/page.tsx:19-24 | Accepts iff the name has at least 3 characters and the status is valid or missing. The status defaults to active and the optional fields are copied |
| CampaignForm.ValidateAsInput | apps/web/app/dashboard/campaigns/new/page.tsx:19-24 | Accepted values submitted again are accepted unchanged |
| CampaignForm.RowFor | apps/web/app/dashboard/campaigns/new/page.tsx:53-59 | An empty system or description becomes null; the name and status pass through |
| CampaignForm.NewCampaignPage.constructor | apps/web/app/dashboard/campaigns/new/page.tsx:31 | The page starts with loading off and nothing shown |
| CampaignForm.NewCampaignPage.OnSubmit | apps/web/app/dashboard/campaigns/new/page.tsx:44-73 | No user shows an error and inserts nothing. Otherwise loading goes on and then off on every path. A failed insert shows the error without navigating; a successful one shows success and navigates to /dashboard/campaigns. No ledger is in reach |

## Left out

- The body of `update_user_credits` is not shown in the repository. The model
  assumes three things about it:
  - it is one atomic step;
  - it reports an error for a user without a profile;
  - it does no overdraft check.
  The procedure's tier and total-spent bookkeeping and its `p_metadata`
  argument are not modelled.
- Ledger.Ledger.UpdateUserCredits: the boolean that `update_user_credits`
  returns (apps/web/lib/types/database.ts:269-279) is not modelled, because
  the procedure's body is not part of the repository. The successful reply
  `RpcOk` carries no value.
- Credits.AddCredits: the `return data` of `addCredits`
  (apps/web/lib/credits/index.ts:55) is dropped with it, and so is the value
  `deductCredits` passes on. Both methods return only a `Completion`. No
  caller in the repository reads either value.
- Concurrency: two requests that read the same balance before either debits
  are not modelled. Each request runs alone.
- Floating-point prices: the package prices, `Math.round(price * 100)` in the
  checkout, and the displayed amounts.
- `getUserCredits` (apps/web/lib/credits/index.ts:90-101) is a plain read of
  three columns, two of which the procedure maintains invisibly. It is not
  modelled.
- The language-model call and `parseAIJSON` are an outside call: their outcome
  is a parameter. The `prompt` column holds the parsed input rather than its
  `JSON.stringify` text.
- Generate.GenerateContent: the `AskModel` call records the prompt input
  rather than the messages `getPromptMessages` builds from it;
  `Generate.PromptStepFailsOnUnknownType` relates the two.
- Generate.Admit: the detail of the error raised by an unparsable request body
  is a fixed text, not the parser's message.
- Generate.CostForType: an inherited key yields one value, `InheritedMember`,
  for every member of Object.prototype. The model does not tell a function
  from the prototype object, since the route only compares it with the
  balance, which is false for both.
- Credits.TierInfoFor: `TIER_BENEFITS[tier]` would also find inherited keys
  such as "toString". The model falls back to bronze for every string that is not
  one of the four tiers.
- Prompts.GeneratePrompt: its contract states only the two roles. The system
  text is `SystemPrompt(g)` by definition. The framing of the user text is
  proved generically in `Prompts.ComposeFrames`, because `UserPrompt` is
  defined through `Compose`.
- Strings are sequences of characters. Lengths (`min(3)` and so on) count
  characters, not UTF-16 code units.
- Numbers: `parseInt` is exact here, while JavaScript loses precision above
  2^53. The metadata values are strings only; other JSON value types are not
  modelled.
- Credits.GetCreditTransactions: `limit` and `offset` are natural numbers, and
  transactions with equal timestamps keep log order. The order between
  same-time rows in the database is not modelled.
- The pages' React hooks are not modelled: `refreshCredits`, the realtime
  credit subscription and the form resolver wiring. The certificate page
  receives its cached balance as a parameter.
- The webhook's module-level database client is not modelled; the webhook
  calls the same ledger.
- The signature check (`constructEvent`) and `checkout.sessions.create` are
  the payment provider's library. They are parameters: the verified event or
  nothing, and the session or an exception.
- Logging (`console.log` and `console.error`) is not modelled.

## Findings

| source | as written | input that shows it | evidently intended | confidence | as-written member | corrected member |
|---|---|---|---|---|---|---|
| apps/web/app/api/stripe/checkout/route.ts:22 | `productKey in STRIPE_PRODUCTS` also accepts keys inherited from Object.prototype. `product.credits` is then undefined, and `credits.toString()` throws while the session is built, so the answer is 500 | `{"productKey": "toString"}` from a signed-in user | An unknown product answers 400 "Invalid product" | not executed | Checkout.CheckoutPostAsWritten, Checkout.InheritedKeyAnswers500 | Checkout.CheckoutPost, Checkout.InheritedKeyRejected |
