/**
 * The credit economy's library: the cost, reward and package tables, the tier
 * rule with its benefits, and the ledger helpers `addCredits`,
 * `deductCredits`, `hasEnoughCredits` and `getCreditTransactions`.
 */
module Credits {
  import opened Js
  import opened Types
  import opened Ledger

  // ---------------------------------------------------------------------
  // Costs, rewards and packages
  // ---------------------------------------------------------------------

  /** Creating a certificate costs a flat amount. */
  const CERTIFICATE_COST: nat := 5

  /** Generating an image (not yet offered anywhere) has its own cost. */
  const AI_IMAGE_COST: nat := 25

  /** The cost of one AI generation of each type. */
  function GenerationCost(g: GenerationType): (c: nat)
    ensures 8 <= c <= 20
    ensures c < AI_IMAGE_COST
  {
    match g
    case Npc => 10
    case Item => 8
    case Location => 12
    case Story => 15
    case Quest => 20
  }

  /** Every generation type has its own cost. */
  lemma GenerationCostsDistinct(g: GenerationType, h: GenerationType)
    requires g != h
    ensures GenerationCost(g) != GenerationCost(h)
  {
  }

  datatype RewardKind = WelcomeBonus | ReferralReward | DailyLogin | FirstCertificate | FirstAiGeneration

  function RewardAmount(k: RewardKind): (n: nat)
    ensures 5 <= n <= 100
  {
    match k
    case WelcomeBonus => 100
    case ReferralReward => 50
    case DailyLogin => 5
    case FirstCertificate => 10
    case FirstAiGeneration => 10
  }

  /** A purchasable package (its price, a floating-point amount, is left out). */
  datatype CreditPackage = CreditPackage(credits: nat, bonus: nat)

  const CREDIT_PACKAGES: seq<CreditPackage> := [
    CreditPackage(100, 0),
    CreditPackage(500, 50),
    CreditPackage(1000, 150),
    CreditPackage(2500, 500)
  ]

  /** Credits the credits page shows for a package: base plus bonus. */
  function PackageTotal(p: CreditPackage): nat {
    p.credits + p.bonus
  }

  /** Larger packages carry more credits and at least as large a bonus. */
  lemma PackagesAscending(i: nat, j: nat)
    requires i < j < |CREDIT_PACKAGES|
    ensures CREDIT_PACKAGES[i].credits < CREDIT_PACKAGES[j].credits
    ensures CREDIT_PACKAGES[i].bonus <= CREDIT_PACKAGES[j].bonus
    ensures PackageTotal(CREDIT_PACKAGES[i]) < PackageTotal(CREDIT_PACKAGES[j])
  {
  }

  // ---------------------------------------------------------------------
  // Tiers
  // ---------------------------------------------------------------------

  /** The tier earned by a cumulative spend, thresholds checked highest first. */
  function CalculateTier(totalSpent: int): Tier {
    if totalSpent >= 1000 then Platinum
    else if totalSpent >= 500 then Gold
    else if totalSpent >= 100 then Silver
    else Bronze
  }

  /** The four spend bands, each as an if-and-only-if. */
  lemma CalculateTierBands(x: int)
    ensures CalculateTier(x) == Platinum <==> x >= 1000
    ensures CalculateTier(x) == Gold <==> 500 <= x < 1000
    ensures CalculateTier(x) == Silver <==> 100 <= x < 500
    ensures CalculateTier(x) == Bronze <==> x < 100
  {
  }

  /** Spending more never lowers the tier. */
  lemma CalculateTierMonotone(a: int, b: int)
    requires a <= b
    ensures TierRank(CalculateTier(a)) <= TierRank(CalculateTier(b))
  {
  }

  /** The least spend that earns a tier: the tier rule's inverse. */
  function TierThreshold(t: Tier): (n: nat)
    ensures CalculateTier(n) == t
    ensures forall x :: x < n ==> TierRank(CalculateTier(x)) < TierRank(t) || t == Bronze
  {
    match t
    case Bronze => 0
    case Silver => 100
    case Gold => 500
    case Platinum => 1000
  }

  datatype TierBenefit = TierBenefit(name: string, discount: nat, monthlyBonus: nat, features: seq<string>)

  function TierBenefits(t: Tier): TierBenefit {
    match t
    case Bronze => TierBenefit("Bronze", 0, 0, ["Acesso básico", "Templates gratuitos"])
    case Silver => TierBenefit("Silver", 5, 10, ["5% de desconto", "+10 créditos/mês", "Templates premium"])
    case Gold => TierBenefit("Gold", 10, 25,
      ["10% de desconto", "+25 créditos/mês", "Todos os templates", "Suporte prioritário"])
    case Platinum => TierBenefit("Platinum", 15, 50,
      ["15% de desconto", "+50 créditos/mês", "Tudo ilimitado", "Suporte VIP", "Beta features"])
  }

  /** A higher tier never has a smaller discount, bonus or feature list. */
  lemma TierBenefitsMonotone(s: Tier, t: Tier)
    requires TierRank(s) <= TierRank(t)
    ensures TierBenefits(s).discount <= TierBenefits(t).discount
    ensures TierBenefits(s).monthlyBonus <= TierBenefits(t).monthlyBonus
    ensures |TierBenefits(s).features| <= |TierBenefits(t).features|
  {
  }

  /** The feature lines that state a discount and a monthly bonus. */
  function DiscountLine(discount: nat): string {
    NatToString(discount) + "% de desconto"
  }

  function BonusLine(bonus: nat): string {
    "+" + NatToString(bonus) + " créditos/mês"
  }

  /** A two-digit number prints as its tens digit and its units digit. */
  lemma TwoDigits(n: nat)
    requires 10 <= n < 100
    ensures NatToString(n) == [DigitChar(n / 10), DigitChar(n % 10)]
  {
  }

  /** The printed rates that appear in the tiers' feature lines. */
  lemma PrintedRates()
    ensures NatToString(5) == "5" && NatToString(10) == "10" && NatToString(15) == "15"
    ensures NatToString(25) == "25" && NatToString(50) == "50"
  {
    TwoDigits(10);
    TwoDigits(15);
    TwoDigits(25);
    TwoDigits(50);
  }

  /** Above bronze, the first feature line states the tier's own discount. */
  lemma TierFeaturesStateDiscount(t: Tier)
    requires t != Bronze
    ensures |TierBenefits(t).features| >= 2
    ensures TierBenefits(t).features[0] == DiscountLine(TierBenefits(t).discount)
  {
    PrintedRates();
  }

  /** Above bronze, the second feature line states the tier's own monthly bonus. */
  lemma TierFeaturesStateBonus(t: Tier)
    requires t != Bronze
    ensures |TierBenefits(t).features| >= 2
    ensures TierBenefits(t).features[1] == BonusLine(TierBenefits(t).monthlyBonus)
  {
    PrintedRates();
  }

  /** `TIER_BENEFITS[tier] || TIER_BENEFITS.bronze` on the stored tier string. */
  function TierInfoFor(tier: string): (b: TierBenefit)
    ensures forall t: Tier :: tier == TierName(t) ==> b == TierBenefits(t)
    ensures ParseTier(tier).None? ==> b == TierBenefits(Bronze)
  {
    match ParseTier(tier)
    case Some(t) => TierBenefits(t)
    case None => TierBenefits(Bronze)
  }

  // ---------------------------------------------------------------------
  // addCredits / deductCredits
  // ---------------------------------------------------------------------

  /** How a library call ends: it returns, or it raises an error with a message. */
  datatype Completion = Returned | Raised(message: string)

  /**
   * What `addCredits` does to the ledger and how it ends: the amount goes to
   * the procedure unchanged, an empty or missing reference becomes null, an
   * error reply raises "Erro ao adicionar créditos: ..." and a thrown error
   * propagates.
   */
  function AddCreditsEffect(
    s: LedgerState, userId: UserId, amount: int, kind: TransactionType,
    description: string, referenceId: Option<string>, outcome: CallOutcome)
    : (r: (LedgerState, Completion))
    ensures r.1 == Returned <==> outcome == Completes && userId in s.credits
    ensures r.1 == Returned ==>
      r.0 == Record(s, Transaction(userId, amount, kind, description, OrNull(referenceId)))
    ensures r.1 != Returned ==> r.0 == s
    ensures outcome.ReturnsError? ==> r.1 == Raised("Erro ao adicionar créditos: " + outcome.message)
    ensures outcome.Throws? ==> r.1 == Raised(outcome.message)
  {
    var (t, reply) := Call(s, Transaction(userId, amount, kind, description, OrNull(referenceId)), outcome);
    match reply
    case RpcOk => (t, Returned)
    case RpcError(m) => (t, Raised("Erro ao adicionar créditos: " + m))
    case RpcThrew(m) => (t, Raised(m))
  }

  /** A deduction that returns lowers the balance by the amount and logs its negation. */
  lemma DeductionLowersBalance(
    s: LedgerState, userId: UserId, amount: int, kind: TransactionType,
    description: string, referenceId: Option<string>, outcome: CallOutcome)
    requires Consistent(s)
    requires AddCreditsEffect(s, userId, -amount, kind, description, referenceId, outcome).1 == Returned
    ensures var t := AddCreditsEffect(s, userId, -amount, kind, description, referenceId, outcome).0;
      && Consistent(t)
      && t.credits[userId] == s.credits[userId] - amount
      && t.log[|t.log| - 1].amount == -amount
      && SumFor(t.log, userId) == SumFor(s.log, userId) - amount
  {
    var tx := Transaction(userId, -amount, kind, description, OrNull(referenceId));
    RecordKeepsConsistent(s, tx);
  }

  method AddCredits(
    ledger: Ledger, userId: UserId, amount: int, kind: TransactionType,
    description: string, referenceId: Option<string>, outcome: CallOutcome)
    returns (c: Completion)
    requires ledger.Valid()
    modifies ledger
    ensures ledger.Valid()
    ensures (ledger.State(), c) == AddCreditsEffect(old(ledger.State()), userId, amount, kind, description, referenceId, outcome)
  {
    var reply := ledger.UpdateUserCredits(userId, amount, kind, description, OrNull(referenceId), outcome);
    match reply
    case RpcOk => c := Returned;
    case RpcError(m) => c := Raised("Erro ao adicionar créditos: " + m);
    case RpcThrew(m) => c := Raised(m);
  }

  /** `deductCredits(u, n, ...)` is `addCredits(u, -n, ...)`. */
  method DeductCredits(
    ledger: Ledger, userId: UserId, amount: int, kind: TransactionType,
    description: string, referenceId: Option<string>, outcome: CallOutcome)
    returns (c: Completion)
    requires ledger.Valid()
    modifies ledger
    ensures ledger.Valid()
    ensures (ledger.State(), c) == AddCreditsEffect(old(ledger.State()), userId, -amount, kind, description, referenceId, outcome)
  {
    c := AddCredits(ledger, userId, -amount, kind, description, referenceId, outcome);
  }

  // ---------------------------------------------------------------------
  // Reads: hasEnoughCredits and getCreditTransactions
  // ---------------------------------------------------------------------

  /** The balance check: true iff the stored balance is at least `amount`. */
  method HasEnoughCredits(ledger: Ledger, userId: UserId, amount: int, outcome: CallOutcome)
    returns (r: Result<bool, string>)
    ensures outcome == Completes && userId in ledger.credits ==>
      r == Success(ledger.credits[userId] >= amount)
    ensures outcome == Completes && userId !in ledger.credits ==>
      r == Failure("Erro ao verificar créditos: " + NO_PROFILE)
    ensures outcome.ReturnsError? ==> r == Failure("Erro ao verificar créditos: " + outcome.message)
    ensures outcome.Throws? ==> r == Failure(outcome.message)
  {
    match outcome
    case Throws(m) => r := Failure(m);
    case ReturnsError(m) => r := Failure("Erro ao verificar créditos: " + m);
    case Completes =>
      if userId in ledger.credits {
        r := Success(ledger.credits[userId] >= amount);
      } else {
        r := Failure("Erro ao verificar créditos: " + NO_PROFILE);
      }
  }

  /** A user's transactions, newest first. */
  function History(log: seq<Transaction>, u: UserId): (h: seq<Transaction>)
    ensures |h| <= |log|
    ensures forall i :: 0 <= i < |h| ==> h[i].userId == u
    decreases |log|
  {
    if log == [] then []
    else
      var last := log[|log| - 1];
      (if last.userId == u then [last] else []) + History(log[..|log| - 1], u)
  }

  /** A new transaction of `u` is the first entry of `u`'s history. */
  lemma HistoryNewestFirst(log: seq<Transaction>, tx: Transaction, u: UserId)
    ensures History(log + [tx], u) == (if tx.userId == u then [tx] else []) + History(log, u)
  {
    assert (log + [tx])[..|log|] == log;
  }

  /** The history holds exactly `u`'s transactions of the log. */
  lemma {:induction false} HistoryMembers(log: seq<Transaction>, u: UserId, tx: Transaction)
    ensures tx in History(log, u) <==> tx in log && tx.userId == u
    decreases |log|
  {
    if log != [] {
      var init := log[..|log| - 1];
      HistoryMembers(init, u, tx);
      assert log == init + [log[|log| - 1]];
    }
  }

  function SumAmounts(txs: seq<Transaction>): int {
    if txs == [] then 0 else txs[0].amount + SumAmounts(txs[1..])
  }

  lemma {:induction false} SumAmountsConcat(a: seq<Transaction>, b: seq<Transaction>)
    ensures SumAmounts(a + b) == SumAmounts(a) + SumAmounts(b)
    decreases |a|
  {
    if a == [] {
      assert a + b == b;
    } else {
      assert (a + b)[1..] == a[1..] + b;
      SumAmountsConcat(a[1..], b);
    }
  }

  /** A user's balance is the total of the history the credits page lists. */
  lemma {:induction false} HistoryTotalsBalance(log: seq<Transaction>, u: UserId)
    ensures SumAmounts(History(log, u)) == SumFor(log, u)
    decreases |log|
  {
    if log != [] {
      var last := log[|log| - 1];
      HistoryTotalsBalance(log[..|log| - 1], u);
      SumAmountsConcat(if last.userId == u then [last] else [], History(log[..|log| - 1], u));
    }
  }

  /** Positions offset .. offset+limit-1 of a list, clipped at its end. */
  function Window(h: seq<Transaction>, limit: nat, offset: nat): (w: seq<Transaction>)
    ensures |w| <= limit
    ensures |w| == if offset >= |h| then 0 else if |h| - offset < limit then |h| - offset else limit
    ensures forall i :: 0 <= i < |w| ==> w[i] == h[offset + i]
  {
    if offset >= |h| then []
    else if |h| - offset < limit then h[offset..]
    else h[offset..offset + limit]
  }

  /** Windows taken page by page cover the history without gaps or overlaps. */
  lemma {:induction false} WindowsTile(h: seq<Transaction>, limit: nat, offset: nat)
    ensures Window(h, limit, offset) + Window(h, limit, offset + limit) == Window(h, 2 * limit, offset)
  {
    var a, b, c := Window(h, limit, offset), Window(h, limit, offset + limit), Window(h, 2 * limit, offset);
    assert |a + b| == |c|;
    forall i | 0 <= i < |c| ensures (a + b)[i] == c[i] {
      if i < |a| {
      } else {
        assert (a + b)[i] == b[i - |a|];
      }
    }
  }

  /**
   * `getCreditTransactions(userId, limit = 50, offset = 0)`: the user's
   * transactions newest first, positions offset .. offset+limit-1.
   */
  method GetCreditTransactions(ledger: Ledger, userId: UserId, outcome: CallOutcome, limit: nat := 50, offset: nat := 0)
    returns (r: Result<seq<Transaction>, string>)
    ensures outcome == Completes ==> r == Success(Window(History(ledger.log, userId), limit, offset))
    ensures outcome == Completes ==> |r.value| <= limit
    ensures outcome.ReturnsError? ==> r == Failure("Erro ao obter transações: " + outcome.message)
    ensures outcome.Throws? ==> r == Failure(outcome.message)
  {
    match outcome
    case Throws(m) => r := Failure(m);
    case ReturnsError(m) => r := Failure("Erro ao obter transações: " + m);
    case Completes => r := Success(Window(History(ledger.log, userId), limit, offset));
  }
}
