/**
 * The payment provider's configuration: the module-load guard on the secret
 * key and the table of the four credit products.
 */
module StripeConfig {
  import opened Js

  /** The server's environment variables that are set. */
  type Env = map<string, string>

  /** `process.env[name] || ""`: an unset variable reads as the empty string. */
  function EnvOrEmpty(env: Env, name: string): (v: string)
    ensures name in env ==> v == env[name]
    ensures name !in env ==> v == ""
  {
    if name in env && env[name] != "" then env[name] else ""
  }

  const SECRET_KEY_MISSING := "STRIPE_SECRET_KEY is not defined in environment variables"

  /**
   * Loading the module: it throws when STRIPE_SECRET_KEY is unset or empty,
   * and otherwise builds the client from that key.
   */
  function LoadStripe(env: Env): (r: Result<string, string>)
    ensures r.Success? <==> "STRIPE_SECRET_KEY" in env && env["STRIPE_SECRET_KEY"] != ""
    ensures r.Success? ==> r.value == env["STRIPE_SECRET_KEY"]
    ensures r.Failure? ==> r.error == SECRET_KEY_MISSING
  {
    if "STRIPE_SECRET_KEY" in env && env["STRIPE_SECRET_KEY"] != "" then Success(env["STRIPE_SECRET_KEY"])
    else Failure(SECRET_KEY_MISSING)
  }

  datatype ProductKey = StarterPack | BasicPack | ProPack | UltimatePack

  /** The products in declaration order. */
  const PRODUCT_KEYS: seq<ProductKey> := [StarterPack, BasicPack, ProPack, UltimatePack]

  function KeyName(k: ProductKey): string {
    match k
    case StarterPack => "STARTER_PACK"
    case BasicPack => "BASIC_PACK"
    case ProPack => "PRO_PACK"
    case UltimatePack => "ULTIMATE_PACK"
  }

  /** The own keys of the product table, as a lookup by name. */
  function ParseProductKey(s: string): (r: Option<ProductKey>)
    ensures r.Some? ==> KeyName(r.value) == s
    ensures forall k: ProductKey :: s == KeyName(k) ==> r == Some(k)
  {
    if s == "STARTER_PACK" then Some(StarterPack)
    else if s == "BASIC_PACK" then Some(BasicPack)
    else if s == "PRO_PACK" then Some(ProPack)
    else if s == "ULTIMATE_PACK" then Some(UltimatePack)
    else None
  }

  /** There are exactly four product keys, listed once each in declaration order. */
  lemma ExactlyFourProducts(s: string)
    ensures ParseProductKey(s).Some? <==> s in {"STARTER_PACK", "BASIC_PACK", "PRO_PACK", "ULTIMATE_PACK"}
    ensures forall k: ProductKey :: k in PRODUCT_KEYS
    ensures forall i, j :: 0 <= i < j < |PRODUCT_KEYS| ==> PRODUCT_KEYS[i] != PRODUCT_KEYS[j]
  {
    forall k: ProductKey ensures k in PRODUCT_KEYS {
      match k
      case StarterPack => assert PRODUCT_KEYS[0] == k;
      case BasicPack => assert PRODUCT_KEYS[1] == k;
      case ProPack => assert PRODUCT_KEYS[2] == k;
      case UltimatePack => assert PRODUCT_KEYS[3] == k;
    }
  }

  /** A product: display name, credits granted and the provider's price id (its price is left out). */
  datatype Product = Product(name: string, credits: nat, priceId: string)

  /** The environment variable holding each product's price id. */
  function PriceVariable(k: ProductKey): string {
    match k
    case StarterPack => "STRIPE_PRICE_STARTER"
    case BasicPack => "STRIPE_PRICE_BASIC"
    case ProPack => "STRIPE_PRICE_PRO"
    case UltimatePack => "STRIPE_PRICE_ULTIMATE"
  }

  function ProductFor(k: ProductKey, env: Env): (p: Product)
    ensures p.credits > 0
    ensures p.priceId == EnvOrEmpty(env, PriceVariable(k))
  {
    match k
    case StarterPack => Product("Pacote Iniciante", 50, EnvOrEmpty(env, "STRIPE_PRICE_STARTER"))
    case BasicPack => Product("Pacote Básico", 100, EnvOrEmpty(env, "STRIPE_PRICE_BASIC"))
    case ProPack => Product("Pacote Pro", 250, EnvOrEmpty(env, "STRIPE_PRICE_PRO"))
    case UltimatePack => Product("Pacote Ultimate", 500, EnvOrEmpty(env, "STRIPE_PRICE_ULTIMATE"))
  }

  /** Credits grow strictly along the declaration order, whatever the environment. */
  lemma ProductCreditsIncreasing(env: Env, i: nat, j: nat)
    requires i < j < |PRODUCT_KEYS|
    ensures ProductFor(PRODUCT_KEYS[i], env).credits < ProductFor(PRODUCT_KEYS[j], env).credits
  {
  }

  /** Distinct products read distinct price variables. */
  lemma PriceVariablesDistinct(k: ProductKey, l: ProductKey)
    requires k != l
    ensures PriceVariable(k) != PriceVariable(l)
  {
  }
}
