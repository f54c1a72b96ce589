/**
 * The application's enumerations, with the strings the database and the
 * JSON bodies carry for them.
 */
module Types {
  import opened Js

  type UserId = string

  datatype Tier = Bronze | Silver | Gold | Platinum

  /** Position in the order bronze < silver < gold < platinum. */
  function TierRank(t: Tier): (r: nat)
    ensures r < 4
  {
    match t
    case Bronze => 0
    case Silver => 1
    case Gold => 2
    case Platinum => 3
  }

  function TierName(t: Tier): string {
    match t
    case Bronze => "bronze"
    case Silver => "silver"
    case Gold => "gold"
    case Platinum => "platinum"
  }

  function ParseTier(s: string): (r: Option<Tier>)
    ensures r.Some? ==> TierName(r.value) == s
    ensures forall t: Tier :: s == TierName(t) ==> r == Some(t)
  {
    if s == "bronze" then Some(Bronze)
    else if s == "silver" then Some(Silver)
    else if s == "gold" then Some(Gold)
    else if s == "platinum" then Some(Platinum)
    else None
  }

  datatype TransactionType = Purchase | Referral | AiGeneration | CertificateCreation | Reward

  datatype GenerationType = Npc | Item | Location | Story | Quest

  function GenerationTypeName(g: GenerationType): string {
    match g
    case Npc => "npc"
    case Item => "item"
    case Location => "location"
    case Story => "story"
    case Quest => "quest"
  }

  /** Which generation type a request's `type` string names, if any. */
  function ParseGenerationType(s: string): (r: Option<GenerationType>)
    ensures r.Some? ==> GenerationTypeName(r.value) == s
    ensures forall g: GenerationType :: s == GenerationTypeName(g) ==> r == Some(g)
  {
    if s == "npc" then Some(Npc)
    else if s == "item" then Some(Item)
    else if s == "location" then Some(Location)
    else if s == "story" then Some(Story)
    else if s == "quest" then Some(Quest)
    else None
  }

  /** The five names are exactly the strings `ParseGenerationType` accepts. */
  lemma GenerationTypeNames(s: string)
    ensures ParseGenerationType(s).Some? <==> s in {"npc", "item", "location", "story", "quest"}
  {
  }

  datatype CampaignStatus = Active | Completed | Paused

  function CampaignStatusName(c: CampaignStatus): string {
    match c
    case Active => "active"
    case Completed => "completed"
    case Paused => "paused"
  }

  function ParseCampaignStatus(s: string): (r: Option<CampaignStatus>)
    ensures r.Some? ==> CampaignStatusName(r.value) == s
    ensures forall c: CampaignStatus :: s == CampaignStatusName(c) ==> r == Some(c)
  {
    if s == "active" then Some(Active)
    else if s == "completed" then Some(Completed)
    else if s == "paused" then Some(Paused)
    else None
  }
}
