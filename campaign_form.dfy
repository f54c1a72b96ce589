/**
 * The new-campaign page: the form's schema and its submit handler, which
 * inserts the campaign. Creating a campaign costs nothing.
 */
module CampaignForm {
  import opened Js
  import opened Types
  import opened Tables
  import opened Forms

  /** The form's values as submitted; any of them may be missing. */
  datatype CampaignInput = CampaignInput(
    name: Option<string>, system: Option<string>, description: Option<string>, status: Option<string>)

  /** The values once the schema accepts them. */
  datatype CampaignData = CampaignData(
    name: string, system: Option<string>, description: Option<string>, status: CampaignStatus)

  const NAME_TOO_SHORT := "O nome deve ter no mínimo 3 caracteres"

  /** The message of a value outside the status enumeration. */
  function StatusMessage(received: string): string {
    "Invalid enum value. Expected 'active' | 'completed' | 'paused', received '" + received + "'"
  }

  /** `z.enum(["active", "completed", "paused"]).default("active")`. */
  function StatusIssues(status: Option<string>): (issues: seq<Issue>)
    ensures issues == [] <==> status.None? || ParseCampaignStatus(status.value).Some?
    ensures issues != [] ==> issues == [Issue("status", StatusMessage(status.value))]
  {
    if status.None? || ParseCampaignStatus(status.value).Some? then []
    else [Issue("status", StatusMessage(status.value))]
  }

  /**
   * `campaignSchema`: a name of at least 3 characters, optional system and
   * description, and a status among the three, "active" when missing.
   */
  function ValidateCampaign(input: CampaignInput): (r: Result<CampaignData, seq<Issue>>)
    ensures r.Success? <==>
      && input.name.Some? && |input.name.value| >= 3
      && (input.status.None? || ParseCampaignStatus(input.status.value).Some?)
    ensures r.Success? ==>
      && r.value.name == input.name.value
      && r.value.system == input.system && r.value.description == input.description
      && (input.status.None? ==> r.value.status == Active)
      && (input.status.Some? ==> CampaignStatusName(r.value.status) == input.status.value)
    ensures r.Failure? ==> 1 <= |r.error| <= 2
  {
    var issues := MinLengthIssues("name", input.name, 3, NAME_TOO_SHORT) + StatusIssues(input.status);
    if issues != [] then Failure(issues)
    else
      var status := if input.status.None? then Active else ParseCampaignStatus(input.status.value).value;
      Success(CampaignData(input.name.value, input.system, input.description, status))
  }

  /** The form values that submit exactly `d`. */
  function AsInput(d: CampaignData): CampaignInput {
    CampaignInput(Some(d.name), d.system, d.description, Some(CampaignStatusName(d.status)))
  }

  /** Accepted values submitted again are accepted unchanged. */
  lemma ValidateAsInput(d: CampaignData)
    requires |d.name| >= 3
    ensures ValidateCampaign(AsInput(d)) == Success(d)
  {
  }

  /** One row of `campaigns` as inserted. */
  datatype CampaignRow = CampaignRow(
    userId: UserId, name: string, system: Option<string>, description: Option<string>, status: string)

  /** The inserted row: empty optional texts are stored as null; name and status pass through. */
  function RowFor(userId: UserId, d: CampaignData): (row: CampaignRow)
    ensures row.system.Some? <==> TruthyString(d.system)
    ensures row.description.Some? <==> TruthyString(d.description)
    ensures row.system.Some? ==> row.system == d.system
    ensures row.description.Some? ==> row.description == d.description
    ensures row.userId == userId && row.name == d.name && ParseCampaignStatus(row.status) == Some(d.status)
  {
    CampaignRow(userId, d.name, OrNull(d.system), OrNull(d.description), CampaignStatusName(d.status))
  }

  const NOT_LOGGED_IN := ErrorToast("Você precisa estar logado", None)
  const CREATE_FAILED := ErrorToast("Erro ao criar campanha", Some("Tente novamente mais tarde"))
  const CREATED := SuccessToast("Campanha criada com sucesso!", None)

  class NewCampaignPage {
    var loading: bool
    /** Every value the loading flag has been set to, in order. */
    var loadingUpdates: seq<bool>
    var toasts: seq<Toast>
    var navigations: seq<string>

    constructor ()
      ensures !loading && loadingUpdates == [] && toasts == [] && navigations == []
    {
      loading := false;
      loadingUpdates := [];
      toasts := [];
      navigations := [];
    }

    /** `onSubmit(data)`, with the signed-in user and the insert's outcome; no ledger is in reach. */
    method OnSubmit(data: CampaignData, user: Option<UserId>, campaigns: Table<CampaignRow>, insert: InsertOutcome)
      modifies this, campaigns
      ensures user.None? ==>
        && toasts == old(toasts) + [NOT_LOGGED_IN]
        && loading == old(loading) && loadingUpdates == old(loadingUpdates) && navigations == old(navigations)
        && campaigns.rows == old(campaigns.rows)
      ensures user.Some? ==> loadingUpdates == old(loadingUpdates) + [true, false] && !loading
      ensures user.Some? && insert.InsertFailed? ==>
        && campaigns.rows == old(campaigns.rows)
        && toasts == old(toasts) + [CREATE_FAILED] && navigations == old(navigations)
      ensures user.Some? && insert.Inserted? ==>
        && campaigns.rows == old(campaigns.rows) + [(insert.id, RowFor(user.value, data))]
        && toasts == old(toasts) + [CREATED] && navigations == old(navigations) + ["/dashboard/campaigns"]
    {
      if user.None? {
        toasts := toasts + [NOT_LOGGED_IN];
        return;
      }
      loading, loadingUpdates := true, loadingUpdates + [true];

      var id := campaigns.Insert(RowFor(user.value, data), insert);
      if id.None? {
        toasts := toasts + [CREATE_FAILED];
      } else {
        toasts := toasts + [CREATED];
        navigations := navigations + ["/dashboard/campaigns"];
      }

      // finally
      loading, loadingUpdates := false, loadingUpdates + [false];
    }
  }
}
