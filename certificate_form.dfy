/**
 * The new-certificate page: the form's schema and its submit handler, which
 * checks the cached balance, inserts the certificate and then debits its
 * flat cost through `update_user_credits`.
 */
module CertificateForm {
  import opened Js
  import opened Types
  import opened Ledger
  import opened Tables
  import opened Forms
  import Credits

  /** The form's values as submitted; any of them may be missing. */
  datatype CertificateInput = CertificateInput(
    title: Option<string>, playerName: Option<string>, characterName: Option<string>,
    achievement: Option<string>, description: Option<string>, template: Option<string>,
    isPublic: Option<bool>)

  /** The values once the schema accepts them. */
  datatype CertificateData = CertificateData(
    title: string, playerName: string, characterName: Option<string>,
    achievement: string, description: Option<string>, template: string, isPublic: bool)

  const TITLE_TOO_SHORT := "O título deve ter no mínimo 3 caracteres"
  const PLAYER_TOO_SHORT := "O nome do jogador deve ter no mínimo 2 caracteres"
  const ACHIEVEMENT_TOO_SHORT := "A conquista deve ter no mínimo 10 caracteres"

  /** What the schema demands of accepted values. */
  predicate Acceptable(d: CertificateData) {
    |d.title| >= 3 && |d.playerName| >= 2 && |d.achievement| >= 10
  }

  /**
   * `certificateSchema`: title of at least 3 characters, player name of at
   * least 2, achievement of at least 10; the character name and description
   * are optional; the template defaults to "classic" and visibility to private.
   */
  function ValidateCertificate(input: CertificateInput): (r: Result<CertificateData, seq<Issue>>)
    ensures r.Success? <==>
      && input.title.Some? && |input.title.value| >= 3
      && input.playerName.Some? && |input.playerName.value| >= 2
      && input.achievement.Some? && |input.achievement.value| >= 10
    ensures r.Success? ==>
      && Acceptable(r.value)
      && r.value.title == input.title.value && r.value.playerName == input.playerName.value
      && r.value.achievement == input.achievement.value
      && r.value.characterName == input.characterName && r.value.description == input.description
      && r.value.template == input.template.GetOr("classic") && r.value.isPublic == input.isPublic.GetOr(false)
    ensures r.Failure? ==> 1 <= |r.error| <= 3
    ensures r.Failure? ==> forall i :: 0 <= i < |r.error| ==> r.error[i].path in {"title", "playerName", "achievement"}
  {
    var issues := MinLengthIssues("title", input.title, 3, TITLE_TOO_SHORT)
      + MinLengthIssues("playerName", input.playerName, 2, PLAYER_TOO_SHORT)
      + MinLengthIssues("achievement", input.achievement, 10, ACHIEVEMENT_TOO_SHORT);
    if issues != [] then Failure(issues)
    else Success(CertificateData(
      input.title.value, input.playerName.value, input.characterName,
      input.achievement.value, input.description, input.template.GetOr("classic"), input.isPublic.GetOr(false)))
  }

  /** The form values that submit exactly `d`. */
  function AsInput(d: CertificateData): CertificateInput {
    CertificateInput(Some(d.title), Some(d.playerName), d.characterName, Some(d.achievement),
                     d.description, Some(d.template), Some(d.isPublic))
  }

  /** Accepted values submitted again are accepted unchanged. */
  lemma ValidateAsInput(d: CertificateData)
    requires Acceptable(d)
    ensures ValidateCertificate(AsInput(d)) == Success(d)
  {
  }

  /** The form's initial values fail on the three required fields, in schema order. */
  lemma EmptyFormRejected()
    ensures ValidateCertificate(CertificateInput(Some(""), Some(""), Some(""), Some(""), Some(""), Some("classic"), Some(false)))
         == Failure([Issue("title", TITLE_TOO_SHORT), Issue("playerName", PLAYER_TOO_SHORT),
                     Issue("achievement", ACHIEVEMENT_TOO_SHORT)])
  {
    assert MinLengthIssues("title", Some(""), 3, TITLE_TOO_SHORT) == [Issue("title", TITLE_TOO_SHORT)];
    assert MinLengthIssues("playerName", Some(""), 2, PLAYER_TOO_SHORT) == [Issue("playerName", PLAYER_TOO_SHORT)];
    assert MinLengthIssues("achievement", Some(""), 10, ACHIEVEMENT_TOO_SHORT) == [Issue("achievement", ACHIEVEMENT_TOO_SHORT)];
    var issues := [Issue("title", TITLE_TOO_SHORT)] + [Issue("playerName", PLAYER_TOO_SHORT)] + [Issue("achievement", ACHIEVEMENT_TOO_SHORT)];
    assert issues == [Issue("title", TITLE_TOO_SHORT), Issue("playerName", PLAYER_TOO_SHORT), Issue("achievement", ACHIEVEMENT_TOO_SHORT)];
  }

  /** One row of `certificates` as inserted. */
  datatype CertificateRow = CertificateRow(
    userId: UserId, title: string, playerName: string, characterName: Option<string>,
    achievement: string, description: Option<string>, template: string, isPublic: bool)

  /** The inserted row: empty optional texts are stored as null, the rest is copied. */
  function RowFor(userId: UserId, d: CertificateData): (row: CertificateRow)
    ensures row.characterName.Some? <==> TruthyString(d.characterName)
    ensures row.description.Some? <==> TruthyString(d.description)
    ensures row.characterName.Some? ==> row.characterName == d.characterName
    ensures row.description.Some? ==> row.description == d.description
    ensures (row.userId, row.title, row.playerName, row.achievement, row.template, row.isPublic)
         == (userId, d.title, d.playerName, d.achievement, d.template, d.isPublic)
  {
    CertificateRow(userId, d.title, d.playerName, OrNull(d.characterName), d.achievement,
                   OrNull(d.description), d.template, d.isPublic)
  }

  /** The debit recorded for a created certificate. */
  function DebitFor(userId: UserId, d: CertificateData, certificateId: string): Transaction {
    Transaction(userId, -(Credits.CERTIFICATE_COST as int), CertificateCreation,
                "Criação de certificado: " + d.title, Some(certificateId))
  }

  const NOT_LOGGED_IN := ErrorToast("Você precisa estar logado", None)
  const INSUFFICIENT := ErrorToast("Créditos insuficientes", Some("Você precisa de 5 créditos para criar um certificado"))
  const CREATE_FAILED := ErrorToast("Erro ao criar certificado", Some("Tente novamente mais tarde"))
  const CREATED := SuccessToast("Certificado criado com sucesso!", Some("5 créditos foram debitados"))

  /** The page's own state: the loading flag and what it has shown and where it has gone. */
  class NewCertificatePage {
    var loading: bool
    /** Every value the loading flag has been set to, in order. */
    var loadingUpdates: seq<bool>
    var toasts: seq<Toast>
    var navigations: seq<string>

    constructor ()
      ensures !loading && loadingUpdates == [] && toasts == [] && navigations == []
    {
      loading := false;
      loadingUpdates := [];
      toasts := [];
      navigations := [];
    }

    /**
     * `onSubmit(data)`, with the signed-in user, the balance the page holds,
     * and the outcomes of the insert and of the debit.
     */
    method OnSubmit(
      data: CertificateData, user: Option<UserId>, credits: int,
      certificates: Table<CertificateRow>, ledger: Ledger, insert: InsertOutcome, debit: CallOutcome)
      requires ledger.Valid()
      modifies this, certificates, ledger
      ensures ledger.Valid()
      // turned away before anything is written
      ensures user.None? ==>
        && toasts == old(toasts) + [NOT_LOGGED_IN]
        && loading == old(loading) && loadingUpdates == old(loadingUpdates) && navigations == old(navigations)
        && certificates.rows == old(certificates.rows) && ledger.State() == old(ledger.State())
      ensures user.Some? && credits < Credits.CERTIFICATE_COST ==>
        && toasts == old(toasts) + [INSUFFICIENT]
        && loading == old(loading) && loadingUpdates == old(loadingUpdates) && navigations == old(navigations)
        && certificates.rows == old(certificates.rows) && ledger.State() == old(ledger.State())
      // otherwise the flag goes up and comes down again, whatever happens
      ensures user.Some? && credits >= Credits.CERTIFICATE_COST ==>
        && loadingUpdates == old(loadingUpdates) + [true, false] && !loading
      // a failed insert leaves the ledger alone
      ensures user.Some? && credits >= Credits.CERTIFICATE_COST && insert.InsertFailed? ==>
        && certificates.rows == old(certificates.rows) && ledger.State() == old(ledger.State())
        && toasts == old(toasts) + [CREATE_FAILED] && navigations == old(navigations)
      // a saved certificate is debited once, and stays even when the debit fails
      ensures user.Some? && credits >= Credits.CERTIFICATE_COST && insert.Inserted? ==>
        var tx := DebitFor(user.value, data, insert.id);
        && certificates.rows == old(certificates.rows) + [(insert.id, RowFor(user.value, data))]
        && ledger.State() == Call(old(ledger.State()), tx, debit).0
        && (Call(old(ledger.State()), tx, debit).1 == RpcOk ==>
              toasts == old(toasts) + [CREATED] && navigations == old(navigations) + ["/dashboard/certificates"])
        && (Call(old(ledger.State()), tx, debit).1 != RpcOk ==>
              toasts == old(toasts) + [CREATE_FAILED] && navigations == old(navigations))
    {
      if user.None? {
        toasts := toasts + [NOT_LOGGED_IN];
        return;
      }
      if credits < Credits.CERTIFICATE_COST {
        toasts := toasts + [INSUFFICIENT];
        return;
      }
      loading, loadingUpdates := true, loadingUpdates + [true];

      var id := certificates.Insert(RowFor(user.value, data), insert);
      if id.None? {
        toasts := toasts + [CREATE_FAILED];
      } else {
        var tx := DebitFor(user.value, data, id.value);
        var reply := ledger.UpdateUserCredits(tx.userId, tx.amount, tx.kind, tx.description, tx.referenceId, debit);
        if reply != RpcOk {
          toasts := toasts + [CREATE_FAILED];
        } else {
          toasts := toasts + [CREATED];
          navigations := navigations + ["/dashboard/certificates"];
        }
      }

      // finally
      loading, loadingUpdates := false, loadingUpdates + [false];
    }
  }
}
