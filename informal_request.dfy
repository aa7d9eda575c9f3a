/**
 * The informal-sector application wizard: the same three pages as the formal
 * one, fewer document lists, no payslips, no document checks on submit and a
 * strict "after today" repayment rule.
 */
module InformalRequest {
  import opened Wrappers
  import opened LoanTypes
  import opened GuarantorFields
  import opened LoanRequest

  datatype Documents = Documents(
    assets: seq<Asset>,
    homeFloorPhoto: seq<File>,
    shopPicture: seq<File>,
    mpesaStatements: seq<File>,
    callLogs: seq<File>)

  const NoDocuments := Documents([], [], [], [], [])

  datatype Uploader = HomeFloorPhotoUploader | ShopPictureUploader | MpesaStatementsUploader | CallLogsUploader

  function Replaced(d: Documents, uploader: Uploader, files: seq<File>): Documents {
    match uploader
    case HomeFloorPhotoUploader => d.(homeFloorPhoto := files)
    case ShopPictureUploader => d.(shopPicture := files)
    case MpesaStatementsUploader => d.(mpesaStatements := files)
    case CallLogsUploader => d.(callLogs := files)
  }

  /**
   * The field rules the form library checks before calling the submit handler:
   * an amount of at least 100, a repayment day after local midnight, and two
   * valid guarantors.
   */
  function FieldsValid(data: FormValues, clock: Clock): (valid: bool)
    ensures valid <==>
      && data.amountRequested.Some? && data.amountRequested.value >= MinAmount
      && data.repaymentDate.Some? && PickedInstant(data.repaymentDate.value) > TodayInstant(clock)
      && |data.guarantors| >= 2 && GuarantorValid(data.guarantors[0]) && GuarantorValid(data.guarantors[1])
  {
    && AmountError(data.amountRequested).None?
    && AfterTodayError(data.repaymentDate, clock).None?
    && GuarantorsValid(data.guarantors)
  }

  /**
   * On a clock at or west of UTC, today fails this flow's rule whatever else is
   * entered, although the formal rule accepts it on UTC.
   */
  lemma TodayRejected(data: FormValues, clock: Clock)
    requires IsUtcOffset(clock.offset) && clock.offset <= 0
    requires data.repaymentDate == Some(clock.today)
    ensures !FieldsValid(data, clock)
  {
    DateRulesByDay(clock.today, clock);
  }

  /**
   * The record handed to the submission call: the form values (sector and
   * bank-account flag at their defaults, "informal" and false) merged with the
   * document lists. This form has no bank-statement, payslip or proof-of-illness
   * input, so those fields stay absent.
   */
  function AssembleRecord(data: FormValues, d: Documents): (r: LoanFormData)
    requires data.amountRequested.Some? && data.repaymentDate.Some?
    ensures r.sector == Informal && !r.hasBankAccount
    ensures r.amountRequested == data.amountRequested.value && r.repaymentDate == data.repaymentDate.value
    ensures r.guarantors == data.guarantors && r.assets == d.assets
    ensures r.hasRetailBusiness == data.hasRetailBusiness
    ensures r.businessRegistrationNumber == data.businessRegistrationNumber && r.businessLocation == data.businessLocation
    ensures r.mpesaStatements == d.mpesaStatements && r.callLogs == d.callLogs
    ensures r.bankStatements.None? && r.bankStatementPassword.None?
    ensures r.salaryPayslips.None? && r.payslipPasswords.None? && r.proofOfIllness.None?
    ensures r.mpesaStatementPassword.Some? ==> d.mpesaStatements != []
    ensures d.mpesaStatements != [] ==> r.mpesaStatementPassword == data.mpesaStatementPassword
    ensures r.shopPicture.Some? <==> data.hasRetailBusiness && d.shopPicture != []
    ensures r.shopPicture.Some? ==> r.shopPicture.value == d.shopPicture[0]
    ensures r.homeFloorPhoto.Some? <==> d.homeFloorPhoto != []
    ensures r.homeFloorPhoto.Some? ==> r.homeFloorPhoto.value == d.homeFloorPhoto[0]
  {
    LoanFormData(
      sector := Informal,
      amountRequested := data.amountRequested.value,
      repaymentDate := data.repaymentDate.value,
      hasBankAccount := false,
      bankStatements := None,
      bankStatementPassword := None,
      hasRetailBusiness := data.hasRetailBusiness,
      businessRegistrationNumber := data.businessRegistrationNumber,
      businessLocation := data.businessLocation,
      guarantors := data.guarantors,
      assets := d.assets,
      homeFloorPhoto := FirstFile(d.homeFloorPhoto),
      proofOfIllness := None,
      shopPicture := if data.hasRetailBusiness then FirstFile(d.shopPicture) else None,
      mpesaStatements := d.mpesaStatements,
      mpesaStatementPassword := if |d.mpesaStatements| > 0 then data.mpesaStatementPassword else None,
      callLogs := d.callLogs,
      salaryPayslips := None,
      payslipPasswords := None)
  }

  class InformalWizard {
    var step: int
    var assets: seq<Asset>
    var homeFloorPhoto: seq<File>
    var shopPicture: seq<File>
    var mpesaStatements: seq<File>
    var callLogs: seq<File>
    var isSubmitting: bool

    ghost predicate Valid()
      reads this
    {
      0 <= step < |StepLabels|
    }

    function Docs(): (d: Documents)
      reads this
    {
      Documents(assets, homeFloorPhoto, shopPicture, mpesaStatements, callLogs)
    }

    constructor ()
      ensures Valid() && step == 0 && !isSubmitting && Docs() == NoDocuments
      ensures !SubmitButtonDisabled()
    {
      step := 0;
      assets, homeFloorPhoto, shopPicture, mpesaStatements, callLogs := [], [], [], [], [];
      isSubmitting := false;
    }

    /** "Continue" on the requirements page. */
    method StartApplication()
      requires Valid() && step == 0
      modifies this`step
      ensures Valid() && StepMove(old(step), step) && step == 1
    {
      step := 1;
    }

    /** "Back" on the documents page. */
    method BackToRequirements()
      requires Valid() && step == 1
      modifies this`step
      ensures Valid() && StepMove(old(step), step) && step == 0
    {
      step := 0;
    }

    /** "Continue" on the documents page. */
    method ContinueToDetails()
      requires Valid() && step == 1
      modifies this`step
      ensures Valid() && StepMove(old(step), step) && step == 2
    {
      step := 2;
    }

    /** "Back" on the loan details page. */
    method BackToDocuments()
      requires Valid() && step == 2
      modifies this`step
      ensures Valid() && StepMove(old(step), step) && step == 1
    {
      step := 1;
    }

    /** The asset input's change handler; `selected` is `e.target.files`, possibly null. */
    method AddAssets(selected: Option<seq<File>>)
      requires Valid()
      modifies this`assets
      ensures Valid()
      ensures selected.None? ==> assets == old(assets)
      ensures selected.Some? ==> assets == old(assets) + NewAssets(selected.value)
    {
      if selected.Some? {
        var newAssets := NewAssets(selected.value);
        assets := assets + newAssets;
      }
    }

    /** The remove button on the preview of asset `idx`. */
    method RemoveAsset(idx: nat)
      requires Valid() && idx < |assets|
      modifies this`assets
      ensures Valid()
      ensures assets == WithoutIndex(old(assets), idx)
    {
      assets := WithoutIndex(assets, idx);
    }

    /** The change handler of a document uploader. */
    method ReplaceDocuments(uploader: Uploader, files: seq<File>)
      requires Valid()
      modifies this`homeFloorPhoto, this`shopPicture, this`mpesaStatements, this`callLogs
      ensures Valid()
      ensures Docs() == Replaced(old(Docs()), uploader, files)
    {
      match uploader
      case HomeFloorPhotoUploader => homeFloorPhoto := files;
      case ShopPictureUploader => shopPicture := files;
      case MpesaStatementsUploader => mpesaStatements := files;
      case CallLogsUploader => callLogs := files;
    }

    /** The submit button's `disabled` expression: the document lists play no part. */
    function SubmitButtonDisabled(): (disabled: bool)
      reads this
      ensures disabled <==> isSubmitting
    {
      isSubmitting
    }

    /**
     * The submit handler up to the network call: once the field rules pass it
     * always raises the flag and sends, whatever the document lists hold.
     */
    method StartSubmit(data: FormValues, clock: Clock) returns (r: SubmitStart)
      requires Valid() && step == 2
      modifies this`isSubmitting
      ensures Valid()
      ensures !FieldsValid(data, clock) ==> r == NotValid && isSubmitting == old(isSubmitting)
      ensures FieldsValid(data, clock) ==> r == Sending(AssembleRecord(data, Docs())) && isSubmitting
      ensures r.Sending? ==> SubmitButtonDisabled()
    {
      if !FieldsValid(data, clock) {
        return NotValid;
      }
      isSubmitting := true;
      r := Sending(AssembleRecord(data, Docs()));
    }

    /** The rest of the handler once the call settles: the `finally` clears the flag. */
    method FinishSubmit(response: SubmitResponse) returns (e: SubmitEnd)
      requires Valid()
      modifies this`isSubmitting
      ensures Valid() && !isSubmitting && !SubmitButtonDisabled()
      ensures e == SubmitEndFor(response)
    {
      e := SubmitEndFor(response);
      isSubmitting := false;
    }
  }
}
