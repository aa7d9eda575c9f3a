/**
 * The formal-sector application wizard: three pages, the document lists kept
 * beside the form library, one password per salary payslip, and a submit
 * handler that checks the document lists in a fixed order before sending.
 */
module FormalRequest {
  import opened Wrappers
  import opened JsText
  import opened LoanTypes
  import opened GuarantorFields
  import opened LoanRequest

  /** The wizard's document lists at one moment, as one value. */
  datatype Documents = Documents(
    assets: seq<Asset>,
    homeFloorPhoto: seq<File>,
    bankStatements: seq<File>,
    salaryPayslips: seq<File>,
    payslipPasswords: seq<string>,
    proofOfIllness: seq<File>,
    shopPicture: seq<File>,
    mpesaStatements: seq<File>,
    callLogs: seq<File>)

  const NoDocuments := Documents([], [], [], [], [], [], [], [], [])

  /** The uploaders whose change handler replaces their list outright. */
  datatype Uploader =
    | HomeFloorPhotoUploader
    | BankStatementsUploader
    | ProofOfIllnessUploader
    | ShopPictureUploader
    | MpesaStatementsUploader
    | CallLogsUploader

  /** The lists after `uploader` reported `files`; every other list is untouched. */
  function Replaced(d: Documents, uploader: Uploader, files: seq<File>): Documents {
    match uploader
    case HomeFloorPhotoUploader => d.(homeFloorPhoto := files)
    case BankStatementsUploader => d.(bankStatements := files)
    case ProofOfIllnessUploader => d.(proofOfIllness := files)
    case ShopPictureUploader => d.(shopPicture := files)
    case MpesaStatementsUploader => d.(mpesaStatements := files)
    case CallLogsUploader => d.(callLogs := files)
  }

  /** One password slot per payslip. */
  predicate PasswordsAligned(d: Documents) {
    |d.payslipPasswords| == |d.salaryPayslips|
  }

  // ----- payslip passwords -----

  /**
   * `newFiles.map((_, idx) => prev[idx] || "")`: a slot for every new file,
   * keeping the password typed at the same position and padding with "".
   */
  function ResyncPasswords(prev: seq<string>, newFiles: seq<File>): (r: seq<string>)
    ensures |r| == |newFiles|
    ensures forall i :: 0 <= i < |r| && i < |prev| ==> r[i] == prev[i]
    ensures forall i :: |prev| <= i < |r| ==> r[i] == ""
  {
    var r := seq(|newFiles|, i requires 0 <= i < |newFiles| =>
      OrElse(if i < |prev| then Some(prev[i]) else None, ""));
    assert forall i :: |prev| <= i < |r| ==> r[i] == OrElse(None, "");
    r
  }

  /** Choosing as many files as before keeps every password typed so far. */
  lemma ResyncSameCountKeepsAll(prev: seq<string>, newFiles: seq<File>)
    requires |newFiles| == |prev|
    ensures ResyncPasswords(prev, newFiles) == prev
  {
  }

  /** Resynchronising twice against the same files changes nothing more. */
  lemma ResyncIdempotent(prev: seq<string>, files: seq<File>)
    ensures ResyncPasswords(ResyncPasswords(prev, files), files) == ResyncPasswords(prev, files)
  {
  }

  /**
   * A password dropped by a shorter selection does not come back when the list
   * grows again: the regained slots are empty.
   */
  lemma ShrinkThenGrowForgets(prev: seq<string>, fewer: seq<File>, more: seq<File>)
    requires |fewer| <= |prev| && |fewer| <= |more|
    ensures forall i :: |fewer| <= i < |more| ==> ResyncPasswords(ResyncPasswords(prev, fewer), more)[i] == ""
    ensures ResyncPasswords(ResyncPasswords(prev, fewer), more)[..|fewer|] == prev[..|fewer|]
  {
  }

  // ----- the submit gate -----

  const MinAssets := 3
  const AssetsMessage := "Please upload at least 3 asset pictures"
  const HomeFloorMessage := "Please upload a photo of your home floor"
  const BankStatementsMessage := "Please upload 6 months of bank statements"
  const PayslipsMessage := "Please upload 6 months of salary payslips"

  /**
   * The document checks of the submit handler, in order: the message of the
   * first that fails, or nothing when all pass.
   */
  function DocumentCheck(d: Documents): (r: Option<string>)
    ensures r.None? <==> |d.assets| >= MinAssets && d.homeFloorPhoto != [] && d.bankStatements != [] && d.salaryPayslips != []
    ensures r == Some(AssetsMessage) <==> |d.assets| < MinAssets
    ensures r == Some(HomeFloorMessage) <==> |d.assets| >= MinAssets && d.homeFloorPhoto == []
    ensures r == Some(BankStatementsMessage) <==> |d.assets| >= MinAssets && d.homeFloorPhoto != [] && d.bankStatements == []
    ensures r == Some(PayslipsMessage) <==>
      |d.assets| >= MinAssets && d.homeFloorPhoto != [] && d.bankStatements != [] && d.salaryPayslips == []
  {
    if |d.assets| < MinAssets then Some(AssetsMessage)
    else if |d.homeFloorPhoto| == 0 then Some(HomeFloorMessage)
    else if |d.bankStatements| == 0 then Some(BankStatementsMessage)
    else if |d.salaryPayslips| == 0 then Some(PayslipsMessage)
    else None
  }

  /**
   * The submit button's `disabled` expression: while a submission is in
   * flight, or while the handler's document checks would fail even with a
   * home photo present.
   */
  function SubmitDisabled(isSubmitting: bool, d: Documents): (disabled: bool)
    ensures forall photo: File :: disabled <==> isSubmitting || DocumentCheck(d.(homeFloorPhoto := [photo])).Some?
  {
    isSubmitting || |d.assets| < MinAssets || |d.bankStatements| == 0 || |d.salaryPayslips| == 0
  }

  /** When every document check passes, only an in-flight submission disables the button. */
  lemma ChecksPassEnableSubmit(isSubmitting: bool, d: Documents)
    requires DocumentCheck(d).None?
    ensures SubmitDisabled(isSubmitting, d) <==> isSubmitting
  {
  }

  /** A button disabled for want of documents guards a handler that would refuse them anyway. */
  lemma DisabledForDocumentsIsBlocked(d: Documents)
    requires SubmitDisabled(false, d)
    ensures DocumentCheck(d).Some?
  {
  }

  /**
   * The home photo is not part of the button's condition: with it missing and
   * everything else present the button is enabled and the handler refuses.
   */
  lemma HomePhotoOnlyCheckedOnSubmit(d: Documents)
    requires |d.assets| >= MinAssets && d.bankStatements != [] && d.salaryPayslips != []
    requires d.homeFloorPhoto == []
    ensures !SubmitDisabled(false, d)
    ensures DocumentCheck(d) == Some(HomeFloorMessage)
  {
  }

  // ----- field rules and the assembled record -----

  /**
   * The field rules the form library checks before calling the submit handler:
   * an amount of at least 100, a repayment day not before local midnight, and
   * two valid guarantors.
   */
  function FieldsValid(data: FormValues, clock: Clock): (valid: bool)
    ensures valid <==>
      && data.amountRequested.Some? && data.amountRequested.value >= MinAmount
      && data.repaymentDate.Some? && PickedInstant(data.repaymentDate.value) >= TodayInstant(clock)
      && |data.guarantors| >= 2 && GuarantorValid(data.guarantors[0]) && GuarantorValid(data.guarantors[1])
  {
    && AmountError(data.amountRequested).None?
    && OnOrAfterTodayError(data.repaymentDate, clock).None?
    && GuarantorsValid(data.guarantors)
  }

  /**
   * The record handed to the submission call: the form values (sector and
   * bank-account flag stay at their defaults, "formal" and true) merged with
   * the document lists.
   */
  function AssembleRecord(data: FormValues, d: Documents): (r: LoanFormData)
    requires data.amountRequested.Some? && data.repaymentDate.Some?
    ensures r.sector == Formal && r.hasBankAccount
    ensures r.amountRequested == data.amountRequested.value && r.repaymentDate == data.repaymentDate.value
    ensures r.guarantors == data.guarantors && r.assets == d.assets
    ensures r.hasRetailBusiness == data.hasRetailBusiness
    ensures r.businessRegistrationNumber == data.businessRegistrationNumber && r.businessLocation == data.businessLocation
    ensures r.bankStatements == Some(d.bankStatements)
    ensures r.bankStatementPassword.Some? ==> d.bankStatements != []
    ensures d.bankStatements != [] ==> r.bankStatementPassword == data.bankStatementPassword
    ensures r.mpesaStatementPassword.Some? ==> d.mpesaStatements != []
    ensures d.mpesaStatements != [] ==> r.mpesaStatementPassword == data.mpesaStatementPassword
    ensures r.shopPicture.Some? <==> data.hasRetailBusiness && d.shopPicture != []
    ensures r.shopPicture.Some? ==> r.shopPicture.value == d.shopPicture[0]
    ensures r.homeFloorPhoto.Some? <==> d.homeFloorPhoto != []
    ensures r.homeFloorPhoto.Some? ==> r.homeFloorPhoto.value == d.homeFloorPhoto[0]
    ensures r.proofOfIllness == FirstFile(d.proofOfIllness)
    ensures r.mpesaStatements == d.mpesaStatements && r.callLogs == d.callLogs
    ensures r.salaryPayslips == Some(d.salaryPayslips) && r.payslipPasswords == Some(d.payslipPasswords)
    ensures PasswordsAligned(d) ==> |r.payslipPasswords.value| == |r.salaryPayslips.value|
  {
    LoanFormData(
      sector := Formal,
      amountRequested := data.amountRequested.value,
      repaymentDate := data.repaymentDate.value,
      hasBankAccount := true,
      bankStatements := Some(d.bankStatements),
      bankStatementPassword := if |d.bankStatements| > 0 then data.bankStatementPassword else None,
      hasRetailBusiness := data.hasRetailBusiness,
      businessRegistrationNumber := data.businessRegistrationNumber,
      businessLocation := data.businessLocation,
      guarantors := data.guarantors,
      assets := d.assets,
      homeFloorPhoto := FirstFile(d.homeFloorPhoto),
      proofOfIllness := FirstFile(d.proofOfIllness),
      shopPicture := if data.hasRetailBusiness then FirstFile(d.shopPicture) else None,
      mpesaStatements := d.mpesaStatements,
      mpesaStatementPassword := if |d.mpesaStatements| > 0 then data.mpesaStatementPassword else None,
      callLogs := d.callLogs,
      salaryPayslips := Some(d.salaryPayslips),
      payslipPasswords := Some(d.payslipPasswords))
  }

  // ----- the component state -----

  class FormalWizard {
    var step: int
    var assets: seq<Asset>
    var homeFloorPhoto: seq<File>
    var bankStatements: seq<File>
    var salaryPayslips: seq<File>
    var proofOfIllness: seq<File>
    var shopPicture: seq<File>
    var mpesaStatements: seq<File>
    var callLogs: seq<File>
    var isSubmitting: bool
    var payslipPasswords: seq<string>

    /** The page index names one of the three pages; each payslip has its password slot. */
    ghost predicate Valid()
      reads this
    {
      0 <= step < |StepLabels| && PasswordsAligned(Docs())
    }

    function Docs(): (d: Documents)
      reads this
    {
      Documents(assets, homeFloorPhoto, bankStatements, salaryPayslips, payslipPasswords,
                proofOfIllness, shopPicture, mpesaStatements, callLogs)
    }

    constructor ()
      ensures Valid() && step == 0 && !isSubmitting && Docs() == NoDocuments
      ensures SubmitDisabled(isSubmitting, Docs())
    {
      step := 0;
      assets, homeFloorPhoto, bankStatements, salaryPayslips := [], [], [], [];
      proofOfIllness, shopPicture, mpesaStatements, callLogs := [], [], [], [];
      isSubmitting := false;
      payslipPasswords := [];
    }

    // --- navigation ---

    /** "Start Application" on the requirements page. */
    method StartApplication()
      requires Valid() && step == 0
      modifies this`step
      ensures Valid() && StepMove(old(step), step) && step == 1
    {
      step := 1;
    }

    /** "Back" on the documents page. */
    method BackToRequirements()
      requires Valid() && step == 1
      modifies this`step
      ensures Valid() && StepMove(old(step), step) && step == 0
    {
      step := 0;
    }

    /** "Continue" on the documents page. */
    method ContinueToDetails()
      requires Valid() && step == 1
      modifies this`step
      ensures Valid() && StepMove(old(step), step) && step == 2
    {
      step := 2;
    }

    /** "Back" on the loan details page. */
    method BackToDocuments()
      requires Valid() && step == 2
      modifies this`step
      ensures Valid() && StepMove(old(step), step) && step == 1
    {
      step := 1;
    }

    // --- documents ---

    /** The asset input's change handler; `selected` is `e.target.files`, possibly null. */
    method AddAssets(selected: Option<seq<File>>)
      requires Valid()
      modifies this`assets
      ensures Valid()
      ensures selected.None? ==> assets == old(assets)
      ensures selected.Some? ==> assets == old(assets) + NewAssets(selected.value)
    {
      if selected.Some? {
        var newAssets := NewAssets(selected.value);
        assets := assets + newAssets;
      }
    }

    /** The remove button on the preview of asset `idx`. */
    method RemoveAsset(idx: nat)
      requires Valid() && idx < |assets|
      modifies this`assets
      ensures Valid()
      ensures assets == WithoutIndex(old(assets), idx)
    {
      assets := WithoutIndex(assets, idx);
    }

    /** The change handler of a plain document uploader. */
    method ReplaceDocuments(uploader: Uploader, files: seq<File>)
      requires Valid()
      modifies this`homeFloorPhoto, this`bankStatements, this`proofOfIllness,
               this`shopPicture, this`mpesaStatements, this`callLogs
      ensures Valid()
      ensures Docs() == Replaced(old(Docs()), uploader, files)
    {
      match uploader
      case HomeFloorPhotoUploader => homeFloorPhoto := files;
      case BankStatementsUploader => bankStatements := files;
      case ProofOfIllnessUploader => proofOfIllness := files;
      case ShopPictureUploader => shopPicture := files;
      case MpesaStatementsUploader => mpesaStatements := files;
      case CallLogsUploader => callLogs := files;
    }

    /** The payslip uploader's handler: take the new list and resize the passwords to it. */
    method ChangePayslips(newFiles: seq<File>)
      requires Valid()
      modifies this`salaryPayslips, this`payslipPasswords
      ensures Valid()
      ensures salaryPayslips == newFiles
      ensures payslipPasswords == ResyncPasswords(old(payslipPasswords), newFiles)
    {
      salaryPayslips := newFiles;
      payslipPasswords := ResyncPasswords(payslipPasswords, newFiles);
    }

    /** Typing into the password box of payslip `idx`: copy the list, overwrite one slot. */
    method EditPayslipPassword(idx: nat, value: string)
      requires Valid() && idx < |salaryPayslips|
      modifies this`payslipPasswords
      ensures Valid()
      ensures |payslipPasswords| == |old(payslipPasswords)| && payslipPasswords[idx] == value
      ensures forall i :: 0 <= i < |payslipPasswords| && i != idx ==> payslipPasswords[i] == old(payslipPasswords)[i]
    {
      var updated := new string[|payslipPasswords|](i requires 0 <= i < |payslipPasswords| reads this => payslipPasswords[i]);
      updated[idx] := value;
      payslipPasswords := updated[..];
    }

    // --- submission ---

    /**
     * The submit handler up to the network call: the form library's field
     * rules, then the document checks in order, then the in-flight flag and
     * the record.
     */
    method StartSubmit(data: FormValues, clock: Clock) returns (r: SubmitStart)
      requires Valid() && step == 2
      modifies this`isSubmitting
      ensures Valid()
      ensures !FieldsValid(data, clock) ==> r == NotValid && isSubmitting == old(isSubmitting)
      ensures FieldsValid(data, clock) && DocumentCheck(Docs()).Some? ==>
        r == Blocked(DocumentCheck(Docs()).value) && isSubmitting == old(isSubmitting)
      ensures FieldsValid(data, clock) && DocumentCheck(Docs()).None? ==>
        r == Sending(AssembleRecord(data, Docs())) && isSubmitting
      ensures r.Sending? ==> SubmitDisabled(isSubmitting, Docs())
    {
      if !FieldsValid(data, clock) {
        return NotValid;
      }
      if |assets| < MinAssets {
        return Blocked(AssetsMessage);
      }
      if |homeFloorPhoto| == 0 {
        return Blocked(HomeFloorMessage);
      }
      if |bankStatements| == 0 {
        return Blocked(BankStatementsMessage);
      }
      if |salaryPayslips| == 0 {
        return Blocked(PayslipsMessage);
      }
      isSubmitting := true;
      r := Sending(AssembleRecord(data, Docs()));
    }

    /** The rest of the handler once the call settles: the `finally` clears the flag. */
    method FinishSubmit(response: SubmitResponse) returns (e: SubmitEnd)
      requires Valid()
      modifies this`isSubmitting
      ensures Valid() && !isSubmitting
      ensures e == SubmitEndFor(response)
      ensures DocumentCheck(Docs()).None? ==> !SubmitDisabled(isSubmitting, Docs())
    {
      e := SubmitEndFor(response);
      isSubmitting := false;
    }
  }
}
