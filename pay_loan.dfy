/**
 * The loan-payment page: one card per active loan, and a payment dialog that
 * is prefilled with the loan's total, simulates a payment and then resets.
 */
module PayLoan {
  import opened Wrappers
  import opened JsText
  import opened LoanTypes

  /** The page's fixed list of loans; dates are days since 1970-01-01. */
  const ActiveLoansData: seq<Loan> := [
    Loan("LOAN-001", 5000, 750, 19797, Active, Formal, 19737),
    Loan("LOAN-002", 2500, 375, 19781, Overdue, Informal, 19692),
    Loan("LOAN-003", 7500, 1125, 19823, Active, Formal, 19763)
  ]

  /** The line under the due date: days overdue (as a positive count) or days remaining. */
  datatype DueNote = DaysOverdue(days: nat) | DaysRemaining(days: nat)

  /** What one loan's card shows. */
  datatype LoanCard = LoanCard(
    total: int,
    overdueStyle: bool,
    badgeText: string,
    overdueBadge: bool,
    dueNote: DueNote,
    payLabel: string)

  /**
   * A loan's card, given the whole days until its due date: the red styling
   * and the due note follow the days, the badge follows the status alone.
   */
  function Card(loan: Loan, daysUntilDue: int): (c: LoanCard)
    ensures c.total == LoanTotal(loan)
    ensures c.overdueStyle <==> daysUntilDue < 0
    ensures c.overdueBadge <==> loan.status == Overdue
    ensures c.badgeText == (if loan.status == Overdue then "Overdue" else "Active")
    ensures c.dueNote.DaysOverdue? <==> daysUntilDue < 0
    ensures c.dueNote.DaysOverdue? ==> c.dueNote.days > 0 && c.dueNote.days == -daysUntilDue
    ensures c.dueNote.DaysRemaining? ==> c.dueNote.days == daysUntilDue
    ensures c.payLabel == (if daysUntilDue < 0 then "Pay Overdue" else "Pay Now")
  {
    var isOverdue := daysUntilDue < 0;
    LoanCard(
      loan.principal + loan.interest,
      isOverdue,
      if loan.status == Overdue then "Overdue" else "Active",
      loan.status == Overdue,
      if isOverdue then DaysOverdue(-daysUntilDue) else DaysRemaining(daysUntilDue),
      if isOverdue then "Pay Overdue" else "Pay Now")
  }

  /** Of the page's own loans, only LOAN-002 carries the "Overdue" badge, whatever its due date. */
  lemma OnlyLoan002BadgedOverdue(daysUntilDue: int)
    ensures forall i :: 0 <= i < |ActiveLoansData| ==>
      (Card(ActiveLoansData[i], daysUntilDue).badgeText == "Overdue" <==> ActiveLoansData[i].id == "LOAN-002")
  {
  }

  /** The badge never looks at the due date ... */
  lemma BadgeIgnoresDueDate(loan: Loan, d1: int, d2: int)
    ensures Card(loan, d1).overdueBadge == Card(loan, d2).overdueBadge
    ensures Card(loan, d1).badgeText == Card(loan, d2).badgeText
  {
  }

  /** ... so a loan past its due date whose status is still "active" is styled overdue under an "Active" badge. */
  lemma StyleAndBadgeDisagree(loan: Loan, daysUntilDue: int)
    requires loan.status == Active && daysUntilDue < 0
    ensures Card(loan, daysUntilDue).overdueStyle && Card(loan, daysUntilDue).badgeText == "Active"
  {
  }

  /** The amount the dialog is prefilled with: `(principal + interest).toString()`. */
  function PrefilledAmount(loan: Loan): (amount: string)
    ensures amount != ""
    ensures ParseInt(amount) == Some(LoanTotal(loan))
  {
    IntToStringRoundTrip(LoanTotal(loan));
    IntToString(loan.principal + loan.interest)
  }

  /** The loan and the amount a payment was started with, as the handler captured them. */
  datatype PaymentRequest = PaymentRequest(loanId: string, amount: string)

  const SuccessPrefix := "Payment of $"
  const SuccessInfix := " processed successfully for loan "

  /** The alert after a payment: it names the captured amount, then the captured loan. */
  function SuccessMessage(p: PaymentRequest): (message: string)
    ensures |message| == |SuccessPrefix| + |p.amount| + |SuccessInfix| + |p.loanId|
    ensures message[..|SuccessPrefix|] == SuccessPrefix
    ensures message[|SuccessPrefix|..|SuccessPrefix| + |p.amount|] == p.amount
    ensures message[|SuccessPrefix| + |p.amount|..|message| - |p.loanId|] == SuccessInfix
    ensures message[|message| - |p.loanId|..] == p.loanId
  {
    var message := SuccessPrefix + p.amount + SuccessInfix + p.loanId;
    assert message[|SuccessPrefix|..|SuccessPrefix| + |p.amount|] == p.amount;
    assert message[|SuccessPrefix| + |p.amount|..|message| - |p.loanId|] == SuccessInfix;
    message
  }

  class PayLoanPage {
    var showPaymentModal: bool
    var selectedLoan: Option<Loan>
    var paymentAmount: string
    var isProcessing: bool

    /** The dialog is only ever opened on a selected loan. */
    ghost predicate Valid()
      reads this
    {
      showPaymentModal ==> selectedLoan.Some?
    }

    constructor ()
      ensures Valid() && !showPaymentModal && selectedLoan == None && paymentAmount == "" && !isProcessing
    {
      showPaymentModal := false;
      selectedLoan := None;
      paymentAmount := "";
      isProcessing := false;
    }

    /** The dialog is drawn when it is open and a loan is selected. */
    predicate ModalShown()
      reads this
    {
      showPaymentModal && selectedLoan.Some?
    }

    /** The pay button's `disabled`: while processing, or with an empty amount. */
    function PayDisabled(): (disabled: bool)
      reads this
      ensures disabled <==> isProcessing || paymentAmount == ""
    {
      isProcessing || paymentAmount == ""
    }

    /** The cancel button's `disabled`: while processing. */
    function CancelDisabled(): (disabled: bool)
      reads this
      ensures disabled <==> isProcessing
    {
      isProcessing
    }

    /** "Pay Now" on a card: select the loan, prefill its total, open the dialog. */
    method PayNow(loan: Loan)
      requires Valid()
      modifies this`selectedLoan, this`paymentAmount, this`showPaymentModal
      ensures Valid() && ModalShown()
      ensures selectedLoan == Some(loan) && paymentAmount == PrefilledAmount(loan)
      ensures !isProcessing ==> !PayDisabled()
    {
      selectedLoan := Some(loan);
      paymentAmount := PrefilledAmount(loan);
      showPaymentModal := true;
    }

    /** Typing into the amount box. */
    method EditAmount(value: string)
      requires Valid()
      modifies this`paymentAmount
      ensures Valid() && paymentAmount == value
    {
      paymentAmount := value;
    }

    /** "Cancel": hide the dialog; the selection and the amount stay. */
    method Cancel()
      requires Valid() && !CancelDisabled()
      modifies this`showPaymentModal
      ensures Valid() && !showPaymentModal
    {
      showPaymentModal := false;
    }

    /**
     * `processPayment` up to its wait: nothing happens without a selected loan
     * and an amount; otherwise the processing flag goes up and the handler
     * holds on to the loan and the amount it started with.
     */
    method BeginPayment() returns (request: Option<PaymentRequest>)
      requires Valid()
      modifies this`isProcessing
      ensures Valid()
      ensures request.None? <==> selectedLoan.None? || paymentAmount == ""
      ensures request.None? ==> isProcessing == old(isProcessing)
      ensures request.Some? ==> isProcessing && request.value == PaymentRequest(selectedLoan.value.id, paymentAmount)
      ensures request.Some? ==> CancelDisabled() && PayDisabled()
    {
      if selectedLoan.None? || paymentAmount == "" {
        return None;
      }
      isProcessing := true;
      request := Some(PaymentRequest(selectedLoan.value.id, paymentAmount));
    }

    /** `processPayment` after its wait: reset everything and report the captured payment. */
    method CompletePayment(request: PaymentRequest) returns (message: string)
      requires Valid()
      modifies this
      ensures Valid()
      ensures !isProcessing && !showPaymentModal && selectedLoan == None && paymentAmount == ""
      ensures !CancelDisabled()
      ensures message == SuccessMessage(request)
    {
      isProcessing := false;
      showPaymentModal := false;
      message := SuccessMessage(request);
      selectedLoan := None;
      paymentAmount := "";
    }
  }
}
