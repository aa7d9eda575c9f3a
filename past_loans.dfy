/**
 * The past-loans page: a table of loans, a status badge per loan, and a
 * detail dialog opened on one loan, with a link to the status page of a
 * pending application.
 */
module PastLoans {
  import opened Wrappers
  import opened LoanTypes
  import opened Routes

  /** The page's fixed list of loans; dates are days since 1970-01-01. */
  const PastLoansData: seq<Loan> := [
    Loan("LOAN-004", 3000, 450, 19706, Completed, Informal, 19645),
    Loan("LOAN-005", 8000, 1200, 19691, Completed, Formal, 19601),
    Loan("LOAN-006", 1500, 225, 19650, Completed, Informal, 19589),
    Loan("LOAN-007", 12000, 1800, 19737, Pending, Formal, 19676)
  ]

  /** The badge colours `getStatusColor` chooses between. */
  datatype Badge = GreenBadge | YellowBadge | BlueBadge | RedBadge | GrayBadge

  /** `getStatusColor`: a switch on the status string, gray for anything else. */
  function StatusBadge(status: string): (b: Badge)
    ensures b == GreenBadge <==> status == "completed"
    ensures b == YellowBadge <==> status == "pending"
    ensures b == BlueBadge <==> status == "active"
    ensures b == RedBadge <==> status == "overdue"
    ensures b == GrayBadge <==> ParseStatus(status).None?
  {
    match status
    case "completed" => GreenBadge
    case "pending" => YellowBadge
    case "active" => BlueBadge
    case "overdue" => RedBadge
    case _ => GrayBadge
  }

  /** The four statuses get four different colours, none of them the gray default. */
  lemma StatusBadgesDistinct(s: LoanStatus, t: LoanStatus)
    ensures StatusBadge(StatusName(s)) != GrayBadge
    ensures StatusBadge(StatusName(s)) == StatusBadge(StatusName(t)) ==> s == t
  {
  }

  /** One row of the table. */
  datatype LoanRow = LoanRow(id: string, amount: int, sector: string, badge: Badge, status: string)

  function Row(loan: Loan): (r: LoanRow)
    ensures r.amount == LoanTotal(loan) && r.id == loan.id
    ensures r.sector == SectorName(loan.sector) && ParseSector(r.sector) == Some(loan.sector)
    ensures r.badge == StatusBadge(StatusName(loan.status)) && r.badge != GrayBadge
    ensures ParseStatus(r.status) == Some(loan.status)
  {
    StatusBadgesDistinct(loan.status, loan.status);
    LoanRow(loan.id, loan.principal + loan.interest, SectorName(loan.sector),
            StatusBadge(StatusName(loan.status)), StatusName(loan.status))
  }

  /** `selectedLoan.status === 'pending'`: the "View Status" action is offered for pending applications only. */
  function OffersStatusLink(loan: Loan): (offers: bool)
    ensures offers <==> loan.status == Pending
  {
    StatusName(loan.status) == "pending"
  }

  /** Of the page's own loans, only LOAN-007 links to a status page. */
  lemma OnlyLoan007IsPending()
    ensures forall i :: 0 <= i < |PastLoansData| ==>
      (OffersStatusLink(PastLoansData[i]) <==> PastLoansData[i].id == "LOAN-007")
  {
  }

  class PastLoansPage {
    var selectedLoan: Option<Loan>
    var showDetailModal: bool

    constructor ()
      ensures selectedLoan == None && !showDetailModal
    {
      selectedLoan := None;
      showDetailModal := false;
    }

    /** The dialog is drawn when it is open and a loan is selected. */
    predicate DetailShown()
      reads this
    {
      showDetailModal && selectedLoan.Some?
    }

    /** The total in the dialog: the same amount as the loan's table row. */
    function DetailTotal(): (total: int)
      reads this
      requires DetailShown()
      ensures total == Row(selectedLoan.value).amount
    {
      selectedLoan.value.principal + selectedLoan.value.interest
    }

    /** "View Details" on a row. */
    method ViewDetails(loan: Loan)
      modifies this
      ensures selectedLoan == Some(loan) && showDetailModal && DetailShown()
    {
      selectedLoan := Some(loan);
      showDetailModal := true;
    }

    /** The close cross and the "Close" button: hide the dialog, keep the selection. */
    method CloseDetails()
      modifies this`showDetailModal
      ensures !showDetailModal && !DetailShown()
    {
      showDetailModal := false;
    }

    /** "View Status" in the dialog of a pending loan: close, then go to its status page. */
    method ViewStatus() returns (route: string)
      requires DetailShown() && OffersStatusLink(selectedLoan.value)
      modifies this`showDetailModal
      ensures !showDetailModal
      ensures route == PendingRoute(selectedLoan.value.id)
    {
      showDetailModal := false;
      route := PendingRoute(selectedLoan.value.id);
    }
  }
}
