/**
 * The record shapes and enumerations of the loan portal. Files are opaque
 * handles; dates are whole day numbers; money amounts are integers.
 */
module LoanTypes {
  import opened Wrappers

  /** Borrower classification: salaried ("formal") or self-employed ("informal"). */
  datatype Sector = Formal | Informal

  datatype LoanStatus = Active | Completed | Pending | Overdue

  function SectorName(s: Sector): string {
    match s
    case Formal => "formal"
    case Informal => "informal"
  }

  /** The string union `"formal" | "informal"`: exactly these two strings name a sector. */
  function ParseSector(t: string): (r: Option<Sector>)
    ensures r.Some? ==> SectorName(r.value) == t
    ensures forall s: Sector :: SectorName(s) == t ==> r == Some(s)
  {
    if t == "formal" then Some(Formal)
    else if t == "informal" then Some(Informal)
    else None
  }

  function StatusName(s: LoanStatus): string {
    match s
    case Active => "active"
    case Completed => "completed"
    case Pending => "pending"
    case Overdue => "overdue"
  }

  /** The string union of `Loan.status`: exactly these four strings name a status. */
  function ParseStatus(t: string): (r: Option<LoanStatus>)
    ensures r.Some? ==> StatusName(r.value) == t
    ensures forall s: LoanStatus :: StatusName(s) == t ==> r == Some(s)
  {
    if t == "active" then Some(Active)
    else if t == "completed" then Some(Completed)
    else if t == "pending" then Some(Pending)
    else if t == "overdue" then Some(Overdue)
    else None
  }

  /** A guarantor: three mandatory strings. */
  datatype Guarantor = Guarantor(name: string, idNumber: string, contact: string)

  /** A file the user picked; only its identity and its name are observed. */
  datatype File = File(handle: nat, name: string)

  /** Collateral evidence: a photo plus optional declared value and licence. */
  datatype Asset = Asset(file: File, value: Option<int>, requiresLicense: Option<bool>, license: Option<File>)

  /**
   * The application record sent to the backend. Optional fields are `Option`;
   * `mpesaStatements` and `callLogs` are mandatory lists; `salaryPayslips` and
   * `payslipPasswords` are optional lists meant to be aligned file by file.
   */
  datatype LoanFormData = LoanFormData(
    sector: Sector,
    amountRequested: int,
    repaymentDate: int,
    hasBankAccount: bool,
    bankStatements: Option<seq<File>>,
    bankStatementPassword: Option<string>,
    hasRetailBusiness: bool,
    businessRegistrationNumber: Option<string>,
    businessLocation: Option<string>,
    guarantors: seq<Guarantor>,
    assets: seq<Asset>,
    homeFloorPhoto: Option<File>,
    proofOfIllness: Option<File>,
    shopPicture: Option<File>,
    mpesaStatements: seq<File>,
    mpesaStatementPassword: Option<string>,
    callLogs: seq<File>,
    salaryPayslips: Option<seq<File>>,
    payslipPasswords: Option<seq<string>>)

  /** A loan as the display pages receive it. */
  datatype Loan = Loan(
    id: string,
    principal: int,
    interest: int,
    dueDate: int,
    status: LoanStatus,
    sector: Sector,
    createdAt: int)

  /** The amount owed on a loan, shown as its total on both display pages. */
  function LoanTotal(loan: Loan): int {
    loan.principal + loan.interest
  }
}

/** The client-side route of the pending-status page, `/loan/pending/:id`. */
module Routes {

  const PendingPrefix: string := "/loan/pending/"

  function PendingRoute(id: string): (route: string)
    ensures |route| == |PendingPrefix| + |id|
    ensures route[..|PendingPrefix|] == PendingPrefix
    ensures route[|PendingPrefix|..] == id
  {
    PendingPrefix + id
  }

  /** Distinct loans lead to distinct status pages. */
  lemma PendingRouteInjective(a: string, b: string)
    requires PendingRoute(a) == PendingRoute(b)
    ensures a == b
  {
    assert a == PendingRoute(a)[|PendingPrefix|..];
  }
}
