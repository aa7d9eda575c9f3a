/**
 * What the formal and the informal application wizards share: the three
 * pages and the moves between them, the fields the form library validates,
 * the asset list handlers, and the outcome of a submission.
 */
module LoanRequest {
  import opened Wrappers
  import opened JsText
  import opened LoanTypes
  import opened GuarantorFields
  import opened Routes
  import ProgressBar

  // ----- pages -----

  const StepLabels: seq<string> := ["Requirements", "Documents", "Loan Details"]

  /**
   * The navigation buttons: "Start"/"Continue" on page 0 leads to 1, "Back"
   * on page 1 to 0, "Continue" on page 1 to 2 and "Back" on page 2 to 1.
   */
  predicate StepMove(from: int, to: int) {
    (from == 0 && to == 1) || (from == 1 && to == 0) || (from == 1 && to == 2) || (from == 2 && to == 1)
  }

  /** No button leaves the three pages, and every move is to a neighbouring page. */
  lemma StepMoveStaysOnPages(from: int, to: int)
    requires 0 <= from < |StepLabels| && StepMove(from, to)
    ensures 0 <= to < |StepLabels|
    ensures to == from + 1 || to == from - 1
  {
  }

  /** On any of the three pages the indicator shows one active step, with every earlier one completed. */
  lemma WizardProgress(step: int)
    requires 0 <= step < |StepLabels|
    ensures ProgressBar.CountStatus(ProgressBar.Render(StepLabels, step), ProgressBar.Active) == 1
    ensures ProgressBar.CountStatus(ProgressBar.Render(StepLabels, step), ProgressBar.Completed) == step
    ensures ProgressBar.CountConnectors(ProgressBar.Render(StepLabels, step)) == 2
  {
    ProgressBar.InRangeCounts(StepLabels, step);
    ProgressBar.Connectors(StepLabels, step);
  }

  // ----- the registered form fields -----

  /**
   * The values the form library hands to the submit handler: the registered
   * inputs. An empty number or date input is `None`.
   */
  datatype FormValues = FormValues(
    amountRequested: Option<int>,
    repaymentDate: Option<int>,
    bankStatementPassword: Option<string>,
    hasRetailBusiness: bool,
    businessRegistrationNumber: Option<string>,
    businessLocation: Option<string>,
    guarantors: seq<Guarantor>,
    mpesaStatementPassword: Option<string>)

  const MinAmount := 100
  const AmountRequired := "Amount is required"
  const AmountTooSmall := "Minimum loan amount is 100"
  const DateRequired := "Repayment date is required"
  const DateInPast := "Repayment date must be today or in the future"

  /** `required`, then `min: 100`, each with its own message. */
  function AmountError(amount: Option<int>): (e: Option<string>)
    ensures e.None? <==> amount.Some? && amount.value >= MinAmount
    ensures e == Some(AmountRequired) <==> amount.None?
    ensures e == Some(AmountTooSmall) <==> amount.Some? && amount.value < MinAmount
  {
    if amount.None? then Some(AmountRequired)
    else if amount.value < MinAmount then Some(AmountTooSmall)
    else None
  }

  const MinutesPerDay := 1440

  /**
   * The browser's clock as the date rules see it: the local calendar day
   * (days since 1970-01-01) and the local offset from UTC in minutes, positive
   * east of Greenwich.
   */
  datatype Clock = Clock(today: int, offset: int)

  /** Offsets of real time zones lie strictly within one day of UTC. */
  predicate IsUtcOffset(offset: int) {
    -MinutesPerDay < offset < MinutesPerDay
  }

  /** `new Date("yyyy-mm-dd")`: a picked day is read as midnight UTC, in minutes since the epoch. */
  function PickedInstant(date: int): int {
    date * MinutesPerDay
  }

  /**
   * `new Date(new Date().toDateString())`: midnight of the local calendar day,
   * which comes `offset` minutes before midnight UTC of the same day number.
   */
  function TodayInstant(clock: Clock): int {
    clock.today * MinutesPerDay - clock.offset
  }

  /** The formal flow's date rule: `required`, then the picked instant must not be before local midnight. */
  function OnOrAfterTodayError(date: Option<int>, clock: Clock): (e: Option<string>)
    ensures e.None? <==> date.Some? && PickedInstant(date.value) >= TodayInstant(clock)
    ensures e == Some(DateRequired) <==> date.None?
    ensures e == Some(DateInPast) <==> date.Some? && PickedInstant(date.value) < TodayInstant(clock)
  {
    if date.None? then Some(DateRequired)
    else if !(PickedInstant(date.value) >= TodayInstant(clock)) then Some(DateInPast)
    else None
  }

  /** The informal flow's date rule: `required`, then the picked instant must be after local midnight. */
  function AfterTodayError(date: Option<int>, clock: Clock): (e: Option<string>)
    ensures e.None? <==> date.Some? && PickedInstant(date.value) > TodayInstant(clock)
    ensures e == Some(DateRequired) <==> date.None?
    ensures e == Some(DateInPast) <==> date.Some? && PickedInstant(date.value) <= TodayInstant(clock)
  {
    if date.None? then Some(DateRequired)
    else if !(PickedInstant(date.value) > TodayInstant(clock)) then Some(DateInPast)
    else None
  }

  /**
   * In calendar days: any later day passes both rules and any earlier day fails
   * them; today passes the formal rule at or east of UTC, and the informal rule
   * only strictly east of it.
   */
  lemma DateRulesByDay(date: int, clock: Clock)
    requires IsUtcOffset(clock.offset)
    ensures OnOrAfterTodayError(Some(date), clock).None? <==>
            date > clock.today || (date == clock.today && clock.offset >= 0)
    ensures AfterTodayError(Some(date), clock).None? <==>
            date > clock.today || (date == clock.today && clock.offset > 0)
  {
    if date > clock.today {
      assert PickedInstant(date) >= TodayInstant(clock) + MinutesPerDay + clock.offset;
    } else if date < clock.today {
      assert PickedInstant(date) <= TodayInstant(clock) - MinutesPerDay + clock.offset;
    }
  }

  /**
   * The date input's `min` is the UTC day of the current instant `now` (minutes
   * since the epoch, within the local day the clock names). Any day before it
   * already fails both rules, so the browser's own refusal of such a day
   * changes no outcome.
   */
  lemma BelowMinFailsBoth(date: int, clock: Clock, now: int)
    requires TodayInstant(clock) <= now < TodayInstant(clock) + MinutesPerDay
    requires date < now / MinutesPerDay
    ensures OnOrAfterTodayError(Some(date), clock) == Some(DateInPast)
    ensures AfterTodayError(Some(date), clock) == Some(DateInPast)
  {
    assert (now / MinutesPerDay) * MinutesPerDay <= now;
    assert PickedInstant(date) <= (now / MinutesPerDay) * MinutesPerDay - MinutesPerDay;
  }

  /**
   * The two flows disagree on exactly one day, today, and only when the
   * browser's clock is on UTC; the informal rule then rejects today with a
   * message that says today is allowed.
   */
  lemma DateRulesDifferOnlyOnToday(date: int, clock: Clock)
    requires IsUtcOffset(clock.offset)
    ensures OnOrAfterTodayError(Some(date), clock).None? != AfterTodayError(Some(date), clock).None?
            <==> date == clock.today && clock.offset == 0
    ensures clock.offset <= 0 ==> AfterTodayError(Some(clock.today), clock) == Some(DateInPast)
  {
    DateRulesByDay(date, clock);
    DateRulesByDay(clock.today, clock);
  }

  // ----- assets -----

  /** The assets made from a file selection, one per file in selection order. */
  function NewAssets(files: seq<File>): (r: seq<Asset>)
    ensures |r| == |files|
    ensures forall i :: 0 <= i < |r| ==> r[i].file == files[i] && r[i].value.None? && r[i].requiresLicense.None? && r[i].license.None?
  {
    seq(|files|, i requires 0 <= i < |files| => Asset(files[i], None, None, None))
  }

  /** `s.filter((_, i) => i !== idx)`: everything but the entry at `idx`, in order. */
  function WithoutIndex<T>(s: seq<T>, idx: nat): (r: seq<T>)
    requires idx < |s|
    ensures |r| == |s| - 1
    ensures forall i :: 0 <= i < idx ==> r[i] == s[i]
    ensures forall i :: idx <= i < |r| ==> r[i] == s[i + 1]
    decreases |s|
  {
    if idx == 0 then s[1..] else [s[0]] + WithoutIndex(s[1..], idx - 1)
  }

  /** Removal loses the chosen entry and nothing else. */
  lemma {:induction false} WithoutIndexMultiset<T>(s: seq<T>, idx: nat)
    requires idx < |s|
    ensures multiset(WithoutIndex(s, idx)) + multiset{s[idx]} == multiset(s)
    decreases |s|
  {
    assert s == [s[0]] + s[1..];
    if idx > 0 {
      WithoutIndexMultiset(s[1..], idx - 1);
      assert s[1..][idx - 1] == s[idx];
    }
  }

  /** `files[0]`: the first file, or undefined for an empty list. */
  function FirstFile(files: seq<File>): (r: Option<File>)
    ensures r.Some? <==> files != []
    ensures r.Some? ==> r.value == files[0]
  {
    if files == [] then None else Some(files[0])
  }

  // ----- submission -----

  /** The submission call `submitLoanForm`, which is not modelled: it answers, maybe with an id, or it throws. */
  datatype SubmitResponse = Responded(id: Option<string>) | Failed

  /** How a press of the submit button ends before the network call. */
  datatype SubmitStart =
    | NotValid                          // the form library found a field error
    | Blocked(message: string)          // a document check failed; alerted
    | Sending(record: LoanFormData)     // the record handed to the submission call

  /** How a submission ends once the call settles. */
  datatype SubmitEnd = Navigated(route: string) | Alerted(message: string)

  const MockId := "mock-id"
  const SubmitFailedMessage := "Error submitting loan application. Please try again."

  /** `navigate(`/loan/pending/${response.id || "mock-id"}`)`, or the alert after a throw. */
  function SubmitEndFor(response: SubmitResponse): (e: SubmitEnd)
    ensures response.Failed? <==> e == Alerted(SubmitFailedMessage)
    ensures response.Responded? && response.id.Some? && response.id.value != ""
            ==> e == Navigated(PendingRoute(response.id.value))
    ensures response.Responded? && (response.id.None? || response.id.value == "")
            ==> e == Navigated(PendingRoute(MockId))
  {
    match response
    case Failed => Alerted(SubmitFailedMessage)
    case Responded(id) => Navigated(PendingRoute(OrElse(id, MockId)))
  }
}
