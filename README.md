# Loan portal front end: verified model of its state logic

This project models, in Dafny, the self-contained state logic of a React
front end for a loan portal. Applicants pick a sector (formal or informal
employment), go through a three-page application wizard (Requirements,
Documents, Loan Details), review past loans and pay active ones. Everything
else in the application is rendering and HTTP.

What is modelled, one module per source file:

- `LoanTypes` (`src/types/index.ts`): the `Guarantor`, `Asset`,
  `LoanFormData` and `Loan` shapes and the sector and status unions, with
  parsers proving that exactly the listed strings name a sector or status.
  `Routes` holds the `/loan/pending/:id` route both wizards and the
  past-loans page navigate to.
- `GuarantorFields`: the rules for the two guarantor entries. The phone
  pattern `^[+]?[0-9\s-()]+$` is matched by a small automaton, proved to
  accept exactly the language read off the pattern. JavaScript's `\s` is
  modelled code point by code point.
- `ProgressBar`: the per-step active / completed / pending classification
  and the connectors. Counting lemmas show exactly one active step,
  `currentStep` completed steps and `|steps| - 1` connectors.
- `LoanRequest`: what both wizards share. This covers the page moves, the
  amount and date rules, asset append and remove, and the outcome of a
  submission, including the `"mock-id"` fallback.
- `FormalRequest`, `InformalRequest`: each wizard is a class whose fields
  mirror its `useState` hooks, with one method per handler. The formal
  class keeps the invariant that there is one payslip password per payslip.
  Its submit handler runs the document checks in source order. Pure
  functions give the submit button's `disabled` expression, the handler's
  document checks and the record that is sent. Lemmas relate the `disabled`
  expression to the document checks.
- `PastLoans`, `PayLoan`: the two display pages as classes over their
  hooks. They cover the status colours, the detail dialog, the payment
  dialog's prefill, process and reset sequence, and each loan card's
  derived values.

An `async` handler is split at its `await` into a start method and a
finish method, so that the in-flight flag (`isSubmitting`, `isProcessing`)
can be seen between them. `setX` is modelled as an immediate assignment.
Dates are whole day numbers (days since 1970-01-01), and the date rules
compare instants in minutes. Money amounts are integers. The submission call and the simulated
payment delay are parameters: a `SubmitResponse` holds the call's answer
or failure, and a `PaymentRequest` holds what the payment handler captured
before its wait.

Handler methods require only what the component itself guarantees:
- a navigation button exists only on its own page;
- Cancel is disabled while a payment is processing;
- a remove button or password box exists only for an asset or payslip in
  the list (`RemoveAsset`, `EditPayslipPassword`);
- the detail dialog and its total exist only while a loan is shown
  (`DetailTotal`);
- "View Status" appears only there, and only for a pending loan
  (`ViewStatus`);
- the amount, date and guarantor inputs and the submit button exist only on
  the Loan Details page, so the submit handler runs only there
  (`StartSubmit`).

Beyond these, every handler may fire in any state. The model therefore
allows more sequences of events than the UI does, so the invariants proved
for it also hold in the UI.

Three rules of the code are worth knowing when reading the contracts:

- The formal submit button's `disabled` expression leaves out the home photo
  (`formal.tsx:492-497`). Only the handler checks it (`formal.tsx:52-55`),
  so the button can be enabled while the handler refuses
  (`HomePhotoOnlyCheckedOnSubmit`). The informal button depends only on
  `isSubmitting` (`informal.tsx:349`).
- Only guarantors 0 and 1 are rendered and validated
  (`GuarantorFields.tsx:15`), so validation needs two entries and ignores any
  beyond them.
- The repayment-date rules compare the picked day, read as midnight UTC, with
  midnight of the local day. They use `>=` in the formal flow and `>` in the
  informal flow, although both show the message "today or in the future". The
  clock is an input: the local day and the offset from UTC. On a clock set to
  UTC the two rules disagree on today alone. East of UTC both accept today,
  and west of it both reject it (`DateRulesByDay`).

## Model

| member | source | states |
|---|---|---|
| `LoanTypes.ParseSector` | src/types/index.ts:15 | exactly the strings "formal" and "informal" name a sector, and each names its own |
| `LoanTypes.ParseStatus` | src/types/index.ts:48 | exactly "active", "completed", "pending" and "overdue" name a loan status, each its own |
| `Routes.PendingRoute` | src/pages/loan/request/formal.tsx:85 | the status route is the fixed prefix followed by the id, and the id can be read back from it |
| `Routes.PendingRouteInjective` | src/pages/PastLoans.tsx:267 | different ids lead to different status pages |
| `JsText.IntToStringRoundTrip` | src/pages/PayLoan.tsx:46 | the decimal rendering of an integral amount reads back as that amount |
| `JsText.IntToString` | src/pages/PayLoan.tsx:46 | `toString()` of an integral amount is never empty, starts with a minus sign exactly for a negative amount, and has no leading zero |
| `JsText.OrElse` | src/pages/loan/request/formal.tsx:85 | `x \|\| fallback` on an optional string: a non-empty value is kept, undefined or "" gives the fallback, so the result is empty only when both are |
| `GuarantorFields.NameError` | src/components/forms/GuarantorFields.tsx:25-27 | a name is accepted iff it is non-empty, and the empty name gets the "Guarantor name is required" message |
| `GuarantorFields.IdNumberError` | src/components/forms/GuarantorFields.tsx:43-48 | an ID is accepted iff it is non-empty and all ASCII digits; the empty ID gets the "required" message and any other rejected ID the "only numbers" message |
| `GuarantorFields.ContactError` | src/components/forms/GuarantorFields.tsx:65-70 | the empty contact gets the "required" message, and a non-empty contact the pattern rejects gets the "valid phone number" message |
| `GuarantorFields.ContactMatchesIsPattern` | src/components/forms/GuarantorFields.tsx:68 | the automaton accepts exactly the strings of the form optional '+' then one or more digit / `\s` / '-' / '(' / ')' characters |
| `GuarantorFields.ContactRule` | src/components/forms/GuarantorFields.tsx:65-70 | a contact passes both rules iff it is in the phone pattern's language |
| `GuarantorFields.PlusOnlyInFront` | src/components/forms/GuarantorFields.tsx:68 | a '+' at any position but the first makes the contact invalid |
| `GuarantorFields.LonePlusRejected` | src/components/forms/GuarantorFields.tsx:68 | "+" alone is rejected as an invalid phone number |
| `GuarantorFields.FormattedNumberAccepted` | src/components/forms/GuarantorFields.tsx:68 | spaces, parentheses and dashes between digits after a leading '+' are accepted |
| `GuarantorFields.GuarantorsValid` | src/components/forms/GuarantorFields.tsx:15 | the guarantors pass iff there are at least two and the first two pass all their rules; later entries are never checked |
| `ProgressBar.StepStatusAt` | src/components/ui/progressBar.tsx:12-23 | a step is active iff it is the current one, completed iff before it, pending iff after it, so the three styles never overlap |
| `ProgressBar.Render` | src/components/ui/progressBar.tsx:11-35 | one view per step in order, numbered `index + 1`, with a connector on every step but the last |
| `ProgressBar.InRangeCounts` | src/components/ui/progressBar.tsx:11-13 | with the current step in range, one step is active, `currentStep` are completed and the rest pending |
| `ProgressBar.StatusesPartition` | src/components/ui/progressBar.tsx:18-24 | the active, completed and pending counts add up to the number of steps |
| `ProgressBar.Connectors` | src/components/ui/progressBar.tsx:35 | a non-empty bar has `|steps| - 1` connectors |
| `LoanRequest.StepMoveStaysOnPages` | src/pages/loan/request/formal.tsx:363-379 | every button move leads to a neighbouring page and stays within the three pages |
| `LoanRequest.WizardProgress` | src/pages/loan/request/formal.tsx:144 | on each wizard page the indicator shows one active step, all earlier steps completed and two connectors |
| `LoanRequest.AmountError` | src/pages/loan/request/formal.tsx:394-401 | an amount is accepted iff it is present and at least 100; a missing one gets the "required" message and a smaller one the "minimum" message |
| `LoanRequest.OnOrAfterTodayError` | src/pages/loan/request/formal.tsx:418-424 | a formal repayment day is accepted iff present and its UTC midnight is not before local midnight today; otherwise the "required" or the "today or in the future" message |
| `LoanRequest.AfterTodayError` | src/pages/loan/request/informal.tsx:289-294 | an informal repayment day is accepted iff present and its UTC midnight is after local midnight today; otherwise the "required" or the "today or in the future" message |
| `LoanRequest.DateRulesByDay` | src/pages/loan/request/formal.tsx:420-422 | in calendar days: later days pass both rules and earlier days fail both; today passes the formal rule iff the clock is at or east of UTC, the informal rule iff strictly east |
| `LoanRequest.BelowMinFailsBoth` | src/pages/loan/request/formal.tsx:417-422 | a day before the input's `min`, the current UTC day, fails both date rules with the "today or in the future" message |
| `LoanRequest.DateRulesDifferOnlyOnToday` | src/pages/loan/request/informal.tsx:291-293 | the two date rules disagree exactly on today on a UTC clock; at or west of UTC the informal rule rejects today with the "today or in the future" message |
| `LoanRequest.NewAssets` | src/pages/loan/request/formal.tsx:224-226 | one asset per selected file, in selection order, with no value, no licence flag and no licence |
| `LoanRequest.WithoutIndex` | src/pages/loan/request/formal.tsx:111 | removing index `idx` shortens the list by one, keeps earlier entries in place and shifts later ones down by one |
| `LoanRequest.WithoutIndexMultiset` | src/pages/loan/request/formal.tsx:111 | removal loses exactly the entry at `idx` and nothing else |
| `LoanRequest.FirstFile` | src/pages/loan/request/formal.tsx:70 | the single-file fields take the list's first file, and are absent exactly when the list is empty |
| `LoanRequest.SubmitEndFor` | src/pages/loan/request/formal.tsx:84-91 | a failed call ends in the error alert; an answer navigates to the pending page of its id, or of "mock-id" when the id is missing or empty |
| `FormalRequest.ResyncPasswords` | src/pages/loan/request/formal.tsx:289-291 | one password per new file; positions the old list had keep their password, new positions get "" |
| `FormalRequest.ResyncSameCountKeepsAll` | src/pages/loan/request/formal.tsx:289-291 | re-selecting as many payslips as before keeps every typed password |
| `FormalRequest.ResyncIdempotent` | src/pages/loan/request/formal.tsx:289-291 | resynchronising twice against the same files gives the same passwords as once |
| `FormalRequest.ShrinkThenGrowForgets` | src/pages/loan/request/formal.tsx:286-291 | passwords dropped by a shorter selection come back empty when the list grows again, and the kept prefix is unchanged |
| `FormalRequest.DocumentCheck` | src/pages/loan/request/formal.tsx:48-63 | the handler refuses with the message of the first failing check, in the order assets < 3, no home photo, no bank statements, no payslips, and passes iff none fails |
| `FormalRequest.SubmitDisabled` | src/pages/loan/request/formal.tsx:492-497 | the button is disabled iff a submission is in flight or the handler's document checks would fail even with a home photo present |
| `FormalRequest.ChecksPassEnableSubmit` | src/pages/loan/request/formal.tsx:492-497 | when all document checks pass, the button is disabled iff a submission is in flight |
| `FormalRequest.DisabledForDocumentsIsBlocked` | src/pages/loan/request/formal.tsx:492-497 | whenever missing documents disable the button, the handler would refuse too |
| `FormalRequest.HomePhotoOnlyCheckedOnSubmit` | src/pages/loan/request/formal.tsx:52-55 | without a home photo but with everything else, the button is enabled and the handler refuses with the home-photo message |
| `FormalRequest.FieldsValid` | src/pages/loan/request/formal.tsx:394-424 | on the Loan Details page, the form library lets the handler run iff the amount is at least 100, the repayment day is on or after local midnight and the first two guarantors pass |
| `FormalRequest.AssembleRecord` | src/pages/loan/request/formal.tsx:67-82 | sector "formal" and a bank account; the form values carried over; bank statements, payslips, passwords, M-Pesa statements and call logs passed through; the bank and M-Pesa passwords only with their statements; the shop picture only for a retail business; the first home photo and first proof of illness |
| `FormalRequest.FormalWizard.constructor` | src/pages/loan/request/formal.tsx:12-25 | the wizard starts on page 0 with every list empty and nothing in flight, so the submit button starts disabled |
| `FormalRequest.FormalWizard.StartApplication` | src/pages/loan/request/formal.tsx:201 | page 0 to page 1 |
| `FormalRequest.FormalWizard.BackToRequirements` | src/pages/loan/request/formal.tsx:367 | page 1 to page 0 |
| `FormalRequest.FormalWizard.ContinueToDetails` | src/pages/loan/request/formal.tsx:374 | page 1 to page 2 |
| `FormalRequest.FormalWizard.BackToDocuments` | src/pages/loan/request/formal.tsx:485 | page 2 to page 1 |
| `FormalRequest.FormalWizard.AddAssets` | src/pages/loan/request/formal.tsx:222-228 | a selection appends its assets after the existing ones; a null selection changes nothing |
| `FormalRequest.FormalWizard.RemoveAsset` | src/pages/loan/request/formal.tsx:111 | the asset list loses the entry at `idx`, nothing else changes |
| `FormalRequest.FormalWizard.ReplaceDocuments` | src/pages/loan/request/formal.tsx:242-473 | an uploader's change replaces its own list and no other |
| `FormalRequest.FormalWizard.ChangePayslips` | src/pages/loan/request/formal.tsx:286-292 | the payslips become the new files and the passwords are resynchronised, keeping one password per payslip |
| `FormalRequest.FormalWizard.EditPayslipPassword` | src/pages/loan/request/formal.tsx:307-311 | typing changes password `idx` only; the length and the alignment with the payslips are kept |
| `FormalRequest.FormalWizard.StartSubmit` | src/pages/loan/request/formal.tsx:47-84 | from the Loan Details page: invalid fields: nothing happens; a failing document check: its message, no record, flag untouched; otherwise the flag goes up, the assembled record is sent and the button is disabled |
| `FormalRequest.FormalWizard.FinishSubmit` | src/pages/loan/request/formal.tsx:84-91 | after success or failure the flag is down, the button is enabled again when the documents are complete, and the outcome is the navigation or the alert |
| `InformalRequest.FieldsValid` | src/pages/loan/request/informal.tsx:268-294 | on the Loan Details page, the form library lets the handler run iff the amount is at least 100, the repayment day is after local midnight and the first two guarantors pass |
| `InformalRequest.TodayRejected` | src/pages/loan/request/informal.tsx:291-293 | on a clock at or west of UTC a repayment day of today fails validation, whatever else is entered |
| `InformalRequest.AssembleRecord` | src/pages/loan/request/informal.tsx:46-55 | sector "informal", no bank account; the form values carried over; no bank-statement, payslip or proof-of-illness fields; M-Pesa statements and call logs passed through; the M-Pesa password only with statements; the shop picture only for a retail business; the first home photo |
| `InformalRequest.InformalWizard.constructor` | src/pages/loan/request/informal.tsx:13-22 | the wizard starts on page 0 with every list empty and nothing in flight, and the submit button starts enabled although no document is present |
| `InformalRequest.InformalWizard.StartApplication` | src/pages/loan/request/informal.tsx:148 | page 0 to page 1 |
| `InformalRequest.InformalWizard.BackToRequirements` | src/pages/loan/request/informal.tsx:241 | page 1 to page 0 |
| `InformalRequest.InformalWizard.ContinueToDetails` | src/pages/loan/request/informal.tsx:248 | page 1 to page 2 |
| `InformalRequest.InformalWizard.BackToDocuments` | src/pages/loan/request/informal.tsx:342 | page 2 to page 1 |
| `InformalRequest.InformalWizard.AddAssets` | src/pages/loan/request/informal.tsx:169-175 | a selection appends its assets after the existing ones; a null selection changes nothing |
| `InformalRequest.InformalWizard.RemoveAsset` | src/pages/loan/request/informal.tsx:84 | the asset list loses the entry at `idx`, nothing else changes |
| `InformalRequest.InformalWizard.ReplaceDocuments` | src/pages/loan/request/informal.tsx:189-233 | an uploader's change replaces its own list and no other |
| `InformalRequest.InformalWizard.SubmitButtonDisabled` | src/pages/loan/request/informal.tsx:349 | the button is disabled iff a submission is in flight; documents play no part (see the constructor, `StartSubmit` and `FinishSubmit`) |
| `InformalRequest.InformalWizard.StartSubmit` | src/pages/loan/request/informal.tsx:43-56 | from the Loan Details page, with valid fields it always raises the flag, sends the assembled record and disables the button, whatever documents are present |
| `InformalRequest.InformalWizard.FinishSubmit` | src/pages/loan/request/informal.tsx:57-64 | after success or failure the flag is down, the button enabled again, and the outcome is the navigation or the alert |
| `PastLoans.StatusBadge` | src/pages/PastLoans.tsx:70-83 | "completed" is green, "pending" yellow, "active" blue and "overdue" red; the gray default goes exactly to strings that name no status |
| `PastLoans.StatusBadgesDistinct` | src/pages/PastLoans.tsx:70-80 | the four statuses get four different non-gray colours |
| `PastLoans.Row` | src/pages/PastLoans.tsx:138-170 | a row shows the loan's id, principal plus interest, its sector's name and its status's name, with the badge colour `getStatusColor` gives that status, never gray |
| `PastLoans.OffersStatusLink` | src/pages/PastLoans.tsx:258 | comparing the status string with "pending" offers the link exactly for loans whose status is pending |
| `PastLoans.OnlyLoan007IsPending` | src/pages/PastLoans.tsx:11-48 | of the page's loans only LOAN-007 offers the status link |
| `PastLoans.PastLoansPage.constructor` | src/pages/PastLoans.tsx:7-8 | no loan selected, dialog closed |
| `PastLoans.PastLoansPage.DetailTotal` | src/pages/PastLoans.tsx:210 | the dialog's total equals the amount in the loan's table row |
| `PastLoans.PastLoansPage.ViewDetails` | src/pages/PastLoans.tsx:50-53 | the loan is selected and the dialog shown |
| `PastLoans.PastLoansPage.CloseDetails` | src/pages/PastLoans.tsx:187-192 | the dialog is hidden and the selection kept; the same holds for the "Close" button at PastLoans.tsx:279 |
| `PastLoans.PastLoansPage.ViewStatus` | src/pages/PastLoans.tsx:258-268 | offered for a pending loan only; closes the dialog and targets `/loan/pending/<id>` |
| `PayLoan.Card` | src/pages/PayLoan.tsx:126-213 | a card shows principal plus interest; red styling, the overdue note and "Pay Overdue" follow `daysUntilDue < 0`; the badge follows the status alone |
| `PayLoan.OnlyLoan002BadgedOverdue` | src/pages/PayLoan.tsx:14-42 | of the page's three loans, only LOAN-002 carries the "Overdue" badge, whatever the due date |
| `PayLoan.BadgeIgnoresDueDate` | src/pages/PayLoan.tsx:152-158 | the badge is the same whatever the days until due |
| `PayLoan.StyleAndBadgeDisagree` | src/pages/PayLoan.tsx:129-158 | an "active" loan past its due date is styled overdue under an "Active" badge |
| `PayLoan.PrefilledAmount` | src/pages/PayLoan.tsx:46 | the prefilled amount is non-empty and reads back as principal plus interest |
| `PayLoan.SuccessMessage` | src/pages/PayLoan.tsx:62 | the alert is the fixed prefix, the captured amount, the fixed middle text and the captured loan id, in that order |
| `PayLoan.PayLoanPage.constructor` | src/pages/PayLoan.tsx:8-11 | dialog closed, nothing selected, empty amount, not processing |
| `PayLoan.PayLoanPage.PayDisabled` | src/pages/PayLoan.tsx:283 | the pay button is disabled iff processing or the amount is empty |
| `PayLoan.PayLoanPage.CancelDisabled` | src/pages/PayLoan.tsx:277 | the cancel button is disabled iff processing: from `BeginPayment` until `CompletePayment` |
| `PayLoan.PayLoanPage.PayNow` | src/pages/PayLoan.tsx:44-48 | the loan is selected, the amount prefilled with its total and the dialog shown; unless a payment is processing, paying is enabled |
| `PayLoan.PayLoanPage.EditAmount` | src/pages/PayLoan.tsx:266 | the amount becomes the typed text |
| `PayLoan.PayLoanPage.Cancel` | src/pages/PayLoan.tsx:275-277 | only possible when not processing; hides the dialog and keeps the selection and amount |
| `PayLoan.PayLoanPage.BeginPayment` | src/pages/PayLoan.tsx:50-53 | without a selected loan or amount nothing happens; otherwise processing starts with the captured loan id and amount, and both buttons are disabled |
| `PayLoan.PayLoanPage.CompletePayment` | src/pages/PayLoan.tsx:56-65 | processing stops and cancel is enabled again, the dialog closes, the selection and amount are cleared, and the success message names the captured amount and loan |

## Left out

- Submission over HTTP: `submitLoanForm` is not part of this model. Its answer or failure is a `SubmitResponse` parameter. The upload page (`src/pages/uploadPDF.tsx`) and the axios instance in `src/App.tsx` are network code and are not modelled.
- The home page, the router (`src/App.tsx`, `src/pages/Home.tsx`) and the toast component's timers and animation are routing and presentation only.
- The form library is not modelled as a library. Its `required`, `min`, `pattern` and `validate` rules are modelled as the functions above. The browser refuses a day before the date input's `min` (the current UTC day) before the handler runs. That check is not modelled because it changes no outcome: `BelowMinFailsBoth` shows that every such day already fails both rules. The clock is an input (local day and offset from UTC in minutes), so reading the clock and daylight-saving changes are not modelled.
- `getDaysUntilDue` rounds a millisecond difference up to whole days. Floating point is out of scope, so the number of days until due is an integer input of `PayLoan.Card`.
- `formatCurrency` and `formatDate` depend on the locale and are left out. Money amounts are integers, so fractional amounts are not modelled.
- PayLoan.PrefilledAmount: modelled for integral totals only. `toString` of a fractional amount, or of one of 10^21 or more (exponent notation), is not modelled.
- `alert`, `console.error`, `URL.createObjectURL` previews and `DocumentUploader`'s internals are left out. CSS class strings are not modelled: a step's style is its `StepStatus` and a status badge's colour is a `Badge` value. Each uploader is modelled by the list it reports through `onFilesChange`.
- Implicit submission from another page is not modelled. Pressing Enter in a text field of the Documents page, such as the M-Pesa statement password box, could submit the form there. The form library would then check only the fields on screen, so the Loan Details rules would not run. This depends on browser and library behaviour, so `StartSubmit` models only the Loan Details page, where the submit button is.
- The asset objects built on file selection also carry a `name` copied from the file. That property is not part of the `Asset` type and is not modelled.
- The 2-second simulated payment delay is the gap between `BeginPayment` and `CompletePayment`. React's batching of state updates and render timing are not modelled.
