/**
 * Validation of the two guarantor entries of a loan application. Each rule is
 * the form library's `required` check, followed where present by a regular
 * expression, and yields the message shown under the field or nothing.
 */
module GuarantorFields {
  import opened Wrappers
  import opened JsText
  import opened LoanTypes

  /** The guarantor positions the form renders and validates: `[0, 1]`. */
  const GuarantorIndices: seq<nat> := [0, 1]

  const NameRequired := "Guarantor name is required"
  const IdRequired := "ID number is required"
  const IdDigitsOnly := "ID number must contain only numbers"
  const ContactRequired := "Contact number is required"
  const ContactInvalid := "Please enter a valid phone number"

  /** `required`: only the empty string is missing. */
  function NameError(name: string): (e: Option<string>)
    ensures e.None? <==> name != ""
    ensures e == Some(NameRequired) <==> name == ""
  {
    if name == "" then Some(NameRequired) else None
  }

  /** `required`, then the pattern `^[0-9]+$`. */
  function IdNumberError(id: string): (e: Option<string>)
    ensures e.None? <==> (id != "" && forall i :: 0 <= i < |id| ==> IsAsciiDigit(id[i]))
    ensures e == Some(IdRequired) <==> id == ""
    ensures e == Some(IdDigitsOnly) <==> id != "" && !IsDigits(id)
  {
    if id == "" then Some(IdRequired)
    else if !IsDigits(id) then Some(IdDigitsOnly)
    else None
  }

  /** The class `[0-9\s-()]`: a digit, JavaScript whitespace, '-', '(' or ')'. */
  predicate ContactChar(c: char) {
    IsAsciiDigit(c) || IsJsWhitespace(c) || c == '-' || c == '(' || c == ')'
  }

  /**
   * The language of `^[+]?[0-9\s-()]+$`, read off the pattern: either one or
   * more contact characters, or a '+' followed by one or more of them.
   */
  ghost predicate InContactLanguage(s: string) {
    || (|s| >= 1 && forall i :: 0 <= i < |s| ==> ContactChar(s[i]))
    || (|s| >= 2 && s[0] == '+' && forall i :: 1 <= i < |s| ==> ContactChar(s[i]))
  }

  /** The states of the automaton that `^[+]?[0-9\s-()]+$` compiles to. */
  datatype ContactState = Start | AfterPlus | InBody | Dead

  function ContactStep(q: ContactState, c: char): ContactState {
    match q
    case Start => if c == '+' then AfterPlus else if ContactChar(c) then InBody else Dead
    case AfterPlus => if ContactChar(c) then InBody else Dead
    case InBody => if ContactChar(c) then InBody else Dead
    case Dead => Dead
  }

  function ContactRun(q: ContactState, s: string): ContactState
    decreases |s|
  {
    if s == [] then q else ContactRun(ContactStep(q, s[0]), s[1..])
  }

  /** The pattern matches when the automaton ends in its accepting state. */
  predicate ContactMatches(s: string) {
    ContactRun(Start, s) == InBody
  }

  /** `required`, then the phone pattern. */
  function ContactError(contact: string): (e: Option<string>)
    ensures e == Some(ContactRequired) <==> contact == ""
    ensures e == Some(ContactInvalid) <==> contact != "" && !ContactMatches(contact)
  {
    if contact == "" then Some(ContactRequired)
    else if !ContactMatches(contact) then Some(ContactInvalid)
    else None
  }

  predicate GuarantorValid(g: Guarantor) {
    NameError(g.name).None? && IdNumberError(g.idNumber).None? && ContactError(g.contact).None?
  }

  /**
   * The entry registered at `guarantors.<index>`; a position the list does not
   * have reads as empty strings, which `required` rejects.
   */
  function GuarantorAt(gs: seq<Guarantor>, index: nat): Guarantor {
    if index < |gs| then gs[index] else Guarantor("", "", "")
  }

  /**
   * Both rendered guarantors pass all their rules. Validation therefore demands
   * two entries, and looks at nothing beyond the first two.
   */
  function GuarantorsValid(gs: seq<Guarantor>): (valid: bool)
    ensures valid <==> |gs| >= 2 && GuarantorValid(gs[0]) && GuarantorValid(gs[1])
  {
    assert !GuarantorValid(Guarantor("", "", ""));
    assert GuarantorIndices[0] == 0 && GuarantorIndices[1] == 1;
    forall k :: 0 <= k < |GuarantorIndices| ==> GuarantorValid(GuarantorAt(gs, GuarantorIndices[k]))
  }

  // ----- the automaton against the pattern's language -----

  lemma {:induction false} DeadStaysDead(s: string)
    ensures ContactRun(Dead, s) == Dead
  {
    if s != [] {
      DeadStaysDead(s[1..]);
    }
  }

  /** From the body state the automaton accepts exactly the strings of contact characters. */
  lemma {:induction false} BodyRun(s: string)
    ensures ContactRun(InBody, s) == InBody <==> forall i :: 0 <= i < |s| ==> ContactChar(s[i])
  {
    if s != [] {
      BodyRun(s[1..]);
      if !ContactChar(s[0]) {
        DeadStaysDead(s[1..]);
      } else {
        assert forall i :: 1 <= i < |s| ==> s[i] == s[1..][i - 1];
      }
    }
  }

  lemma AfterPlusRun(s: string)
    ensures ContactRun(AfterPlus, s) == InBody <==> (|s| >= 1 && forall i :: 0 <= i < |s| ==> ContactChar(s[i]))
  {
    if s != [] {
      BodyRun(s[1..]);
      if !ContactChar(s[0]) {
        DeadStaysDead(s[1..]);
      } else {
        assert forall i :: 1 <= i < |s| ==> s[i] == s[1..][i - 1];
      }
    }
  }

  /** The automaton accepts exactly the language of the phone pattern. */
  lemma ContactMatchesIsPattern(s: string)
    ensures ContactMatches(s) <==> InContactLanguage(s)
  {
    if s != [] {
      var rest := s[1..];
      assert forall i :: 1 <= i < |s| ==> s[i] == rest[i - 1];
      if s[0] == '+' {
        AfterPlusRun(rest);
        assert !ContactChar(s[0]);
      } else if ContactChar(s[0]) {
        BodyRun(rest);
      } else {
        DeadStaysDead(rest);
      }
    }
  }

  /** A contact passes iff it is an optional '+' followed by at least one contact character. */
  lemma ContactRule(contact: string)
    ensures ContactError(contact).None? <==> InContactLanguage(contact)
  {
    ContactMatchesIsPattern(contact);
  }

  /** A '+' anywhere but in front is rejected. */
  lemma PlusOnlyInFront(contact: string, i: nat)
    requires 0 < i < |contact| && contact[i] == '+'
    ensures ContactError(contact) == Some(ContactInvalid)
  {
    ContactMatchesIsPattern(contact);
    assert !ContactChar(contact[i]);
  }

  /** A lone '+' has no digits after it and is rejected. */
  lemma LonePlusRejected()
    ensures ContactError("+") == Some(ContactInvalid)
  {
    ContactMatchesIsPattern("+");
  }

  /** Whitespace and punctuation may carry the digits: "+254 (712) 345-678" is accepted. */
  lemma FormattedNumberAccepted()
    ensures ContactError("+254 (712) 345-678").None?
  {
    var s := "+254 (712) 345-678";
    assert forall i :: 1 <= i < |s| ==> ContactChar(s[i]);
    ContactMatchesIsPattern(s);
  }
}
