/** The sign-up form: its field edits, the submit-time validation, and the loading flag and
    success dialog around the call to the sign-up handler. */
module Signup {
  import opened Wrappers
  import opened Auth

  /** The form's five inputs. */
  datatype Field = FirstName | LastName | Email | Password | Company

  function FieldValue(d: SignupData, f: Field): string
  {
    match f
    case FirstName => d.firstName
    case LastName => d.lastName
    case Email => d.email
    case Password => d.password
    case Company => d.company
  }

  /** `handleChange`: the named field takes the new value and every other field keeps its own. */
  function WithField(d: SignupData, f: Field, value: string): (r: SignupData)
    ensures FieldValue(r, f) == value
    ensures forall g :: g != f ==> FieldValue(r, g) == FieldValue(d, g)
  {
    match f
    case FirstName => d.(firstName := value)
    case LastName => d.(lastName := value)
    case Email => d.(email := value)
    case Password => d.(password := value)
    case Company => d.(company := value)
  }

  /** The two messages the submit step can reject with. */
  datatype SignupError = MissingRequiredFields | PasswordTooShort

  const MinPasswordLength: nat := 8

  /** The submit-time checks: the four required fields (an empty string is falsy) before the
      password length; the company may be left empty. */
  function Validate(d: SignupData): (e: Option<SignupError>)
    ensures e == Some(MissingRequiredFields) <==>
      d.firstName == "" || d.lastName == "" || d.email == "" || d.password == ""
    ensures e == Some(PasswordTooShort) <==>
      d.firstName != "" && d.lastName != "" && d.email != "" && d.password != "" && |d.password| < MinPasswordLength
    ensures e.None? <==>
      d.firstName != "" && d.lastName != "" && d.email != "" && |d.password| >= MinPasswordLength
  {
    if d.firstName == "" || d.lastName == "" || d.email == "" || d.password == "" then Some(MissingRequiredFields)
    else if |d.password| < MinPasswordLength then Some(PasswordTooShort)
    else None
  }

  /** The company never decides whether a submission is accepted. */
  lemma CompanyIsOptional(d: SignupData, company: string)
    ensures Validate(WithField(d, Company, company)) == Validate(d)
  {
  }

  /** An empty password is reported as a missing field, not as a short one. */
  lemma EmptyPasswordIsMissing(d: SignupData)
    requires d.password == ""
    ensures Validate(d) == Some(MissingRequiredFields)
  {
  }

  /** A notification the form raises. */
  datatype Toast = ErrorToast(error: SignupError) | SignupFailedToast

  class SignupForm {
    var formData: SignupData
    var isLoading: bool
    var showSuccessDialog: bool
    /** Notifications raised so far, oldest first. */
    var toasts: seq<Toast>

    /** A fresh form: every field empty, nothing pending. */
    constructor()
      ensures formData == SignupData("", "", "", "", "")
      ensures !isLoading && !showSuccessDialog && toasts == []
    {
      formData := SignupData("", "", "", "", "");
      isLoading := false;
      showSuccessDialog := false;
      toasts := [];
    }

    /** `handleChange`. */
    method HandleChange(f: Field, value: string)
      modifies this
      ensures formData == WithField(old(formData), f, value)
      ensures isLoading == old(isLoading) && showSuccessDialog == old(showSuccessDialog) && toasts == old(toasts)
    {
      formData := WithField(formData, f, value);
    }

    /** `handleSubmit`. The sign-up handler is outside the form: `handlerThrows` is whether the
        call fails. `sent` is what the handler receives, `None` when validation stops the submit. */
    method HandleSubmit(handlerThrows: bool) returns (sent: Option<SignupData>)
      modifies this
      ensures formData == old(formData)
      ensures Validate(old(formData)).Some? ==>
        && sent.None?
        && toasts == old(toasts) + [ErrorToast(Validate(old(formData)).value)]
        && isLoading == old(isLoading) && showSuccessDialog == old(showSuccessDialog)
      ensures Validate(old(formData)).None? ==>
        && sent == Some(old(formData))
        && !isLoading
        && (handlerThrows ==> toasts == old(toasts) + [SignupFailedToast] && showSuccessDialog == old(showSuccessDialog))
        && (!handlerThrows ==> toasts == old(toasts) && showSuccessDialog)
    {
      var error := Validate(formData);
      if error.Some? {
        toasts := toasts + [ErrorToast(error.value)];
        return None;
      }
      isLoading := true;
      sent := Some(formData);
      if handlerThrows {
        toasts := toasts + [SignupFailedToast];
      } else {
        showSuccessDialog := true;
      }
      isLoading := false;
    }

    /** `handleSuccessClose`: the dialog closes; the switch to the login form follows after a delay. */
    method HandleSuccessClose()
      modifies this
      ensures !showSuccessDialog
      ensures formData == old(formData) && isLoading == old(isLoading) && toasts == old(toasts)
    {
      showSuccessDialog := false;
    }
  }
}
