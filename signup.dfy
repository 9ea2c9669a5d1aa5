/**
  The sign-up form (Frontend/src/components/auth/signup.jsx): its field
  values, the error shown under each field, and the loading flag, with
  the checks made when a field loses focus and when the form is submitted.
*/
module Signup {
  import opened Wrappers
  import opened Text
  import opened AuthValidation

  const ShortPasswordText: string := "Password must be at least 8 characters long"
  /** The mismatch message of a field losing focus ... */
  const MismatchOnBlurText: string := "Passwords do not match"
  /** ... and the one of a submission: the two texts differ. */
  const MismatchOnSubmitText: string := "Passwords don't match"
  const SignupFailedText: string := "Signup failed"
  const SomethingWentWrongText: string := "Something went wrong"

  /** The least number of UTF-16 code units of a password. */
  const MinPasswordLength: nat := 8

  /** The errors after field `name` with text `value` loses focus, given the
      password typed so far: a blank value changes nothing; the e-mail,
      password and confirmation fields get their message exactly when their
      check fails and the empty string when it passes; any other field and
      every other entry keep what they had. */
  function Blurred(errors: map<string, string>, password: string, name: string, value: string): (r: map<string, string>)
    ensures AllWhitespace(value) || (name != "email" && name != "password" && name != "confirmPassword") ==> r == errors
    ensures r - {name} == errors - {name}
    ensures !AllWhitespace(value) && name == "email" ==>
              name in r && (HasError(r, name) <==> !EmailPattern(value))
              && (HasError(r, name) ==> r[name] == InvalidEmailText)
    ensures !AllWhitespace(value) && name == "password" ==>
              name in r && (HasError(r, name) <==> Utf16Length(value) < MinPasswordLength)
              && (HasError(r, name) ==> r[name] == ShortPasswordText)
    ensures !AllWhitespace(value) && name == "confirmPassword" ==>
              name in r && (HasError(r, name) <==> value != password)
              && (HasError(r, name) ==> r[name] == MismatchOnBlurText)
  {
    ValidateEmailIsPattern(value);
    if AllWhitespace(value) then errors
    else if name == "email" then errors[name := if ValidateEmail(value) then "" else InvalidEmailText]
    else if name == "password" then errors[name := if Utf16Length(value) < MinPasswordLength then ShortPasswordText else ""]
    else if name == "confirmPassword" then errors[name := if value != password then MismatchOnBlurText else ""]
    else errors
  }

  /** The checks of a submission, in order: the confirmation must equal the
      password, then the e-mail must match the pattern, then the password
      must be long enough. The result is the field and message of the first
      check that fails, or nothing when all pass. */
  function SubmitCheck(email: string, password: string, confirmPassword: string): (r: Option<(string, string)>)
    ensures r.None? <==> password == confirmPassword && EmailPattern(email) && Utf16Length(password) >= MinPasswordLength
    ensures password != confirmPassword ==> r == Some(("confirmPassword", MismatchOnSubmitText))
    ensures password == confirmPassword && !EmailPattern(email) ==> r == Some(("email", InvalidEmailText))
    ensures password == confirmPassword && EmailPattern(email) && Utf16Length(password) < MinPasswordLength ==>
              r == Some(("password", ShortPasswordText))
  {
    ValidateEmailIsPattern(email);
    if password != confirmPassword then Some(("confirmPassword", MismatchOnSubmitText))
    else if !ValidateEmail(email) then Some(("email", InvalidEmailText))
    else if Utf16Length(password) < MinPasswordLength then Some(("password", ShortPasswordText))
    else None
  }

  /** The errors once the request has ended, spread over the errors of that
      moment: an ok reply leaves them; a reply that is not ok adds the
      server's message, or "Signup failed"; an exception adds its message,
      or "Something went wrong". */
  function Settled(errors: map<string, string>, outcome: AuthOutcome): (r: map<string, string>)
    ensures outcome.Ok? ==> r == errors
    ensures !outcome.Ok? ==> r - {General} == errors - {General} && HasError(r, General)
    ensures outcome.NotOk? ==> r[General] == Or(outcome.message, SignupFailedText)
    ensures outcome.Thrown? ==> r[General] == Or(outcome.message, SomethingWentWrongText)
  {
    match outcome
    case Ok => errors
    case NotOk(message) => errors[General := Or(message, SignupFailedText)]
    case Thrown(message) => errors[General := Or(message, SomethingWentWrongText)]
  }

  /** A submission that reaches the server carries a confirmed password of
      at least eight code units and an address of the form
      `local@domain.tld`. */
  lemma SubmittedFormIsWellFormed(email: string, password: string, confirmPassword: string)
    requires SubmitCheck(email, password, confirmPassword).None?
    ensures exists at, dot :: 0 < at < dot - 1 < |email| - 2 && email[at] == '@' && email[dot] == '.'
    ensures |password| >= 4 && password == confirmPassword
  {
    assert EmailPattern(email);
  }

  /** A password that passes the focus check passes the submission's length
      check too, and one that fails it blocks the submission, provided the
      other two checks pass. */
  lemma BlurAndSubmitAgreeOnLength(errors: map<string, string>, email: string, password: string)
    requires !AllWhitespace(password) && EmailPattern(email)
    ensures HasError(Blurred(errors, password, "password", password), "password")
            <==> SubmitCheck(email, password, password).Some?
  {
  }

  /** The form's state. The four fields of the form are always present. */
  class SignupForm {
    var formData: map<string, string>
    var errors: map<string, string>
    var isLoading: bool

    ghost predicate Valid()
      reads this
    {
      "fullName" in formData && "email" in formData && "password" in formData && "confirmPassword" in formData
    }

    /** Four empty fields, no errors, not loading. */
    constructor ()
      ensures Valid()
      ensures formData == map["fullName" := "", "email" := "", "password" := "", "confirmPassword" := ""]
      ensures errors == map[] && !isLoading
    {
      formData := map["fullName" := "", "email" := "", "password" := "", "confirmPassword" := ""];
      errors := map[];
      isLoading := false;
    }

    /** `handleInputChange`: the field takes the typed value, and its error
        is cleared when it has one and the value is not blank. */
    method HandleInputChange(name: string, value: string)
      requires Valid()
      modifies this`formData, this`errors
      ensures Valid()
      ensures formData == old(formData)[name := value]
      ensures errors == ClearedOnInput(old(errors), name, value)
    {
      formData := formData[name := value];
      if HasError(errors, name) && !AllWhitespace(value) {
        errors := errors[name := ""];
      }
    }

    /** `handleBlur`: validates the field that lost focus against the
        password in the form. */
    method HandleBlur(name: string, value: string)
      requires Valid()
      modifies this`errors
      ensures errors == Blurred(old(errors), formData["password"], name, value)
    {
      if AllWhitespace(value) {
        return;
      }
      var newErrors := errors;
      if name == "email" {
        if !ValidateEmail(value) {
          newErrors := newErrors[name := InvalidEmailText];
        } else {
          newErrors := newErrors[name := ""];
        }
      } else if name == "password" {
        if Utf16Length(value) < MinPasswordLength {
          newErrors := newErrors[name := ShortPasswordText];
        } else {
          newErrors := newErrors[name := ""];
        }
      } else if name == "confirmPassword" {
        if value != formData["password"] {
          newErrors := newErrors[name := MismatchOnBlurText];
        } else {
          newErrors := newErrors[name := ""];
        }
      }
      errors := newErrors;
    }

    /** The synchronous part of `handleSubmit`: all errors go; then the
        first failing check leaves its single message and stops, and
        otherwise the form starts loading and the request is sent. */
    method HandleSubmit() returns (requested: bool)
      requires Valid()
      modifies this`errors, this`isLoading
      ensures var check := SubmitCheck(formData["email"], formData["password"], formData["confirmPassword"]);
              requested <==> check.None?
      ensures var check := SubmitCheck(formData["email"], formData["password"], formData["confirmPassword"]);
              check.Some? ==> errors == map[check.value.0 := check.value.1] && isLoading == old(isLoading)
      ensures requested ==> errors == map[] && isLoading
    {
      errors := map[];
      ValidateEmailIsPattern(formData["email"]);
      if formData["password"] != formData["confirmPassword"] {
        errors := errors["confirmPassword" := MismatchOnSubmitText];
        return false;
      }
      if !ValidateEmail(formData["email"]) {
        errors := errors["email" := InvalidEmailText];
        return false;
      }
      if Utf16Length(formData["password"]) < MinPasswordLength {
        errors := errors["password" := ShortPasswordText];
        return false;
      }
      isLoading := true;
      requested := true;
    }

    /** The asynchronous end of `handleSubmit`: the outcome's message is
        spread over the errors of the moment and loading stops. */
    method Settle(outcome: AuthOutcome)
      modifies this`errors, this`isLoading
      ensures errors == Settled(old(errors), outcome)
      ensures !isLoading
    {
      match outcome {
        case Ok =>
        case NotOk(message) =>
          errors := errors[General := Or(message, SignupFailedText)];
        case Thrown(message) =>
          errors := errors[General := Or(message, SomethingWentWrongText)];
      }
      isLoading := false;
    }
  }
}
