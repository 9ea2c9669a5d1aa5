/**
  The log-in form (Frontend/src/components/auth/login.jsx): the e-mail and
  password typed, the error shown under each field, and the loading flag.
  Unlike the sign-up form it checks fields only when they lose focus, never
  clears an error there, and sends every submission to the server.
*/
module Login {
  import opened Wrappers
  import opened Text
  import opened AuthValidation
  import Signup

  const ShortPasswordText: string := "Password must be at least 6 characters long"
  const LoginFailedText: string := "Login failed"
  const TryAgainText: string := "Something went wrong. Try again."

  /** The least number of UTF-16 code units of a password on this form. */
  const MinPasswordLength: nat := 6

  /** The errors after field `name` with text `value` loses focus: a failed
      e-mail or password check sets that field's message; a passed check, a
      blank value or any other field leaves the errors as they were. */
  function Blurred(errors: map<string, string>, name: string, value: string): (r: map<string, string>)
    ensures r - {name} == errors - {name}
    ensures !AllWhitespace(value) && name == "email" && !EmailPattern(value) ==> r == errors[name := InvalidEmailText]
    ensures !AllWhitespace(value) && name == "password" && Utf16Length(value) < MinPasswordLength ==>
              r == errors[name := ShortPasswordText]
    ensures (AllWhitespace(value) || (name == "email" && EmailPattern(value))
             || (name == "password" && Utf16Length(value) >= MinPasswordLength)
             || (name != "email" && name != "password")) ==> r == errors
  {
    ValidateEmailIsPattern(value);
    if AllWhitespace(value) then errors
    else if name == "email" && !ValidateEmail(value) then errors[name := InvalidEmailText]
    else if name == "password" && Utf16Length(value) < MinPasswordLength then errors[name := ShortPasswordText]
    else errors
  }

  /** The errors once the request has ended: an ok reply leaves them; a reply
      that is not ok replaces them all by the server's message, or "Login
      failed"; an exception replaces them all by a fixed message, whatever it
      says. */
  function Settled(errors: map<string, string>, outcome: AuthOutcome): (r: map<string, string>)
    ensures outcome.Ok? ==> r == errors
    ensures !outcome.Ok? ==> r.Keys == {General} && HasError(r, General)
    ensures outcome.NotOk? ==> r[General] == Or(outcome.message, LoginFailedText)
    ensures outcome.Thrown? ==> r[General] == TryAgainText
  {
    match outcome
    case Ok => errors
    case NotOk(message) => map[General := Or(message, LoginFailedText)]
    case Thrown(_) => map[General := TryAgainText]
  }

  /** Losing focus never takes an error away on this form: whatever showed
      an error still does. */
  lemma BlurNeverClears(errors: map<string, string>, name: string, value: string)
    ensures forall field :: HasError(errors, field) ==> HasError(Blurred(errors, name, value), field)
  {
    var r := Blurred(errors, name, value);
    forall field | HasError(errors, field) ensures HasError(r, field) {
      if field != name {
        assert field in errors - {name};
      }
    }
  }

  /** A password of six or seven code units is accepted here and refused by
      the sign-up form when either field loses focus. */
  lemma PasswordLengthGap(loginErrors: map<string, string>, signupErrors: map<string, string>, confirm: string, password: string)
    requires !AllWhitespace(password) && 6 <= Utf16Length(password) < 8
    requires !HasError(loginErrors, "password")
    ensures !HasError(Blurred(loginErrors, "password", password), "password")
    ensures HasError(Signup.Blurred(signupErrors, confirm, "password", password), "password")
  {
  }

  /** A valid address typed over an e-mail error clears it on the sign-up
      form when the field loses focus, but not on this form. */
  lemma ValidEmailClearsOnlyOnSignup(errors: map<string, string>, password: string, email: string)
    requires HasError(errors, "email") && !AllWhitespace(email) && EmailPattern(email)
    ensures HasError(Blurred(errors, "email", email), "email")
    ensures !HasError(Signup.Blurred(errors, password, "email", email), "email")
  {
  }

  /** The form's state. Both fields are always present. */
  class LoginForm {
    var formData: map<string, string>
    var errors: map<string, string>
    var isLoading: bool

    ghost predicate Valid()
      reads this
    {
      "email" in formData && "password" in formData
    }

    /** Two empty fields, no errors, not loading. */
    constructor ()
      ensures Valid()
      ensures formData == map["email" := "", "password" := ""]
      ensures errors == map[] && !isLoading
    {
      formData := map["email" := "", "password" := ""];
      errors := map[];
      isLoading := false;
    }

    /** `handleInputChange`: the same as on the sign-up form. */
    method HandleInputChange(name: string, value: string)
      requires Valid()
      modifies this`formData, this`errors
      ensures Valid()
      ensures formData == old(formData)[name := value]
      ensures errors == ClearedOnInput(old(errors), name, value)
    {
      formData := formData[name := value];
      if HasError(errors, name) && !AllWhitespace(value) {
        errors := errors[name := ""];
      }
    }

    /** `handleBlur`. */
    method HandleBlur(name: string, value: string)
      modifies this`errors
      ensures errors == Blurred(old(errors), name, value)
    {
      if AllWhitespace(value) {
        return;
      }
      var newErrors := errors;
      if name == "email" {
        if !ValidateEmail(value) {
          newErrors := newErrors[name := InvalidEmailText];
        }
      } else if name == "password" {
        if Utf16Length(value) < MinPasswordLength {
          newErrors := newErrors[name := ShortPasswordText];
        }
      }
      errors := newErrors;
    }

    /** The synchronous part of `handleSubmit`: there is no check, the form
        starts loading and the request is sent; the errors stay. */
    method HandleSubmit()
      modifies this`isLoading
      ensures isLoading
    {
      isLoading := true;
    }

    /** The asynchronous end of `handleSubmit`: the errors are settled and
        loading stops. */
    method Settle(outcome: AuthOutcome)
      modifies this`errors, this`isLoading
      ensures errors == Settled(old(errors), outcome)
      ensures !isLoading
    {
      match outcome {
        case Ok =>
        case NotOk(message) =>
          errors := map[General := Or(message, LoginFailedText)];
        case Thrown(_) =>
          errors := map[General := TryAgainText];
      }
      isLoading := false;
    }
  }
}
