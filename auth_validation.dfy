/**
  What the sign-up and log-in forms share
  (Frontend/src/components/auth/signup.jsx, Frontend/src/components/auth/login.jsx):
  the e-mail pattern, the map of error messages, clearing an error while
  typing, and the ways a request to the server can end.
*/
module AuthValidation {
  import opened Wrappers
  import opened Text

  // ---------------------------------------------------------------------
  // The e-mail pattern `^[^\s@]+@[^\s@]+\.[^\s@]+$`

  /** A character of the class `[^\s@]`. */
  predicate Plain(c: char) {
    !IsWhitespace(c) && c != '@'
  }

  predicate AllPlain(s: string) {
    forall k :: 0 <= k < |s| ==> Plain(s[k])
  }

  /** `s` is, from start to end: one or more plain characters, `@`, one or
      more plain characters, `.`, one or more plain characters. */
  ghost predicate EmailPattern(s: string) {
    exists at, dot :: 0 < at && at + 1 < dot && dot + 1 < |s|
      && s[at] == '@' && s[dot] == '.'
      && AllPlain(s[..at]) && AllPlain(s[at + 1..dot]) && AllPlain(s[dot + 1..])
  }

  /** `validateEmail`: the text has an `@` after a non-empty start, no other
      `@` and no whitespace anywhere, and a `.` with at least one character
      between it and the `@` and at least one after it. */
  function ValidateEmail(s: string): (ok: bool)
    ensures ok ==> |s| >= 5 && Plain(s[0]) && Plain(s[|s| - 1])
  {
    match Find(s, (c: char) => c == '@')
    case None => false
    case Some(at) =>
      0 < at && at + 2 < |s|
      && (forall k | 0 <= k < |s| && k != at :: Plain(s[k]))
      && '.' in s[at + 2..|s| - 1]
  }

  /** `validateEmail` accepts exactly the texts the pattern matches. */
  lemma ValidateEmailIsPattern(s: string)
    ensures ValidateEmail(s) <==> EmailPattern(s)
  {
    if ValidateEmail(s) {
      AcceptedMatchesPattern(s);
    }
    if EmailPattern(s) {
      var at, dot :| 0 < at && at + 1 < dot && dot + 1 < |s|
        && s[at] == '@' && s[dot] == '.'
        && AllPlain(s[..at]) && AllPlain(s[at + 1..dot]) && AllPlain(s[dot + 1..]);
      PatternIsAccepted(s, at, dot);
    }
  }

  lemma AcceptedMatchesPattern(s: string)
    requires ValidateEmail(s)
    ensures EmailPattern(s)
  {
    var at := Find(s, (c: char) => c == '@').value;
    var t := s[at + 2..|s| - 1];
    var p :| 0 <= p < |t| && t[p] == '.';
    var m := at + 2 + p;
    assert s[m] == '.';
    var start, middle, end := s[..at], s[at + 1..m], s[m + 1..];
    forall k | 0 <= k < |start| ensures Plain(start[k]) {
      assert start[k] == s[k];
    }
    forall k | 0 <= k < |middle| ensures Plain(middle[k]) {
      assert middle[k] == s[at + 1 + k];
    }
    forall k | 0 <= k < |end| ensures Plain(end[k]) {
      assert end[k] == s[m + 1 + k];
    }
  }

  lemma PatternIsAccepted(s: string, at: nat, dot: nat)
    requires 0 < at && at + 1 < dot && dot + 1 < |s|
    requires s[at] == '@' && s[dot] == '.'
    requires AllPlain(s[..at]) && AllPlain(s[at + 1..dot]) && AllPlain(s[dot + 1..])
    ensures ValidateEmail(s)
  {
    forall k | 0 <= k < |s| && k != at ensures Plain(s[k]) {
      if k < at {
        assert s[k] == s[..at][k];
      } else if k < dot {
        assert s[k] == s[at + 1..dot][k - at - 1];
      } else if k > dot {
        assert s[k] == s[dot + 1..][k - dot - 1];
      }
    }
    var found := Find(s, (c: char) => c == '@');
    assert found == Some(at);
    assert s[at + 2..|s| - 1][dot - at - 2] == '.';
  }

  // ---------------------------------------------------------------------
  // Messages

  const InvalidEmailText: string := "Please enter a valid email address"
  const General: string := "general"

  // ---------------------------------------------------------------------
  // The error map

  /** `errors[name]` is truthy: an entry that is not the empty string. */
  predicate HasError(errors: map<string, string>, name: string) {
    name in errors && errors[name] != ""
  }

  /** The error handling of `handleInputChange`: typing text that is not
      blank into a field that shows an error clears that error; every other
      entry, and the entry of a field without an error, stays. */
  function ClearedOnInput(errors: map<string, string>, name: string, value: string): (r: map<string, string>)
    ensures HasError(errors, name) && !AllWhitespace(value) ==> r == errors[name := ""]
    ensures !HasError(errors, name) || AllWhitespace(value) ==> r == errors
    ensures !HasError(r, name) || r == errors
  {
    if HasError(errors, name) && !AllWhitespace(value) then errors[name := ""] else errors
  }

  /** How a request to the server ends: an ok reply, a reply that is not
      ok with the `message` of its body, or an exception with its
      `message`. */
  datatype AuthOutcome = Ok | NotOk(message: Option<string>) | Thrown(message: Option<string>)
}
