/** The login form: field validation and the guard in front of `login`. */
module LoginForm {

  /** JavaScript's `\s`: the white-space and line-terminator characters of ECMAScript. */
  predicate IsSpace(c: char)
  {
    || c == ' ' || c == '\t' || c == '\n' || c == '\r' || c == '\U{B}' || c == '\U{C}'
    || c == '\U{A0}' || c == '\U{1680}' || ('\U{2000}' <= c <= '\U{200A}')
    || c == '\U{2028}' || c == '\U{2029}' || c == '\U{202F}' || c == '\U{205F}'
    || c == '\U{3000}' || c == '\U{FEFF}'
  }

  /** `s[lo..hi]` is a match of `\S+`: one or more characters, none of them white space. */
  predicate NonSpaceRun(s: string, lo: int, hi: int)
  {
    0 <= lo < hi <= |s| && forall k :: lo <= k < hi ==> !IsSpace(s[k])
  }

  /** `w` splits as `\S+` '@' `\S+` '.' `\S+` at the '@' index `i` and the '.' index `j`. */
  predicate SplitsAt(w: string, i: int, j: int)
  {
    && 0 <= i < j < |w|
    && w[i] == '@' && w[j] == '.'
    && NonSpaceRun(w, 0, i) && NonSpaceRun(w, i + 1, j) && NonSpaceRun(w, j + 1, |w|)
  }

  /** `w` as a whole is in the language of `\S+@\S+\.\S+`. */
  predicate PatternWord(w: string)
  {
    exists i, j :: 0 <= i < |w| && i < j < |w| && SplitsAt(w, i, j)
  }

  /** `s[a..b]` matches the pattern. */
  predicate MatchesAt(s: string, a: int, b: int)
  {
    0 <= a <= b <= |s| && PatternWord(s[a..b])
  }

  /** `/\S+@\S+\.\S+/.test(s)`: the pattern is not anchored, so it passes when some stretch of
      `s` matches. */
  predicate EmailPatternTest(s: string)
  {
    exists a, b :: 0 <= a <= |s| && a <= b <= |s| && MatchesAt(s, a, b)
  }

  /** A direct reading of the same test: an '@' with a non-space character just before it, then
      a run of at least one non-space character, then a '.', then a non-space character. */
  predicate EmailShape(s: string)
  {
    exists i, j :: 0 < i < |s| && i + 1 < j < |s| && ShapeAt(s, i, j)
  }

  predicate ShapeAt(s: string, i: int, j: int)
  {
    && 0 < i && i + 1 < j && j + 1 < |s|
    && s[i] == '@' && s[j] == '.'
    && !IsSpace(s[i - 1]) && NonSpaceRun(s, i + 1, j) && !IsSpace(s[j + 1])
  }

  /** The regular-expression test and the direct reading agree on every string. */
  lemma EmailPatternTestIff(s: string)
    ensures EmailPatternTest(s) <==> EmailShape(s)
  {
    if EmailPatternTest(s) {
      var a, b :| 0 <= a <= |s| && a <= b <= |s| && MatchesAt(s, a, b);
      var w := s[a..b];
      var i, j :| 0 <= i < |w| && i < j < |w| && SplitsAt(w, i, j);
      assert forall k :: 0 <= k < |w| ==> w[k] == s[a + k];
      assert ShapeAt(s, a + i, a + j);
    }
    if EmailShape(s) {
      var i, j :| 0 < i < |s| && i + 1 < j < |s| && ShapeAt(s, i, j);
      var w := s[i - 1..j + 2];
      assert forall k :: 0 <= k < |w| ==> w[k] == s[i - 1 + k];
      assert SplitsAt(w, 1, j - i + 1);
      assert MatchesAt(s, i - 1, j + 2);
    }
  }

  /** Surrounding text never makes a passing email fail: white space or anything else may
      stand before and after the match. */
  lemma EmailPatternUnanchored(before: string, s: string, after: string)
    requires EmailPatternTest(s)
    ensures EmailPatternTest(before + s + after)
  {
    var a, b :| 0 <= a <= |s| && a <= b <= |s| && MatchesAt(s, a, b);
    var t := before + s + after;
    assert t[|before| + a..|before| + b] == s[a..b];
    assert MatchesAt(t, |before| + a, |before| + b);
  }

  /** The error shown under the email field. */
  function EmailError(email: string): string
  {
    if email == "" then "Email is required"
    else if !EmailPatternTest(email) then "Email is invalid"
    else ""
  }

  /** The error shown under the password field. */
  function PasswordError(password: string): string
  {
    if password == "" then "Password is required"
    else if |password| < 6 then "Password must be at least 6 characters"
    else ""
  }

  /** Which email error is shown, case by case. */
  lemma EmailErrorCases(email: string)
    ensures EmailError(email) == "Email is required" <==> email == ""
    ensures EmailError(email) == "Email is invalid" <==> email != "" && !EmailShape(email)
    ensures EmailError(email) == "" <==> email != "" && EmailShape(email)
  {
    EmailPatternTestIff(email);
  }

  /** Which password error is shown, case by case. */
  lemma PasswordErrorCases(password: string)
    ensures PasswordError(password) == "Password is required" <==> password == ""
    ensures PasswordError(password) == "Password must be at least 6 characters" <==> 1 <= |password| <= 5
    ensures PasswordError(password) == "" <==> |password| >= 6
  {
  }

  datatype FormErrors = FormErrors(email: string, password: string)

  const NoErrors: FormErrors := FormErrors("", "")

  /** The form is valid exactly when the email is non-empty and passes the pattern and the
      password has at least six characters. */
  lemma NoErrorsIff(email: string, password: string)
    ensures FormErrors(EmailError(email), PasswordError(password)) == NoErrors <==>
      email != "" && EmailShape(email) && |password| >= 6
  {
    EmailErrorCases(email);
    PasswordErrorCases(password);
  }

  /** The form's state: the two fields, the errors on display, and the `login(email, password)`
      calls the form has made. */
  class Form {
    var email: string
    var password: string
    var formErrors: FormErrors
    var loginCalls: seq<(string, string)>

    constructor ()
      ensures email == "" && password == "" && formErrors == NoErrors && loginCalls == []
    {
      email, password, formErrors, loginCalls := "", "", NoErrors, [];
    }

    /** The email field's `onChange`. */
    method SetEmail(value: string)
      modifies this`email
      ensures email == value
    {
      email := value;
    }

    /** The password field's `onChange`. */
    method SetPassword(value: string)
      modifies this`password
      ensures password == value
    {
      password := value;
    }

    /** `validateForm()`: each field is checked on its own, so one error never hides the
        other; the errors are put on display and the form is valid when both are empty. */
    method ValidateForm() returns (isValid: bool)
      modifies this`formErrors
      ensures formErrors == FormErrors(EmailError(email), PasswordError(password))
      ensures isValid <==> formErrors == NoErrors
    {
      isValid := true;
      var newErrors := NoErrors;
      if email == "" {
        newErrors := newErrors.(email := "Email is required");
        isValid := false;
      } else if !EmailPatternTest(email) {
        newErrors := newErrors.(email := "Email is invalid");
        isValid := false;
      }
      if password == "" {
        newErrors := newErrors.(password := "Password is required");
        isValid := false;
      } else if |password| < 6 {
        newErrors := newErrors.(password := "Password must be at least 6 characters");
        isValid := false;
      }
      formErrors := newErrors;
    }

    /** `handleSubmit`: validates, and calls `login` with the fields only when the form is
        valid. */
    method HandleSubmit()
      modifies this`formErrors, this`loginCalls
      ensures formErrors == FormErrors(EmailError(email), PasswordError(password))
      ensures loginCalls == if formErrors == NoErrors then old(loginCalls) + [(email, password)] else old(loginCalls)
    {
      var isValid := ValidateForm();
      if !isValid {
        return;
      }
      loginCalls := loginCalls + [(email, password)];
    }
  }
}
