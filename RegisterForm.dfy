/** The registration form: its check chain, the email pattern it uses, and
    the submit handler that calls the session store's `register`. */
module RegisterForm {
  import opened Common
  import opened JsString
  import opened Types
  import opened Session

  const EmptyFields := "Please fill in all fields"
  const PasswordMismatch := "Passwords do not match"
  const PasswordTooShort := "Password must be at least 6 characters long"
  const InvalidEmail := "Please enter a valid email address"
  const MinPasswordLength := 6

  /** One `[^\s@]+` run: non-empty, no whitespace, no `@`. */
  predicate EmailPart(t: string)
  {
    |t| > 0 && forall k :: 0 <= k < |t| ==> !IsWhitespace(t[k]) && t[k] != '@'
  }

  /** What it means for `s` to match `^[^\s@]+@[^\s@]+\.[^\s@]+$`: some `@`
      at `i` and `.` at `j` cut it into three such runs. */
  ghost predicate MatchesEmailPattern(s: string)
  {
    exists i, j :: 0 <= i < j < |s| && s[i] == '@' && s[j] == '.'
      && EmailPart(s[..i]) && EmailPart(s[i + 1..j]) && EmailPart(s[j + 1..])
  }

  /** The email check, decided directly: no whitespace, exactly one `@`,
      something before it, and a `.` in the domain that is neither the
      domain's first nor its last character. */
  predicate IsValidEmail(s: string)
  {
    && (forall k :: 0 <= k < |s| ==> !IsWhitespace(s[k]))
    && exists i :: 0 < i < |s| && s[i] == '@'
         && (forall k :: 0 <= k < |s| && k != i ==> s[k] != '@')
         && (exists j :: i + 1 < j < |s| - 1 && s[j] == '.')
  }

  /** The direct check accepts exactly the strings the pattern matches. */
  lemma ValidEmailIffPattern(s: string)
    ensures IsValidEmail(s) <==> MatchesEmailPattern(s)
  {
    if IsValidEmail(s) {
      ValidEmailMatches(s);
    }
    if MatchesEmailPattern(s) {
      MatchIsValidEmail(s);
    }
  }

  lemma ValidEmailMatches(s: string)
    requires IsValidEmail(s)
    ensures MatchesEmailPattern(s)
  {
    var i :| 0 < i < |s| && s[i] == '@'
       && (forall k :: 0 <= k < |s| && k != i ==> s[k] != '@')
       && (exists j :: i + 1 < j < |s| - 1 && s[j] == '.');
    var j :| i + 1 < j < |s| - 1 && s[j] == '.';
    PartOfSlice(s, 0, i, i);
    PartOfSlice(s, i + 1, j, i);
    PartOfSlice(s, j + 1, |s|, i);
    assert s[..i] == s[0..i] && s[j + 1..] == s[j + 1..|s|];
  }

  lemma MatchIsValidEmail(s: string)
    requires MatchesEmailPattern(s)
    ensures IsValidEmail(s)
  {
    var i, j :| 0 <= i < j < |s| && s[i] == '@' && s[j] == '.'
      && EmailPart(s[..i]) && EmailPart(s[i + 1..j]) && EmailPart(s[j + 1..]);
    forall k | 0 <= k < |s| && k != i
      ensures !IsWhitespace(s[k]) && s[k] != '@'
    {
      if k < i {
        assert s[..i][k] == s[k];
      } else if k < j {
        assert s[i + 1..j][k - i - 1] == s[k];
      } else if k > j {
        assert s[j + 1..][k - j - 1] == s[k];
      }
    }
    assert i > 0 && i + 1 < j < |s| - 1;
  }

  /** A slice of `s` that avoids the only `@`, at `at`, and holds no
      whitespace is one `[^\s@]+` run once it is non-empty. */
  lemma PartOfSlice(s: string, lo: int, hi: int, at: int)
    requires 0 <= lo < hi <= |s| && !(lo <= at < hi)
    requires forall k :: 0 <= k < |s| ==> !IsWhitespace(s[k])
    requires forall k :: 0 <= k < |s| && k != at ==> s[k] != '@'
    ensures EmailPart(s[lo..hi])
  {
    forall k | 0 <= k < hi - lo ensures !IsWhitespace(s[lo..hi][k]) && s[lo..hi][k] != '@' {
      assert s[lo..hi][k] == s[lo + k];
    }
  }

  /** `validateForm`'s verdict: `None` when every check passes, otherwise
      the message of the first check that fails. Each message is reported
      exactly when its own check fails and all earlier ones pass. */
  function Validate(username: string, email: string, password: string, confirmPassword: string): (r: Option<string>)
    ensures r == Some(EmptyFields)
      <==> username == "" || email == "" || password == "" || confirmPassword == ""
    ensures r == Some(PasswordMismatch)
      <==> username != "" && email != "" && password != "" && confirmPassword != ""
           && password != confirmPassword
    ensures r == Some(PasswordTooShort)
      <==> username != "" && email != "" && password != "" && password == confirmPassword
           && |password| < MinPasswordLength
    ensures r == Some(InvalidEmail)
      <==> username != "" && email != "" && password == confirmPassword
           && |password| >= MinPasswordLength && !IsValidEmail(email)
    ensures r == None
      <==> username != "" && password == confirmPassword
           && |password| >= MinPasswordLength && IsValidEmail(email)
  {
    if username == "" || email == "" || password == "" || confirmPassword == "" then Some(EmptyFields)
    else if password != confirmPassword then Some(PasswordMismatch)
    else if |password| < MinPasswordLength then Some(PasswordTooShort)
    else if !IsValidEmail(email) then Some(InvalidEmail)
    else None
  }

  /** The first failing check wins: short passwords that also differ are
      reported as a mismatch, and nothing is trimmed, so a username of
      spaces counts as filled in. */
  lemma CheckOrderExamples()
    ensures Validate("ann", "a@b.co", "abc", "abd") == Some(PasswordMismatch)
    ensures Validate("ann", "a@b.co", "abc", "abc") == Some(PasswordTooShort)
    ensures Validate("   ", "a@b.co", "secret", "secret") == None
    ensures Validate("ann", "a@bco", "secret", "secret") == Some(InvalidEmail)
  {
    assert IsValidEmail("a@b.co") by {
      assert "a@b.co"[1] == '@' && "a@b.co"[3] == '.';
    }
    assert !IsValidEmail("a@bco");
  }

  /** The form's state and the store it registers with. */
  class Form {
    const auth: AuthProvider
    var username: string
    var email: string
    var password: string
    var confirmPassword: string
    var showError: bool
    var validationError: string
    /** The last `router.push` target, if the form navigated. */
    var navigatedTo: Option<string>

    constructor (auth: AuthProvider)
      ensures this.auth == auth
      ensures username == "" && email == "" && password == "" && confirmPassword == ""
      ensures !showError && validationError == "" && navigatedTo == None
    {
      this.auth := auth;
      username, email, password, confirmPassword := "", "", "", "";
      showError, validationError, navigatedTo := false, "", None;
    }

    /** The four `onChange` handlers, applied together. */
    method Edit(newUsername: string, newEmail: string, newPassword: string, newConfirm: string)
      modifies this
      ensures username == newUsername && email == newEmail
      ensures password == newPassword && confirmPassword == newConfirm
      ensures showError == old(showError) && validationError == old(validationError)
      ensures navigatedTo == old(navigatedTo)
    {
      username, email, password, confirmPassword := newUsername, newEmail, newPassword, newConfirm;
    }

    /** `validateForm`: returns whether every check passes, and on the first
      failure writes its message to `validationError`. */
    method ValidateForm() returns (ok: bool)
      modifies this`validationError
      ensures ok <==> Validate(username, email, password, confirmPassword) == None
      ensures validationError
        == if ok then old(validationError) else Validate(username, email, password, confirmPassword).value
    {
      if username == "" || email == "" || password == "" || confirmPassword == "" {
        validationError := EmptyFields;
        return false;
      }
      if password != confirmPassword {
        validationError := PasswordMismatch;
        return false;
      }
      if |password| < MinPasswordLength {
        validationError := PasswordTooShort;
        return false;
      }
      if !IsValidEmail(email) {
        validationError := InvalidEmail;
        return false;
      }
      return true;
    }

    /** `handleSubmit`, with `reply` standing for the server's answer to the
      registration call. `called` is the request handed to `register`, or
      `None` when it was not called. */
    method HandleSubmit(reply: AuthReply) returns (called: Option<RegisterRequest>)
      requires auth.Valid()
      modifies this, auth
      ensures auth.Valid()
      ensures username == old(username) && email == old(email)
      ensures password == old(password) && confirmPassword == old(confirmPassword)
      ensures var verdict := Validate(username, email, password, confirmPassword);
        && (verdict.Some? ==>
              && called == None && showError && validationError == verdict.value
              && auth.Snapshot() == old(auth.Snapshot()) && navigatedTo == old(navigatedTo))
        && (verdict.None? ==>
              && called == Some(RegisterRequest(username, password, email))
              && validationError == ""
              && var attempt := Registered(old(auth.Snapshot()), called.value, reply);
              && auth.Snapshot() == attempt.after
              && (showError <==> attempt.raised.Some?)
              && navigatedTo == if attempt.raised.None? then Some("/todos") else old(navigatedTo))
    {
      showError := false;
      validationError := "";
      var ok := ValidateForm();
      if !ok {
        showError := true;
        return None;
      }
      called := Some(RegisterRequest(username, password, email));
      var raised := auth.Register(called.value, reply);
      if raised.None? {
        navigatedTo := Some("/todos");
      } else {
        showError := true;
      }
    }

    /** The message box: shown when the submit failed or the store holds an
      error, and then the store's error takes precedence. */
    function Displayed(): (r: Option<string>)
      reads this, auth
      ensures r.Some? <==> showError || Truthy(auth.error)
      ensures Truthy(auth.error) ==> r == auth.error
      ensures r.Some? && !Truthy(auth.error) ==> r.value == validationError
    {
      if showError || Truthy(auth.error) then
        Some(if Truthy(auth.error) then auth.error.value else validationError)
      else None
    }
  }

  /** After a failed submit the form always has a message to show: a failed
      check leaves its message, a failed registration leaves the store's
      non-empty error. */
  lemma FailedRegistrationIsShown(s: State, request: RegisterRequest, reply: AuthReply)
    requires Registered(s, request, reply).raised.Some?
    ensures Truthy(Registered(s, request, reply).after.error)
  {
  }
}
