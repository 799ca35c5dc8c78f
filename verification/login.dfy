/**
 * The sign-in / sign-up form: its three field validators, the gate that keeps the
 * authentication service from being called while a validator complains, the mapping
 * from the service's error codes to messages, the mode toggle and the
 * forgotten-password flow. Calls to the authentication service, the user-document
 * write and navigation are recorded as effects; their outcomes are parameters.
 */
module Login {
  import opened JsText
  import opened Wrappers

  /** The messages the three field validators return; `NoError` is the empty string. */
  datatype FieldError =
    | NoError
    | EmailRequired | EmailInvalid
    | PasswordRequired | PasswordTooShort
    | NameRequired | NameTooShort
  {
    /** The text shown under the field. */
    function Text(): (t: string)
      ensures t == "" <==> this == NoError
    {
      match this
      case NoError => ""
      case EmailRequired => "Email is required"
      case EmailInvalid => "Please enter a valid email address"
      case PasswordRequired => "Password is required"
      case PasswordTooShort => "Password must be at least 6 characters long"
      case NameRequired => "Name is required"
      case NameTooShort => "Name must be at least 2 characters long"
    }
  }

  const FixErrorsBelow := "Please fix the errors below"
  const DefaultAuthError := "An error occurred. Please try again."

  // ---------------------------------------------------------------------------
  // The e-mail pattern /^[^\s@]+@[^\s@]+\.[^\s@]+$/
  // ---------------------------------------------------------------------------

  /** `[^\s@]+`: a non-empty run without whitespace and without '@'. */
  predicate PlainRun(s: string)
  {
    |s| > 0 && forall i :: 0 <= i < |s| ==> !IsWhitespace(s[i]) && s[i] != '@'
  }

  /** The language of the pattern, read off the regular expression. */
  ghost predicate MatchesEmailPattern(s: string)
  {
    exists local, host, tld :: PlainRun(local) && PlainRun(host) && PlainRun(tld) &&
      s == local + "@" + host + "." + tld
  }

  /** A '.' that is neither the first nor the last character. */
  predicate HasInnerDot(d: string)
  {
    exists j :: 0 < j < |d| - 1 && d[j] == '.'
  }

  /**
   * `emailRegex.test(s)`, decided from the structure of `s`: exactly one '@' with a
   * non-empty part before it, no whitespace, and an inner '.' after the '@'.
   */
  function EmailPatternTest(s: string): (r: bool)
    ensures r ==> NoWhitespace(s) && '@' in s
    ensures r ==> |s| >= 5 && s[0] != '@'
  {
    var local := FirstField(s, '@');
    FirstFieldSpec(s, '@');
    && |local| < |s|
    && |local| > 0
    && NoWhitespace(s)
    && '@' !in s[|local| + 1..]
    && HasInnerDot(s[|local| + 1..])
  }

  /** Every string the structural test accepts matches the regular expression. */
  lemma EmailPatternTestSound(s: string)
    requires EmailPatternTest(s)
    ensures MatchesEmailPattern(s)
  {
    FirstFieldSpec(s, '@');
    var k := |FirstField(s, '@')|;
    var domain := s[k + 1..];
    var j :| 0 < j < |domain| - 1 && domain[j] == '.';
    forall i | 0 <= i < k ensures s[i] != '@' {
      assert s[i] == FirstField(s, '@')[i];
    }
    forall i | k < i < |s| ensures s[i] != '@' {
      assert s[i] == domain[i - k - 1];
    }
    PlainPartsMatch(s, k, j);
  }

  /**
   * A string without whitespace, with its only '@' at `k` and a '.' at `j` places
   * into the part after it (neither first nor last there), matches the pattern.
   */
  lemma PlainPartsMatch(s: string, k: nat, j: nat)
    requires 0 < k && k + 1 + j + 1 < |s| && 0 < j
    requires s[k] == '@' && s[k + 1 + j] == '.' && NoWhitespace(s)
    requires forall i :: 0 <= i < |s| && i != k ==> s[i] != '@'
    ensures MatchesEmailPattern(s)
  {
    var local, host, tld := s[..k], s[k + 1..k + 1 + j], s[k + 2 + j..];
    PlainSlice(s, 0, k);
    PlainSlice(s, k + 1, k + 1 + j);
    PlainSlice(s, k + 2 + j, |s|);
    assert s[..k] == s[0..k];
    assert s[k + 2 + j..] == s[k + 2 + j..|s|];
    assert s == local + "@" + host + "." + tld by {
      assert s == s[..k] + [s[k]] + s[k + 1..k + 1 + j] + [s[k + 1 + j]] + s[k + 2 + j..];
    }
  }

  /** A non-empty slice of a whitespace-free string that avoids '@' is a plain run. */
  lemma PlainSlice(s: string, a: nat, b: nat)
    requires a < b <= |s| && NoWhitespace(s)
    requires forall i :: a <= i < b ==> s[i] != '@'
    ensures PlainRun(s[a..b])
  {
  }

  /** Every string the regular expression matches passes the structural test. */
  lemma EmailPatternTestComplete(s: string)
    requires MatchesEmailPattern(s)
    ensures EmailPatternTest(s)
  {
    var a, b, c :| PlainRun(a) && PlainRun(b) && PlainRun(c) && s == a + "@" + b + "." + c;
    assert s == a + ("@" + b + "." + c);
    FirstFieldStopsAtSeparator(a, "@" + b + "." + c, '@');
    var domain := s[|a| + 1..];
    assert domain == b + "." + c;
    assert domain[|b|] == '.';
    forall i | 0 <= i < |s| ensures !IsWhitespace(s[i]) {
      if i < |a| { assert s[i] == a[i]; }
      else if i == |a| { assert s[i] == '@'; }
      else if i < |a| + 1 + |b| { assert s[i] == b[i - |a| - 1]; }
      else if i == |a| + 1 + |b| { assert s[i] == '.'; }
      else { assert s[i] == c[i - |a| - 2 - |b|]; }
    }
    forall i | 0 <= i < |domain| ensures domain[i] != '@' {
      if i < |b| { assert domain[i] == b[i]; }
      else if i > |b| { assert domain[i] == c[i - |b| - 1]; }
    }
  }

  /** The structural test accepts exactly the strings the regular expression matches. */
  lemma EmailPatternTestIsRegex(s: string)
    ensures EmailPatternTest(s) <==> MatchesEmailPattern(s)
  {
    if EmailPatternTest(s) { EmailPatternTestSound(s); }
    if MatchesEmailPattern(s) { EmailPatternTestComplete(s); }
  }

  /** Splitting at the first separator of `a + rest` yields `a` when `a` has none and `rest` starts with one. */
  lemma FirstFieldStopsAtSeparator(a: string, rest: string, sep: char)
    requires sep !in a && |rest| > 0 && rest[0] == sep
    ensures FirstField(a + rest, sep) == a
  {
    var s := a + rest;
    FirstFieldSpec(s, sep);
    assert s[..|a|] == a;
    assert s[|a|] == sep;
  }

  // ---------------------------------------------------------------------------
  // Validators
  // ---------------------------------------------------------------------------

  /** `validateEmail`: the required check on the trimmed text, the pattern on the text as typed. */
  function ValidateEmail(email: string): (r: FieldError)
    ensures r.NoError? || r.EmailRequired? || r.EmailInvalid?
  {
    if Trim(email) == "" then EmailRequired
    else if !EmailPatternTest(email) then EmailInvalid
    else NoError
  }

  /** An all-blank address is missing; any other is accepted exactly when it matches the pattern. */
  lemma ValidateEmailMeaning(email: string)
    ensures Blank(email) <==> ValidateEmail(email) == EmailRequired
    ensures !Blank(email) ==> (ValidateEmail(email) == NoError <==> MatchesEmailPattern(email))
  {
    TrimEmptyIffBlank(email);
    EmailPatternTestIsRegex(email);
  }

  /**
   * `validatePassword`: blankness is judged after trimming, the length before, so
   * surrounding spaces count towards the six characters.
   */
  function ValidatePassword(password: string): (r: FieldError)
    ensures r.NoError? || r.PasswordRequired? || r.PasswordTooShort?
    ensures r.NoError? ==> |password| >= 6
  {
    if Trim(password) == "" then PasswordRequired
    else if |password| < 6 then PasswordTooShort
    else NoError
  }

  /** Blank is missing, otherwise fewer than six characters (spaces included) is too short. */
  lemma ValidatePasswordMeaning(password: string)
    ensures Blank(password) <==> ValidatePassword(password) == PasswordRequired
    ensures ValidatePassword(password) == PasswordTooShort <==> !Blank(password) && |password| < 6
    ensures ValidatePassword(password) == NoError <==> !Blank(password) && |password| >= 6
  {
    TrimEmptyIffBlank(password);
  }

  /** `validateName`: no constraint while signing in; a trimmed length of 2 or more when signing up. */
  function ValidateName(isLogin: bool, name: string): (r: FieldError)
    ensures r.NoError? || r.NameRequired? || r.NameTooShort?
    ensures isLogin ==> r == NoError
    ensures r == NoError <==> isLogin || |Trim(name)| >= 2
  {
    if !isLogin && Trim(name) == "" then NameRequired
    else if !isLogin && |Trim(name)| < 2 then NameTooShort
    else NoError
  }

  /** When signing up, a blank name is missing and a one-character trimmed name too short. */
  lemma ValidateNameMeaning(isLogin: bool, name: string)
    ensures !isLogin ==> (Blank(name) <==> ValidateName(isLogin, name) == NameRequired)
    ensures !isLogin ==> (ValidateName(isLogin, name) == NameTooShort <==> |Trim(name)| == 1)
  {
    TrimEmptyIffBlank(name);
  }

  /** Whitespace around an otherwise well-formed address makes it invalid rather than trimmed. */
  lemma PaddedEmailIsInvalid(email: string)
    requires MatchesEmailPattern(email)
    ensures ValidateEmail(email) == NoError
    ensures ValidateEmail(" " + email) == EmailInvalid
  {
    EmailPatternTestIsRegex(email);
    ValidateEmailMeaning(email);
    var a, b, c :| PlainRun(a) && PlainRun(b) && PlainRun(c) && email == a + "@" + b + "." + c;
    assert email[0] == a[0];
    var padded := " " + email;
    assert !Blank(padded) by { assert padded[1] == email[0]; }
    ValidateEmailMeaning(padded);
    if MatchesEmailPattern(padded) {
      EmailPatternTestIsRegex(padded);
      assert IsWhitespace(padded[0]);
      assert false;
    }
  }

  // ---------------------------------------------------------------------------
  // Error codes of the authentication service
  // ---------------------------------------------------------------------------

  /** The failures `handleAuth` names, each with its code and its message. */
  datatype AuthFailure =
    | EmailAlreadyInUse | InvalidEmail | WeakPassword | UserNotFound
    | WrongPassword | InvalidCredential | TooManyRequests | UserDisabled
  {
    function Code(): string
    {
      match this
      case EmailAlreadyInUse => "auth/email-already-in-use"
      case InvalidEmail => "auth/invalid-email"
      case WeakPassword => "auth/weak-password"
      case UserNotFound => "auth/user-not-found"
      case WrongPassword => "auth/wrong-password"
      case InvalidCredential => "auth/invalid-credential"
      case TooManyRequests => "auth/too-many-requests"
      case UserDisabled => "auth/user-disabled"
    }

    function Message(): string
    {
      match this
      case EmailAlreadyInUse => EmailAlreadyInUseMessage
      case InvalidEmail => InvalidEmailMessage
      case WeakPassword => WeakPasswordMessage
      case UserNotFound => UserNotFoundMessage
      case WrongPassword => WrongPasswordMessage
      case InvalidCredential => InvalidCredentialMessage
      case TooManyRequests => TooManyRequestsMessage
      case UserDisabled => UserDisabledMessage
    }
  }

  const EmailAlreadyInUseMessage := "This email is already registered. Please sign in instead."
  const InvalidEmailMessage := "Please enter a valid email address."
  const WeakPasswordMessage := "Password is too weak. Please choose a stronger password."
  const UserNotFoundMessage := "Email not registered, please sign up."
  const WrongPasswordMessage := "Incorrect password. Please try again."
  const InvalidCredentialMessage := "Invalid email or password. Please check your credentials and try again, or sign up if you don't have an account."
  const TooManyRequestsMessage := "Too many failed attempts. Please try again later."
  const UserDisabledMessage := "This account has been disabled. Please contact support."

  /** The listed failure a code names, if any: the `case` labels of the switch. */
  function ListedFailure(code: string): (r: Option<AuthFailure>)
    ensures r.Some? ==> r.value.Code() == code
  {
    match code
    case "auth/email-already-in-use" => Some(EmailAlreadyInUse)
    case "auth/invalid-email" => Some(InvalidEmail)
    case "auth/weak-password" => Some(WeakPassword)
    case "auth/user-not-found" => Some(UserNotFound)
    case "auth/wrong-password" => Some(WrongPassword)
    case "auth/invalid-credential" => Some(InvalidCredential)
    case "auth/too-many-requests" => Some(TooManyRequests)
    case "auth/user-disabled" => Some(UserDisabled)
    case _ => None
  }

  const UnknownCodePrefix := "Authentication error: "
  const UnknownCodeSuffix := ". Please try again."

  /**
   * The message `handleAuth` shows for a failure: a missing or empty code gives the
   * default, a listed code its own message, any other code a message quoting it.
   */
  function AuthErrorMessage(code: Option<string>): (m: string)
    ensures |m| > 0
    ensures code.None? ==> m == DefaultAuthError
  {
    match code
    case None => DefaultAuthError
    case Some(c) =>
      if c == "" then DefaultAuthError
      else match ListedFailure(c)
        case Some(f) => f.Message()
        case None => UnknownCodePrefix + c + UnknownCodeSuffix
  }

  /** Every listed failure is recognised from its own code. */
  lemma ListedFailureRoundTrip(f: AuthFailure)
    ensures ListedFailure(f.Code()) == Some(f)
  {
  }

  /** No listed message is empty or the default one. */
  lemma ListedMessagesStandApart(f: AuthFailure)
    ensures |f.Message()| > 0
    ensures f.Message() != DefaultAuthError
  {
  }

  /** Different listed failures have different messages. */
  lemma ListedMessagesDistinct(f: AuthFailure, g: AuthFailure)
    requires f != g
    ensures f.Message() != g.Message()
  {
  }

  /**
   * No listed message has the form of the message for an unlisted code: the short ones
   * are too short for it, and the long ones end otherwise than ". Please try again.".
   */
  lemma ListedMessageIsNotUnknown(f: AuthFailure, c: string)
    requires c != ""
    ensures f.Message() != UnknownCodePrefix + c + UnknownCodeSuffix
  {
    var u := UnknownCodePrefix + c + UnknownCodeSuffix;
    var m := f.Message();
    if |m| == |u| {
      assert u[|u| - 2] == 'n';
      match f {
        case EmailAlreadyInUse => assert m[|m| - 2] == 'd';
        case WeakPassword => assert m[|m| - 2] == 'd';
        case InvalidCredential => assert m[|m| - 2] == 't';
        case TooManyRequests => assert m[|m| - 2] == 'r';
        case UserDisabled => assert m[|m| - 2] == 't';
        case _ =>
      }
    }
  }

  /** The default message is too short to be the message for an unlisted code. */
  lemma DefaultIsNotUnknown(c: string)
    requires c != ""
    ensures DefaultAuthError != UnknownCodePrefix + c + UnknownCodeSuffix
  {
  }

  /**
   * The failure message tells the codes apart: the default is shown exactly for a
   * missing or empty code, and any other code can be read back from its message.
   */
  lemma AuthErrorMessageIdentifiesCode(a: Option<string>, b: Option<string>)
    requires AuthErrorMessage(a) == AuthErrorMessage(b)
    ensures (a.None? || a == Some("")) <==> (b.None? || b == Some(""))
    ensures a.Some? && a.value != "" ==> a == b
  {
    if a.Some? && a.value != "" {
      ItsOwnMessage(a.value);
    }
    if b.Some? && b.value != "" {
      ItsOwnMessage(b.value);
    }
    if a.Some? && a.value != "" && b.Some? && b.value != "" {
      match (ListedFailure(a.value), ListedFailure(b.value)) {
        case (Some(f), Some(g)) =>
          if f != g {
            ListedMessagesDistinct(f, g);
          }
        case (Some(f), None) =>
          ListedMessageIsNotUnknown(f, b.value);
        case (None, Some(g)) =>
          ListedMessageIsNotUnknown(g, a.value);
        case (None, None) =>
          UnknownCodeIsQuoted(a.value);
          UnknownCodeIsQuoted(b.value);
      }
    }
  }

  /** The message for a non-empty code is never the default one. */
  lemma ItsOwnMessage(c: string)
    requires c != ""
    ensures AuthErrorMessage(Some(c)) != DefaultAuthError
  {
    match ListedFailure(c) {
      case Some(f) => ListedMessagesStandApart(f);
      case None => DefaultIsNotUnknown(c);
    }
  }

  /** The message for an unlisted code quotes the code, right after the fixed prefix. */
  lemma UnknownCodeIsQuoted(c: string)
    requires c != "" && ListedFailure(c).None?
    ensures var m := AuthErrorMessage(Some(c));
            |m| == |UnknownCodePrefix| + |c| + |UnknownCodeSuffix| &&
            m[|UnknownCodePrefix|..|UnknownCodePrefix| + |c|] == c
  {
  }

  /** The message `handleForgotPassword` shows for a failed reset request. */
  function ResetErrorMessage(code: Option<string>): (m: string)
    ensures |m| > 0
    ensures code.None? ==> m == DefaultAuthError
  {
    match code
    case Some("auth/invalid-email") => "Please enter a valid email address."
    case Some("auth/too-many-requests") => "Too many requests. Please try again later."
    case Some("auth/network-request-failed") => "Network error. Please check your connection."
    case _ => DefaultAuthError
  }

  /** The three codes that have a reset message of their own. */
  const ResetCodes: set<Option<string>> :=
    {Some("auth/invalid-email"), Some("auth/too-many-requests"), Some("auth/network-request-failed")}

  /** The default reset message is shown exactly for the codes outside the table, a missing one included. */
  lemma ResetDefaultIffUnlisted(code: Option<string>)
    ensures ResetErrorMessage(code) == DefaultAuthError <==> code !in ResetCodes
  {
  }

  /** A reset message of the table names its code: no two codes of the table share a message. */
  lemma ResetErrorMessageIdentifiesCode(a: Option<string>, b: Option<string>)
    requires ResetErrorMessage(a) == ResetErrorMessage(b)
    ensures a in ResetCodes || b in ResetCodes ==> a == b
  {
  }

  // ---------------------------------------------------------------------------
  // The form
  // ---------------------------------------------------------------------------

  /** The five messages shown under the form's fields. */
  datatype FieldErrors = FieldErrors(
    name: FieldError, email: FieldError, password: FieldError, general: string, forgotPassword: string)

  const NoErrors := FieldErrors(NoError, NoError, NoError, "", "")

  /** How an awaited call to the authentication service ended. */
  datatype CallOutcome = Succeeded | Failed(code: Option<string>)

  /** Calls to outside services and navigations, in the order the form makes them. */
  datatype Effect =
    | SignIn(email: string, password: string)
    | SignUp(email: string, password: string, displayName: string)
    | SendPasswordReset(email: string)
    | GoToAccount

  class LoginForm {
    var isLogin: bool
    var name: string
    var email: string
    var password: string
    var errors: FieldErrors
    var showForgotPassword: bool
    var forgotPasswordEmail: string
    var isLoading: bool
    var forgotPasswordLoading: bool
    var effects: seq<Effect>

    constructor ()
      ensures isLogin && name == "" && email == "" && password == ""
      ensures errors == NoErrors && !showForgotPassword && forgotPasswordEmail == ""
      ensures !isLoading && !forgotPasswordLoading && effects == []
    {
      isLogin := true;
      name, email, password := "", "", "";
      errors := NoErrors;
      showForgotPassword := false;
      forgotPasswordEmail := "";
      isLoading, forgotPasswordLoading := false, false;
      effects := [];
    }

    /** `handleEmailChange`: store the text, validate it, clear the general message. */
    method HandleEmailChange(text: string)
      modifies this
      ensures email == text
      ensures errors == old(errors).(email := ValidateEmail(text), general := "")
      ensures isLogin == old(isLogin) && name == old(name) && password == old(password)
      ensures showForgotPassword == old(showForgotPassword)
      ensures forgotPasswordEmail == old(forgotPasswordEmail)
      ensures isLoading == old(isLoading) && forgotPasswordLoading == old(forgotPasswordLoading)
      ensures effects == old(effects)
    {
      email := text;
      errors := errors.(email := ValidateEmail(text), general := "");
    }

    /** `handlePasswordChange`. */
    method HandlePasswordChange(text: string)
      modifies this
      ensures password == text
      ensures errors == old(errors).(password := ValidatePassword(text), general := "")
      ensures isLogin == old(isLogin) && name == old(name) && email == old(email)
      ensures showForgotPassword == old(showForgotPassword)
      ensures forgotPasswordEmail == old(forgotPasswordEmail)
      ensures isLoading == old(isLoading) && forgotPasswordLoading == old(forgotPasswordLoading)
      ensures effects == old(effects)
    {
      password := text;
      errors := errors.(password := ValidatePassword(text), general := "");
    }

    /** `handleNameChange`: validated against the current mode. */
    method HandleNameChange(text: string)
      modifies this
      ensures name == text
      ensures errors == old(errors).(name := ValidateName(isLogin, text), general := "")
      ensures isLogin == old(isLogin) && email == old(email) && password == old(password)
      ensures showForgotPassword == old(showForgotPassword)
      ensures forgotPasswordEmail == old(forgotPasswordEmail)
      ensures isLoading == old(isLoading) && forgotPasswordLoading == old(forgotPasswordLoading)
      ensures effects == old(effects)
    {
      name := text;
      errors := errors.(name := ValidateName(isLogin, text), general := "");
    }

    /**
     * `handleForgotPasswordEmailChange`: whatever the validator says, the panel shows
     * either nothing or the one invalid-address message.
     */
    method HandleForgotPasswordEmailChange(text: string)
      modifies this
      ensures forgotPasswordEmail == text
      ensures errors.forgotPassword == "" || errors.forgotPassword == EmailInvalid.Text()
      ensures errors.forgotPassword == "" <==> ValidateEmail(text) == NoError
      ensures errors == old(errors).(forgotPassword := errors.forgotPassword)
      ensures isLogin == old(isLogin) && name == old(name) && email == old(email)
      ensures password == old(password) && showForgotPassword == old(showForgotPassword)
      ensures isLoading == old(isLoading) && forgotPasswordLoading == old(forgotPasswordLoading)
      ensures effects == old(effects)
    {
      forgotPasswordEmail := text;
      var emailError := ValidateEmail(text);
      errors := errors.(forgotPassword := if emailError != NoError then EmailInvalid.Text() else "");
    }

    /** `toggleMode`: switch between signing in and signing up, starting from an empty form. */
    method ToggleMode()
      modifies this
      ensures isLogin == !old(isLogin)
      ensures name == "" && email == "" && password == ""
      ensures errors == NoErrors
      ensures !showForgotPassword
      ensures forgotPasswordEmail == old(forgotPasswordEmail)
      ensures isLoading == old(isLoading) && forgotPasswordLoading == old(forgotPasswordLoading)
      ensures effects == old(effects)
    {
      isLogin := !isLogin;
      name, email, password := "", "", "";
      errors := NoErrors;
      showForgotPassword := false;
    }

    /** `toggleForgotPassword`: open or close the panel with an empty address. */
    method ToggleForgotPassword()
      modifies this
      ensures showForgotPassword == !old(showForgotPassword)
      ensures forgotPasswordEmail == ""
      ensures errors == old(errors).(forgotPassword := "")
      ensures isLogin == old(isLogin) && name == old(name) && email == old(email)
      ensures password == old(password)
      ensures isLoading == old(isLoading) && forgotPasswordLoading == old(forgotPasswordLoading)
      ensures effects == old(effects)
    {
      showForgotPassword := !showForgotPassword;
      forgotPasswordEmail := "";
      errors := errors.(forgotPassword := "");
    }

    /**
     * `handleForgotPassword`: an invalid address is reported and nothing is sent;
     * otherwise a reset mail is requested for the trimmed address and, on success,
     * the panel is toggled.
     */
    method HandleForgotPassword(outcome: CallOutcome)
      modifies this
      ensures ValidateEmail(old(forgotPasswordEmail)) != NoError ==>
                && effects == old(effects)
                && errors == old(errors).(forgotPassword := ValidateEmail(old(forgotPasswordEmail)).Text())
                && showForgotPassword == old(showForgotPassword)
                && forgotPasswordEmail == old(forgotPasswordEmail)
      ensures ValidateEmail(old(forgotPasswordEmail)) == NoError ==>
                && effects == old(effects) + [SendPasswordReset(Trim(old(forgotPasswordEmail)))]
                && (outcome.Succeeded? ==>
                      && errors == old(errors).(forgotPassword := "")
                      && showForgotPassword == !old(showForgotPassword)
                      && forgotPasswordEmail == "")
                && (outcome.Failed? ==>
                      && errors == old(errors).(forgotPassword := ResetErrorMessage(outcome.code))
                      && showForgotPassword == old(showForgotPassword)
                      && forgotPasswordEmail == old(forgotPasswordEmail))
      ensures ValidateEmail(old(forgotPasswordEmail)) != NoError ==>
                forgotPasswordLoading == old(forgotPasswordLoading)
      ensures ValidateEmail(old(forgotPasswordEmail)) == NoError ==> !forgotPasswordLoading
      ensures isLogin == old(isLogin) && name == old(name) && email == old(email)
      ensures password == old(password) && isLoading == old(isLoading)
    {
      var emailError := ValidateEmail(forgotPasswordEmail);
      if emailError != NoError {
        errors := errors.(forgotPassword := emailError.Text());
        return;
      }
      forgotPasswordLoading := true;
      errors := errors.(forgotPassword := "");
      effects := effects + [SendPasswordReset(Trim(forgotPasswordEmail))];
      match outcome {
        case Succeeded =>
          ToggleForgotPassword();
        case Failed(code) =>
          errors := errors.(forgotPassword := ResetErrorMessage(code));
      }
      forgotPasswordLoading := false;
    }

    /**
     * `handleAuth`: validate all three fields; if any complains, show the messages and
     * call nothing. Otherwise sign in (or sign up and store the trimmed name), then go
     * to the account screen, or show the message for the failure's code.
     */
    method HandleAuth(outcome: CallOutcome)
      modifies this
      ensures var e, p, n := ValidateEmail(old(email)), ValidatePassword(old(password)),
                             ValidateName(old(isLogin), old(name));
              && (e != NoError || p != NoError || n != NoError ==>
                    && effects == old(effects) && isLoading == old(isLoading)
                    && errors == FieldErrors(n, e, p, FixErrorsBelow, ""))
              && (e == NoError && p == NoError && n == NoError ==>
                    var call := if old(isLogin) then SignIn(Trim(old(email)), old(password))
                                else SignUp(Trim(old(email)), old(password), Trim(old(name)));
                    && !isLoading
                    && (outcome.Succeeded? ==>
                          effects == old(effects) + [call, GoToAccount] && errors == NoErrors)
                    && (outcome.Failed? ==>
                          && effects == old(effects) + [call]
                          && errors == NoErrors.(general := AuthErrorMessage(outcome.code))))
      ensures isLogin == old(isLogin) && name == old(name) && email == old(email)
      ensures password == old(password)
      ensures showForgotPassword == old(showForgotPassword)
      ensures forgotPasswordEmail == old(forgotPasswordEmail)
      ensures forgotPasswordLoading == old(forgotPasswordLoading)
    {
      errors := NoErrors;
      var emailError := ValidateEmail(email);
      var passwordError := ValidatePassword(password);
      var nameError := ValidateName(isLogin, name);
      if emailError != NoError || passwordError != NoError || nameError != NoError {
        errors := FieldErrors(nameError, emailError, passwordError, FixErrorsBelow, "");
        return;
      }
      isLoading := true;
      var call := if isLogin then SignIn(Trim(email), password)
                  else SignUp(Trim(email), password, Trim(name));
      effects := effects + [call];
      match outcome {
        case Succeeded =>
          effects := effects + [GoToAccount];
        case Failed(code) =>
          errors := errors.(general := AuthErrorMessage(code));
      }
      isLoading := false;
    }
  }

  /** The gate: the authentication service is called only when every validator is satisfied. */
  method AuthGateScenario(f: LoginForm, outcome: CallOutcome)
    modifies f
    ensures |f.effects| > |old(f.effects)| ==>
              && ValidateEmail(f.email) == NoError
              && ValidatePassword(f.password) == NoError
              && ValidateName(f.isLogin, f.name) == NoError
  {
    f.HandleAuth(outcome);
  }
}
