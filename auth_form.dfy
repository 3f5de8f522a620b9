/** The login/signup form of `Auth.tsx`: the username sanitiser on the username field, the
    ordered signup checks, and the submit handler that calls the identity store. */
module AuthForm {
  import opened Seqs
  import opened Text
  import opened Identity

  /** The characters `[a-z0-9_]` a username may hold. */
  predicate IsUsernameChar(c: char) {
    IsLower(c) || IsDigit(c) || c == '_'
  }

  /** The username field's `onChange`: `value.toLowerCase().replace(/[^a-z0-9_]/g, '')`. */
  function Sanitize(s: string): (r: string)
    ensures |r| <= |s|
    ensures forall i :: 0 <= i < |r| ==> IsUsernameChar(r[i])
    ensures (forall i :: 0 <= i < |s| ==> IsUsernameChar(s[i])) ==> r == s
  {
    var lowered := Lower(s);
    assert (forall i :: 0 <= i < |s| ==> IsUsernameChar(s[i])) ==> lowered == s;
    Filter(lowered, IsUsernameChar)
  }

  /** A character survives sanitising exactly when its lower-case form is allowed. */
  lemma SanitizeKeeps(s: string, c: char)
    ensures c in Sanitize(s) <==> IsUsernameChar(c) && exists i :: 0 <= i < |s| && LowerChar(s[i]) == c
  {
    FilterMembers(Lower(s), IsUsernameChar, c);
    if c in Lower(s) {
      var i :| 0 <= i < |s| && Lower(s)[i] == c;
      assert LowerChar(s[i]) == c;
    }
  }

  /** The sanitised text has no upper-case letter: lowering it changes nothing. */
  lemma SanitizedIsLowercase(s: string)
    ensures Lower(Sanitize(s)) == Sanitize(s)
  {
    var r := Sanitize(s);
    assert forall i :: 0 <= i < |r| ==> !IsUpper(r[i]);
  }

  /** Sanitising is idempotent. */
  lemma SanitizeIdempotent(s: string)
    ensures Sanitize(Sanitize(s)) == Sanitize(s)
  {
  }

  /** Sanitising a concatenation sanitises each part. */
  lemma SanitizeConcat(a: string, b: string)
    ensures Sanitize(a + b) == Sanitize(a) + Sanitize(b)
  {
    LowerConcat(a, b);
    FilterConcat(Lower(a), Lower(b), IsUsernameChar);
  }

  /** Typing after a sanitised prefix gives what sanitising the whole input at once gives:
      the field's value does not depend on how the input was split into edits. */
  lemma SanitizeIncremental(previous: string, typed: string)
    ensures Sanitize(Sanitize(previous) + typed) == Sanitize(previous + typed)
  {
    SanitizeConcat(Sanitize(previous), typed);
    SanitizeConcat(previous, typed);
    SanitizeIdempotent(previous);
  }

  /** The local signup checks that can fail, in the order they run. */
  datatype SignupProblem =
    | FullNameMissing
    | UsernameMissing
    | UsernameTooShort
    | EmailMissing
    | PasswordTooShort
    | PasswordMismatch

  /** The message each failed check shows. */
  function Message(p: SignupProblem): string {
    match p
    case FullNameMissing => "Please enter your full name"
    case UsernameMissing => "Please enter a username"
    case UsernameTooShort => "Username must be at least 3 characters"
    case EmailMissing => "Please enter your email"
    case PasswordTooShort => "Password must be at least 6 characters"
    case PasswordMismatch => "Passwords do not match"
  }

  const SignupFailed := "Signup failed"

  /** The local signup checks, in their fixed order: the first check that fails, or None
      when all pass. */
  function ValidateSignup(fullName: string, username: string, email: string,
                          password: string, confirmPassword: string): (r: Option<SignupProblem>)
    ensures r.None? ==> Trim(fullName) != [] && Trim(username) != [] && Trim(email) != []
    ensures r.None? ==> password == confirmPassword
    ensures r == Some(PasswordMismatch) ==> password != confirmPassword
  {
    if Trim(fullName) == [] then Some(FullNameMissing)
    else if Trim(username) == [] then Some(UsernameMissing)
    else if Utf16Length(username) < 3 then Some(UsernameTooShort)
    else if Trim(email) == [] then Some(EmailMissing)
    else if Utf16Length(password) < 6 then Some(PasswordTooShort)
    else if password != confirmPassword then Some(PasswordMismatch)
    else None
  }

  /** Each problem is reported exactly when its check fails and every earlier check
      passes; the form is accepted exactly when every check passes. */
  lemma ValidateSignupOrder(fullName: string, username: string, email: string,
                            password: string, confirmPassword: string)
    ensures var r := ValidateSignup(fullName, username, email, password, confirmPassword);
      && (r.None? <==>
           !IsBlank(fullName) && !IsBlank(username) && Utf16Length(username) >= 3 &&
           !IsBlank(email) && Utf16Length(password) >= 6 && password == confirmPassword)
      && (r == Some(FullNameMissing) <==> IsBlank(fullName))
      && (r == Some(UsernameMissing) <==> !IsBlank(fullName) && IsBlank(username))
      && (r == Some(UsernameTooShort) <==>
           !IsBlank(fullName) && !IsBlank(username) && Utf16Length(username) < 3)
      && (r == Some(EmailMissing) <==>
           !IsBlank(fullName) && !IsBlank(username) && Utf16Length(username) >= 3 && IsBlank(email))
      && (r == Some(PasswordTooShort) <==>
           !IsBlank(fullName) && !IsBlank(username) && Utf16Length(username) >= 3 &&
           !IsBlank(email) && Utf16Length(password) < 6)
      && (r == Some(PasswordMismatch) <==>
           !IsBlank(fullName) && !IsBlank(username) && Utf16Length(username) >= 3 &&
           !IsBlank(email) && Utf16Length(password) >= 6 && password != confirmPassword)
  {
    TrimEmptyIffBlank(fullName);
    TrimEmptyIffBlank(username);
    TrimEmptyIffBlank(email);
  }

  /** A sanitised username of three or more characters passes both username checks. */
  lemma SanitizedUsernameChecks(raw: string)
    requires |Sanitize(raw)| >= 3
    ensures !IsBlank(Sanitize(raw)) && Utf16Length(Sanitize(raw)) >= 3
  {
    var u := Sanitize(raw);
    assert !IsWhitespace(u[0]);
    Utf16LengthBmp(u);
  }

  /** `result.error || fallback`: the store's message unless it is absent or empty. */
  function ErrorText(result: AuthResult, fallback: string): (m: string)
    ensures result.error.Some? && result.error.value != "" ==> m == result.error.value
    ensures !(result.error.Some? && result.error.value != "") ==> m == fallback
  {
    if result.error.Some? && result.error.value != "" then result.error.value else fallback
  }

  /** The form state of the Auth page. */
  class Form {
    var isLogin: bool
    var identifier: string
    var password: string
    var confirmPassword: string
    var fullName: string
    var username: string
    var email: string
    var isLoading: bool
    var error: Option<string>

    constructor ()
      ensures isLogin && !isLoading && error == None
      ensures identifier == "" && password == "" && confirmPassword == ""
      ensures fullName == "" && username == "" && email == ""
    {
      isLogin := true;
      identifier, password, confirmPassword := "", "", "";
      fullName, username, email := "", "", "";
      isLoading := false;
      error := None;
    }

    /** The "Login" tab. */
    method ShowLogin()
      modifies this`isLogin, this`error
      ensures isLogin && error == None
    {
      isLogin := true;
      error := None;
    }

    /** The "Sign Up" tab. */
    method ShowSignup()
      modifies this`isLogin, this`error
      ensures !isLogin && error == None
    {
      isLogin := false;
      error := None;
    }

    /** The username field, on screen in signup mode only: whatever is typed is stored
        sanitised. */
    method EditUsername(value: string)
      modifies this`username
      ensures username == if isLogin then old(username) else Sanitize(value)
    {
      if !isLogin {
        username := Sanitize(value);
      }
    }

    /** The browser's constraint validation of the `required` inputs on screen: the
        password in both modes, the identifier in login mode. A form that fails it never
        reaches `handleSubmit`. */
    predicate Submittable()
      reads this
    {
      password != "" && (isLogin ==> identifier != "")
    }

    /** Submitting the form: blocked by the browser while a required input is empty,
        otherwise `handleSubmit`. Login mode calls `login` with no local check; signup mode
        runs the local checks and calls `signup` only when all pass. */
    method Submit(store: AuthStore)
      requires store.Valid()
      modifies this, store
      ensures store.Valid()
      ensures !old(Submittable()) ==> unchanged(this) && unchanged(store)
      ensures old(Submittable()) ==> !isLoading
      ensures old(Submittable()) && old(isLogin) ==> LoggedIn(store)
      ensures old(Submittable()) && !old(isLogin) ==> SignedUp(store)
    {
      if !Submittable() {
        return;
      }
      error := None;
      isLoading := true;
      if isLogin {
        SubmitLogin(store);
      } else {
        SubmitSignup(store);
      }
      isLoading := false;
    }

    /** What a login submission leaves behind: the form keeps its mode and fields, the
        registered list is untouched, and the session and the error depend on the first
        matching account. */
    twostate predicate LoggedIn(store: AuthStore)
      reads this, store
    {
      && isLogin
      && identifier == old(identifier) && password == old(password)
      && fullName == old(fullName) && username == old(username) && email == old(email)
      && confirmPassword == old(confirmPassword)
      && store.registeredUsers == old(store.registeredUsers)
      && store.storedUsers == old(store.storedUsers)
      && match LoginMatch(old(store.registeredUsers), old(identifier), old(password))
        case Some(i) =>
          && error == None && store.user == Some(PublicView(old(store.registeredUsers)[i]))
          && store.storedUser == store.user
        case None =>
          && error == Some(InvalidCredentials) && store.user == old(store.user)
          && store.storedUser == old(store.storedUser)
    }

    /** What a signup submission leaves behind: the session is untouched; a failed local
        check is reported by the form alone; otherwise the store decides. */
    twostate predicate SignedUp(store: AuthStore)
      reads this, store
    {
      && store.user == old(store.user) && store.storedUser == old(store.storedUser)
      && match ValidateSignup(old(fullName), old(username), old(email), old(password), old(confirmPassword))
        case Some(problem) => Refused(store, problem)
        case None => StoreAnswered(store)
    }

    /** A failed local check: its message is shown, and the store and the fields are left
        alone. */
    twostate predicate Refused(store: AuthStore, problem: SignupProblem)
      reads this, store
    {
      && error == Some(Message(problem)) && isLogin == old(isLogin)
      && identifier == old(identifier)
      && store.registeredUsers == old(store.registeredUsers)
      && store.storedUsers == old(store.storedUsers)
      && fullName == old(fullName) && username == old(username) && email == old(email)
      && password == old(password) && confirmPassword == old(confirmPassword)
    }

    /** What the store's answer leaves behind: a rejection reports the store's message; a
        success appends the account, switches to login mode and clears the six text fields. */
    twostate predicate StoreAnswered(store: AuthStore)
      reads this, store
    {
      match SignupError(old(store.registeredUsers), old(username), old(email))
        case Some(message) =>
          && error == Some(message) && !isLogin
          && store.registeredUsers == old(store.registeredUsers)
          && store.storedUsers == old(store.storedUsers)
          && fullName == old(fullName) && username == old(username) && email == old(email)
          && password == old(password) && confirmPassword == old(confirmPassword)
          && identifier == old(identifier)
        case None =>
          && error == None && isLogin
          && store.registeredUsers == old(store.registeredUsers) +
               [StoredUser(old(fullName), old(username), old(email), old(password))]
          && store.storedUsers == Some(CustomUsers(store.registeredUsers))
          && fullName == "" && username == "" && email == ""
          && password == "" && confirmPassword == "" && identifier == ""
    }

    method SubmitLogin(store: AuthStore)
      requires store.Valid() && isLogin && error == None
      modifies this`error, store
      ensures store.Valid()
      ensures LoggedIn(store)
    {
      var result := store.Login(identifier, password);
      if !result.success {
        error := Some(ErrorText(result, InvalidCredentials));
      }
    }

    method SubmitSignup(store: AuthStore)
      requires store.Valid() && !isLogin && error == None
      modifies this, store
      ensures store.Valid() && isLoading == old(isLoading)
      ensures SignedUp(store)
    {
      var invalid := ValidateSignup(fullName, username, email, password, confirmPassword);
      if invalid.Some? {
        Refuse(store, invalid.value);
      } else {
        Register(store);
      }
    }

    /** Reporting a failed local check. */
    method Refuse(ghost store: AuthStore, problem: SignupProblem)
      modifies this`error
      ensures Refused(store, problem)
    {
      error := Some(Message(problem));
    }

    /** After an account is created: the login tab, with the six text fields empty. */
    method ClearForLogin()
      modifies this
      ensures isLogin && isLoading == old(isLoading) && error == old(error)
      ensures fullName == "" && username == "" && email == ""
      ensures password == "" && confirmPassword == "" && identifier == ""
    {
      isLogin := true;
      fullName, username, email := "", "", "";
      password, confirmPassword, identifier := "", "", "";
    }

    /** The call to `signup` once the local checks pass, and what the form does with the
        answer. */
    method Register(store: AuthStore)
      requires store.Valid() && !isLogin && error == None
      modifies this, store
      ensures store.Valid() && isLoading == old(isLoading)
      ensures store.user == old(store.user) && store.storedUser == old(store.storedUser)
      ensures StoreAnswered(store)
    {
      var result := store.Signup(fullName, username, email, password);
      if result.success {
        ClearForLogin();
      } else {
        error := Some(ErrorText(result, SignupFailed));
      }
    }
  }
}
