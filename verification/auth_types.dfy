/**
 * The request shapes of registration and login, the rules each field must
 * meet, and the payload carried by an access token.
 *
 * Validation reports every failed rule, in field order (email, password,
 * full name) and, within the password, in the order the rules are declared.
 * Whether a string is an e-mail address is left abstract: it is the
 * parameter `isEmail`.
 */
module AuthTypes {
  import opened Wrappers
  import opened ErrorHandler

  datatype RegisterInput = RegisterInput(email: string, password: string, fullName: Option<string>)

  datatype LoginInput = LoginInput(email: string, password: string)

  /** What an access token asserts about its bearer; `iat` and `exp` are optional. */
  datatype JwtPayload = JwtPayload(userId: string, email: string, iat: Option<int>, exp: Option<int>)

  const MinPasswordLength := 8
  const MinFullNameLength := 2

  predicate IsUpper(c: char) { 'A' <= c <= 'Z' }
  predicate IsLower(c: char) { 'a' <= c <= 'z' }
  predicate IsDigit(c: char) { '0' <= c <= '9' }

  predicate HasUpper(s: string) { exists i :: 0 <= i < |s| && IsUpper(s[i]) }
  predicate HasLower(s: string) { exists i :: 0 <= i < |s| && IsLower(s[i]) }
  predicate HasDigit(s: string) { exists i :: 0 <= i < |s| && IsDigit(s[i]) }

  /** The issue list holds one issue, at `field`, when `failed`, and none otherwise. */
  function IssueIf(failed: bool, field: string, message: string): (r: seq<ValidationIssue>)
    ensures |r| <= 1 && (r == [] <==> !failed)
  {
    if failed then [ValidationIssue([field], message)] else []
  }

  function EmailIssues(email: string, isEmail: string -> bool): seq<ValidationIssue> {
    IssueIf(!isEmail(email), "email", "Invalid email address")
  }

  /** Issues for a registration password: length first, then the three character classes. */
  function RegisterPasswordIssues(pw: string): seq<ValidationIssue> {
    IssueIf(|pw| < MinPasswordLength, "password", "Password must be at least 8 characters")
    + IssueIf(!HasUpper(pw), "password", "Password must contain at least one uppercase letter")
    + IssueIf(!HasLower(pw), "password", "Password must contain at least one lowercase letter")
    + IssueIf(!HasDigit(pw), "password", "Password must contain at least one number")
  }

  function FullNameIssues(fullName: Option<string>): seq<ValidationIssue> {
    match fullName
    case None => []
    case Some(name) => IssueIf(|name| < MinFullNameLength, "fullName", "Full name must be at least 2 characters")
  }

  /** The password rules of registration, as one predicate. */
  predicate StrongPassword(pw: string) {
    |pw| >= MinPasswordLength && HasUpper(pw) && HasLower(pw) && HasDigit(pw)
  }

  /** Parses a registration request: accepted exactly when every field rule holds. */
  function ValidateRegister(input: RegisterInput, isEmail: string -> bool): (r: Result<RegisterInput, seq<ValidationIssue>>)
    ensures r.Ok? <==>
      isEmail(input.email) && StrongPassword(input.password) &&
      (input.fullName.Some? ==> |input.fullName.value| >= MinFullNameLength)
    ensures r.Ok? ==> r.value == input
    ensures r.Err? ==> |r.error| <= 6
    ensures r.Err? && |input.password| < MinPasswordLength ==>
      ValidationIssue(["password"], "Password must be at least 8 characters") in r.error
  {
    var issues := EmailIssues(input.email, isEmail) + RegisterPasswordIssues(input.password) + FullNameIssues(input.fullName);
    if issues == [] then Ok(input) else Err(issues)
  }

  /** Parses a login request: a valid e-mail and any non-empty password. */
  function ValidateLogin(input: LoginInput, isEmail: string -> bool): (r: Result<LoginInput, seq<ValidationIssue>>)
    ensures r.Ok? <==> isEmail(input.email) && |input.password| >= 1
    ensures r.Ok? ==> r.value == input
  {
    var issues := EmailIssues(input.email, isEmail) + IssueIf(|input.password| < 1, "password", "Password is required");
    if issues == [] then Ok(input) else Err(issues)
  }

  /** Every password that registration accepts is also accepted at login. */
  lemma RegisterPasswordPassesLogin(email: string, pw: string, fullName: Option<string>, isEmail: string -> bool)
    requires ValidateRegister(RegisterInput(email, pw, fullName), isEmail).Ok?
    ensures ValidateLogin(LoginInput(email, pw), isEmail).Ok?
  {
  }

  /** ... but not the other way round: login checks only that the password is there. */
  lemma LoginIsLaxerThanRegister(email: string, isEmail: string -> bool)
    requires isEmail(email)
    ensures exists pw ::
      ValidateLogin(LoginInput(email, pw), isEmail).Ok? &&
      ValidateRegister(RegisterInput(email, pw, None), isEmail).Err?
  {
    var pw := "password";
    assert !HasUpper(pw) by {
      forall i | 0 <= i < |pw| ensures !IsUpper(pw[i]) {
      }
    }
    assert ValidateLogin(LoginInput(email, pw), isEmail).Ok?;
  }

  /** A password meeting every rule but one is still refused, with that rule's message. */
  lemma MissingDigitReported(email: string, isEmail: string -> bool)
    ensures ValidateRegister(RegisterInput(email, "Password", None), isEmail)
         == Err(EmailIssues(email, isEmail) + [ValidationIssue(["password"], "Password must contain at least one number")])
  {
    var pw := "Password";
    assert IsUpper(pw[0]) && IsLower(pw[1]);
    assert !HasDigit(pw) by {
      forall i | 0 <= i < |pw| ensures !IsDigit(pw[i]) {
      }
    }
    assert |pw| >= MinPasswordLength && HasUpper(pw) && HasLower(pw);
    var missing := [ValidationIssue(["password"], "Password must contain at least one number")];
    assert RegisterPasswordIssues(pw) == missing;
    var issues := EmailIssues(email, isEmail) + RegisterPasswordIssues(pw) + FullNameIssues(None);
    assert issues == EmailIssues(email, isEmail) + missing;
    assert issues != [];
  }
}
