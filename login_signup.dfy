/**
 * The login / signup dialog of src/components/LoginSignup.jsx: the form's
 * validators, which check their rules in a fixed order and report the first one
 * broken, and the handlers that move the dialog between its modes, call the
 * backend (whose answer is a parameter here) and save the session.
 */
module LoginSignup {
  import opened Wrappers
  import opened Strings
  import Api
  import opened UserStorage

  datatype Mode = Signup | Login

  datatype Field = Username | PhoneNumber | Email | Address | Pincode

  datatype FormData = FormData(username: string, phoneNumber: string, email: string, address: string, pincode: string)
  {
    function Get(f: Field): string {
      match f
      case Username => username
      case PhoneNumber => phoneNumber
      case Email => email
      case Address => address
      case Pincode => pincode
    }

    /** `{...prev, [name]: value}`: only the named field changes. */
    function With(f: Field, value: string): (r: FormData)
      ensures r.Get(f) == value
      ensures forall g :: g != f ==> r.Get(g) == Get(g)
    {
      match f
      case Username => this.(username := value)
      case PhoneNumber => this.(phoneNumber := value)
      case Email => this.(email := value)
      case Address => this.(address := value)
      case Pincode => this.(pincode := value)
    }
  }

  const EmptyForm := FormData("", "", "", "", "")

  const UsernameRequired := "Username is required"
  const PhoneRequired := "Phone number is required"
  const EmailRequired := "Email is required"
  const AddressRequired := "Address is required"
  const PincodeRequired := "Pincode is required"
  const InvalidEmail := "Please enter a valid email address"
  const InvalidPhone := "Please enter a valid 10-digit phone number"
  const InvalidPincode := "Please enter a valid 6-digit pincode"
  const AccountExists := "Account already exists. Please login with your phone number."
  const SignupFailed := "Failed to create account. Please try again."
  const LoginFailed := "Failed to login. Please check your phone number and try again."

  // ---------------------------------------------------------------- the field rules

  /** No white space and no `@`: the character class `[^\s@]`. */
  predicate NoSpaceOrAt(s: string) {
    forall k :: 0 <= k < |s| ==> !IsSpace(s[k]) && s[k] != '@'
  }

  /** The regular expression `^[^\s@]+@[^\s@]+\.[^\s@]+$`, position by position. */
  ghost predicate MatchesEmailPattern(s: string) {
    exists i, j :: 0 < i && i + 1 < j && j + 1 < |s| && s[i] == '@' && s[j] == '.'
                   && NoSpaceOrAt(s[..i]) && NoSpaceOrAt(s[i + 1..j]) && NoSpaceOrAt(s[j + 1..])
  }

  /** The first position of `c` in `s`. */
  function IndexOf(s: string, c: char): (r: Option<nat>)
    ensures r.Some? ==> r.value < |s| && s[r.value] == c && forall k :: 0 <= k < r.value ==> s[k] != c
    ensures r.None? ==> forall k :: 0 <= k < |s| ==> s[k] != c
  {
    if s == [] then None
    else if s[0] == c then Some(0)
    else match IndexOf(s[1..], c)
      case None => None
      case Some(k) => Some(k + 1)
  }

  /** A `.` with at least one character on each side. */
  predicate HasInnerDot(d: string) {
    exists j :: 0 < j < |d| - 1 && d[j] == '.'
  }

  /** The email rule: something before the only `@`, a dot inside the domain, no white space. */
  predicate IsValidEmail(s: string) {
    match IndexOf(s, '@')
    case None => false
    case Some(at) => 0 < at && NoSpaceOrAt(s[..at]) && NoSpaceOrAt(s[at + 1..]) && HasInnerDot(s[at + 1..])
  }

  lemma {:induction false} NoSpaceOrAtSlice(s: string, a: int, b: int)
    requires NoSpaceOrAt(s) && 0 <= a <= b <= |s|
    ensures NoSpaceOrAt(s[a..b])
  {
    assert forall k :: 0 <= k < b - a ==> s[a..b][k] == s[a + k];
  }

  lemma {:induction false} EmailRuleMatches(s: string)
    requires IsValidEmail(s)
    ensures MatchesEmailPattern(s)
  {
    var at := IndexOf(s, '@').value;
    var d := s[at + 1..];
    var jd :| 0 < jd < |d| - 1 && d[jd] == '.';
    var j := at + 1 + jd;
    NoSpaceOrAtSlice(d, 0, jd);
    NoSpaceOrAtSlice(d, jd + 1, |d|);
    assert s[at + 1..j] == d[..jd] && s[j + 1..] == d[jd + 1..];
    assert s[j] == '.' && s[at] == '@';
  }

  lemma {:induction false} IndexOfFirst(s: string, c: char, i: nat)
    requires i < |s| && s[i] == c && forall k :: 0 <= k < i ==> s[k] != c
    ensures IndexOf(s, c) == Some(i)
  {
  }

  lemma {:induction false} NoSpaceOrAtAround(a: string, b: string)
    requires NoSpaceOrAt(a) && NoSpaceOrAt(b)
    ensures NoSpaceOrAt(a + ['.'] + b)
  {
    var d := a + ['.'] + b;
    assert forall k :: 0 <= k < |d| ==> d[k] == (if k < |a| then a[k] else if k == |a| then '.' else b[k - |a| - 1]);
  }

  /** The part after the `@` of a pattern match: no white space or `@`, and an inner dot. */
  lemma {:induction false} DomainPart(s: string, i: int, j: int)
    requires 0 < i && i + 1 < j && j + 1 < |s| && s[j] == '.'
    requires NoSpaceOrAt(s[i + 1..j]) && NoSpaceOrAt(s[j + 1..])
    ensures NoSpaceOrAt(s[i + 1..]) && HasInnerDot(s[i + 1..])
  {
    var d := s[i + 1..];
    assert d == s[i + 1..j] + ['.'] + s[j + 1..];
    NoSpaceOrAtAround(s[i + 1..j], s[j + 1..]);
    assert d[j - i - 1] == '.';
  }

  lemma {:induction false} PatternPassesRule(s: string)
    requires MatchesEmailPattern(s)
    ensures IsValidEmail(s)
  {
    var i, j :| 0 < i && i + 1 < j && j + 1 < |s| && s[i] == '@' && s[j] == '.'
                && NoSpaceOrAt(s[..i]) && NoSpaceOrAt(s[i + 1..j]) && NoSpaceOrAt(s[j + 1..]);
    assert forall k :: 0 <= k < i ==> s[k] == s[..i][k];
    IndexOfFirst(s, '@', i);
    DomainPart(s, i, j);
  }

  /** The email rule is the regular expression the form uses. */
  lemma {:induction false} EmailRuleIsPattern(s: string)
    ensures IsValidEmail(s) <==> MatchesEmailPattern(s)
  {
    if IsValidEmail(s) {
      EmailRuleMatches(s);
    }
    if MatchesEmailPattern(s) {
      PatternPassesRule(s);
    }
  }

  /** `/^\d{n}$/`: exactly `n` characters, every one a digit. */
  predicate DigitRun(s: string, n: nat) {
    |s| == n && AllDigits(s)
  }

  /** The phone rule: ten digits once every non-digit is stripped. */
  predicate IsValidPhone(s: string) {
    DigitRun(DigitsOf(s), 10)
  }

  /** The pincode rule: six digits once the surrounding white space is trimmed. */
  predicate IsValidPincode(s: string) {
    DigitRun(Trim(s), 6)
  }

  /** A blank string has no digits, so a blank phone number also fails the phone rule. */
  lemma {:induction false} BlankHasNoDigits(s: string)
    ensures AllSpace(s) ==> DigitsOf(s) == []
  {
    if s != [] && AllSpace(s) {
      assert !IsDigit(s[0]);
      BlankHasNoDigits(s[1..]);
    }
  }

  /** What the signup form accepts, stated with the regular expressions themselves. */
  ghost predicate SignupAccepted(f: FormData) {
    && !AllSpace(f.username) && !AllSpace(f.phoneNumber) && !AllSpace(f.email)
    && !AllSpace(f.address) && !AllSpace(f.pincode)
    && MatchesEmailPattern(f.email) && |DigitsOf(f.phoneNumber)| == 10 && DigitRun(Trim(f.pincode), 6)
  }

  /**
   * `validateSignupForm`: the message of the first rule the form breaks, in the
   * order username, phone, email, address, pincode present, then email, phone,
   * pincode well formed; `None` when it breaks none.
   */
  function SignupError(f: FormData): (r: Option<string>)
    ensures r.None? <==> SignupAccepted(f)
    ensures r == Some(UsernameRequired) <==> AllSpace(f.username)
    ensures r == Some(PhoneRequired) <==> !AllSpace(f.username) && AllSpace(f.phoneNumber)
    ensures r == Some(EmailRequired) <==>
              !AllSpace(f.username) && !AllSpace(f.phoneNumber) && AllSpace(f.email)
    ensures r == Some(AddressRequired) <==>
              !AllSpace(f.username) && !AllSpace(f.phoneNumber) && !AllSpace(f.email) && AllSpace(f.address)
    ensures r == Some(PincodeRequired) <==>
              !AllSpace(f.username) && !AllSpace(f.phoneNumber) && !AllSpace(f.email)
              && !AllSpace(f.address) && AllSpace(f.pincode)
    ensures r == Some(InvalidEmail) <==>
              !AllSpace(f.username) && !AllSpace(f.phoneNumber) && !AllSpace(f.email)
              && !AllSpace(f.address) && !AllSpace(f.pincode) && !MatchesEmailPattern(f.email)
    ensures r == Some(InvalidPhone) <==>
              !AllSpace(f.username) && !AllSpace(f.phoneNumber) && !AllSpace(f.email)
              && !AllSpace(f.address) && !AllSpace(f.pincode) && MatchesEmailPattern(f.email)
              && |DigitsOf(f.phoneNumber)| != 10
    ensures r == Some(InvalidPincode) <==>
              !AllSpace(f.username) && !AllSpace(f.phoneNumber) && !AllSpace(f.email)
              && !AllSpace(f.address) && !AllSpace(f.pincode) && MatchesEmailPattern(f.email)
              && |DigitsOf(f.phoneNumber)| == 10 && !DigitRun(Trim(f.pincode), 6)
  {
    TrimEmptyIff(f.username);
    TrimEmptyIff(f.phoneNumber);
    TrimEmptyIff(f.email);
    TrimEmptyIff(f.address);
    TrimEmptyIff(f.pincode);
    EmailRuleIsPattern(f.email);
    if Trim(f.username) == "" then Some(UsernameRequired)
    else if Trim(f.phoneNumber) == "" then Some(PhoneRequired)
    else if Trim(f.email) == "" then Some(EmailRequired)
    else if Trim(f.address) == "" then Some(AddressRequired)
    else if Trim(f.pincode) == "" then Some(PincodeRequired)
    else if !IsValidEmail(f.email) then Some(InvalidEmail)
    else if !IsValidPhone(f.phoneNumber) then Some(InvalidPhone)
    else if !IsValidPincode(f.pincode) then Some(InvalidPincode)
    else None
  }

  /**
   * `validateLoginForm`: only the phone number is checked. A phone number is
   * accepted exactly when it carries ten digits; the blank check only picks the message.
   */
  function LoginError(f: FormData): (r: Option<string>)
    ensures r.None? <==> |DigitsOf(f.phoneNumber)| == 10
    ensures r == Some(PhoneRequired) <==> AllSpace(f.phoneNumber)
    ensures r == Some(InvalidPhone) <==> !AllSpace(f.phoneNumber) && |DigitsOf(f.phoneNumber)| != 10
  {
    TrimEmptyIff(f.phoneNumber);
    BlankHasNoDigits(f.phoneNumber);
    if Trim(f.phoneNumber) == "" then Some(PhoneRequired)
    else if !IsValidPhone(f.phoneNumber) then Some(InvalidPhone)
    else None
  }

  /** A form the signup rules accept also passes the login rules. */
  lemma {:induction false} SignupFormPassesLogin(f: FormData)
    requires SignupError(f).None?
    ensures LoginError(f).None?
  {
  }

  /** The body `createUser` is called with: trimmed fields, and the phone number's digits. */
  function SignupRequest(f: FormData): (r: FormData)
    ensures r.username == Trim(f.username) && r.email == Trim(f.email)
    ensures r.address == Trim(f.address) && r.pincode == Trim(f.pincode)
    ensures r.phoneNumber == DigitsOf(f.phoneNumber)
    ensures IsTrimmed(r.username) && IsTrimmed(r.email) && IsTrimmed(r.address) && IsTrimmed(r.pincode)
    ensures AllDigits(r.phoneNumber)
  {
    FormData(Trim(f.username), DigitsOf(f.phoneNumber), Trim(f.email), Trim(f.address), Trim(f.pincode))
  }

  /** An address with no white space is left alone by `trim`. */
  lemma {:induction false} NoSpaceIsTrimmed(s: string)
    requires forall k :: 0 <= k < |s| ==> !IsSpace(s[k])
    ensures Trim(s) == s
  {
    if s != [] {
      assert !IsSpace(s[0]) && !IsSpace(s[|s| - 1]);
    }
  }

  /** A string the email rule accepts holds no white space. */
  lemma {:induction false} ValidEmailHasNoSpace(s: string)
    requires IsValidEmail(s)
    ensures forall k :: 0 <= k < |s| ==> !IsSpace(s[k])
  {
    var at := IndexOf(s, '@').value;
    assert forall k :: 0 <= k < at ==> s[k] == s[..at][k];
    assert forall k :: at < k < |s| ==> s[k] == s[at + 1..][k - at - 1];
  }

  /**
   * What the backend receives from a form that passed validation: every field
   * non-empty, the email exactly as typed, ten phone digits and six pincode digits.
   */
  lemma {:induction false} AcceptedSignupRequest(f: FormData)
    requires SignupError(f).None?
    ensures var r := SignupRequest(f);
      && r.username != [] && r.email != [] && r.address != []
      && r.email == f.email && MatchesEmailPattern(r.email)
      && DigitRun(r.phoneNumber, 10) && DigitRun(r.pincode, 6)
  {
    assert SignupAccepted(f);
    TrimEmptyIff(f.username);
    TrimEmptyIff(f.address);
    EmailRuleIsPattern(f.email);
    ValidEmailHasNoSpace(f.email);
    NoSpaceIsTrimmed(f.email);
  }

  // ---------------------------------------------------------------- the dialog

  class LoginSignupForm {
    var mode: Mode
    var formData: FormData
    var loading: bool
    /** The message shown above the form; `""` shows none. */
    var error: string

    /** The dialog opens in signup mode with an empty form. */
    constructor ()
      ensures mode == Signup && formData == EmptyForm && !loading && error == ""
    {
      mode := Signup;
      formData := EmptyForm;
      loading := false;
      error := "";
    }

    /** `handleChange`: one field takes the typed value and any message is cleared. */
    method HandleChange(f: Field, value: string)
      modifies this
      ensures formData == old(formData).With(f, value)
      ensures formData.Get(f) == value && forall g :: g != f ==> formData.Get(g) == old(formData).Get(g)
      ensures error == "" && mode == old(mode) && loading == old(loading)
    {
      formData := formData.With(f, value);
      if error != "" {
        error := "";
      }
    }

    /** `validateSignupForm`: shows the first broken rule's message, or leaves the message alone. */
    method ValidateSignupForm() returns (ok: bool)
      modifies this
      ensures ok <==> SignupAccepted(formData)
      ensures !ok ==> Some(error) == SignupError(formData)
      ensures ok ==> error == old(error)
      ensures formData == old(formData) && mode == old(mode) && loading == old(loading)
    {
      var e := SignupError(formData);
      if e.Some? {
        error := e.value;
        return false;
      }
      return true;
    }

    /** `validateLoginForm`: the same for the phone number alone. */
    method ValidateLoginForm() returns (ok: bool)
      modifies this
      ensures ok <==> |DigitsOf(formData.phoneNumber)| == 10
      ensures !ok ==> Some(error) == LoginError(formData)
      ensures ok ==> error == old(error)
      ensures formData == old(formData) && mode == old(mode) && loading == old(loading)
    {
      var e := LoginError(formData);
      if e.Some? {
        error := e.value;
        return false;
      }
      return true;
    }

    /**
     * `handleSignup`. When the form passes, `createUser` is sent `SignupRequest(formData)`;
     * `response` is its response text or the message of the error it threw, and `parsed`
     * is what `JSON.parse` makes of that text. An empty or `null` body means the account
     * exists: the dialog switches to login. A user record is saved and handed to
     * `onLoginSuccess` (returned in `loggedIn`).
     */
    method HandleSignup(response: Outcome<string>, parsed: Option<UserRecord>, store: Store)
        returns (request: Option<FormData>, loggedIn: Option<UserRecord>)
      requires store.Valid()
      modifies this, store
      ensures store.Valid() && formData == old(formData)
      ensures request.None? <==> !SignupAccepted(old(formData))
      ensures request.None? ==>
                Some(error) == SignupError(formData) && mode == old(mode) && loading == old(loading)
                && loggedIn.None? && store.items == old(store.items)
      ensures request.Some? ==> request.value == SignupRequest(formData) && !loading
      ensures request.Some? && response.Threw? ==>
                error == (if response.message == "" then SignupFailed else response.message)
                && mode == old(mode) && loggedIn.None? && store.items == old(store.items)
      ensures request.Some? && response.Returned? && Api.CreateUserBody(response.value, parsed).None? ==>
                mode == Login && error == AccountExists && loggedIn.None? && store.items == old(store.items)
      ensures request.Some? && response.Returned? && Api.CreateUserBody(response.value, parsed).Some? ==>
                loggedIn == parsed && error == "" && mode == old(mode)
                && store.GetUserData() == parsed
                && (HasTruthyId(parsed.value) ==> store.GetUserId() == parsed.value.id && store.IsUserLoggedIn())
                && (!HasTruthyId(parsed.value) ==>
                      store.GetUserId() == old(store.GetUserId()) && store.IsUserLoggedIn() == old(store.IsUserLoggedIn()))
                && Others(store.items) == Others(old(store.items))
    {
      var ok := ValidateSignupForm();
      if !ok {
        return None, None;
      }
      request := Some(SignupRequest(formData));
      loggedIn := ReceiveSignup(response, parsed, store);
    }

    /** The part of `handleSignup` after the request is sent: the `try`, `catch` and `finally`. */
    method ReceiveSignup(response: Outcome<string>, parsed: Option<UserRecord>, store: Store)
        returns (loggedIn: Option<UserRecord>)
      requires store.Valid()
      modifies this, store
      ensures store.Valid() && formData == old(formData) && !loading
      ensures response.Threw? ==>
                error == (if response.message == "" then SignupFailed else response.message)
                && mode == old(mode) && loggedIn.None? && store.items == old(store.items)
      ensures response.Returned? && Api.CreateUserBody(response.value, parsed).None? ==>
                mode == Login && error == AccountExists && loggedIn.None? && store.items == old(store.items)
      ensures response.Returned? && Api.CreateUserBody(response.value, parsed).Some? ==>
                loggedIn == parsed && error == "" && mode == old(mode)
                && store.GetUserData() == parsed
                && (HasTruthyId(parsed.value) ==> store.GetUserId() == parsed.value.id && store.IsUserLoggedIn())
                && (!HasTruthyId(parsed.value) ==>
                      store.GetUserId() == old(store.GetUserId()) && store.IsUserLoggedIn() == old(store.IsUserLoggedIn()))
                && Others(store.items) == Others(old(store.items))
    {
      loggedIn := None;
      loading := true;
      error := "";
      match response {
        case Threw(message) =>
          error := if message == "" then SignupFailed else message;
        case Returned(text) =>
          var userData := Api.CreateUserBody(text, parsed);
          match userData {
            case None =>
              mode := Login;
              error := AccountExists;
            case Some(u) =>
              store.SaveUserData(u);
              loggedIn := Some(u);
          }
      }
      loading := false;
    }

    /**
     * `handleLogin`. When the phone number passes, `loginUser` is sent its digits;
     * `reply` is the user record it returned or the message of the error it threw.
     */
    method HandleLogin(reply: Outcome<UserRecord>, store: Store)
        returns (request: Option<string>, loggedIn: Option<UserRecord>)
      requires store.Valid()
      modifies this, store
      ensures store.Valid() && formData == old(formData) && mode == old(mode)
      ensures request.None? <==> |DigitsOf(old(formData).phoneNumber)| != 10
      ensures request.None? ==>
                Some(error) == LoginError(formData) && loading == old(loading)
                && loggedIn.None? && store.items == old(store.items)
      ensures request.Some? ==> request.value == DigitsOf(formData.phoneNumber) && |request.value| == 10 && !loading
      ensures request.Some? && reply.Threw? ==>
                error == (if reply.message == "" then LoginFailed else reply.message)
                && loggedIn.None? && store.items == old(store.items)
      ensures request.Some? && reply.Returned? ==>
                loggedIn == Some(reply.value) && error == ""
                && store.GetUserData() == Some(reply.value)
                && (HasTruthyId(reply.value) ==> store.GetUserId() == reply.value.id && store.IsUserLoggedIn())
                && (!HasTruthyId(reply.value) ==>
                      store.GetUserId() == old(store.GetUserId()) && store.IsUserLoggedIn() == old(store.IsUserLoggedIn()))
                && Others(store.items) == Others(old(store.items))
    {
      loggedIn := None;
      var ok := ValidateLoginForm();
      if !ok {
        return None, None;
      }
      request := Some(DigitsOf(formData.phoneNumber));
      loading := true;
      error := "";
      match reply {
        case Threw(message) =>
          error := if message == "" then LoginFailed else message;
        case Returned(u) =>
          store.SaveUserData(u);
          loggedIn := Some(u);
      }
      loading := false;
    }

    /**
     * `handleSubmit`: the form's submit runs the login handler in login mode and the
     * signup handler otherwise; each backend answer is consulted only by its own handler,
     * and the outcome (message, mode, `loading`, store) is that handler's.
     */
    method HandleSubmit(response: Outcome<string>, parsed: Option<UserRecord>, reply: Outcome<UserRecord>, store: Store)
        returns (signupRequest: Option<FormData>, loginRequest: Option<string>, loggedIn: Option<UserRecord>)
      requires store.Valid()
      modifies this, store
      ensures store.Valid() && formData == old(formData)
      ensures old(mode) == Login ==>
                signupRequest.None? && mode == Login
                && (loginRequest.Some? <==> |DigitsOf(formData.phoneNumber)| == 10)
      ensures old(mode) == Login && loginRequest.None? ==>
                Some(error) == LoginError(formData) && loading == old(loading)
                && loggedIn.None? && store.items == old(store.items)
      ensures old(mode) == Login && loginRequest.Some? ==>
                loginRequest.value == DigitsOf(formData.phoneNumber) && !loading
      ensures old(mode) == Login && loginRequest.Some? && reply.Threw? ==>
                error == (if reply.message == "" then LoginFailed else reply.message)
                && loggedIn.None? && store.items == old(store.items)
      ensures old(mode) == Login && loginRequest.Some? && reply.Returned? ==>
                loggedIn == Some(reply.value) && error == ""
                && store.GetUserData() == Some(reply.value)
                && (HasTruthyId(reply.value) ==> store.GetUserId() == reply.value.id && store.IsUserLoggedIn())
                && (!HasTruthyId(reply.value) ==>
                      store.GetUserId() == old(store.GetUserId()) && store.IsUserLoggedIn() == old(store.IsUserLoggedIn()))
                && Others(store.items) == Others(old(store.items))
      ensures old(mode) == Signup ==>
                loginRequest.None?
                && (signupRequest.Some? <==> SignupAccepted(formData))
                && (signupRequest.Some? ==> signupRequest.value == SignupRequest(formData))
      ensures old(mode) == Signup && signupRequest.None? ==>
                Some(error) == SignupError(formData) && mode == Signup && loading == old(loading)
                && loggedIn.None? && store.items == old(store.items)
      ensures old(mode) == Signup && signupRequest.Some? ==> !loading
      ensures old(mode) == Signup && signupRequest.Some? && response.Threw? ==>
                error == (if response.message == "" then SignupFailed else response.message)
                && mode == Signup && loggedIn.None? && store.items == old(store.items)
      ensures old(mode) == Signup && signupRequest.Some? && response.Returned?
              && Api.CreateUserBody(response.value, parsed).None? ==>
                mode == Login && error == AccountExists && loggedIn.None? && store.items == old(store.items)
      ensures old(mode) == Signup && signupRequest.Some? && response.Returned?
              && Api.CreateUserBody(response.value, parsed).Some? ==>
                loggedIn == parsed && error == "" && mode == Signup
                && store.GetUserData() == parsed
                && (HasTruthyId(parsed.value) ==> store.GetUserId() == parsed.value.id && store.IsUserLoggedIn())
                && (!HasTruthyId(parsed.value) ==>
                      store.GetUserId() == old(store.GetUserId()) && store.IsUserLoggedIn() == old(store.IsUserLoggedIn()))
                && Others(store.items) == Others(old(store.items))
    {
      if mode == Login {
        signupRequest := None;
        loginRequest, loggedIn := HandleLogin(reply, store);
      } else {
        loginRequest := None;
        signupRequest, loggedIn := HandleSignup(response, parsed, store);
      }
    }

    /** `switchToLogin`: login mode, no message, the typed fields kept. */
    method SwitchToLogin()
      modifies this
      ensures mode == Login && error == "" && formData == old(formData) && loading == old(loading)
    {
      mode := Login;
      error := "";
    }

    /** `switchToSignup`: signup mode, no message, the typed fields kept. */
    method SwitchToSignup()
      modifies this
      ensures mode == Signup && error == "" && formData == old(formData) && loading == old(loading)
    {
      mode := Signup;
      error := "";
    }
  }
}
