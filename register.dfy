/**
 * The registration form of src/app/register/page.tsx: the order of its two
 * checks, the roles it offers, and what each outcome of the registration
 * call shows.
 *
 * The form's fields are the component's state; the server's reply to the
 * registration request is an input of the submit handler.
 */
module RegisterPage {
  import opened Common
  import opened Text
  import opened Http
  import opened Auth
  import opened AuthContext

  const PasswordsDiffer: string := "Passwords do not match"
  const PasswordTooShort: string := "Password must be at least 6 characters"
  const RegisterFailed: string := "Failed to register"
  const MinPasswordLength: nat := 6

  /** The roles the form's select offers, the first being the initial choice. */
  const OfferedRoles: seq<string> := ["doctor", "sales_agent"]
  const DefaultRole: string := "doctor"

  /** What `register(email, password, name, role)` sends. */
  datatype RegisterRequest = RegisterRequest(email: string, password: string, name: string, role: string)

  /** The two checks of `handleSubmit`, in order: the error shown, or `None` when the form may be sent. */
  function Validate(password: string, confirm: string): (r: Option<string>)
    ensures password != confirm ==> r == Some(PasswordsDiffer)
    ensures password == confirm && Utf16Length(password) < MinPasswordLength ==> r == Some(PasswordTooShort)
    ensures r == None <==> password == confirm && Utf16Length(password) >= MinPasswordLength
  {
    if password != confirm then Some(PasswordsDiffer)
    else if Utf16Length(password) < MinPasswordLength then Some(PasswordTooShort)
    else None
  }

  /** A mismatch is reported even for a password that is also too short: the mismatch test comes first. */
  lemma MismatchReportedFirst(password: string, confirm: string)
    requires password != confirm && Utf16Length(password) < MinPasswordLength
    ensures Validate(password, confirm) == Some(PasswordsDiffer)
    ensures Validate(password, password) == Some(PasswordTooShort)
  {
  }

  /** The text shown for a registration error: the pending screen takes `PENDING_APPROVAL`; an empty message gets the fallback. */
  function ErrorShown(message: string): (r: Option<string>)
    ensures message == PendingApproval <==> r.None?
    ensures r.Some? ==> r.value != ""
  {
    if message == PendingApproval then None
    else if message != "" then Some(message)
    else Some(RegisterFailed)
  }

  /** The component's state, with the authentication context it calls. */
  class RegisterForm {
    const provider: AuthProvider
    var name: string
    var email: string
    var password: string
    var confirmPassword: string
    var role: string
    var error: string
    var isSubmitting: bool
    var showPendingApproval: bool

    /** The chosen role is always one the form offers. */
    predicate Valid()
      reads this
    {
      role in OfferedRoles
    }

    /** The first render: empty fields, the default role, no error. */
    constructor(provider: AuthProvider)
      ensures this.provider == provider && Valid()
      ensures name == "" && email == "" && password == "" && confirmPassword == ""
      ensures role == DefaultRole && error == "" && !isSubmitting && !showPendingApproval
    {
      this.provider := provider;
      name := "";
      email := "";
      password := "";
      confirmPassword := "";
      role := DefaultRole;
      error := "";
      isSubmitting := false;
      showPendingApproval := false;
    }

    /** The select's `onChange`: it can only emit the value of one of its options. */
    method SelectRole(value: string)
      requires value in OfferedRoles
      modifies this`role
      ensures role == value && Valid()
    {
      role := value;
    }

    /**
     * `handleSubmit`: a failed check shows its error and sends nothing; otherwise
     * the form's fields are sent, a reply that awaits approval switches to the
     * pending screen, any other error is shown, and `isSubmitting` ends false.
     */
    method HandleSubmit(reply: Reply<AuthResponse>) returns (request: Option<RegisterRequest>)
      requires Valid()
      modifies this`error, this`isSubmitting, this`showPendingApproval
      modifies provider`user, provider.auth`token, provider.auth`userText
      ensures Valid()
      ensures Validate(password, confirmPassword).Some? ==>
        request == None && error == Validate(password, confirmPassword).value && isSubmitting == old(isSubmitting)
        && showPendingApproval == old(showPendingApproval)
        && provider.user == old(provider.user)
        && provider.auth.token == old(provider.auth.token) && provider.auth.userText == old(provider.auth.userText)
      ensures Validate(password, confirmPassword).None? ==>
        request == Some(RegisterRequest(email, password, name, role)) && role in OfferedRoles && !isSubmitting
      ensures var r := AuthFetch(reply);
        Validate(password, confirmPassword).None? && r.Failure? ==>
          provider.user == old(provider.user)
          && (if ErrorShown(r.error).None? then showPendingApproval && error == ""
              else error == ErrorShown(r.error).value && showPendingApproval == old(showPendingApproval))
      ensures var r := AuthFetch(reply);
        Validate(password, confirmPassword).None? && r.Success? && IsTrue(r.value.pendingApproval) ==>
          showPendingApproval && error == "" && provider.user == old(provider.user)
      ensures var r := AuthFetch(reply);
        Validate(password, confirmPassword).None? && r.Success? && !IsTrue(r.value.pendingApproval) ==>
          error == "" && showPendingApproval == old(showPendingApproval) && provider.user == Some(r.value.user)
      ensures var r := AuthFetch(reply);
        if Validate(password, confirmPassword).None? && r.Success? && ShouldPersist(r.value)
        then provider.auth.token == r.value.token && provider.auth.userText == Some(UserJson(r.value.user))
        else provider.auth.token == old(provider.auth.token) && provider.auth.userText == old(provider.auth.userText)
    {
      error := "";
      var problem := Validate(password, confirmPassword);
      if problem.Some? {
        error := problem.value;
        return None;
      }
      isSubmitting := true;
      request := Some(RegisterRequest(email, password, name, role));
      var thrown := provider.Register(reply);
      if thrown.Some? {
        if thrown.value == PendingApproval {
          showPendingApproval := true;
        } else {
          error := ErrorShown(thrown.value).value;
        }
      }
      isSubmitting := false;
    }
  }
}
