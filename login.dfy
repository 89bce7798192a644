/** The login screen: field validation, the submit button's enable test,
    the per-field error messages and where a successful login leads. */
module Login {
  import opened Common

  /** `email.includes('@') && email.includes('.')`. */
  predicate LooksLikeEmail(email: string) {
    '@' in email && '.' in email
  }

  /** The email message `handleLogin` sets, if any. */
  function EmailError(email: string): (e: Option<string>)
    ensures e == Some("Email is required") <==> email == ""
    ensures e == Some("Please enter a valid email") <==> email != "" && !LooksLikeEmail(email)
    ensures e.None? <==> email != "" && LooksLikeEmail(email)
  {
    if email == "" then Some("Email is required")
    else if !LooksLikeEmail(email) then Some("Please enter a valid email")
    else None
  }

  /** The password message `handleLogin` sets, if any. */
  function PasswordError(password: string): (e: Option<string>)
    ensures e == Some("Password is required") <==> password == ""
    ensures e == Some("Password must be at least 6 characters") <==> 0 < |password| < 6
    ensures e.None? <==> |password| >= 6
  {
    if password == "" then Some("Password is required")
    else if |password| < 6 then Some("Password must be at least 6 characters")
    else None
  }

  /** `isFormValid`, which enables the button: exactly when pressing it
      would pass validation. */
  function IsFormValid(email: string, password: string): (valid: bool)
    ensures valid <==> EmailError(email).None? && PasswordError(password).None?
  {
    |email| > 0 && |password| > 0 && '@' in email && '.' in email && |password| >= 6
  }

  /** `result.user.type === 'technician' ? '/(technician)' : '/(customer)'`. */
  function RedirectTarget(userType: string): (path: string)
    ensures path == "/(technician)" <==> userType == "technician"
    ensures path != "/(technician)" ==> path == "/(customer)"
  {
    if userType == "technician" then "/(technician)" else "/(customer)"
  }

  const LoginFailed := "Login failed. Please check your credentials and try again."

  datatype LoginErrors = LoginErrors(email: Option<string>, password: Option<string>, general: Option<string>)

  const NoErrors := LoginErrors(None, None, None)

  /** What the login request resolves with. */
  datatype LoginResponse = LoginResponse(token: Option<string>, userType: string)

  class LoginScreen {
    var email: string
    var password: string
    var loading: bool
    var showPassword: bool
    var errors: LoginErrors

    constructor ()
      ensures email == "" && password == "" && !loading && !showPassword && errors == NoErrors
    {
      email := "";
      password := "";
      loading := false;
      showPassword := false;
      errors := NoErrors;
    }

    /** Typing in the email field clears only the email error. */
    method TypeEmail(text: string)
      modifies this
      ensures email == text && errors == old(errors).(email := None)
      ensures password == old(password) && loading == old(loading) && showPassword == old(showPassword)
    {
      email := text;
      if errors.email.Some? {
        errors := errors.(email := None);
      }
    }

    /** Typing in the password field clears only the password error. */
    method TypePassword(text: string)
      modifies this
      ensures password == text && errors == old(errors).(password := None)
      ensures email == old(email) && loading == old(loading) && showPassword == old(showPassword)
    {
      password := text;
      if errors.password.Some? {
        errors := errors.(password := None);
      }
    }

    method ToggleShowPassword()
      modifies this
      ensures showPassword == !old(showPassword)
      ensures email == old(email) && password == old(password) && loading == old(loading) && errors == old(errors)
    {
      showPassword := !showPassword;
    }

    /** `handleLogin`. Validation fills both field errors at once; the request
        is sent only when neither is set. A response with a truthy token
        leads to the route of the user's type; a failure sets only the general
        message. */
    method HandleLogin(response: Outcome<LoginResponse>) returns (requested: bool, redirect: Option<string>)
      modifies this
      ensures requested <==> EmailError(old(email)).None? && PasswordError(old(password)).None?
      ensures requested <==> IsFormValid(old(email), old(password))
      ensures !requested ==>
                errors == LoginErrors(EmailError(old(email)), PasswordError(old(password)), None) &&
                redirect.None? && loading == old(loading)
      ensures requested && response.Ok? ==>
                errors == NoErrors &&
                redirect == (if Truthy(response.value.token) then Some(RedirectTarget(response.value.userType)) else None)
      ensures requested && response.Fail? ==>
                errors == LoginErrors(None, None, Some(OrElse(response.message, LoginFailed))) && redirect.None?
      ensures requested ==> !loading
      ensures email == old(email) && password == old(password) && showPassword == old(showPassword)
    {
      errors := NoErrors;
      redirect := None;

      var hasError := false;
      var newErrors := NoErrors;
      if email == "" {
        newErrors := newErrors.(email := Some("Email is required"));
        hasError := true;
      } else if !('@' in email) || !('.' in email) {
        newErrors := newErrors.(email := Some("Please enter a valid email"));
        hasError := true;
      }
      if password == "" {
        newErrors := newErrors.(password := Some("Password is required"));
        hasError := true;
      } else if |password| < 6 {
        newErrors := newErrors.(password := Some("Password must be at least 6 characters"));
        hasError := true;
      }

      if hasError {
        errors := newErrors;
        requested := false;
        return;
      }

      requested := true;
      loading := true;
      if response.Ok? {
        if Truthy(response.value.token) {
          redirect := Some(RedirectTarget(response.value.userType));
        }
      } else {
        errors := LoginErrors(None, None, Some(OrElse(response.message, LoginFailed)));
      }
      loading := false;
    }
  }
}
