/**
 * The login form's submit handler: an empty-field check, then the call to
 * `signIn` bracketed by the `error` and `loading` updates. The handler is
 * split at its one `await`: `BeginSubmit` runs up to the call, `FinishSubmit`
 * after it settles.
 */
module LoginPage {
  import opened Wrappers
  import opened Api
  import AuthContext

  const EmptyFieldsMessage: string := "Por favor, preencha todos os campos."
  const FallbackMessage: string := "Falha na autenticação. Verifique suas credenciais."
  const AfterLoginPath: string := "/dashboard"

  /** `err.response?.data?.message || fallback`. */
  function FailureMessage(e: HttpError): (msg: string)
    ensures msg != ""
    ensures e.Status? && e.message != "" ==> msg == e.message
    ensures !(e.Status? && e.message != "") ==> msg == FallbackMessage
  {
    if e.Status? && e.message != "" then e.message else FallbackMessage
  }

  class LoginForm {
    var email: string
    var password: string
    var error: string
    var loading: bool

    constructor ()
      ensures email == "" && password == "" && error == "" && !loading
    {
      email, password, error, loading := "", "", "", false;
    }

    /**
     * Up to the `await`: with an empty field, set the message and stop
     * (`loading` untouched); otherwise clear the error and set `loading`.
     */
    method BeginSubmit() returns (callSignIn: bool)
      modifies this
      ensures callSignIn <==> email != "" && password != ""
      ensures !callSignIn ==> error == EmptyFieldsMessage && loading == old(loading)
      ensures callSignIn ==> error == "" && loading
      ensures email == old(email) && password == old(password)
    {
      if email == "" || password == "" {
        error := EmptyFieldsMessage;
        return false;
      }
      error := "";
      loading := true;
      return true;
    }

    /**
     * After `signIn` settles: navigate to `/dashboard` whatever the role, or
     * show the server's message (or the fallback); `loading` is cleared by
     * the `finally` on both paths.
     */
    method FinishSubmit(outcome: Result<(), HttpError>) returns (navigateTo: Option<string>)
      modifies this
      ensures !loading
      ensures outcome.Success? ==> navigateTo == Some(AfterLoginPath) && error == old(error)
      ensures outcome.Failure? ==> navigateTo == None && error == FailureMessage(outcome.error)
      ensures email == old(email) && password == old(password)
    {
      if outcome.Success? {
        navigateTo := Some(AfterLoginPath);
      } else {
        navigateTo := None;
        error := FailureMessage(outcome.error);
      }
      loading := false;
    }

    /** `handleSubmit` end to end, against the provider's `signIn`. */
    method Submit(auth: AuthContext.AuthProvider, login: Result<LoginData, HttpError>)
      returns (signInCalled: bool, navigateTo: Option<string>)
      modifies this, auth, auth.store
      ensures signInCalled <==> old(email) != "" && old(password) != ""
      ensures !signInCalled ==>
        error == EmptyFieldsMessage && loading == old(loading) && navigateTo == None
        && auth.user == old(auth.user) && auth.loading == old(auth.loading)
        && auth.store.token == old(auth.store.token) && auth.store.user == old(auth.store.user)
      ensures email == old(email) && password == old(password)
      ensures signInCalled ==> !loading
      ensures signInCalled && login.Success? ==>
        && navigateTo == Some(AfterLoginPath) && error == "" && auth.user == Some(login.value.user)
        && auth.store.token == Some(login.value.token) && auth.store.user == Some(login.value.user)
        && auth.loading == old(auth.loading)
      ensures signInCalled && login.Failure? ==>
        navigateTo == None && error == FailureMessage(login.error)
      ensures signInCalled && login.Failure? && !IsUnauthorized(login.error) ==>
        auth.user == old(auth.user) && auth.loading == old(auth.loading)
        && auth.store.token == old(auth.store.token) && auth.store.user == old(auth.store.user)
      ensures signInCalled && login.Failure? && IsUnauthorized(login.error) ==>
        auth.user == None && !auth.loading && auth.store.IsEmpty()
    {
      signInCalled := BeginSubmit();
      if !signInCalled {
        return signInCalled, None;
      }
      var outcome := auth.SignIn(login);
      navigateTo := FinishSubmit(outcome);
    }
  }
}
