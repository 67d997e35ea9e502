/**
 * The login form: two fields and a submit handler that either commits a session and
 * navigates home, or shows an error toast and leaves the fields as they are.
 */
module Login {
  import opened Wrappers
  import opened Notify
  import opened AuthContext
  import App

  /** The body the form posts to `/auth/login`. */
  datatype Credentials = Credentials(username: string, password: string)

  /**
   * The outcome of the login request: a 2xx body with `token` and `username`, or a thrown
   * error whose `response.data.error` is absent (`None`) or the given text.
   */
  datatype LoginReply = Accepted(token: string, username: string) | Failed(errorField: Option<string>)

  const SuccessMessage := "Logged in successfully!"
  const FallbackMessage := "Login failed"

  /**
   * `error.response?.data?.error || 'Login failed'`: the server's message when it is a
   * non-empty (truthy) string, the fallback otherwise; never an empty toast.
   */
  function FailureMessage(errorField: Option<string>): (m: string)
    ensures m != ""
    ensures errorField.Some? && errorField.value != "" ==> m == errorField.value
    ensures errorField.None? || errorField.value == "" ==> m == FallbackMessage
  {
    match errorField
    case Some(text) => if text != "" then text else FallbackMessage
    case None => FallbackMessage
  }

  /** The `Login` component: its two field states and the session store it commits to. */
  class LoginForm {
    var username: string
    var password: string
    const auth: AuthProvider

    constructor (auth: AuthProvider)
      ensures this.auth == auth && username == "" && password == ""
    {
      this.auth := auth;
      username, password := "", "";
    }

    method SetUsername(value: string)
      modifies this
      ensures username == value && password == old(password)
    {
      username := value;
    }

    method SetPassword(value: string)
      modifies this
      ensures password == value && username == old(username)
    {
      password := value;
    }

    /**
     * `handleSubmit`: posts the fields as they are (no content check), then on success
     * commits exactly the returned `{token, username}` and navigates to `/`, or on failure
     * shows the server's message or the fallback and changes nothing. The fields are never cleared.
     */
    method HandleSubmit(reply: LoginReply) returns (sent: Credentials, note: Toast, navigateTo: Option<string>)
      requires auth.Valid()
      modifies auth, auth.store
      ensures sent == Credentials(username, password)
      ensures username == old(username) && password == old(password)
      ensures auth.Valid()
      ensures reply.Accepted? ==>
                auth.State() == LogIn(old(auth.State()), Session(reply.token, reply.username)) &&
                note == Success(SuccessMessage) && navigateTo == Some(App.HomePath) &&
                App.Route(navigateTo.value, auth.user) == App.Show(App.TodoAppView)
      ensures reply.Failed? ==>
                auth.State() == old(auth.State()) &&
                note == Error(FailureMessage(reply.errorField)) && navigateTo == None
    {
      sent := Credentials(username, password);
      match reply {
        case Accepted(token, name) =>
          auth.Login(Session(token, name));
          note := Success(SuccessMessage);
          navigateTo := Some(App.HomePath);
        case Failed(errorField) =>
          note := Error(FailureMessage(errorField));
          navigateTo := None;
      }
    }
  }
}
