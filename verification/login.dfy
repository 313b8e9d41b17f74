/** The login page: a two-field form that hands the credentials to the
    session's `login` and goes home when it resolves. */
module LoginPage {
  import opened Http
  import opened AuthContext

  const EmailField := "email"
  const PasswordField := "password"

  class Login {
    /** The form object, keyed by input `name`. */
    var formData: map<string, string>
    var error: string
    var loading: bool

    /** Both inputs always have a value to send. */
    ghost predicate Valid()
      reads this
    {
      EmailField in formData && PasswordField in formData
    }

    constructor ()
      ensures Valid() && formData == map[EmailField := "", PasswordField := ""]
      ensures error == "" && !loading
    {
      formData := map[EmailField := "", PasswordField := ""];
      error, loading := "", false;
    }

    /** `handleChange`: the field named by the input takes the typed value;
        every other field keeps its value. */
    method HandleChange(name: string, value: string)
      requires Valid()
      modifies this`formData
      ensures Valid()
      ensures name in formData && formData[name] == value
      ensures formData.Keys == old(formData).Keys + {name}
      ensures forall k :: k in old(formData) && k != name ==> formData[k] == old(formData)[k]
    {
      formData := formData[name := value];
    }

    /** The first two steps of `handleSubmit`, before the request. */
    method BeginSubmit()
      modifies this`loading, this`error
      ensures loading && error == ""
    {
      loading := true;
      error := "";
    }

    /** `handleSubmit`: loading starts and the error is cleared; the
        session's `login` is awaited with the form's credentials; on success
        the page navigates to '/', on failure the error shows the server's
        message or 'Login failed' and nothing navigates. Loading is over
        afterwards either way. */
    method HandleSubmit(session: Session, response: Response<AuthData>)
      returns (credentials: (string, string), navigateTo: Option<string>)
      requires Valid()
      modifies this, session
      ensures Valid() && formData == old(formData) && !loading
      ensures credentials == (old(formData)[EmailField], old(formData)[PasswordField])
      ensures response.Ok? ==> navigateTo == Some("/") && error == ""
      ensures response.Ok? ==> session.user == Some(response.data.user) && session.Valid()
      ensures response.Ok? ==> session.authorization == Some(Bearer(response.data.token))
      ensures response.Fail? ==> navigateTo == None && error == ErrorText(response.message, "Login failed")
      ensures response.Fail? ==> unchanged(session)
    {
      BeginSubmit();
      credentials := (formData[EmailField], formData[PasswordField]);
      var outcome := session.Login(response);
      if outcome.Resolved? {
        navigateTo := Some("/");
      } else {
        error := ErrorText(outcome.message, "Login failed");
        navigateTo := None;
      }
      loading := false;
    }
  }
}
