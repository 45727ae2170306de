/** The login form: its validator, the login submission and the three session
    keys it persists. */
module Login {
  import opened Common

  datatype LoginForm = LoginForm(username: string, password: string)

  /** The body of a `POST /auth/login` answer. */
  datatype LoginBody = LoginBody(username: string, success: bool, token: string, balance: int)

  const UsernameRequired: Snack := Snack("username is a required field", "warning")
  const PasswordRequired: Snack := Snack("password is a  required field", "warning")
  const LoggedIn: Snack := Snack("logged in successfully", "success")

  /** The keys login writes to the session store. */
  const SessionKeys: set<string> := {"token", "username", "balance"}

  /** validateInput: only the empty string is refused, username first. */
  function ValidateInput(data: LoginForm): (r: Validation)
    ensures r.ok <==> data.username != "" && data.password != ""
    ensures r.ok ==> r.warnings == []
    ensures !r.ok ==> |r.warnings| == 1
    ensures data.username == "" ==> r.warnings == [UsernameRequired]
    ensures data.username != "" && data.password == "" ==> r.warnings == [PasswordRequired]
  {
    if data.username == "" then Validation(false, [UsernameRequired])
    else if data.password == "" then Validation(false, [PasswordRequired])
    else Validation(true, [])
  }

  /** Any two non-empty strings pass: there is no minimum length. */
  lemma NoMinimumLength(u: char, p: char)
    ensures ValidateInput(LoginForm([u], [p])) == Validation(true, [])
  {
  }

  /** The decimal text of a natural number. */
  function Digits(n: nat): (s: string)
    ensures |s| >= 1
    ensures forall k :: 0 <= k < |s| ==> '0' <= s[k] <= '9'
    ensures n > 0 ==> s[0] != '0'
  {
    if n < 10 then ["0123456789"[n]]
    else Digits(n / 10) + ["0123456789"[n % 10]]
  }

  /** The string the session store keeps for a number (JavaScript `String(n)`). */
  function NumberToString(n: int): (s: string)
    ensures |s| >= 1
  {
    if n < 0 then "-" + Digits(-n) else Digits(n)
  }

  /** The session store after persistLogin. */
  function Persisted(storage: map<string, string>, token: string, username: string, balance: int)
    : (m: map<string, string>)
    ensures m.Keys == storage.Keys + SessionKeys
    ensures m["token"] == token && m["username"] == username && m["balance"] == NumberToString(balance)
    ensures forall k :: k in storage && k !in SessionKeys ==> m[k] == storage[k]
  {
    storage["token" := token]["username" := username]["balance" := NumberToString(balance)]
  }

  /** A later login replaces all three keys of an earlier one, and persisting
      the same session twice is the same as once. */
  lemma PersistOverwrites(s: map<string, string>, t1: string, u1: string, b1: int,
                          t2: string, u2: string, b2: int)
    ensures Persisted(Persisted(s, t1, u1, b1), t2, u2, b2) == Persisted(s, t2, u2, b2)
    ensures Persisted(Persisted(s, t1, u1, b1), t1, u1, b1) == Persisted(s, t1, u1, b1)
  {
    var a := Persisted(Persisted(s, t1, u1, b1), t2, u2, b2);
    var b := Persisted(s, t2, u2, b2);
    assert a.Keys == b.Keys;
    assert forall k :: k in a ==> a[k] == b[k];
  }

  /** The login page's state, with the browser's session store as a map. */
  class LoginPage {
    var formData: LoginForm
    var loading: bool
    var storage: map<string, string>

    constructor (storage: map<string, string>)
      ensures formData == LoginForm("", "") && !loading && this.storage == storage
    {
      formData := LoginForm("", "");
      loading := false;
      this.storage := storage;
    }

    /** persistLogin: writes exactly `token`, `username` and `balance`. */
    method PersistLogin(token: string, username: string, balance: int)
      modifies this`storage
      ensures storage == Persisted(old(storage), token, username, balance)
    {
      storage := storage["token" := token];
      storage := storage["username" := username];
      storage := storage["balance" := NumberToString(balance)];
    }

    /** login: nothing is posted when validation fails; otherwise the form is
        posted, an answer clears the form and always shows the success snackbar,
        and only an answer with `success` persists the session. */
    method Login(data: LoginForm, response: Reply<LoginBody>)
      returns (request: Option<LoginForm>, snacks: seq<Snack>)
      modifies this
      ensures !ValidateInput(data).ok ==>
        request == None && snacks == ValidateInput(data).warnings &&
        formData == old(formData) && loading == old(loading) && storage == old(storage)
      ensures ValidateInput(data).ok ==> request == Some(data) && !loading
      ensures ValidateInput(data).ok && response.Ok? ==>
        formData == LoginForm("", "") && snacks == [LoggedIn] &&
        storage == if response.data.success
                   then Persisted(old(storage), response.data.token, response.data.username,
                                  response.data.balance)
                   else old(storage)
      ensures ValidateInput(data).ok && !response.Ok? ==>
        formData == old(formData) && storage == old(storage) &&
        snacks == [ErrorSnack(response, GenericFailure)]
    {
      var v := ValidateInput(data);
      if !v.ok {
        return None, v.warnings;
      }
      loading := true;
      request := Some(data);
      match response
      case Ok(body) =>
        formData := LoginForm("", "");
        loading := false;
        snacks := [LoggedIn];
        if body.success {
          PersistLogin(body.token, body.username, body.balance);
        }
      case _ =>
        loading := false;
        snacks := [ErrorSnack(response, GenericFailure)];
    }
  }
}
