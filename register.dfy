/** The registration form: its validator and the register submission, which
    posts the credentials and resets the form. */
module Register {
  import opened Common

  datatype RegisterForm = RegisterForm(username: string, password: string, confirmPassword: string)

  /** The body of `POST /auth/register`. */
  datatype Credentials = Credentials(username: string, password: string)

  const MinLength: nat := 6

  const UsernameRequired: Snack := Snack("username is a required field", "warning")
  const UsernameTooShort: Snack := Snack("username must be more than 6 characters", "warning")
  const PasswordRequired: Snack := Snack("password is a required field", "warning")
  const PasswordTooShort: Snack := Snack("passworn must br more than 6 characters", "warning")
  const PasswordMismatch: Snack := Snack("passwords do not match", "warning")
  const Registered: Snack := Snack("Registered Successfully", "success")

  /** What a successful registration leaves in every field: one space. */
  const ResetForm: RegisterForm := RegisterForm(" ", " ", " ")

  /** validateInput: the first failing check rejects with its warning; a
      password mismatch only warns. */
  function ValidateInput(data: RegisterForm): (r: Validation)
    ensures r.ok <==> |data.username| >= MinLength && |data.password| >= MinLength
    ensures |r.warnings| <= 1
    ensures !r.ok ==> |r.warnings| == 1
    ensures r.ok ==> (r.warnings == [] <==> data.password == data.confirmPassword)
  {
    if data.username == "" then Validation(false, [UsernameRequired])
    else if |data.username| < MinLength then Validation(false, [UsernameTooShort])
    else if data.password == "" then Validation(false, [PasswordRequired])
    else if |data.password| < MinLength then Validation(false, [PasswordTooShort])
    else if data.password != data.confirmPassword then Validation(true, [PasswordMismatch])
    else Validation(true, [])
  }

  /** The checks run in order and the first that fails is the only warning:
      whatever the later fields hold, they are not looked at. */
  lemma ChecksInOrder(data: RegisterForm)
    ensures data.username == "" ==>
      ValidateInput(data) == Validation(false, [UsernameRequired])
    ensures 0 < |data.username| < MinLength ==>
      ValidateInput(data) == Validation(false, [UsernameTooShort])
    ensures |data.username| >= MinLength && data.password == "" ==>
      ValidateInput(data) == Validation(false, [PasswordRequired])
    ensures |data.username| >= MinLength && 0 < |data.password| < MinLength ==>
      ValidateInput(data) == Validation(false, [PasswordTooShort])
  {
  }

  /** A length of exactly 6 passes both length checks, despite the warning's
      "more than 6". */
  lemma LengthSixAccepted(data: RegisterForm)
    requires |data.username| == 6 && |data.password| == 6
    ensures ValidateInput(data).ok
    ensures data.password == data.confirmPassword ==> ValidateInput(data).warnings == []
  {
  }

  /** A password mismatch warns but does not block. */
  lemma MismatchDoesNotBlock(data: RegisterForm)
    requires |data.username| >= MinLength && |data.password| >= MinLength
    requires data.password != data.confirmPassword
    ensures ValidateInput(data) == Validation(true, [PasswordMismatch])
  {
  }

  /** Submitting the reset form unchanged is refused by the length check, not by
      the required-field check. */
  lemma ResetFormRejected()
    ensures ValidateInput(ResetForm) == Validation(false, [UsernameTooShort])
  {
  }

  /** The registration page's state. */
  class RegisterPage {
    var formData: RegisterForm
    var loading: bool

    constructor ()
      ensures formData == RegisterForm("", "", "") && !loading
    {
      formData := RegisterForm("", "", "");
      loading := false;
    }

    /** register: nothing is posted when validation fails; otherwise the
        credentials are posted and, on success, every field is reset to a single
        space. The snackbars raised are returned in order. */
    method Register(data: RegisterForm, response: Reply<()>)
      returns (request: Option<Credentials>, snacks: seq<Snack>)
      modifies this
      ensures !ValidateInput(data).ok ==>
        request == None && snacks == ValidateInput(data).warnings &&
        formData == old(formData) && loading == old(loading)
      ensures ValidateInput(data).ok ==>
        request == Some(Credentials(data.username, data.password)) && !loading
      ensures ValidateInput(data).ok && response.Ok? ==>
        formData == ResetForm && snacks == ValidateInput(data).warnings + [Registered]
      ensures ValidateInput(data).ok && !response.Ok? ==>
        formData == old(formData) &&
        snacks == ValidateInput(data).warnings + [ErrorSnack(response, GenericFailure)]
    {
      var v := ValidateInput(data);
      snacks := v.warnings;
      if !v.ok {
        return None, snacks;
      }
      loading := true;
      request := Some(Credentials(data.username, data.password));
      if response.Ok? {
        loading := false;
        formData := ResetForm;
        snacks := snacks + [Registered];
      } else {
        loading := false;
        snacks := snacks + [ErrorSnack(response, GenericFailure)];
      }
    }
  }
}
