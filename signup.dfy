/** The sign-up page (src/components/Auth/SignUp.tsx): the form, its checks in order and
    the loading flag around the submission. */
module SignUp {
  import opened Seqs
  import opened Types
  import opened SettingsPage

  datatype SignUpData = SignUpData(
    name: string,
    email: string,
    phone: string,
    address: string,
    password: string,
    confirmPassword: string,
    role: Role)

  /** The form as opened: every text empty, the student role chosen. */
  const EmptySignUp := SignUpData("", "", "", "", "", "", StudentRole)

  /** The roles the role select offers. */
  predicate OfferedRole(r: Role)
  {
    r == StudentRole || r == Supervisor
  }

  datatype SignUpField = NameField | EmailField | PhoneField | AddressField | PasswordField | ConfirmField

  function ChangeSignUpField(d: SignUpData, field: SignUpField, value: string): (r: SignUpData)
  {
    match field
    case NameField => d.(name := value)
    case EmailField => d.(email := value)
    case PhoneField => d.(phone := value)
    case AddressField => d.(address := value)
    case PasswordField => d.(password := value)
    case ConfirmField => d.(confirmPassword := value)
  }

  datatype SignUpError = MissingRequired | PasswordMismatch | PasswordTooShort

  /** handleSubmit's checks in their order; the first failing one is reported. */
  function CheckSignUp(d: SignUpData): (r: Option<SignUpError>)
    ensures r == Some(MissingRequired) <==> d.name == "" || d.email == "" || d.password == ""
    ensures r == Some(PasswordMismatch) <==>
              d.name != "" && d.email != "" && d.password != "" && d.password != d.confirmPassword
    ensures r == Some(PasswordTooShort) <==>
              d.name != "" && d.email != "" && d.password != "" && d.password == d.confirmPassword &&
              |d.password| < MinPasswordLength
    ensures r.None? <==>
              d.name != "" && d.email != "" && d.password == d.confirmPassword && |d.password| >= MinPasswordLength
  {
    if d.name == "" || d.email == "" || d.password == "" then Some(MissingRequired)
    else if d.password != d.confirmPassword then Some(PasswordMismatch)
    else if |d.password| < MinPasswordLength then Some(PasswordTooShort)
    else None
  }

  /** The phone, the address and the role never decide whether the form is accepted. */
  lemma {:induction false} OptionalFieldsIgnored(d: SignUpData, phone: string, address: string, role: Role)
    ensures CheckSignUp(d.(phone := phone, address := address, role := role)) == CheckSignUp(d)
  {
  }

  /** A password the sign-up accepts also passes the password change on the settings
      page; the two pages share the confirmation and the length rule. */
  lemma {:induction false} AcceptedPasswordPassesSettings(d: SignUpData)
    requires CheckSignUp(d).None?
    ensures CheckNewPassword(d.password, d.confirmPassword).None?
  {
  }

  /** The page's state: the form, the loading flag and where the page has sent the user. */
  class SignUpPage {
    var data: SignUpData
    var loading: bool
    var sentToLogin: bool

    constructor ()
      ensures data == EmptySignUp && !loading && !sentToLogin
    {
      data := EmptySignUp;
      loading := false;
      sentToLogin := false;
    }

    method Change(field: SignUpField, value: string)
      modifies this
      ensures data == ChangeSignUpField(old(data), field, value)
      ensures loading == old(loading) && sentToLogin == old(sentToLogin)
    {
      data := ChangeSignUpField(data, field, value);
    }

    method ChooseRole(role: Role)
      requires OfferedRole(role)
      modifies this
      ensures data == old(data).(role := role)
      ensures loading == old(loading) && sentToLogin == old(sentToLogin)
    {
      data := data.(role := role);
    }

    /** handleSubmit: loading is set, the checks run, an accepted form sends the user to
        the login page, and loading is cleared on every path. */
    method Submit() returns (err: Option<SignUpError>)
      modifies this
      ensures err == CheckSignUp(data)
      ensures data == old(data)
      ensures !loading
      ensures sentToLogin == (old(sentToLogin) || err.None?)
    {
      loading := true;
      err := CheckSignUp(data);
      if err.None? {
        sentToLogin := true;
      }
      loading := false;
    }

    /** handleBackToLogin */
    method BackToLogin()
      modifies this
      ensures sentToLogin && data == old(data) && loading == old(loading)
    {
      sentToLogin := true;
    }
  }
}
