/** The registration page: the form, its validation order, and the outcome flags the submit
    handler sets. */
module RegisterPage {
  import opened Outcomes
  import opened Text
  import opened AuthContext

  const MinPasswordLength := 8

  /** The form's own checks, in the order the handler runs them: the confirmation must match,
      then the password must be at least eight characters. */
  function Validate(password: string, confirmPassword: string): (r: Option<string>)
    ensures r.None? <==> password == confirmPassword && |password| >= MinPasswordLength
    ensures password != confirmPassword ==> r == Some("Passwords do not match")
    ensures password == confirmPassword && |password| < MinPasswordLength ==>
              r == Some("Password must be at least 8 characters")
  {
    if password != confirmPassword then Some("Passwords do not match")
    else if |password| < MinPasswordLength then Some("Password must be at least 8 characters")
    else None
  }

  datatype Field = Name | Email | Phone | Password | ConfirmPassword

  /** The form's `formData` object. */
  datatype FormData = FormData(name: string, email: string, phone: string, password: string,
                               confirmPassword: string)

  const EmptyForm := FormData("", "", "", "", "")

  /** `{ ...formData, [name]: value }`: the named field takes the value and every other field
      keeps its own. */
  function Edited(d: FormData, field: Field, value: string): (r: FormData)
    ensures r.name == (if field == Name then value else d.name)
    ensures r.email == (if field == Email then value else d.email)
    ensures r.phone == (if field == Phone then value else d.phone)
    ensures r.password == (if field == Password then value else d.password)
    ensures r.confirmPassword == (if field == ConfirmPassword then value else d.confirmPassword)
  {
    match field
    case Name => d.(name := value)
    case Email => d.(email := value)
    case Phone => d.(phone := value)
    case Password => d.(password := value)
    case ConfirmPassword => d.(confirmPassword := value)
  }

  class RegisterForm {
    var formData: FormData
    var isLoading: bool
    var error: string
    var success: bool

    constructor ()
      ensures formData == EmptyForm && !isLoading && error == "" && !success
    {
      formData := EmptyForm;
      isLoading := false;
      error := "";
      success := false;
    }

    /** `handleChange`: the edited field takes the typed value and the error is cleared. */
    method HandleChange(field: Field, value: string)
      modifies this
      ensures formData == Edited(old(formData), field, value)
      ensures error == "" && isLoading == old(isLoading) && success == old(success)
    {
      formData := Edited(formData, field, value);
      error := "";
    }

    /** `handleSubmit`. A failed check sets its message and does not call sign-up. Otherwise
        sign-up runs with the form's email, password, name and phone: an error becomes the
        message, a throw gives 'An unexpected error occurred', and success sets `success`.
        The form is never left busy. `backend` is what the backend sign-up call does outside
        demo mode. In demo mode the provider's new identity and slot are those of `signUp`;
        outside it, and after a failed check, the provider is left as it was. */
    method HandleSubmit(auth: AuthProvider, now: int, backend: CallResult)
      requires auth.Valid()
      modifies this, auth
      ensures auth.Valid() && !isLoading && formData == old(formData)
      ensures auth.loading == old(auth.loading)
      ensures Validate(formData.password, formData.confirmPassword).Some? || !auth.isDemoMode ==>
                auth.user == old(auth.user) && auth.profile == old(auth.profile) &&
                auth.session == old(auth.session) && auth.stored == old(auth.stored)
      ensures Validate(formData.password, formData.confirmPassword).Some? ==>
                error == Validate(formData.password, formData.confirmPassword).value &&
                success == old(success)
      ensures Validate(formData.password, formData.confirmPassword).None? && auth.isDemoMode ==>
                var e := NormalizeEmail(formData.email);
                var u := DemoUser(e, now);
                error == "" && success && auth.stored == Some(Demo(e, Member)) &&
                auth.user == Some(u) && auth.session == Some(DemoSession(u)) &&
                auth.profile == Some(SignedUpProfile(e, Some(formData.name), Some(formData.phone), now))
      ensures Validate(formData.password, formData.confirmPassword).None? && !auth.isDemoMode ==>
                match backend
                case Threw => error == "An unexpected error occurred" && success == old(success)
                case Completed(None) => error == "" && success
                case Completed(Some(m)) => error == m && success == old(success)
    {
      isLoading := true;
      error := "";
      var d := formData;
      var invalid := Validate(d.password, d.confirmPassword);
      if invalid.Some? {
        error := invalid.value;
        isLoading := false;
        return;
      }
      var message, succeeded := SignUpWith(auth, d.email, d.password, d.name, d.phone, now, backend);
      error := message;
      if succeeded {
        success := true;
      }
      isLoading := false;
    }
  }

  /** The `try` block of the submit handler once the checks have passed: sign-up with the
      form's fields, its error message (empty when there is none, the fixed text when the call
      throws), and whether it succeeded. */
  method SignUpWith(auth: AuthProvider, email: string, password: string, name: string, phone: string,
                    now: int, backend: CallResult)
    returns (message: string, succeeded: bool)
    requires auth.Valid()
    modifies auth
    ensures auth.Valid() && auth.loading == old(auth.loading)
    ensures auth.isDemoMode ==>
              var e := NormalizeEmail(email);
              var u := DemoUser(e, now);
              message == "" && succeeded && auth.stored == Some(Demo(e, Member)) &&
              auth.user == Some(u) && auth.session == Some(DemoSession(u)) &&
              auth.profile == Some(SignedUpProfile(e, Some(name), Some(phone), now))
    ensures !auth.isDemoMode ==>
              auth.user == old(auth.user) && auth.profile == old(auth.profile) &&
              auth.session == old(auth.session) && auth.stored == old(auth.stored)
    ensures !auth.isDemoMode ==>
              match backend
              case Threw => message == "An unexpected error occurred" && !succeeded
              case Completed(None) => message == "" && succeeded
              case Completed(Some(m)) => message == m && !succeeded
  {
    if !auth.isDemoMode && backend.Threw? {
      return "An unexpected error occurred", false;
    }
    var signUpError := auth.SignUp(email, password, Some(name), Some(phone), now,
                                   if backend.Completed? then backend.error else None);
    if signUpError.Some? {
      return signUpError.value, false;
    }
    return "", true;
  }
}
