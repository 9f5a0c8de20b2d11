/** The login page: where a signed-in visitor is sent, and the form whose fields, error message
    and busy flag the change and submit handlers update. */
module LoginPage {
  import opened Outcomes
  import opened Text
  import opened AuthContext
  import App

  /** The redirect of the page's effect: once loading is over and both the user and the profile
      are known, administrators go to "/admin" and everyone else to "/member". */
  function RedirectAfterLogin(authLoading: bool, user: Option<User>, profile: Option<Profile>): (to: Option<string>)
    ensures to.Some? <==> !authLoading && user.Some? && profile.Some?
    ensures to.Some? ==> (to.value == "/admin" <==> IsAdmin(profile))
    ensures to.Some? ==> to.value == "/admin" || to.value == "/member"
  {
    if !authLoading && user.Some? && profile.Some? then
      if profile.value.role == Admin || profile.value.role == SuperAdmin then Some("/admin") else Some("/member")
    else None
  }

  /** The page the login redirect leads to lets the user in: the route guard renders it. */
  lemma RedirectAfterLoginIsAdmitted(authLoading: bool, user: Option<User>, profile: Option<Profile>)
    requires RedirectAfterLogin(authLoading, user, profile).Some?
    ensures App.GuardAt(RedirectAfterLogin(authLoading, user, profile).value, authLoading, user, profile)
              == App.RenderChildren
  {
    var to := RedirectAfterLogin(authLoading, user, profile).value;
    if to == "/admin" {
      assert App.Below(to, "/admin");
    } else {
      App.TreesAreDisjoint(to);
      assert App.Below(to, "/member");
    }
  }

  datatype Field = Email | Password

  /** The form's `formData` object. */
  datatype FormData = FormData(email: string, password: string)

  /** `{ ...formData, [name]: value }`: the named field takes the value and the other keeps
      its own. */
  function Edited(d: FormData, field: Field, value: string): (r: FormData)
    ensures r.email == (if field == Email then value else d.email)
    ensures r.password == (if field == Password then value else d.password)
  {
    match field
    case Email => d.(email := value)
    case Password => d.(password := value)
  }

  class LoginForm {
    var formData: FormData
    var isLoading: bool
    var error: string

    constructor ()
      ensures formData == FormData("", "") && !isLoading && error == ""
    {
      formData := FormData("", "");
      isLoading := false;
      error := "";
    }

    /** `handleChange`: the edited field takes the typed value and the error is cleared. */
    method HandleChange(field: Field, value: string)
      modifies this
      ensures formData == Edited(old(formData), field, value)
      ensures error == "" && isLoading == old(isLoading)
    {
      formData := Edited(formData, field, value);
      error := "";
    }

    /** `handleSubmit`: sign in with the form's credentials. A returned error becomes the
        message; a backend call that throws gives 'An unexpected error occurred'; the form is
        never left busy. `backend` is what the backend sign-in call does outside demo mode.
        In demo mode the provider's new identity and slot are those of `signIn`; outside it
        the provider is left as it was (the auth-change listener installs the new session). */
    method HandleSubmit(auth: AuthProvider, now: int, backend: CallResult)
      requires auth.Valid()
      modifies this, auth
      ensures auth.Valid() && !isLoading && formData == old(formData)
      ensures auth.loading == old(auth.loading)
      ensures auth.isDemoMode ==>
                var e := NormalizeEmail(formData.email);
                var role := SignInRole(e, formData.password);
                var d := DemoSignIn(e, role, now);
                error == "" && auth.stored == Some(Demo(e, role)) &&
                auth.user == Some(d.user) && auth.profile == Some(d.profile) && auth.session == Some(d.session)
      ensures !auth.isDemoMode ==>
                auth.user == old(auth.user) && auth.profile == old(auth.profile) &&
                auth.session == old(auth.session) && auth.stored == old(auth.stored)
      ensures !auth.isDemoMode && backend.Threw? ==> error == "An unexpected error occurred"
      ensures !auth.isDemoMode && backend.Completed? ==>
                error == (if backend.error.Some? then backend.error.value else "")
    {
      isLoading := true;
      error := "";
      var d := formData;
      error := SignInWith(auth, d.email, d.password, now, backend);
      isLoading := false;
    }
  }

  /** The `try` block of the submit handler: sign-in with the form's credentials and the
      message it leaves (empty when there is no error, the fixed text when the call throws). */
  method SignInWith(auth: AuthProvider, email: string, password: string, now: int, backend: CallResult)
    returns (message: string)
    requires auth.Valid()
    modifies auth
    ensures auth.Valid() && auth.loading == old(auth.loading)
    ensures auth.isDemoMode ==>
              var e := NormalizeEmail(email);
              var role := SignInRole(e, password);
              var d := DemoSignIn(e, role, now);
              message == "" && auth.stored == Some(Demo(e, role)) &&
              auth.user == Some(d.user) && auth.profile == Some(d.profile) && auth.session == Some(d.session)
    ensures !auth.isDemoMode ==>
              auth.user == old(auth.user) && auth.profile == old(auth.profile) &&
              auth.session == old(auth.session) && auth.stored == old(auth.stored)
    ensures !auth.isDemoMode && backend.Threw? ==> message == "An unexpected error occurred"
    ensures !auth.isDemoMode && backend.Completed? ==>
              message == (if backend.error.Some? then backend.error.value else "")
  {
    if !auth.isDemoMode && backend.Threw? {
      return "An unexpected error occurred";
    }
    var signInError := auth.SignIn(email, password, now, if backend.Completed? then backend.error else None);
    message := if signInError.Some? then signInError.value else "";
  }

  /** Demo end to end: submitting the admin credentials, typed in any letter case, signs in an
      administrator, and the page then redirects to the admin area. */
  lemma AdminCredentialsRedirectToAdmin(email: string, now: int)
    requires NormalizeEmail(email) == "admin@example.com"
    ensures var d := DemoSignIn(NormalizeEmail(email), SignInRole(NormalizeEmail(email), "admin123"), now);
            RedirectAfterLogin(false, Some(d.user), Some(d.profile)) == Some("/admin")
  {
    var e := NormalizeEmail(email);
    AdminAccount();
    var role := SignInRole(e, "admin123");
    assert role == Admin;
    var d := DemoSignIn(e, role, now);
    assert d.profile.role == Admin;
  }

  /** The admin row of the demo table. */
  lemma AdminAccount()
    ensures "admin@example.com" in DemoUsers
    ensures DemoUsers["admin@example.com"] == DemoAccount("admin123", Admin)
  {
  }
}
