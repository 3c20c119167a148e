/**
 * The sign-in form: a Patient/Doctor tab, the credential fields, and the submit handler
 * that sends the user to the dashboard of the role stored in their account.
 */
module LoginPage {
  import opened Wrappers

  const DoctorDashboard := "/doctor/dashboard"
  const PatientDashboard := "/patient/dashboard"
  const SignInFailed := "Invalid email or password"

  datatype Tab = PatientTab | DoctorTab

  /** The dashboard for the role in the returned user's metadata. */
  function DashboardFor(role: Option<string>): (path: string)
    ensures path == DoctorDashboard <==> role == Some("doctor")
    ensures path == PatientDashboard <==> role != Some("doctor")
  {
    if role == Some("doctor") then DoctorDashboard else PatientDashboard
  }

  /** The outcome of the sign-in call: the user's metadata role, or the error's message. */
  datatype SignInResult = SignedIn(role: Option<string>) | SignInError(message: Option<string>)

  class LoginForm {
    var tab: Tab
    var isLoading: bool
    var error: Option<string>
    var formData: map<string, string>

    constructor()
      ensures tab == PatientTab && !isLoading && error.None?
      ensures formData == map["email" := "", "password" := ""]
    {
      tab := PatientTab;
      isLoading := false;
      error := None;
      formData := map["email" := "", "password" := ""];
    }

    method SelectTab(t: Tab)
      modifies this
      ensures tab == t && formData == old(formData) && error == old(error) && isLoading == old(isLoading)
    {
      tab := t;
    }

    /** `handleChange`: sets the named field, leaving the others alone, and clears the error. */
    method Change(name: string, value: string)
      modifies this
      ensures formData == old(formData)[name := value] && error.None?
      ensures tab == old(tab) && isLoading == old(isLoading)
    {
      formData := formData[name := value];
      error := None;
    }

    /** `handleSubmit`: the destination depends on the returned role only, never on the
        tab; on an error nothing is navigated to. The latch is down again afterwards. */
    method Submit(result: SignInResult) returns (navigation: Option<string>)
      modifies this
      ensures result.SignedIn? ==> navigation == Some(DashboardFor(result.role)) && error.None?
      ensures result.SignInError? ==> navigation.None? && error == Some(OrElse(result.message, SignInFailed))
      ensures !isLoading && tab == old(tab) && formData == old(formData)
    {
      isLoading := true;
      error := None;
      match result {
        case SignedIn(role) =>
          navigation := Some(DashboardFor(role));
        case SignInError(message) =>
          navigation := None;
          error := Some(OrElse(message, SignInFailed));
      }
      isLoading := false;
    }
  }
}
