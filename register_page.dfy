/**
 * The sign-up wizard: a role-selection screen, then three steps of fields for the chosen
 * role, with next and back buttons, and a final sign-up call that sends only the account
 * fields.
 */
module RegisterPage {
  import opened Wrappers

  const TotalSteps := 3
  const RegistrationFailed := "An error occurred during registration"
  const LoginPage := "/login"

  /** The seventeen fields the form starts with, all empty. */
  const FieldNames: seq<string> := [
    "fullName", "email", "password", "phone", "dob", "gender", "bloodGroup", "allergies",
    "emergencyName", "emergencyPhone", "specialization", "license", "experience", "education",
    "clinicName", "clinicAddress", "consultationFee"
  ]

  datatype UserType = Patient | Doctor

  function RoleName(t: UserType): string {
    match t
    case Patient => "patient"
    case Doctor => "doctor"
  }

  /** What the page shows: the role choice until a role is picked, then the step form. */
  datatype Screen = RoleSelection | StepForm(userType: UserType, step: int, labels: seq<string>, progress: seq<bool>)

  /** The labels over the progress bar. */
  function StepLabels(t: UserType): (r: seq<string>)
    ensures |r| == TotalSteps && r[0] == "Account"
    ensures t == Patient ==> r[1..] == ["General", "Finalize"]
    ensures t == Doctor ==> r[1..] == ["Credentials", "Practice"]
  {
    if t == Patient then ["Account", "General", "Finalize"] else ["Account", "Credentials", "Practice"]
  }

  /** Segment `i` of the progress bar is highlighted when `i + 1 <= step`. */
  function Progress(step: int): (r: seq<bool>)
    ensures |r| == TotalSteps
    ensures 0 <= step <= TotalSteps ==> r == seq(step, _ => true) + seq(TotalSteps - step, _ => false)
  {
    seq(TotalSteps, i => i + 1 <= step)
  }

  /** The sign-up request: credentials, the name and role as user metadata, and the page
      the confirmation e-mail links back to. */
  datatype SignUpPayload = SignUpPayload(email: string, password: string, fullName: string, role: string,
                                         emailRedirectTo: string)

  function Field(form: map<string, string>, name: string): string {
    if name in form then form[name] else ""
  }

  /** The request for the chosen role; `origin` is the page's `window.location.origin`. */
  function SignUpPayloadOf(form: map<string, string>, t: UserType, origin: string): (p: SignUpPayload)
    ensures p.role == "patient" || p.role == "doctor"
    ensures (p.role == "doctor") <==> (t == Doctor)
    ensures p.email == Field(form, "email") && p.password == Field(form, "password")
    ensures p.fullName == Field(form, "fullName")
    ensures p.emailRedirectTo == origin + LoginPage
  {
    SignUpPayload(Field(form, "email"), Field(form, "password"), Field(form, "fullName"), RoleName(t),
      origin + LoginPage)
  }

  /** Only email, password and full name reach the payload: forms that agree on those
      three produce the same request, whatever their phone, licence or other fields. */
  lemma PayloadIgnoresOtherFields(f1: map<string, string>, f2: map<string, string>, t: UserType, origin: string)
    requires Field(f1, "email") == Field(f2, "email") && Field(f1, "password") == Field(f2, "password")
    requires Field(f1, "fullName") == Field(f2, "fullName")
    ensures SignUpPayloadOf(f1, t, origin) == SignUpPayloadOf(f2, t, origin)
  {
  }

  class RegisterWizard {
    var step: int
    var userType: Option<UserType>
    var isLoading: bool
    var error: Option<string>
    var formData: map<string, string>

    predicate Valid()
      reads this
    {
      1 <= step <= TotalSteps && !isLoading
      && (userType.None? ==> step == 1)
      && forall i :: 0 <= i < |FieldNames| ==> FieldNames[i] in formData
    }

    function CurrentScreen(): (s: Screen)
      reads this
      ensures userType.None? <==> s == RoleSelection
    {
      match userType
      case None => RoleSelection
      case Some(t) => StepForm(t, step, StepLabels(t), Progress(step))
    }

    constructor()
      ensures Valid()
      ensures step == 1 && userType.None? && !isLoading && error.None?
      ensures forall i :: 0 <= i < |FieldNames| ==> formData[FieldNames[i]] == ""
      ensures CurrentScreen() == RoleSelection
    {
      step := 1;
      userType := None;
      isLoading := false;
      error := None;
      formData := map i | 0 <= i < |FieldNames| :: FieldNames[i] := "";
    }

    /** The two cards of the role-selection screen. */
    method ChooseType(t: UserType)
      requires Valid() && userType.None?
      modifies this
      ensures Valid()
      ensures userType == Some(t) && step == 1
      ensures formData == old(formData) && error == old(error) && isLoading == old(isLoading)
    {
      userType := Some(t);
    }

    /** `handleChange`: sets the named field, leaving the others alone, and clears the error. */
    method Change(name: string, value: string)
      requires Valid()
      modifies this
      ensures Valid()
      ensures formData == old(formData)[name := value] && error.None?
      ensures step == old(step) && userType == old(userType) && isLoading == old(isLoading)
    {
      formData := formData[name := value];
      error := None;
    }

    /** The form's submit: before the last step, advance one step; at the last step run
        `handleSubmit` with the sign-up outcome (`None` on success, else the error's
        message); `origin` is the page's `window.location.origin`. Returns the request sent
        and the page navigated to. */
    method SubmitStep(signUpError: Option<Option<string>>, origin: string) returns (request: Option<SignUpPayload>, navigation: Option<string>)
      requires Valid() && userType.Some?
      modifies this
      ensures Valid()
      ensures old(step) < TotalSteps ==> step == old(step) + 1 && request.None? && navigation.None? && error == old(error)
      ensures old(step) == TotalSteps ==> step == old(step) && request == Some(SignUpPayloadOf(formData, userType.value, origin))
      ensures navigation.Some? <==> old(step) == TotalSteps && signUpError.None?
      ensures navigation.Some? ==> navigation.value == LoginPage && error.None?
      ensures old(step) == TotalSteps && signUpError.Some? ==> error == Some(OrElse(signUpError.value, RegistrationFailed))
      ensures !isLoading && formData == old(formData) && userType == old(userType)
    {
      request, navigation := None, None;
      if step != TotalSteps {
        step := step + 1;
        return;
      }
      isLoading := true;
      error := None;
      request := Some(SignUpPayloadOf(formData, userType.value, origin));
      if signUpError.Some? {
        error := Some(OrElse(signUpError.value, RegistrationFailed));
      } else {
        navigation := Some(LoginPage);
      }
      isLoading := false;
    }

    /** The back button, shown only past the first step. */
    method Back()
      requires Valid() && userType.Some? && step > 1
      modifies this
      ensures Valid()
      ensures step == old(step) - 1
      ensures userType == old(userType) && formData == old(formData) && error == old(error)
      ensures isLoading == old(isLoading)
    {
      step := step - 1;
    }
  }

  /** The bar highlights the steps reached: one segment on the first step, all three on
      the last. */
  lemma ProgressOfFirstAndLastStep()
    ensures Progress(1) == [true, false, false]
    ensures Progress(TotalSteps) == [true, true, true]
  {
  }
}
