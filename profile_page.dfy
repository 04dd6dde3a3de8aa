/** The profile page: loads the signed-in user's email and name, lets the name
    be edited and saved, and changes the password once it has been typed twice.
    The session and the account updates are inputs to the model. */
module ProfilePage {
  import opened Wrappers

  /** What a failed call throws: an `Error` with its message, or any other
      value. */
  datatype Thrown = ErrorInstance(message: string) | OtherValue

  /** The session's user: its email and `user_metadata.name`. */
  datatype SessionUser = SessionUser(email: Option<string>, name: Option<string>)

  /** The keys of `formData` that `handleInputChange` can write, named after
      the event's input. The rendered page only emits `Name`, `NewPassword` and
      `ConfirmPassword`: the email input is disabled and no input is named
      `currentPassword`. The other two constructors keep the handler total over
      the form's fields. */
  datatype Field = Email | Name | CurrentPassword | NewPassword | ConfirmPassword

  /** The page's `formData`. */
  datatype ProfileForm = ProfileForm(
    email: string, name: string, currentPassword: string, newPassword: string, confirmPassword: string)
  {
    function Get(f: Field): string
    {
      match f
      case Email => email
      case Name => name
      case CurrentPassword => currentPassword
      case NewPassword => newPassword
      case ConfirmPassword => confirmPassword
    }

    /** `{ ...prev, [name]: value }`. */
    function With(f: Field, value: string): (r: ProfileForm)
      ensures r.Get(f) == value
      ensures forall g :: g != f ==> r.Get(g) == Get(g)
    {
      match f
      case Email => this.(email := value)
      case Name => this.(name := value)
      case CurrentPassword => this.(currentPassword := value)
      case NewPassword => this.(newPassword := value)
      case ConfirmPassword => this.(confirmPassword := value)
    }
  }

  const EmptyForm: ProfileForm := ProfileForm("", "", "", "", "")
  const UnknownError: string := "An unknown error occurred"

  /** The toast of a failed update: the message of an `Error`, else the bare
      prefix. */
  function FailureToast(prefix: string, e: Thrown): (t: string)
    ensures e.ErrorInstance? ==> t == prefix + ": " + e.message
    ensures e.OtherValue? ==> t == prefix
  {
    match e
    case ErrorInstance(m) => prefix + ": " + m
    case OtherValue => prefix
  }

  /** What the page renders. */
  datatype Screen = Spinner | ErrorScreen(message: string) | Settings

  /** The component `ProfilePage` and its state. */
  class ProfilePage {
    var user: Option<SessionUser>
    var loading: bool
    var saving: bool
    var error: Option<string>
    var formData: ProfileForm

    constructor ()
      ensures user.None? && loading && !saving && error.None? && formData == EmptyForm
    {
      user := None;
      loading := true;
      saving := false;
      error := None;
      formData := EmptyForm;
    }

    /** The spinner while loading, the error screen once an error is set
        (an empty message is falsy), and the settings otherwise. */
    function CurrentScreen(): (s: Screen)
      reads this
      ensures s == Spinner <==> loading
      ensures s.ErrorScreen? <==> !loading && error.Some? && error.value != ""
    {
      if loading then Spinner
      else if error.Some? && error.value != "" then ErrorScreen(error.value)
      else Settings
    }

    /** The password button is enabled: nothing is saving and the new
        password has been typed twice, identically. */
    predicate PasswordButtonEnabled()
      reads this
    {
      !saving && formData.newPassword != "" && formData.confirmPassword != ""
      && formData.newPassword == formData.confirmPassword
    }

    /** `checkUser`, run when the page mounts. `session` is what `getSession`
        gives: the session's user (`None` when signed out) or the error it
        reports. Returns where the router is sent and the toast shown. */
    method CheckUser(session: Result<Option<SessionUser>, Thrown>)
      returns (navigation: Option<string>, toast: Option<string>)
      modifies this
      ensures !loading
      ensures navigation.Some? <==> session == Success(None)
      ensures navigation.Some? ==> navigation.value == "/login"
      ensures session.Success? && session.value.Some? ==>
        && user == session.value
        && formData == old(formData).(email := session.value.value.email.GetOr(""),
                                      name := session.value.value.name.GetOr(""))
        && toast.None? && error == old(error)
      ensures session.Success? && session.value.None? ==>
        user == old(user) && formData == old(formData) && toast.None? && error == old(error)
      ensures session == Failure(OtherValue) ==>
        error == Some(UnknownError) && toast == Some("Failed to load profile. Please try logging in again.")
      ensures session.Failure? && session.error.ErrorInstance? ==>
        error == Some(session.error.message) &&
        toast == Some("Authentication error: " + session.error.message)
      ensures session.Failure? ==> user == old(user) && formData == old(formData)
      ensures saving == old(saving)
    {
      navigation, toast := None, None;
      match session {
        case Failure(e) =>
          match e {
            case ErrorInstance(m) =>
              error := Some(m);
              toast := Some("Authentication error: " + m);
            case OtherValue =>
              error := Some(UnknownError);
              toast := Some("Failed to load profile. Please try logging in again.");
          }
        case Success(s) =>
          if s.None? {
            navigation := Some("/login");
          } else {
            user := s;
            formData := formData.(email := s.value.email.GetOr(""), name := s.value.name.GetOr(""));
          }
      }
      loading := false;
    }

    /** `handleInputChange` on the input named `f`. */
    method HandleInputChange(f: Field, value: string)
      modifies this
      ensures formData.Get(f) == value
      ensures forall g :: g != f ==> formData.Get(g) == old(formData).Get(g)
      ensures user == old(user) && loading == old(loading) && saving == old(saving) && error == old(error)
    {
      formData := formData.With(f, value);
    }

    /** `updateProfile`, reachable while nothing is saving. `updateError` is
        what `updateUser` reports. Returns the name sent and the toast. */
    method UpdateProfile(updateError: Option<Thrown>) returns (sentName: string, toast: string)
      requires !saving
      modifies this
      ensures sentName == formData.name
      ensures updateError.None? ==> toast == "Profile updated successfully"
      ensures updateError.Some? ==> toast == FailureToast("Failed to update profile", updateError.value)
      ensures !saving
      ensures formData == old(formData) && user == old(user) && loading == old(loading) && error == old(error)
    {
      saving := true;
      sentName := formData.name;
      match updateError {
        case None =>
          toast := "Profile updated successfully";
        case Some(e) =>
          toast := FailureToast("Failed to update profile", e);
      }
      saving := false;
    }

    /** `updatePassword`, reachable while nothing is saving. `updateError` is
        what `updateUser` reports. Returns the password sent, if any, and the
        toast. A mismatch is refused before anything is sent; the three
        password inputs are cleared only on success. */
    method UpdatePassword(updateError: Option<Thrown>) returns (sent: Option<string>, toast: string)
      requires !saving
      modifies this
      ensures sent.Some? <==> old(formData.newPassword == formData.confirmPassword)
      ensures sent.Some? ==> sent.value == old(formData.newPassword)
      ensures old(PasswordButtonEnabled()) ==> sent.Some?
      ensures sent.None? ==> toast == "New passwords don't match" && formData == old(formData)
      ensures sent.Some? && updateError.None? ==>
        toast == "Password updated successfully" &&
        formData == old(formData).(currentPassword := "", newPassword := "", confirmPassword := "")
      ensures sent.Some? && updateError.Some? ==>
        toast == FailureToast("Failed to update password", updateError.value) && formData == old(formData)
      ensures !saving
      ensures user == old(user) && loading == old(loading) && error == old(error)
    {
      saving := true;
      if formData.newPassword != formData.confirmPassword {
        sent, toast := None, "New passwords don't match";
      } else {
        sent := Some(formData.newPassword);
        match updateError {
          case None =>
            formData := formData.(currentPassword := "", newPassword := "", confirmPassword := "");
            toast := "Password updated successfully";
          case Some(e) =>
            toast := FailureToast("Failed to update password", e);
        }
      }
      saving := false;
    }
  }

  /** Typing the same new password into both inputs of a fresh form enables
      the password button, and changing one of them alone disables it. */
  lemma PasswordEntryEnables(form: ProfileForm, password: string, other: string)
    requires password != "" && other != password
    ensures var f := form.With(NewPassword, password).With(ConfirmPassword, password);
      f.newPassword == f.confirmPassword != ""
    ensures var f := form.With(NewPassword, password).With(ConfirmPassword, password).With(NewPassword, other);
      f.newPassword != f.confirmPassword
  {
    var f := form.With(NewPassword, password).With(ConfirmPassword, password);
    assert f.Get(NewPassword) == password && f.Get(ConfirmPassword) == password;
    var g := f.With(NewPassword, other);
    assert g.Get(NewPassword) == other && g.Get(ConfirmPassword) == password;
  }
}
