// The profile editor (src/components/Usuario/ProfileForm.tsx): a copy of the
// user record edited field by field, a new password with its confirmation, an
// optional avatar file, and a save that checks the required fields before the
// passwords and clears the password and avatar inputs once `onSave` returns.
//
// The one-second `setTimeout` before saving is collapsed; whether `onSave`
// throws is the parameter `saveOk`.

module ProfileForm {
  import opened Types

  /** The fields `handleChange` (name, email) and `handleSelectChange` (department, role) edit. */
  datatype ProfileField = NameField | EmailField | DepartmentField | RoleField

  function ProfileFieldValue(u: User, name: ProfileField): string
  {
    match name
    case NameField => u.name
    case EmailField => u.email
    case DepartmentField => u.department
    case RoleField => u.role
  }

  /** `{ ...formData, [name]: value }`: only the named field changes. */
  function WithProfileField(u: User, name: ProfileField, value: string): (r: User)
    ensures ProfileFieldValue(r, name) == value
    ensures forall other :: other != name ==> ProfileFieldValue(r, other) == ProfileFieldValue(u, other)
    ensures r.id == u.id && r.avatar == u.avatar
  {
    match name
    case NameField => u.(name := value)
    case EmailField => u.(email := value)
    case DepartmentField => u.(department := value)
    case RoleField => u.(role := value)
  }

  datatype ProfileError = MissingRequired | PasswordMismatch

  /** The two checks of `handleSubmit`, in their order; `None` lets the save go ahead. */
  function ValidateProfile(data: User, password: string, confirmPassword: string): (r: Option<ProfileError>)
    ensures r == Some(MissingRequired) <==> data.name == "" || data.email == ""
    ensures r == Some(PasswordMismatch) <==>
      data.name != "" && data.email != "" && password != "" && password != confirmPassword
  {
    if data.name == "" || data.email == "" then Some(MissingRequired)
    else if password != "" && password != confirmPassword then Some(PasswordMismatch)
    else None
  }

  /** A save only goes ahead with the required fields present and no new password or a confirmed one. */
  lemma AcceptedProfileIsConsistent(data: User, password: string, confirmPassword: string)
    requires ValidateProfile(data, password, confirmPassword) == None
    ensures data.name != "" && data.email != ""
    ensures password == "" || password == confirmPassword
  {
  }

  /** With no new password, the confirmation field is ignored. */
  lemma EmptyPasswordIgnoresConfirmation(data: User, confirmA: string, confirmB: string)
    ensures ValidateProfile(data, "", confirmA) == ValidateProfile(data, "", confirmB)
  {
  }

  /** A missing name or email is reported even when the passwords also differ. */
  lemma MissingFieldReportedFirst(data: User, password: string, confirmPassword: string)
    requires data.name == "" || data.email == ""
    ensures ValidateProfile(data, password, confirmPassword) == Some(MissingRequired)
  {
  }

  /** The arguments passed to `onSave`. */
  datatype SaveRequest = SaveRequest(user: User, avatar: Option<File>)

  /** A snapshot of the editor's state. */
  datatype ProfileState = ProfileState(
    formData: User,
    avatarFile: Option<File>,
    avatarPreview: Option<string>,
    isSubmitting: bool,
    password: string,
    confirmPassword: string)

  class ProfileFormState {
    var formData: User
    var avatarFile: Option<File>
    var avatarPreview: Option<string>
    var isSubmitting: bool
    var password: string
    var confirmPassword: string

    function State(): ProfileState
      reads this
    {
      ProfileState(formData, avatarFile, avatarPreview, isSubmitting, password, confirmPassword)
    }

    /** The editor starts from a copy of the user being edited. */
    constructor (user: User)
      ensures State() == ProfileState(user, None, None, false, "", "")
    {
      formData := user;
      avatarFile, avatarPreview := None, None;
      isSubmitting := false;
      password, confirmPassword := "", "";
    }

    method HandleChange(name: ProfileField, value: string)
      modifies this
      ensures State() == old(State()).(formData := WithProfileField(old(formData), name, value))
    {
      formData := WithProfileField(formData, name, value);
    }

    /** `handleSelectChange` does exactly what `handleChange` does. */
    method HandleSelectChange(name: ProfileField, value: string)
      modifies this
      ensures State() == old(State()).(formData := WithProfileField(old(formData), name, value))
    {
      HandleChange(name, value);
    }

    method SetPassword(value: string)
      modifies this
      ensures State() == old(State()).(password := value)
    {
      password := value;
    }

    method SetConfirmPassword(value: string)
      modifies this
      ensures State() == old(State()).(confirmPassword := value)
    {
      confirmPassword := value;
    }

    /**
     * `handleAvatarChange`: keeps the first picked file; the preview arrives
     * later from a `FileReader` and is not part of this model.
     */
    method HandleAvatarChange(picked: Option<seq<File>>)
      modifies this
      ensures picked.Some? && |picked.value| > 0 ==> State() == old(State()).(avatarFile := Some(picked.value[0]))
      ensures !(picked.Some? && |picked.value| > 0) ==> State() == old(State())
    {
      if picked.Some? && |picked.value| > 0 {
        avatarFile := Some(picked.value[0]);
      }
    }

    method ClearAvatarPreview()
      modifies this
      ensures State() == old(State()).(avatarFile := None, avatarPreview := None)
    {
      avatarFile := None;
      avatarPreview := None;
    }

    /**
     * `handleSubmit`: `sent` is what `onSave` receives, if it is called;
     * `saveOk` says whether `onSave` returned without throwing.
     */
    method HandleSubmit(saveOk: bool) returns (sent: Option<SaveRequest>)
      modifies this
      ensures ValidateProfile(old(formData), old(password), old(confirmPassword)).Some? ==>
        sent == None && State() == old(State())
      ensures ValidateProfile(old(formData), old(password), old(confirmPassword)).None? ==>
        && sent == Some(SaveRequest(old(formData), old(avatarFile)))
        && (saveOk ==> State() == old(State()).(isSubmitting := false, password := "", confirmPassword := "",
                                                 avatarFile := None, avatarPreview := None))
        && (!saveOk ==> State() == old(State()).(isSubmitting := false))
    {
      if formData.name == "" || formData.email == "" {
        return None;
      }
      if password != "" && password != confirmPassword {
        return None;
      }
      isSubmitting := true;
      sent := Some(SaveRequest(formData, avatarFile));
      if saveOk {
        password := "";
        confirmPassword := "";
        avatarFile := None;
        avatarPreview := None;
      }
      isSubmitting := false;
    }
  }
}
