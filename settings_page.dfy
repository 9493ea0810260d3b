/**
 * The settings page (`UserProfileSettings`): the two speed-settings inputs and the three-step
 * profile modal (edit the username and email, confirm the current password, choose a new
 * password and save).
 */
module SettingsPageModel {
  import opened Common
  import opened Records

  /** The modal's `step`: 'edit' | 'verify' | 'newpass'. */
  datatype Step = Edit | Verify | NewPass

  /** The `form` state. */
  datatype Form = Form(username: string, email: string, currentPassword: string, newPassword: string)

  /** The `name` of the input an edit comes from. */
  datatype FormField = Username | Email | CurrentPassword | NewPassword

  /** The `settings` state: the routers API address and the payment link. */
  datatype Settings = Settings(routersApi: string, waveLink: string)

  datatype SettingsField = RoutersApi | WaveLink

  /** The body of `api.updateProfile`; an empty new password is sent as `undefined` (None). */
  datatype ProfileUpdate = ProfileUpdate(username: string, email: string, currentPassword: string,
                                         newPassword: Option<string>, token: string)

  const SessionExpired := "Session expirée"
  const UpdateFailed := "Erreur lors de la mise à jour"
  const Updated := "Profil mis à jour avec succès ✅"
  const FieldsRequired := "Username et email requis"
  const PasswordRequired := "Entrez votre mot de passe actuel"

  /** The inputs the modal renders at each step. */
  predicate FieldShown(step: Step, field: FormField)
  {
    match step
    case Edit => field == Username || field == Email
    case Verify => field == CurrentPassword
    case NewPass => field == NewPassword
  }

  /** `{ ...prev, [name]: value }` */
  function SetField(f: Form, field: FormField, value: string): (r: Form)
    ensures field == Username ==> r == f.(username := value)
    ensures field == Email ==> r == f.(email := value)
    ensures field == CurrentPassword ==> r == f.(currentPassword := value)
    ensures field == NewPassword ==> r == f.(newPassword := value)
  {
    match field
    case Username => f.(username := value)
    case Email => f.(email := value)
    case CurrentPassword => f.(currentPassword := value)
    case NewPassword => f.(newPassword := value)
  }

  /** The message of a failed save: `err.data?.detail || err.message || 'Erreur lors de la mise à jour'`. */
  function SaveError(e: ApiError): (m: string)
    ensures m != ""
    ensures Truthy(e.detail) ==> m == e.detail.value
    ensures !Truthy(e.detail) && Truthy(e.message) ==> m == e.message.value
    ensures !Truthy(e.detail) && !Truthy(e.message) ==> m == UpdateFailed
  {
    OrElse(Or(e.detail, e.message), UpdateFailed)
  }

  class SettingsPage {
    var modalOpen: bool
    var saving: bool
    var error: Option<string>
    var success: Option<string>
    var step: Step
    var form: Form
    var settings: Settings

    /**
     * The modal's steps are gates: past the first step the username and email are non-empty,
     * and at the last step the current password is too.
     */
    predicate Gated()
      reads this
    {
      && (step != Edit ==> form.username != "" && form.email != "")
      && (step == NewPass ==> form.currentPassword != "")
    }

    constructor ()
      ensures !modalOpen && !saving && error == None && success == None && step == Edit
      ensures form == Form("", "", "", "") && settings == Settings("", "")
      ensures Gated()
    {
      modalOpen, saving, error, success, step := false, false, None, None, Edit;
      form := Form("", "", "", "");
      settings := Settings("", "");
    }

    /** The effect on `user`: copy its username and email into the form (`|| ''`). */
    method SyncUser(user: Option<User>)
      modifies this
      ensures user.Some? ==>
                form == old(form).(username := OrElse(user.value.username, ""), email := OrElse(user.value.email, ""))
      ensures user.None? ==> form == old(form)
      ensures modalOpen == old(modalOpen) && saving == old(saving) && error == old(error)
      ensures success == old(success) && step == old(step) && settings == old(settings)
      ensures old(Gated()) && (step == Edit || user.None?) ==> Gated()
    {
      if user.Some? {
        form := form.(username := OrElse(user.value.username, ""), email := OrElse(user.value.email, ""));
      }
    }

    /** `handleChange`: store the value and clear both messages. */
    method HandleChange(field: FormField, value: string)
      modifies this
      ensures form == SetField(old(form), field, value)
      ensures error == None && success == None
      ensures modalOpen == old(modalOpen) && saving == old(saving) && step == old(step) && settings == old(settings)
      ensures old(Gated()) && FieldShown(step, field) ==> Gated()
    {
      form := SetField(form, field, value);
      error := None;
      success := None;
    }

    /** `handleSettingsChange`: the settings inputs touch nothing else. */
    method HandleSettingsChange(field: SettingsField, value: string)
      modifies this
      ensures field == RoutersApi ==> settings == old(settings).(routersApi := value)
      ensures field == WaveLink ==> settings == old(settings).(waveLink := value)
      ensures form == old(form) && error == old(error) && success == old(success)
      ensures modalOpen == old(modalOpen) && saving == old(saving) && step == old(step)
    {
      match field
      case RoutersApi => settings := settings.(routersApi := value);
      case WaveLink => settings := settings.(waveLink := value);
    }

    /** The "Edit" button. */
    method OpenModal()
      modifies this
      ensures modalOpen
      ensures form == old(form) && error == old(error) && success == old(success)
      ensures saving == old(saving) && step == old(step) && settings == old(settings)
    {
      modalOpen := true;
    }

    /** `handleFirstSave`: go on to the password step only with a username and an email. */
    method HandleFirstSave()
      modifies this
      ensures old(form.username) == "" || old(form.email) == "" ==>
                error == Some(FieldsRequired) && step == old(step)
      ensures old(form.username) != "" && old(form.email) != "" ==>
                step == Verify && error == old(error)
      ensures form == old(form) && success == old(success) && modalOpen == old(modalOpen)
      ensures saving == old(saving) && settings == old(settings)
      ensures old(Gated()) ==> Gated()
    {
      if form.username == "" || form.email == "" {
        error := Some(FieldsRequired);
        return;
      }
      step := Verify;
    }

    /** `handleVerifyPassword`: go on to the new-password step only with the current password. */
    method HandleVerifyPassword()
      modifies this
      ensures old(form.currentPassword) == "" ==> error == Some(PasswordRequired) && step == old(step)
      ensures old(form.currentPassword) != "" ==> step == NewPass && error == old(error)
      ensures form == old(form) && success == old(success) && modalOpen == old(modalOpen)
      ensures saving == old(saving) && settings == old(settings)
      ensures old(Gated()) && old(step) != Edit ==> Gated()
    {
      if form.currentPassword == "" {
        error := Some(PasswordRequired);
        return;
      }
      step := NewPass;
    }

    /**
     * `handleFinalSave`, given the session token, the outcome of `api.updateProfile` and that of
     * the `api.getProfile` that follows it. Returns the update sent (if any), the profile written
     * to `localStorage['gh_user']` (if any) and whether the page reloads.
     */
    method HandleFinalSave(token: Option<string>, update: ApiResult<()>, profile: ApiResult<User>)
      returns (request: Option<ProfileUpdate>, storedUser: Option<User>, reloaded: bool)
      modifies this
      ensures !saving && form == old(form) && settings == old(settings)
      // No token: nothing is sent and the modal goes back to the password step.
      ensures !Truthy(token) ==>
                && request == None && storedUser == None && !reloaded
                && error == Some(SessionExpired) && success == None
                && step == Verify && modalOpen == old(modalOpen)
      // Otherwise the form is sent, with an empty new password left out.
      ensures Truthy(token) ==>
                request == Some(ProfileUpdate(old(form.username), old(form.email), old(form.currentPassword),
                                              if old(form.newPassword) == "" then None else Some(old(form.newPassword)),
                                              token.value))
      ensures Truthy(token) && update.Fail? ==>
                && storedUser == None && !reloaded
                && error == Some(SaveError(update.error)) && success == None
                && step == Verify && modalOpen == old(modalOpen)
      // Once the update succeeds the modal is closed, whatever the profile fetch does next.
      ensures Truthy(token) && update.Ok? ==> !modalOpen && success == Some(Updated)
      ensures Truthy(token) && update.Ok? && profile.Ok? ==>
                storedUser == Some(profile.value) && reloaded && error == None && step == Edit
      ensures Truthy(token) && update.Ok? && profile.Fail? ==>
                storedUser == None && !reloaded && error == Some(SaveError(profile.error)) && step == Verify
      ensures old(Gated()) && old(step) == NewPass ==> Gated()
      // From the last step of a gated modal, what is sent passed every earlier check.
      ensures old(Gated()) && old(step) == NewPass && request.Some? ==>
                request.value.username != "" && request.value.email != "" && request.value.currentPassword != ""
    {
      saving := true;
      error := None;
      success := None;
      request, storedUser, reloaded := None, None, false;
      if !Truthy(token) {
        error := Some(SessionExpired);
        step := Verify;
        saving := false;
        return;
      }
      request := Some(ProfileUpdate(form.username, form.email, form.currentPassword,
                                    if form.newPassword == "" then None else Some(form.newPassword),
                                    token.value));
      if update.Fail? {
        error := Some(SaveError(update.error));
        step := Verify;
        saving := false;
        return;
      }
      success := Some(Updated);
      modalOpen := false;
      step := Edit;
      if profile.Fail? {
        error := Some(SaveError(profile.error));
        step := Verify;
        saving := false;
        return;
      }
      storedUser := Some(profile.value);
      reloaded := true;
      saving := false;
    }

    /** `closeModal`: back to the first step, messages and both passwords cleared. */
    method CloseModal()
      modifies this
      ensures !modalOpen && step == Edit && error == None && success == None
      ensures form == old(form).(currentPassword := "", newPassword := "")
      ensures saving == old(saving) && settings == old(settings)
      ensures Gated()
    {
      modalOpen := false;
      step := Edit;
      error := None;
      success := None;
      form := form.(currentPassword := "", newPassword := "");
    }
  }
}
