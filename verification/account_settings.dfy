/** The account settings screen: the profile shown with fallbacks, a save
    button that stores nothing, and the password change, which checks the
    confirmation, then re-authenticates, then updates, and maps the
    failure code to a message.
 */
module AccountSettings {
  import opened Wrappers
  import opened Text
  import opened Roles
  import opened Records

  const NotAvailable: string := "No disponible"
  const Saved: string := "Información de cuenta actualizada exitosamente."
  const Mismatch: string := "Las contraseñas nuevas no coinciden."
  const Changed: string := "Contraseña actualizada exitosamente."
  const WrongPassword: string := "La contraseña actual es incorrecta."
  const ChangeFailed: string := "Error al cambiar la contraseña. Inténtalo de nuevo."
  const WrongPasswordCode: string := "auth/wrong-password"

  /** A success or error toast. */
  datatype Toast = Notice(text: string) | Alert(text: string)

  /** The outcome of one call into the authentication service; a failure
      carries the error's `code`, which may be absent. */
  datatype AuthOutcome = AuthOk | AuthFailed(code: Option<string>)

  /** The editable name, the read-only email and the three password
      fields. */
  datatype Settings = Settings(name: string, email: string, current: string, newPassword: string, confirm: string)

  /** `userData?.field || ''` for an optional profile. */
  function ProfileField(profile: Option<UserDoc>, field: UserDoc -> Option<string>): (s: string)
    ensures profile.None? ==> s == ""
    ensures profile.Some? && Truthy(field(profile.value)) ==> s == field(profile.value).value
    ensures profile.Some? && !Truthy(field(profile.value)) ==> s == ""
  {
    Or(if profile.Some? then field(profile.value) else None, "")
  }

  function NameOf(u: UserDoc): Option<string> { u.name }
  function EmailOf(u: UserDoc): Option<string> { u.email }

  /** The screen's initial state. */
  function Open(profile: Option<UserDoc>): (s: Settings)
    ensures s.current == "" && s.newPassword == "" && s.confirm == ""
    ensures profile.None? ==> s.name == "" && s.email == ""
    ensures profile.Some? && Truthy(profile.value.name) ==> s.name == profile.value.name.value
    ensures profile.Some? && !Truthy(profile.value.name) ==> s.name == ""
    ensures profile.Some? && Truthy(profile.value.email) ==> s.email == profile.value.email.value
    ensures profile.Some? && !Truthy(profile.value.email) ==> s.email == ""
  {
    Settings(ProfileField(profile, NameOf), ProfileField(profile, EmailOf), "", "", "")
  }

  /** `userData?.role || 'No disponible'`. */
  function DisplayRole(profile: Option<UserDoc>): (s: string)
    ensures s != ""
    ensures profile.None? ==> s == NotAvailable
    ensures profile.Some? && Truthy(profile.value.role) ==> s == profile.value.role.value
    ensures profile.Some? && !Truthy(profile.value.role) ==> s == NotAvailable
  {
    Or(if profile.Some? then profile.value.role else None, NotAvailable)
  }

  /** `userData?.store || 'No disponible'`. */
  function DisplayStore(profile: Option<UserDoc>): (s: string)
    ensures s != ""
    ensures profile.None? ==> s == NotAvailable
    ensures profile.Some? && Truthy(profile.value.store) ==> s == profile.value.store.value
    ensures profile.Some? && !Truthy(profile.value.store) ==> s == NotAvailable
  {
    Or(if profile.Some? then profile.value.store else None, NotAvailable)
  }

  /** A profile carrying a known role shows that role's stored name. */
  lemma KnownRoleDisplayed(u: UserDoc, r: Role)
    requires u.role == Some(Name(r))
    ensures DisplayRole(Some(u)) == Name(r)
  {
  }

  /** `handleSaveChanges`: nothing is stored, whatever was typed; only the
      success message appears. */
  function SaveChanges(profile: Option<UserDoc>, s: Settings): (r: (Option<UserDoc>, Toast))
    ensures r.0 == profile
    ensures r.1 == Notice(Saved)
  {
    (profile, Notice(Saved))
  }

  /** Saving keeps the stored profile, so reopening the screen after a save
      shows the stored name again, whatever was typed. */
  lemma SavedEditsDiscarded(profile: Option<UserDoc>, s: Settings, typed: string)
    ensures Open(SaveChanges(profile, s.(name := typed)).0) == Open(profile)
    ensures profile.Some? && Truthy(profile.value.name) && typed != profile.value.name.value ==>
              Open(SaveChanges(profile, s.(name := typed)).0).name != typed
  {
  }

  /** The message for a failed re-authentication or update. */
  function FailureMessage(code: Option<string>): (m: string)
    ensures m == WrongPassword <==> code == Some(WrongPasswordCode)
    ensures m == ChangeFailed <==> code != Some(WrongPasswordCode)
  {
    if code == Some(WrongPasswordCode) then WrongPassword else ChangeFailed
  }

  /** What one press of the change-password button did: the next state,
      the message, and which service calls were made. */
  datatype PasswordChange = PasswordChange(settings: Settings, toast: Toast, reauthCalled: bool, updateCalled: bool)

  /** `handleChangePassword`, given what re-authentication and the update
      would return. */
  function ChangePassword(s: Settings, reauth: AuthOutcome, update: AuthOutcome): (r: PasswordChange)
    ensures s.newPassword != s.confirm ==>
              r == PasswordChange(s, Alert(Mismatch), false, false)
    ensures s.newPassword == s.confirm ==> r.reauthCalled
    ensures r.updateCalled <==> s.newPassword == s.confirm && reauth == AuthOk
    ensures r.toast == Notice(Changed) <==> s.newPassword == s.confirm && reauth == AuthOk && update == AuthOk
    ensures r.toast == Notice(Changed) ==> r.settings == s.(current := "", newPassword := "", confirm := "")
    ensures r.toast != Notice(Changed) ==> r.settings == s
    ensures s.newPassword == s.confirm && reauth.AuthFailed? ==> r.toast == Alert(FailureMessage(reauth.code))
    ensures s.newPassword == s.confirm && reauth == AuthOk && update.AuthFailed? ==>
              r.toast == Alert(FailureMessage(update.code))
  {
    if s.newPassword != s.confirm then PasswordChange(s, Alert(Mismatch), false, false)
    else if reauth.AuthFailed? then PasswordChange(s, Alert(FailureMessage(reauth.code)), true, false)
    else if update.AuthFailed? then PasswordChange(s, Alert(FailureMessage(update.code)), true, true)
    else PasswordChange(s.(current := "", newPassword := "", confirm := ""), Notice(Changed), true, true)
  }

  /** A wrong current password never reaches the update and leaves every
      field as typed. */
  lemma WrongCurrentPassword(s: Settings, update: AuthOutcome)
    requires s.newPassword == s.confirm
    ensures var r := ChangePassword(s, AuthFailed(Some(WrongPasswordCode)), update);
            !r.updateCalled && r.toast == Alert(WrongPassword) && r.settings == s
  {
  }

  /** After a successful change the fields are empty and equal, so a second
      press goes straight to the service again with empty passwords. */
  lemma SuccessClearsFields(s: Settings)
    requires s.newPassword == s.confirm
    ensures var r := ChangePassword(s, AuthOk, AuthOk);
            r.settings.current == "" && r.settings.newPassword == r.settings.confirm == ""
            && r.settings.name == s.name && r.settings.email == s.email
  {
  }
}
