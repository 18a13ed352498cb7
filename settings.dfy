/**
 * The account settings page (client/src/pages/Settings.tsx): the settings
 * record the form edits, the profile and password submits with their
 * guards, and the enablement of the Update Password button.
 */
module Settings {
  import opened Core

  datatype UserSettings = UserSettings(
    fullName: string, email: string,
    currentPassword: string, newPassword: string, confirmPassword: string,
    emailNotifications: bool, smsNotifications: bool, leadAlerts: bool, weeklyReports: bool)

  /** The signed-in user as the page reads it; `fullName` may be missing. */
  datatype User = User(username: string, fullName: Option<string>)

  const Initial := UserSettings("", "", "", "", "", true, true, true, true)

  /** The profile request body: the full name and nothing else. */
  datatype ProfilePatch = ProfilePatch(fullName: string)

  /** The password request body. */
  datatype PasswordChange = PasswordChange(currentPassword: string, newPassword: string)

  /** What a password submit does: one of the two warnings, or the request. */
  datatype PasswordOutcome = Mismatch | TooShort | Request(body: PasswordChange)

  /** The minimum length of a new password. */
  const MinPasswordLength := 8

  /**
   * `handlePasswordSubmit`: a confirmation that differs is reported before the
   * length is looked at; otherwise a short password is refused, and anything
   * else is sent as exactly the current and the new password.
   */
  function PasswordSubmit(s: UserSettings): (r: PasswordOutcome)
    ensures r == Mismatch <==> s.newPassword != s.confirmPassword
    ensures r == TooShort <==> s.newPassword == s.confirmPassword && |s.newPassword| < MinPasswordLength
    ensures r.Request? ==> r.body == PasswordChange(s.currentPassword, s.newPassword)
  {
    if s.newPassword != s.confirmPassword then Mismatch
    else if |s.newPassword| < MinPasswordLength then TooShort
    else Request(PasswordChange(s.currentPassword, s.newPassword))
  }

  /** A password is sent exactly when it is confirmed and long enough, so a sent one always is. */
  lemma {:induction false} SentPasswordsAreValid(s: UserSettings)
    ensures PasswordSubmit(s).Request? <==>
      s.newPassword == s.confirmPassword && |s.newPassword| >= MinPasswordLength
  {
  }

  /** `onSuccess` of the password change: the three password fields are emptied. */
  function ClearPasswords(s: UserSettings): (r: UserSettings)
    ensures r.currentPassword == "" && r.newPassword == "" && r.confirmPassword == ""
    ensures r.(currentPassword := s.currentPassword, newPassword := s.newPassword, confirmPassword := s.confirmPassword) == s
  {
    s.(currentPassword := "", newPassword := "", confirmPassword := "")
  }

  /** The Update Password button is disabled while a change is pending or any password field is empty. */
  predicate PasswordButtonDisabled(pending: bool, s: UserSettings) {
    pending || s.currentPassword == "" || s.newPassword == "" || s.confirmPassword == ""
  }

  /**
   * After a successful change the button is disabled until the fields are
   * filled again, and an enabled button never sends an empty password.
   */
  lemma {:induction false} ButtonAfterSuccess(pending: bool, s: UserSettings)
    ensures PasswordButtonDisabled(pending, ClearPasswords(s))
    ensures !PasswordButtonDisabled(pending, s) && PasswordSubmit(s).Request? ==>
      PasswordSubmit(s).body.currentPassword != "" && |PasswordSubmit(s).body.newPassword| >= MinPasswordLength
  {
  }

  /** `handleUserInfoSubmit`'s body. */
  function ProfileSubmit(s: UserSettings): (r: ProfilePatch)
    ensures r.fullName == s.fullName
  {
    ProfilePatch(s.fullName)
  }

  /**
   * The fill-in while rendering: once the user has loaded and both the name
   * and the email are still empty, take the user's name (or "") and username.
   */
  function FillFromUser(s: UserSettings, user: Option<User>): (r: UserSettings)
    ensures user.Some? && s.fullName == "" && s.email == "" ==>
      r == s.(fullName := (if user.value.fullName.Some? then user.value.fullName.value else ""),
              email := user.value.username)
    ensures !(user.Some? && s.fullName == "" && s.email == "") ==> r == s
  {
    if user.Some? && s.fullName == "" && s.email == "" then
      s.(fullName := match user.value.fullName case Some(n) => n case None => "", email := user.value.username)
    else s
  }

  /**
   * Filling in is idempotent, and once a user with a username has loaded the
   * fill condition is off for good.
   */
  lemma {:induction false} FillSettles(s: UserSettings, user: Option<User>)
    ensures FillFromUser(FillFromUser(s, user), user) == FillFromUser(s, user)
    ensures user.Some? && user.value.username != "" ==>
      var t := FillFromUser(s, user); !(t.fullName == "" && t.email == "")
  {
  }

  /** `handleInputChange` for the named text inputs: it never touches a switch, and other names leave the record as it was. */
  function InputChange(s: UserSettings, name: string, value: string): (r: UserSettings)
    ensures name !in {"fullName", "email", "currentPassword", "newPassword", "confirmPassword"} ==> r == s
    ensures r.fullName == (if name == "fullName" then value else s.fullName)
    ensures r.email == (if name == "email" then value else s.email)
    ensures r.currentPassword == (if name == "currentPassword" then value else s.currentPassword)
    ensures r.newPassword == (if name == "newPassword" then value else s.newPassword)
    ensures r.confirmPassword == (if name == "confirmPassword" then value else s.confirmPassword)
    ensures r.(fullName := s.fullName, email := s.email, currentPassword := s.currentPassword,
               newPassword := s.newPassword, confirmPassword := s.confirmPassword) == s
  {
    match name
    case "fullName" => s.(fullName := value)
    case "email" => s.(email := value)
    case "currentPassword" => s.(currentPassword := value)
    case "newPassword" => s.(newPassword := value)
    case "confirmPassword" => s.(confirmPassword := value)
    case _ => s
  }

  /** `handleSwitchChange` for the four notification switches: it never touches a text field. */
  function SwitchChange(s: UserSettings, name: string, checked: bool): (r: UserSettings)
    ensures name !in {"emailNotifications", "smsNotifications", "leadAlerts", "weeklyReports"} ==> r == s
    ensures r.emailNotifications == (if name == "emailNotifications" then checked else s.emailNotifications)
    ensures r.smsNotifications == (if name == "smsNotifications" then checked else s.smsNotifications)
    ensures r.leadAlerts == (if name == "leadAlerts" then checked else s.leadAlerts)
    ensures r.weeklyReports == (if name == "weeklyReports" then checked else s.weeklyReports)
    ensures r.(emailNotifications := s.emailNotifications, smsNotifications := s.smsNotifications,
               leadAlerts := s.leadAlerts, weeklyReports := s.weeklyReports) == s
  {
    match name
    case "emailNotifications" => s.(emailNotifications := checked)
    case "smsNotifications" => s.(smsNotifications := checked)
    case "leadAlerts" => s.(leadAlerts := checked)
    case "weeklyReports" => s.(weeklyReports := checked)
    case _ => s
  }

  /** The page's state. */
  class SettingsPage {
    var settings: UserSettings

    constructor()
      ensures settings == Initial
    {
      settings := Initial;
    }

    method Render(user: Option<User>)
      modifies this
      ensures settings == FillFromUser(old(settings), user)
    {
      settings := FillFromUser(settings, user);
    }

    method OnInput(name: string, value: string)
      modifies this
      ensures settings == InputChange(old(settings), name, value)
    {
      settings := InputChange(settings, name, value);
    }

    method OnSwitch(name: string, checked: bool)
      modifies this
      ensures settings == SwitchChange(old(settings), name, checked)
    {
      settings := SwitchChange(settings, name, checked);
    }

    method PasswordChanged()
      modifies this
      ensures settings == ClearPasswords(old(settings))
    {
      settings := ClearPasswords(settings);
    }
  }
}
