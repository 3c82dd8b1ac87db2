/**
 * The account settings page (`src/app/dashboard/configuracion/page.tsx`):
 * profile fields defaulted from the user's metadata, password-change
 * validation, avatar file acceptance and upload naming, the avatar error
 * message, and the notification toggles. Calls to the auth and storage
 * services are replaced by their outcomes, passed in as parameters.
 */
module Configuracion {
  import opened Wrappers
  import opened Strings
  import opened Accounts

  // ---------------------------------------------------------------------------
  // Page state

  datatype ProfileForm = ProfileForm(
    fullName: string,
    preferredName: string,
    jobTitle: string,
    email: string,
    alternateEmail: string,
    phone: string,
    workPhone: string,
    extension: string,
    location: string,
    officeLocation: string,
    timezone: string,
    bio: string,
    avatarUrl: string)

  datatype PasswordForm = PasswordForm(newPassword: string, confirmPassword: string)

  datatype Settings = Settings(
    form: ProfileForm,
    password: PasswordForm,
    notifications: Notifications,
    loading: bool,
    saving: bool,
    uploadingAvatar: bool)

  const EmptyProfile: ProfileForm := ProfileForm("", "", "", "", "", "", "", "", "", "", "", "", "")
  const EmptyPassword: PasswordForm := PasswordForm("", "")
  const DefaultNotifications: Notifications := Notifications(true, false, false)

  /** The state the page mounts with. */
  const Initial: Settings := Settings(EmptyProfile, EmptyPassword, DefaultNotifications, true, false, false)

  /** An error raised by a service call; its `message` may be undefined. */
  datatype ServiceError = ServiceError(message: Option<string>)

  // ---------------------------------------------------------------------------
  // Profile load and save

  /** The form field for a metadata key: its value when non-empty, else "". */
  predicate DefaultedFrom(field: string, meta: map<string, string>, key: string) {
    if key in meta && meta[key] != "" then field == meta[key] else field == ""
  }

  /** The form `getUser` fills in from the user's metadata. */
  function LoadProfile(u: User): (f: ProfileForm)
    ensures DefaultedFrom(f.fullName, u.meta, "full_name")
    ensures DefaultedFrom(f.preferredName, u.meta, "preferred_name")
    ensures DefaultedFrom(f.jobTitle, u.meta, "job_title")
    ensures f.email == (if u.email.Some? then u.email.value else "")
    ensures DefaultedFrom(f.alternateEmail, u.meta, "alternate_email")
    ensures DefaultedFrom(f.phone, u.meta, "phone")
    ensures DefaultedFrom(f.workPhone, u.meta, "work_phone")
    ensures DefaultedFrom(f.extension, u.meta, "extension")
    ensures DefaultedFrom(f.location, u.meta, "location")
    ensures DefaultedFrom(f.officeLocation, u.meta, "office_location")
    ensures DefaultedFrom(f.timezone, u.meta, "timezone")
    ensures DefaultedFrom(f.bio, u.meta, "bio")
    ensures DefaultedFrom(f.avatarUrl, u.meta, "avatar_url")
  {
    ProfileForm(
      MetaOr(u.meta, "full_name", ""),
      MetaOr(u.meta, "preferred_name", ""),
      MetaOr(u.meta, "job_title", ""),
      TextOr(u.email, ""),
      MetaOr(u.meta, "alternate_email", ""),
      MetaOr(u.meta, "phone", ""),
      MetaOr(u.meta, "work_phone", ""),
      MetaOr(u.meta, "extension", ""),
      MetaOr(u.meta, "location", ""),
      MetaOr(u.meta, "office_location", ""),
      MetaOr(u.meta, "timezone", ""),
      MetaOr(u.meta, "bio", ""),
      MetaOr(u.meta, "avatar_url", ""))
  }

  /** The metadata `handleUpdateProfile` sends (every field but the email). */
  function ProfileMetadata(f: ProfileForm): (m: map<string, string>)
    ensures m.Keys == {"full_name", "preferred_name", "job_title", "alternate_email", "phone", "work_phone",
                       "extension", "location", "office_location", "timezone", "bio", "avatar_url"}
    ensures "email" !in m
    ensures LoadProfile(User("", Some(f.email), m, None)) == f
  {
    map[
      "full_name" := f.fullName,
      "preferred_name" := f.preferredName,
      "job_title" := f.jobTitle,
      "alternate_email" := f.alternateEmail,
      "phone" := f.phone,
      "work_phone" := f.workPhone,
      "extension" := f.extension,
      "location" := f.location,
      "office_location" := f.officeLocation,
      "timezone" := f.timezone,
      "bio" := f.bio,
      "avatar_url" := f.avatarUrl
    ]
  }

  /** Saving the profile and loading it again gives the same form back. */
  lemma ProfileSaveLoadRoundTrip(f: ProfileForm, u: User)
    requires u.meta == ProfileMetadata(f)
    requires u.email == Some(f.email)
    ensures LoadProfile(u) == f
  {
  }

  const ProfileSaveFailedMessage: string := "Error al guardar los cambios"
  const NotificationsSaveFailedMessage: string := "Error al guardar preferencias"

  /**
   * `handleUpdateProfile`: sends the form as metadata and ends with `saving`
   * false whatever the answer; the form itself is never changed by saving.
   * The third component is the error shown, if any.
   */
  function SaveProfile(s: Settings, updateError: Option<ServiceError>): (out: (map<string, string>, Settings, Option<string>))
    ensures out.0.Keys == {"full_name", "preferred_name", "job_title", "alternate_email", "phone", "work_phone",
                           "extension", "location", "office_location", "timezone", "bio", "avatar_url"}
    ensures "email" !in out.0
    ensures out.0 == ProfileMetadata(s.form)
    ensures LoadProfile(User("", Some(s.form.email), out.0, None)) == s.form
    ensures out.1 == s.(saving := false)
    ensures updateError.None? ==> out.2.None?
    ensures updateError.Some? ==> out.2 == Some(ProfileSaveFailedMessage)
  {
    var error := if updateError.Some? then Some(ProfileSaveFailedMessage) else None;
    (ProfileMetadata(s.form), s.(saving := false), error)
  }

  /**
   * `handleUpdateNotifications`: sends the current preferences; ends with
   * `saving` false. The third component is the error shown, if any.
   */
  function SaveNotifications(s: Settings, updateError: Option<ServiceError>): (out: (Notifications, Settings, Option<string>))
    ensures out.0 == s.notifications
    ensures out.1 == s.(saving := false)
    ensures updateError.None? ==> out.2.None?
    ensures updateError.Some? ==> out.2 == Some(NotificationsSaveFailedMessage)
  {
    var error := if updateError.Some? then Some(NotificationsSaveFailedMessage) else None;
    (s.notifications, s.(saving := false), error)
  }

  /** `getUser` on mount: fill the form and preferences when there is a user; stop loading in every case. */
  function LoadSettings(s: Settings, user: Option<User>): (s': Settings)
    ensures !s'.loading
    ensures user.None? ==> s' == s.(loading := false)
    ensures user.Some? ==> s'.form == LoadProfile(user.value)
    ensures user.Some? && user.value.notifications.Some? ==> s'.notifications == user.value.notifications.value
    ensures (user.None? || user.value.notifications.None?) ==> s'.notifications == s.notifications
    ensures s'.password == s.password && s'.saving == s.saving && s'.uploadingAvatar == s.uploadingAvatar
  {
    match user
    case None => s.(loading := false)
    case Some(u) =>
      s.(form := LoadProfile(u),
         notifications := u.notifications.GetOr(s.notifications),
         loading := false)
  }

  /**
   * Mounting for a user who has never saved anything: the form stays empty
   * except for the email, the default preferences are kept, and loading ends.
   */
  lemma FreshUserLoadsDefaults(id: string, email: string)
    ensures var s := LoadSettings(Initial, Some(User(id, Some(email), map[], None)));
            s.form == EmptyProfile.(email := email) && s.notifications == DefaultNotifications
            && !s.loading && !s.saving && !s.uploadingAvatar
  {
  }

  // ---------------------------------------------------------------------------
  // Password change

  const MinPasswordLength: nat := 6

  datatype PasswordVerdict = Mismatch | TooShort | Proceed

  /** The checks of `handleUpdatePassword`, in order: the entries must agree, then be long enough. */
  function CheckPassword(p: PasswordForm): (v: PasswordVerdict)
    ensures v == Mismatch <==> p.newPassword != p.confirmPassword
    ensures v == TooShort <==> p.newPassword == p.confirmPassword && |p.newPassword| < MinPasswordLength
    ensures v == Proceed <==> p.newPassword == p.confirmPassword && |p.newPassword| >= MinPasswordLength
  {
    if p.newPassword != p.confirmPassword then Mismatch
    else if |p.newPassword| < MinPasswordLength then TooShort
    else Proceed
  }

  const MismatchMessage: string := "Las contraseñas no coinciden"
  const TooShortMessage: string := "La contraseña debe tener al menos 6 caracteres"
  const PasswordFailedMessage: string := "Error al actualizar la contraseña"

  /** The password submission: the request sent (if any), the error shown (if any), and the resulting state. */
  datatype PasswordSubmission =
    PasswordSubmission(request: Option<string>, verdict: PasswordVerdict, error: Option<string>, after: Settings)

  /**
   * `handleUpdatePassword`, given what `updateUser` would answer. A rejected
   * entry changes nothing and sends nothing; an accepted one sends the new
   * password, ends with `saving` false, and clears both fields only when the
   * update succeeded.
   */
  function SubmitPassword(s: Settings, updateError: Option<ServiceError>): (out: PasswordSubmission)
    ensures out.verdict == CheckPassword(s.password)
    ensures out.request.Some? <==> out.verdict == Proceed
    ensures out.request.Some? ==> out.request.value == s.password.newPassword
    ensures out.verdict != Proceed ==> out.after == s
    ensures out.verdict == Proceed ==> !out.after.saving
    ensures out.verdict == Proceed && updateError.None? ==> out.after.password == EmptyPassword
    ensures updateError.Some? ==> out.after.password == s.password
    ensures out.after.form == s.form && out.after.notifications == s.notifications
    ensures out.after.loading == s.loading && out.after.uploadingAvatar == s.uploadingAvatar
    ensures out.verdict == Mismatch ==> out.error == Some(MismatchMessage)
    ensures out.verdict == TooShort ==> out.error == Some(TooShortMessage)
    ensures out.verdict == Proceed && updateError.Some? ==> out.error == Some(PasswordFailedMessage)
    ensures out.verdict == Proceed && updateError.None? ==> out.error.None?
  {
    var v := CheckPassword(s.password);
    if v == Mismatch then PasswordSubmission(None, v, Some(MismatchMessage), s)
    else if v == TooShort then PasswordSubmission(None, v, Some(TooShortMessage), s)
    else if updateError.None? then
      PasswordSubmission(Some(s.password.newPassword), v, None, s.(password := EmptyPassword, saving := false))
    else
      PasswordSubmission(Some(s.password.newPassword), v, Some(PasswordFailedMessage), s.(saving := false))
  }

  /** Two different entries are reported as a mismatch even when both are too short. */
  lemma MismatchReportedFirst(p: PasswordForm)
    requires p.newPassword != p.confirmPassword
    requires |p.newPassword| < MinPasswordLength && |p.confirmPassword| < MinPasswordLength
    ensures CheckPassword(p) == Mismatch
  {
  }

  // ---------------------------------------------------------------------------
  // Avatar

  /** The upload limit: 2 MiB. */
  const MaxAvatarBytes: nat := 2 * 1024 * 1024

  datatype FileInfo = FileInfo(name: string, mimeType: string, size: nat)

  datatype AvatarVerdict = NoFile | NotAnImage | TooLarge | AvatarAccepted

  /** The checks at the top of `handleAvatarChange`, in order. */
  function CheckAvatarFile(file: Option<FileInfo>): (v: AvatarVerdict)
    ensures v == NoFile <==> file.None?
    ensures v == NotAnImage <==> file.Some? && !IsPrefix("image/", file.value.mimeType)
    ensures v == TooLarge <==>
      file.Some? && IsPrefix("image/", file.value.mimeType) && file.value.size > MaxAvatarBytes
    ensures v == AvatarAccepted <==>
      file.Some? && IsPrefix("image/", file.value.mimeType) && file.value.size <= 2097152
  {
    match file
    case None => NoFile
    case Some(f) =>
      if !IsPrefix("image/", f.mimeType) then NotAnImage
      else if f.size > MaxAvatarBytes then TooLarge
      else AvatarAccepted
  }

  /** `file.name.split('.').pop()`: the text after the last '.', or the whole name. */
  function FileExtension(name: string): (ext: string)
    ensures '.' !in ext
    ensures IsSuffix(ext, name)
    ensures LastIndexOf(name, '.') < 0 ==> ext == name
    ensures LastIndexOf(name, '.') >= 0 ==> ext == name[LastIndexOf(name, '.') + 1..]
  {
    var parts := Split(name, '.');
    LastPiece(name, '.');
    parts[|parts| - 1]
  }

  /** `${user.id}-${Date.now()}.${fileExt}` */
  function AvatarFileName(userId: string, timestamp: nat, name: string): (fileName: string)
    ensures IsPrefix(userId + "-", fileName)
    ensures IsSuffix("." + FileExtension(name), fileName)
    ensures |fileName| == |userId| + 1 + |Decimal(timestamp)| + 1 + |FileExtension(name)|
    ensures fileName[|userId| + 1..|fileName| - |FileExtension(name)| - 1] == Decimal(timestamp)
  {
    var owner := userId + "-";
    var head := owner + Decimal(timestamp);
    var tail := "." + FileExtension(name);
    PrefixOfConcat(owner, Decimal(timestamp));
    PrefixOfLonger(owner, head, tail);
    SuffixOfConcat(head, tail);
    assert (head + tail)[|owner|..|head|] == Decimal(timestamp);
    head + tail
  }

  /** Two uploads by the same user of the same file at different times get different names. */
  lemma AvatarFileNameInjective(userId: string, t1: nat, t2: nat, name: string)
    requires AvatarFileName(userId, t1, name) == AvatarFileName(userId, t2, name)
    ensures t1 == t2
  {
    DecimalRoundTrip(t1);
    DecimalRoundTrip(t2);
  }

  /** The stored file keeps the extension of the chosen file. */
  lemma AvatarFileNameKeepsExtension(userId: string, timestamp: nat, name: string)
    ensures FileExtension(AvatarFileName(userId, timestamp, name)) == FileExtension(name)
  {
  }

  const NotAnImageMessage: string := "Por favor selecciona un archivo de imagen válido"
  const TooLargeMessage: string := "La imagen no debe superar los 2MB"
  const BucketMissingMessage: string := "Configuración faltante: El bucket \"avatars\" no existe en Supabase."
  const AvatarFailedMessage: string := "Error al actualizar el avatar."

  /** The message shown when the avatar update fails. */
  function AvatarErrorMessage(e: ServiceError): (msg: string)
    ensures msg == BucketMissingMessage <==> e.message.Some? && Includes(e.message.value, "Bucket not found")
    ensures msg != BucketMissingMessage ==> msg == AvatarFailedMessage
  {
    if e.message.Some? && Includes(e.message.value, "Bucket not found") then BucketMissingMessage
    else AvatarFailedMessage
  }

  /** The outcome of `handleAvatarChange`: the upload path used (if any), the error shown (if any), the resulting state. */
  datatype AvatarChange = AvatarChange(uploadPath: Option<string>, error: Option<string>, after: Settings)

  /** Thrown when no user is signed in. */
  const NoUserError: ServiceError := ServiceError(Some("No usuario autenticado"))

  /**
   * `handleAvatarChange`, given the service outcomes: the signed-in user's id
   * (if any), the upload error, the public URL, and the metadata update error.
   */
  function ChangeAvatar(
    s: Settings, file: Option<FileInfo>, userId: Option<string>, timestamp: nat,
    uploadError: Option<ServiceError>, publicUrl: string, updateError: Option<ServiceError>): (out: AvatarChange)
    ensures CheckAvatarFile(file) != AvatarAccepted ==> out.after == s && out.uploadPath.None?
    ensures CheckAvatarFile(file) == NoFile ==> out.error.None?
    ensures CheckAvatarFile(file) == NotAnImage ==> out.error == Some(NotAnImageMessage)
    ensures CheckAvatarFile(file) == TooLarge ==> out.error == Some(TooLargeMessage)
    ensures out.after.loading == s.loading && out.after.saving == s.saving
    ensures CheckAvatarFile(file) == AvatarAccepted ==> !out.after.uploadingAvatar
    ensures out.uploadPath.Some? <==> CheckAvatarFile(file) == AvatarAccepted && userId.Some?
    ensures out.uploadPath.Some? ==>
      out.uploadPath.value == AvatarFileName(userId.value, timestamp, file.value.name)
    ensures CheckAvatarFile(file) == AvatarAccepted && userId.Some? && uploadError.None? && updateError.None? ==>
      out.after.form == s.form.(avatarUrl := publicUrl) && out.error.None?
    ensures !(CheckAvatarFile(file) == AvatarAccepted && userId.Some? && uploadError.None? && updateError.None?) ==>
      out.after.form == s.form
    ensures CheckAvatarFile(file) == AvatarAccepted && userId.None? ==> out.error == Some(AvatarFailedMessage)
    ensures CheckAvatarFile(file) == AvatarAccepted && userId.Some? && uploadError.Some? ==>
      out.error == Some(AvatarErrorMessage(uploadError.value))
    ensures CheckAvatarFile(file) == AvatarAccepted && userId.Some? && uploadError.None? && updateError.Some? ==>
      out.error == Some(AvatarErrorMessage(updateError.value))
    ensures out.after.password == s.password && out.after.notifications == s.notifications
  {
    match CheckAvatarFile(file)
    case NoFile => AvatarChange(None, None, s)
    case NotAnImage => AvatarChange(None, Some(NotAnImageMessage), s)
    case TooLarge => AvatarChange(None, Some(TooLargeMessage), s)
    case AvatarAccepted =>
      var done := s.(uploadingAvatar := false);
      match userId
      case None =>
        NotIncludedWithoutFirstChar(NoUserError.message.value, "Bucket not found");
        AvatarChange(None, Some(AvatarErrorMessage(NoUserError)), done)
      case Some(id) =>
        var path := AvatarFileName(id, timestamp, file.value.name);
        if uploadError.Some? then AvatarChange(Some(path), Some(AvatarErrorMessage(uploadError.value)), done)
        else if updateError.Some? then AvatarChange(Some(path), Some(AvatarErrorMessage(updateError.value)), done)
        else AvatarChange(Some(path), None, done.(form := s.form.(avatarUrl := publicUrl)))
  }

  // ---------------------------------------------------------------------------
  // Notifications

  /** The "Alertas por correo" switch. */
  function ToggleEmailAlerts(n: Notifications): (n': Notifications)
    ensures n'.emailAlerts == !n.emailAlerts
    ensures n'.pushNotifications == n.pushNotifications && n'.marketing == n.marketing
  {
    n.(emailAlerts := !n.emailAlerts)
  }

  /** The "Notificaciones Push" switch. */
  function TogglePushNotifications(n: Notifications): (n': Notifications)
    ensures n'.pushNotifications == !n.pushNotifications
    ensures n'.emailAlerts == n.emailAlerts && n'.marketing == n.marketing
  {
    n.(pushNotifications := !n.pushNotifications)
  }

  /** Each switch undoes itself, and the two switches commute. */
  lemma TogglesInvolutiveAndCommute(n: Notifications)
    ensures ToggleEmailAlerts(ToggleEmailAlerts(n)) == n
    ensures TogglePushNotifications(TogglePushNotifications(n)) == n
    ensures ToggleEmailAlerts(TogglePushNotifications(n)) == TogglePushNotifications(ToggleEmailAlerts(n))
  {
  }
}
