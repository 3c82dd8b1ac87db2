/**
 * The signed-in user as the auth service reports it. Metadata values are
 * text; a key that is absent stands for `undefined`. JavaScript's `||`
 * treats both `undefined` and the empty string as false, which `Truthy`
 * captures.
 */
module Accounts {
  import opened Wrappers

  /** The three notification preferences kept in the user's metadata. */
  datatype Notifications = Notifications(emailAlerts: bool, pushNotifications: bool, marketing: bool)

  datatype User = User(
    id: string,
    email: Option<string>,
    meta: map<string, string>,
    notifications: Option<Notifications>)

  /** `user.user_metadata?.[key]` is a non-empty string. */
  predicate Truthy(meta: map<string, string>, key: string) {
    key in meta && meta[key] != ""
  }

  /** `user.user_metadata?.[key] || default` */
  function MetaOr(meta: map<string, string>, key: string, default: string): (v: string)
    ensures Truthy(meta, key) ==> v == meta[key]
    ensures !Truthy(meta, key) ==> v == default
  {
    if Truthy(meta, key) then meta[key] else default
  }

  /** `text || default` for a possibly-undefined string. */
  function TextOr(text: Option<string>, default: string): (v: string)
    ensures text.Some? && text.value != "" ==> v == text.value
    ensures (text.None? || text.value == "") ==> v == default
  {
    if text.Some? && text.value != "" then text.value else default
  }
}
