/** The name a page greets the signed-in user with. */
module Identity {
  import opened Wrappers
  import opened Text
  import opened Payroll

  /** `email.split('@')[0]`: the local part of an address. */
  function EmailPrefix(email: string): (r: string)
    ensures r <= email && '@' !in r
    ensures |r| < |email| ==> email[|r|] == '@'
  {
    BeforeFirst(email, '@')
  }

  /** `user?.user_metadata?.full_name || user?.email?.split('@')[0] || 'User'`. */
  function UserName(user: Option<AuthUser>): (name: string)
    ensures name != []
    ensures user.Some? && user.value.fullName.Some? && user.value.fullName.value != [] ==>
              name == user.value.fullName.value
    ensures !(user.Some? && user.value.fullName.Some? && user.value.fullName.value != []) &&
            user.Some? && user.value.email.Some? && EmailPrefix(user.value.email.value) != [] ==>
              name == EmailPrefix(user.value.email.value)
    ensures name == "User" || (user.Some? && (name == user.value.fullName.GetOr("") ||
                                             name == EmailPrefix(user.value.email.GetOr(""))))
  {
    match user
    case None => "User"
    case Some(u) =>
      var full := u.fullName.GetOr("");
      var prefix := if u.email.Some? then EmailPrefix(u.email.value) else "";
      if full != [] then full else if prefix != [] then prefix else "User"
  }
}
