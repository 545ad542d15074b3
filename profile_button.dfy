/**
 * The profile button at the foot of the sidebar: an avatar with the user's
 * initials and the e-mail address, or nothing at all without a session.
 */
module ProfileButton {
  import opened Common
  import opened Text

  /** The part of the session the button reads. */
  datatype Session = Session(email: Option<string>, avatarUrl: Option<string>)

  /** `getInitials`: "U" without an e-mail, else its first two characters upper-cased. */
  function Initials(email: Option<string>): (r: string)
    ensures email.None? || email.value == "" ==> r == "U"
    ensures 1 <= |r| <= 2
    ensures email.Some? && |email.value| == 1 ==> r == ToUpper(email.value)
    ensures email.Some? && |email.value| >= 2 ==> r == [UpperChar(email.value[0]), UpperChar(email.value[1])]
    ensures forall k :: 0 <= k < |r| ==> !IsLower(r[k])
  {
    if email.None? || email.value == "" then "U"
    else
      var e := email.value;
      ToUpper(if |e| < 2 then e else e[..2])
  }

  datatype View = Profile(initials: string, email: Option<string>, avatarUrl: Option<string>)

  /** The rendered button, `None` for the `null` render. */
  function Render(session: Option<Session>): (v: Option<View>)
    ensures v.None? <==> session.None?
    ensures v.Some? ==> v.value.initials == Initials(session.value.email) && v.value.email == session.value.email
  {
    match session
    case None => None
    case Some(s) => Some(Profile(Initials(s.email), s.email, s.avatarUrl))
  }
}
