/**
 * The profile Google's userinfo endpoint returns, and its conversion into a user of this system.
 * Only the subject id and the email are carried over; the email is optional.
 */
module DomainGoogleUserInfo {
  import opened Wrappers
  import opened DomainUser

  datatype GoogleUserInfo = GoogleUserInfo(
    sub: string,
    email: string,
    emailVerified: bool,
    name: string,
    givenName: string,
    familyName: string,
    picture: string,
    locale: string)

  /** The email ToUser hands to NewUser: none when Google sent an empty one. */
  function UserEmail(g: GoogleUserInfo): Option<string>
  {
    if g.email != "" then Some(g.email) else None
  }

  /**
   * ToUser: a new user whose Google id is the subject and whose email is Google's, or none when
   * that is empty. The email is copied whether or not Google verified it.
   */
  method ToUser(g: GoogleUserInfo, id: UserID, now: int) returns (u: User)
    ensures u.googleID == Some(g.sub)
    ensures g.email == "" ==> u.email.None?
    ensures g.email != "" ==> u.email == Some(g.email)
    ensures u.id == id && u.createdAt == now && u.updatedAt == now
    ensures u.Validate().None? <==> g.sub != ""
  {
    var email: Option<string> := None;
    if g.email != "" {
      email := Some(g.email);
    }
    u := new User.New(g.sub, email, id, now);
  }

  /** ShouldStoreEmail: only a non-empty email that Google has verified is worth storing. */
  function ShouldStoreEmail(g: GoogleUserInfo): (store: bool)
    ensures store ==> g.emailVerified && UserEmail(g) == Some(g.email)
    ensures !store ==> g.email == "" || !g.emailVerified
  {
    g.email != "" && g.emailVerified
  }

  /** The user email does not depend on the verification flag nor on the display fields. */
  lemma UserEmailIgnoresProfile(g: GoogleUserInfo, h: GoogleUserInfo)
    requires g.email == h.email
    ensures UserEmail(g) == UserEmail(h)
    ensures g.emailVerified != h.emailVerified && g.email != "" ==> ShouldStoreEmail(g) != ShouldStoreEmail(h)
  {
  }
}
