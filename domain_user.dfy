/**
 * The user entity of the auth module: an id, an optional email, an optional Google subject id
 * and two timestamps. The one business rule is that the Google id is required; the email is
 * optional. Times are Unix nanoseconds; the clock and the UUID generator are parameters.
 */
module DomainUser {
  import opened Wrappers
  import opened Errors

  type UserID = string

  /** The zero time.Time (January 1 of year 1, UTC) as Unix nanoseconds. */
  const ZeroTime: int := -62135596800 * 1_000_000_000

  const ErrGoogleIDRequired: Error := Plain("google ID is required")

  /** How String writes a user: its id and its email, or "<nil>" when there is none. */
  function Render(id: UserID, email: Option<string>): (text: string)
  {
    "User{ID=" + id + ", Email=" + EmailText(email) + "}"
  }

  function EmailText(email: Option<string>): (text: string)
  {
    if email.Some? then email.value else "<nil>"
  }

  class User {
    var id: UserID
    var email: Option<string>
    var googleID: Option<string>
    var createdAt: int
    var updatedAt: int

    /** NewUser: a user with a freshly generated id, created and updated at `now`. */
    constructor New(googleID: string, email: Option<string>, id: UserID, now: int)
      ensures this.id == id && this.googleID == Some(googleID) && this.email == email
      ensures createdAt == now && updatedAt == now
      ensures Validate().None? <==> googleID != ""
    {
      this.id := id;
      this.googleID := Some(googleID);
      this.email := email;
      createdAt := now;
      updatedAt := now;
    }

    /** A `User{...}` struct literal with every field given. */
    constructor Of(id: UserID, email: Option<string>, googleID: Option<string>, createdAt: int, updatedAt: int)
      ensures this.id == id && this.email == email && this.googleID == googleID
      ensures this.createdAt == createdAt && this.updatedAt == updatedAt
    {
      this.id := id;
      this.email := email;
      this.googleID := googleID;
      this.createdAt := createdAt;
      this.updatedAt := updatedAt;
    }

    /** Validate: an error exactly when the Google id is nil or empty; the email is never looked at. */
    function Validate(): (err: Option<Error>)
      reads this
      ensures err.None? <==> googleID.Some? && googleID.value != ""
      ensures err.Some? ==> err.value == ErrGoogleIDRequired
    {
      if googleID.None? || googleID.value == "" then Some(ErrGoogleIDRequired) else None
    }

    /** UpdateEmail: set the email and stamp the update time; id, Google id and creation time stay. */
    method UpdateEmail(email: string, now: int)
      modifies this
      ensures this.email == Some(email) && updatedAt == now
      ensures id == old(id) && googleID == old(googleID) && createdAt == old(createdAt)
      ensures Validate() == old(Validate())
    {
      this.email := Some(email);
      updatedAt := now;
    }

    /** String: "User{ID=<id>, Email=<email>}", without the Google id or the timestamps. */
    function String(): (s: string)
      reads this
      ensures "User{ID=" + id + ", Email=" <= s && s[|s| - 1] == '}'
      ensures s[8 + |id| + 8..|s| - 1] == EmailText(email)
    {
      RenderShape(id, email);
      Render(id, email)
    }
  }

  /** Validate depends on the Google id only: two users with the same Google id agree. */
  lemma ValidateIgnoresEmail(u: User, v: User)
    requires u.googleID == v.googleID
    ensures u.Validate() == v.Validate()
  {
  }

  /** A user built by NewUser passes Validate exactly when its Google id is non-empty. */
  method NewUserValidates(googleID: string, email: Option<string>, id: UserID, now: int) returns (err: Option<Error>)
    ensures err.None? <==> googleID != ""
    ensures err.Some? ==> err.value == ErrGoogleIDRequired
  {
    var u := new User.New(googleID, email, id, now);
    err := u.Validate();
  }

  /** Two users with the same id and email print alike, whatever their Google ids and times. */
  lemma StringIgnoresGoogleID(u: User, v: User)
    requires u.id == v.id && u.email == v.email
    ensures u.String() == v.String()
  {
  }

  /** The rendering starts with the id and ends with the email text, so it determines both parts of the text. */
  lemma RenderShape(id: UserID, email: Option<string>)
    ensures "User{ID=" + id + ", Email=" <= Render(id, email)
    ensures var s := Render(id, email); |s| == 17 + |id| + |EmailText(email)| && s[|s| - 1] == '}'
    ensures var s := Render(id, email); s[8 + |id| + 8..|s| - 1] == EmailText(email)
  {
    var s := Render(id, email);
    assert s == ("User{ID=" + id + ", Email=") + EmailText(email) + "}";
  }

  /** For one id, different email texts give different strings; the Google id plays no part. */
  lemma {:induction false} RenderDeterminesEmail(id: UserID, e1: Option<string>, e2: Option<string>)
    requires Render(id, e1) == Render(id, e2)
    ensures EmailText(e1) == EmailText(e2)
  {
    RenderShape(id, e1);
    RenderShape(id, e2);
  }

  /** An absent email and the email "<nil>" print alike: String cannot tell them apart. */
  lemma RenderNilAmbiguous(id: UserID)
    ensures Render(id, None) == Render(id, Some("<nil>"))
  {
  }
}
