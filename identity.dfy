/**
 * The identity values the authentication provider hands out. The front end
 * never builds them itself; it only reads the fields below.
 */
module Identity {
  import opened Wrappers

  /** A provider user: its id, its e-mail (possibly absent) and the `name` entry of its metadata. */
  datatype User = User(id: string, email: Option<string>, metadataName: Option<string>)

  /** A provider session. The embedded user may be absent. */
  datatype Session = Session(accessToken: string, refreshToken: string, expiresAt: int, user: Option<User>)

  /** `session?.user ?? null`. */
  function UserOf(session: Option<Session>): Option<User> {
    match session
    case Some(s) => s.user
    case None => None
  }
}
