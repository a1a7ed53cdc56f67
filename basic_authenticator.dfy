/**
 * The static-password authenticator (src/auth/basic_authenticator.rs): one configured
 * password, compared with the presented one, independent of user and database. On
 * success it yields the metadata the session keeps: user, database and the relative
 * database path `user/database`, built without any filtering of either part.
 */
module BasicAuthenticator {
  import opened Wrappers
  import opened Strings
  import opened PgWire
  import Paths

  datatype BasicPasswordAuthenticator = BasicPasswordAuthenticator(expectedPassword: string)

  const DEFAULT_PASSWORD: string := "123"

  /** `create_authenticator`: the configured password, or "123" when none is configured. */
  function CreateAuthenticator(authConfig: Option<string>): (r: Result<BasicPasswordAuthenticator, PgWireError>)
    ensures r.Ok?
    ensures authConfig.Some? ==> r.value.expectedPassword == authConfig.value
    ensures authConfig.None? ==> r.value.expectedPassword == "123"
  {
    Ok(BasicPasswordAuthenticator(authConfig.GetOr(DEFAULT_PASSWORD)))
  }

  /** `pg_auth_type`: the mechanism requested from every client. */
  function PgAuthType(a: BasicPasswordAuthenticator): (kind: Authentication)
    ensures kind == CleartextPassword
  {
    CleartextPassword
  }

  const MISSING_CREDENTIALS: ErrorInfo := ErrorInfo("FATAL", "28P01",
    "Authentication was not successful, please check you have provided all the credentials required for this database.")

  const WRONG_CREDENTIALS: ErrorInfo := ErrorInfo("FATAL", "28P01",
    "Authentication was not successful, please check you have provided the correct credentials for this database.")

  /** The metadata of an accepted client: the two names as given, and the path joining them. */
  function IdentityMetadata(username: string, database: string): (m: map<string, string>)
    ensures m.Keys == {"user", "database", "dbpath"}
    ensures m["user"] == username && m["database"] == database
    ensures m["dbpath"] == Paths.Join(username, database)
  {
    map["user" := username, "database" := database, "dbpath" := Paths.Join(username, database)]
  }

  /** `verify_identity`. */
  function VerifyIdentity(a: BasicPasswordAuthenticator, credential: Credential, username: string, database: string)
    : (r: Result<map<string, string>, ErrorInfo>)
    ensures r.Ok? <==> credential == Password(a.expectedPassword)
    ensures r.Ok? ==>
      && r.value.Keys == {"user", "database", "dbpath"}
      && r.value["user"] == username && r.value["database"] == database
      && r.value["dbpath"] == Paths.Join(username, database)
    ensures credential.OtherCredential? ==> r == Err(MISSING_CREDENTIALS)
    ensures credential.Password? && credential.password != a.expectedPassword ==> r == Err(WRONG_CREDENTIALS)
  {
    match credential
    case OtherCredential => Err(MISSING_CREDENTIALS)
    case Password(password) =>
      if a.expectedPassword == password then Ok(IdentityMetadata(username, database))
      else Err(WRONG_CREDENTIALS)
  }

  /** Whether a credential is accepted does not depend on who presents it or for which database. */
  lemma VerifyIndependentOfIdentity(a: BasicPasswordAuthenticator, c: Credential, u1: string, d1: string, u2: string, d2: string)
    ensures VerifyIdentity(a, c, u1, d1).Ok? == VerifyIdentity(a, c, u2, d2).Ok?
    ensures VerifyIdentity(a, c, u1, d1).Err? ==> VerifyIdentity(a, c, u1, d1) == VerifyIdentity(a, c, u2, d2)
  {
  }

  /** Every rejection is FATAL with SQLSTATE 28P01 (invalid_password). */
  lemma RejectionIsInvalidPassword(a: BasicPasswordAuthenticator, c: Credential, u: string, d: string)
    requires VerifyIdentity(a, c, u, d).Err?
    ensures VerifyIdentity(a, c, u, d).error.severity == "FATAL"
    ensures VerifyIdentity(a, c, u, d).error.code == "28P01"
  {
  }

  /** `john` asking for `data.sqlite` gets the path `john/data.sqlite`. */
  lemma DbPathExample(a: BasicPasswordAuthenticator)
    ensures VerifyIdentity(a, Password(a.expectedPassword), "john", "data.sqlite").value["dbpath"] == "john/data.sqlite"
  {
  }

  /**
   * Neither part is filtered: a `..` user climbs out of the user's directory, and an
   * absolute database name replaces the whole path.
   */
  lemma DbPathUnfiltered(a: BasicPasswordAuthenticator, database: string)
    requires Paths.IsAbsolute(database)
    ensures VerifyIdentity(a, Password(a.expectedPassword), "..", "x").value["dbpath"] == "../x"
    ensures forall u :: VerifyIdentity(a, Password(a.expectedPassword), u, database).value["dbpath"] == database
  {
  }
}
