/**
 * The startup handler shared by every authenticator (src/auth/mod.rs): a Startup
 * message records its parameters and asks for a password; a password message is
 * checked, and either completes authentication or sends an error and closes the
 * client. The client's state, metadata and outgoing messages change in place.
 */
module Auth {
  import opened Wrappers
  import opened PgWire
  import opened BasicAuthenticator
  import Paths

  datatype AuthType = BasicPassword

  /** The configuration this module reads. */
  datatype AuthConfig = AuthConfig(authenticator: AuthType, authConfig: Option<string>)

  /** `load_authenticator`: the only authenticator type is the basic password one. */
  function LoadAuthenticator(config: AuthConfig): (a: BasicPasswordAuthenticator)
    ensures Ok(a) == CreateAuthenticator(config.authConfig)
    ensures a.expectedPassword == config.authConfig.GetOr("123")
  {
    match config.authenticator
    case BasicPassword => CreateAuthenticator(config.authConfig).value
  }

  /** A metadata entry, or "unknown" when it is absent. */
  function MetadataOr(metadata: map<string, string>, key: string): (v: string)
    ensures key in metadata ==> v == metadata[key]
    ensures key !in metadata ==> v == "unknown"
  {
    if key in metadata then metadata[key] else "unknown"
  }

  /** The crate's save_startup_parameters_to_metadata: the parameters are merged in. */
  method SaveStartupParameters(client: Client, parameters: map<string, string>)
    modifies client
    ensures client.metadata == old(client.metadata) + parameters
    ensures client.state == old(client.state) && client.sent == old(client.sent) && client.closed == old(client.closed)
  {
    client.metadata := client.metadata + parameters;
  }

  /** The crate's finish_authentication: the closing messages, then the ready state. */
  method FinishAuthentication(client: Client)
    modifies client
    ensures client.sent == old(client.sent) + [AuthenticationFinished]
    ensures client.state == ReadyForQuery
    ensures client.metadata == old(client.metadata) && client.closed == old(client.closed)
  {
    client.sent := client.sent + [AuthenticationFinished];
    client.state := ReadyForQuery;
  }

  /**
   * What `on_startup` does to a client, seen as the change from `before` to `after`. A
   * Startup saves its parameters, enters AuthenticationInProgress and asks for a
   * cleartext password. A password is checked against the user and database of the
   * metadata: a right one merges the returned metadata and finishes authentication, a
   * wrong one sends the error and closes the client. Anything else changes nothing.
   */
  ghost predicate StartupHandled(auth: BasicPasswordAuthenticator, message: FrontendMessage, before: ClientView, after: ClientView)
  {
    match message
    case Startup(parameters) =>
      after == ClientView(AuthenticationInProgress, before.metadata + parameters,
                          before.sent + [AuthenticationRequest(CleartextPassword)], before.closed)
    case PasswordMessage(credential) =>
      var v := VerifyIdentity(auth, credential,
                              MetadataOr(before.metadata, METADATA_USER),
                              MetadataOr(before.metadata, METADATA_DATABASE));
      if v.Ok? then
        after == ClientView(ReadyForQuery, before.metadata + v.value, before.sent + [AuthenticationFinished], before.closed)
      else
        after == before.(sent := before.sent + [ErrorResponse(v.error)], closed := true)
    case _ =>
      after == before
  }

  /** `on_startup`; it returns Ok whether or not authentication succeeds. */
  method OnStartup(auth: BasicPasswordAuthenticator, client: Client, message: FrontendMessage)
    returns (r: Result<(), PgWireError>)
    modifies client
    ensures r == Ok(())
    ensures StartupHandled(auth, message, old(client.View()), client.View())
  {
    match message
    case Startup(parameters) =>
      SaveStartupParameters(client, parameters);
      client.state := AuthenticationInProgress;
      client.sent := client.sent + [AuthenticationRequest(PgAuthType(auth))];
      r := Ok(());
    case PasswordMessage(credential) =>
      var database := MetadataOr(client.metadata, METADATA_DATABASE);
      var username := MetadataOr(client.metadata, METADATA_USER);
      match VerifyIdentity(auth, credential, username, database) {
        case Ok(metadata) =>
          client.metadata := client.metadata + metadata;
          FinishAuthentication(client);
          r := Ok(());
        case Err(info) =>
          client.sent := client.sent + [ErrorResponse(info)];
          client.closed := true;
          r := Ok(());
      }
    case _ =>
      r := Ok(());
  }

  /**
   * A whole handshake on a new client: Startup, then a password. A right password
   * ends in AuthenticationFinished with the database path in the metadata; a wrong
   * one ends in a 28P01 ErrorResponse and a closed client, with nothing that signals
   * readiness.
   */
  method Login(auth: BasicPasswordAuthenticator, parameters: map<string, string>, credential: Credential)
    returns (sent: seq<BackendMessage>, closed: bool, metadata: map<string, string>, state: ConnState)
    ensures |sent| == 2 && sent[0] == AuthenticationRequest(CleartextPassword)
    ensures credential == Password(auth.expectedPassword) ==>
      sent[1] == AuthenticationFinished && !closed && state == ReadyForQuery
      && "dbpath" in metadata
      && metadata["dbpath"] == Paths.Join(MetadataOr(parameters, "user"), MetadataOr(parameters, "database"))
    ensures credential != Password(auth.expectedPassword) ==>
      sent[1].ErrorResponse? && sent[1].info.code == "28P01" && closed && state == AuthenticationInProgress
      && AuthenticationFinished !in sent
  {
    var client := new Client();
    var r := OnStartup(auth, client, Startup(parameters));
    r := OnStartup(auth, client, PasswordMessage(credential));
    sent, closed, metadata, state := client.sent, client.closed, client.metadata, client.state;
  }

  /** A password sent before any Startup is checked against "unknown"/"unknown". */
  method PasswordBeforeStartup(auth: BasicPasswordAuthenticator)
    returns (state: ConnState, dbpath: string)
    ensures state == ReadyForQuery && dbpath == "unknown/unknown"
  {
    var client := new Client();
    var r := OnStartup(auth, client, PasswordMessage(Password(auth.expectedPassword)));
    state, dbpath := client.state, client.metadata["dbpath"];
  }
}
