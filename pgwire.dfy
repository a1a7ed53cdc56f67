/**
 * The parts of the `pgwire` crate that the core touches, as plain data: its error
 * type, the wire type identifiers, column descriptions, the messages the server sends
 * and receives, and the per-client state (`ClientInfo` plus the message sink).
 * Framing and byte encoding belong to the crate and are not modelled.
 */
module PgWire {
  import opened Wrappers
  import opened Strings

  /** An ErrorResponse payload: severity, SQLSTATE code and message text. */
  datatype ErrorInfo = ErrorInfo(severity: string, code: string, message: string)

  /**
   * `PgWireError`. `UserError` carries a ready-made ErrorResponse, `ApiError` wraps a
   * foreign error (an SQLite failure, or the terminate sentinel), and every other
   * variant of the crate (I/O, protocol violations) is `OtherError`.
   */
  datatype PgWireError =
    | UserError(info: ErrorInfo)
    | ApiError(text: string)
    | OtherError(text: string)

  /** The error's display text (`to_string()`); a UserError shows its message. */
  function Display(e: PgWireError): string
  {
    match e
    case UserError(info) => info.message
    case ApiError(t) => t
    case OtherError(t) => t
  }

  function FatalInternal(message: string): (e: PgWireError)
  {
    UserError(ErrorInfo("FATAL", "XX000", message))
  }

  /** Wire type identifiers (`pgwire::api::Type`) the core names. */
  datatype PgType =
    | BOOL | INT2 | INT4 | INT8 | FLOAT4 | FLOAT8 | TEXT | VARCHAR | BYTEA | UNKNOWN
    | OtherType(oid: nat)

  /** The type OIDs of the PostgreSQL catalog (pg_type). */
  function Oid(t: PgType): nat
  {
    match t
    case BOOL => 16
    case BYTEA => 17
    case INT8 => 20
    case INT2 => 21
    case INT4 => 23
    case TEXT => 25
    case FLOAT4 => 700
    case FLOAT8 => 701
    case UNKNOWN => 705
    case VARCHAR => 1043
    case OtherType(oid) => oid
  }

  datatype FieldFormat = TextFormat | BinaryFormat

  /** A RowDescription column. */
  datatype FieldInfo = FieldInfo(
    name: string, tableId: Option<nat>, columnId: Option<nat>, dataType: PgType, format: FieldFormat)

  datatype ConnState = AwaitingStartup | AuthenticationInProgress | ReadyForQuery | QueryInProgress

  /** The authentication requests the server can make; pglite only ever makes the first. */
  datatype Authentication = CleartextPassword | MD5Password(salt: seq<bv8>) | SASL(mechanisms: seq<string>)

  /** Messages the server writes to a client. */
  datatype BackendMessage =
    | AuthenticationRequest(kind: Authentication)
    | AuthenticationFinished   // the crate's finish_authentication sequence, ending in ReadyForQuery
    | ErrorResponse(info: ErrorInfo)
    | ReadyForQueryMessage(status: char)

  const READY_STATUS_IDLE: char := 'I'

  /** A decoded PasswordMessageFamily: either a cleartext password or anything else. */
  datatype Credential = Password(password: string) | OtherCredential

  /** Messages handled by the query handler once a session is ready. */
  datatype QueryKind = QueryMsg | ParseMsg | BindMsg | ExecuteMsg | DescribeMsg | SyncMsg | CloseMsg

  /** Messages a client sends. Flush and the copy sub-protocol are `Unhandled`. */
  datatype FrontendMessage =
    | Startup(parameters: map<string, string>)
    | PasswordMessage(credential: Credential)
    | QueryFamily(kind: QueryKind)
    | Terminate
    | Unhandled

  const METADATA_USER: string := "user"
  const METADATA_DATABASE: string := "database"

  /** A snapshot of a client's protocol state, metadata, messages sent and closed flag. */
  datatype ClientView = ClientView(state: ConnState, metadata: map<string, string>, sent: seq<BackendMessage>, closed: bool)

  /** What the crate keeps per client: protocol state, metadata, messages sent, closed. */
  class Client {
    var state: ConnState
    var metadata: map<string, string>
    var sent: seq<BackendMessage>
    var closed: bool

    constructor ()
      ensures state == AwaitingStartup && metadata == map[] && sent == [] && !closed
    {
      state := AwaitingStartup;
      metadata := map[];
      sent := [];
      closed := false;
    }

    function View(): ClientView
      reads this
    {
      ClientView(state, metadata, sent, closed)
    }
  }
}
