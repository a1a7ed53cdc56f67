# pglite, modelled in Dafny

pglite is a small server that speaks the PostgreSQL frontend/backend protocol and stores
each database as a SQLite file. A client connects and optionally asks for GSSAPI or SSL
encryption; both are refused. It then logs in with a cleartext password and sends
queries. Each query is forwarded over a channel to a per-database worker thread. The
worker runs the query on SQLite and answers with a schema and rows, or with an error.
The query handler turns that answer into wire-protocol responses.

This project models the decision logic between the wire-protocol library and SQLite.
It then proves what that logic promises.

- `Backend` (`backend.dfy`) covers the storage types and values. It also covers the
  worker's message constructors, and the translation of a storage column into a wire
  column: its type and its text or binary format.
- `SimpleBackend` (`simple_backend.dfy`) covers the following:
  - normalising a declared column type and looking it up in the fixed table;
  - building a statement's schema;
  - collecting fetched rows into records (an imperative loop);
  - classifying a query as SELECT;
  - the response shapes of `query`, `query_with_params` and `describe_query`.

  SQLite itself is an `Engine` value holding total functions for preparing and
  executing statements.
- `BackendFactory` (`backend_factory.dfy`) covers three things:
  - the handle cache, as a class whose `cache` map is updated in place. `CreateBackend`
    is get-or-create. `Expire` models the worker removing its own entry on exit.
  - the database key `db_root.join(dbpath or "blackhole")`;
  - the worker's FIFO loop. It answers each queued message exactly once, in order,
    until an idle timeout or a disconnect.
- `QueryHandler` (`query_handler.dfy`) covers four things:
  - the parameter conversion loop;
  - the row translation loop;
  - the priority rule of `translate_dbresponse_to_pgwire`: result first, then error,
    then "Unexpected Failure";
  - the simple query, extended query and describe requests, with their
    timeout/disconnect outcomes.
- `BasicAuthenticator` and `Auth` (`basic_authenticator.dfy`, `auth.dfy`) cover the
  password check and the metadata it returns. They also cover the startup state
  machine, which runs over a `Client` object whose state, metadata, sent messages and
  closed flag change in place.
- `Connection` (`connection.dfy`) covers:
  - the 8-byte probe for the SSLRequest and GSSENCRequest codes (section "Message
    Formats" of the PostgreSQL Frontend/Backend Protocol chapter), with the 'S'/'N'
    answer;
  - routing of a message by connection state;
  - the three-way error report of `send_error_to_client`;
  - the read loop and its exit rules.
- `Wrappers`, `Strings`, `Paths` and `PgWire` are supporting modules:
  - `Option` and `Result`;
  - ASCII uppercasing, prefix and substring;
  - Rust's `Path::join` on Unix: an absolute right-hand side replaces the left one,
    and otherwise a `/` is inserted unless the left side is empty or already ends in
    `/`;
  - the slice of the `pgwire` crate that the code uses.

The code derives `dbpath` from the user and database names with `Path::join` and
does not filter either name: neither a `/` nor a `..` is rejected.
`BasicAuthenticator.DbPathUnfiltered` and `BackendFactory.DbPathKeyAbsolute` show the
consequence: an absolute database name replaces the configured root. The worker opens
its database with SQLite's default `Connection::open`, which creates a missing file.

## Model

| member | source | states |
|---|---|---|
| Strings.ToUpper | src/backend/simple_backend.rs:126-127 | uppercasing keeps the length and maps exactly the ASCII letters a-z to A-Z, character by character |
| Strings.ToUpperIdempotent | src/backend/simple_backend.rs:126-127 | uppercasing twice is uppercasing once |
| Strings.ToUpperAppend | src/backend/simple_backend.rs:126-127 | uppercasing distributes over concatenation |
| Strings.ContainsAt | src/backend/simple_backend.rs:146 | a string contains every slice of itself |
| Paths.Join | src/auth/basic_authenticator.rs:46 | an absolute right-hand side is the result; otherwise the left-hand side is a prefix of the result |
| Paths.JoinRelative | src/auth/basic_authenticator.rs:46 | joining a relative name onto a non-empty base without a trailing slash inserts exactly one `/` |
| Paths.JoinAbsoluteDiscardsBase | src/backend/simple_backend.rs:99 | with an absolute right-hand side the base does not matter |
| Backend.FromQuery | src/backend/mod.rs:87-89 | builds a SimpleQuery message with the query and reply channel unchanged and no parameters |
| Backend.FromQueryWithParams | src/backend/mod.rs:90-92 | builds a QueryWithParams message carrying exactly the given parameters |
| Backend.FromDescribe | src/backend/mod.rs:93-95 | builds a Describe message with no parameters |
| Backend.ParamsOnlyWithQueryWithParams | src/backend/mod.rs:86-95 | for any message the constructors build, parameters are present iff the type is QueryWithParams |
| Backend.PgWireTypeFor | src/backend/mod.rs:115-123 | Integer, Real, Text and Blob are described as INT8, FLOAT8, TEXT and BYTEA, and Null as VARCHAR, each in both directions |
| Backend.ToFieldInfo | src/backend/mod.rs:103-113 | the column keeps its name, has no table or column id, gets the wire type of its storage type, and is binary exactly for Blob |
| Backend.PgWireTypeForInjective | src/backend/mod.rs:115-123 | distinct non-null storage types get distinct wire types, none of them VARCHAR |
| Backend.BinaryExactlyForBytea | src/backend/mod.rs:110 | a column is binary iff its wire type is BYTEA |
| Backend.DescribedOids | src/backend/mod.rs:115-123 | described columns only carry OIDs 20, 701, 25, 17 or 1043; 17 (bytea) exactly for Blob |
| SimpleBackend.PrefixBeforeDelimiter | src/backend/simple_backend.rs:129-130 | the result is a prefix of the input with no space or `(` in it, stopping exactly at the first one |
| SimpleBackend.TypeKey | src/backend/simple_backend.rs:125-130 | the key is a prefix of the upper-cased name with no space or `(` in it, and it stops only at the end or at a space or `(` |
| SimpleBackend.SqliteTypeFor | src/backend/simple_backend.rs:124-149 | INT and SERIAL give Integer; VARCHAR and TEXT give Text; DATE, TIME, TIMESTAMP and FLOAT give Real; BINARY gives Blob; each in both directions, and never Null; any other key gives a UserError with severity ERROR, code 42846 and a message containing the name as written |
| SimpleBackend.UpperKeepsDelimiters | src/backend/simple_backend.rs:126-129 | uppercasing neither creates nor removes a space or `(` |
| SimpleBackend.PrefixBeforeDelimiterUnique | src/backend/simple_backend.rs:129-130 | any delimiter-free prefix followed by a delimiter or the end is the cut |
| SimpleBackend.TypeKeyIgnoresModifiers | src/backend/simple_backend.rs:125-130 | a type name followed by a length or constraint maps as the bare name does ("varchar(255)" as "VARCHAR") |
| SimpleBackend.TypeKeyCaseInsensitive | src/backend/simple_backend.rs:126-127 | the lookup key ignores letter case |
| SimpleBackend.IntegerAndBigintUnsupported | src/backend/simple_backend.rs:133-147 | "INTEGER" and "BIGINT" are rejected |
| SimpleBackend.BuildRecordSchema | src/backend/simple_backend.rs:151-163 | one field per column; field i has ordinal i, the column's name and the storage type its declared type maps to |
| SimpleBackend.SelectOneNotBuildable | src/backend/simple_backend.rs:157 | a column without a declared type (as in `SELECT 1`) cannot be given a schema |
| SimpleBackend.StopIndex | src/backend/simple_backend.rs:167 | the rows read are the longest run of successful fetches before the end or the first error |
| SimpleBackend.BuildRecords | src/backend/simple_backend.rs:165-176 | one record per row read, in order, each holding exactly the first `num_fields` cells |
| SimpleBackend.Query | src/backend/simple_backend.rs:185-216 | errors are API errors; success carries a schema and rows and no error. A SELECT succeeds iff it prepares and its query runs; it then answers the built schema of the prepared columns and the records of the rows read, and otherwise the error of the step that failed. A non-SELECT answers `[("OK", Integer, 0)]` with one record of the affected-row count, or the execution error |
| SimpleBackend.ParamValues | src/backend/simple_backend.rs:225 | the bound values are the parameters' values, in order |
| SimpleBackend.QueryWithParams | src/backend/simple_backend.rs:218-255 | a statement that fails to prepare gives that API error before anything runs. Otherwise a SELECT answers the built schema and the records of the rows its query returns with the parameters bound, or that query's error; a non-SELECT answers the OK column with the count from executing the prepared statement with the parameters bound, or that error |
| SimpleBackend.DescribeQuery | src/backend/simple_backend.rs:257-264 | succeeds iff the statement prepares, and then answers exactly the built schema of the prepared columns, with no rows and no error; otherwise the API error of the preparation |
| SimpleBackend.QueryWithParamsWithoutParams | src/backend/simple_backend.rs:185-255 | a SELECT sent through `query_with_params` with no parameters gets the same answer as through `query` |
| SimpleBackend.DescribeAgreesWithQuery | src/backend/simple_backend.rs:185-199 | when a SELECT runs, describing it succeeds and announces the same schema that running it returns |
| SimpleBackend.QueryRecordsMatchSchema | src/backend/simple_backend.rs:192-196 | every record of a successful query has exactly as many values as the schema has fields |
| SimpleBackend.QueryWithParamsRecordsMatchSchema | src/backend/simple_backend.rs:233-237 | the same for parameterised queries |
| SimpleBackend.NonSelectAnswer | src/backend/simple_backend.rs:200-207 | a non-SELECT affecting n rows answers exactly the OK schema and the record `[Integer(n)]` |
| SimpleBackend.IsSelect | src/backend/simple_backend.rs:186 | a query takes the row-returning path iff it has at least six characters and its first six upper-case to SELECT |
| SimpleBackend.IsSelectCaseInsensitive | src/backend/simple_backend.rs:186 | the SELECT test ignores letter case |
| SimpleBackend.LowerCaseSelectIsSelect | src/backend/simple_backend.rs:231 | a lower-case `select` takes the row-returning path |
| BackendFactory.DbPathKeyFallback | src/backend/simple_backend.rs:99 | without a `dbpath` the key is the root joined with "blackhole" |
| BackendFactory.DbPathKeyAbsolute | src/backend/simple_backend.rs:99 | an absolute `dbpath` is the key itself, outside the configured root |
| BackendFactory.DbPathKey | src/backend/simple_backend.rs:99 | the key lies below the configured root, unless the client's `dbpath` is absolute and is then the key itself |
| BackendFactory.SimpleBackendFactory.constructor | src/backend/simple_backend.rs:23-29 | a factory starts with an empty cache |
| BackendFactory.SimpleBackendFactory.CreateBackend | src/backend/simple_backend.rs:97-115 | a hit returns the cached connection and spawns nothing; a miss spawns a new connection, distinct from every cached one, and caches it under the key |
| BackendFactory.SimpleBackendFactory.SpawnBackendConnection | src/backend/simple_backend.rs:31-44 | inserts the new connection under the key, leaving the other entries alone |
| BackendFactory.SimpleBackendFactory.Expire | src/backend/simple_backend.rs:84 | removes exactly that key |
| BackendFactory.SharedUntilExpired | src/backend/simple_backend.rs:97-115 | two connections that resolve to the same key share one backend until it expires; the next one gets a fresh backend |
| BackendFactory.Dispatch | src/backend/simple_backend.rs:62-66 | failures are API errors; a success holds a schema and no error, and rows exactly when the message is not a Describe; a Describe succeeds iff its statement prepares |
| BackendFactory.Answer | src/backend/simple_backend.rs:62-79 | a successful backend call is sent as is; a failed one is sent as a response holding only the error |
| BackendFactory.AnswerShape | src/backend/simple_backend.rs:62-79 | an answer never holds both rows and an error; an answer to a query holds exactly one of them; an answer to a Describe holds no rows, and a schema when it holds no error; errors are API errors |
| BackendFactory.QueueStop | src/backend/simple_backend.rs:54-59 | the worker serves the queue up to the first idle timeout or disconnect |
| BackendFactory.ServeQueue | src/backend/simple_backend.rs:54-80 | exactly one reply per served message, in arrival order, to that message's reply channel, holding its answer |
| BackendFactory.RunWorker | src/backend/simple_backend.rs:49-90 | serves the queue, then removes exactly its own key from the cache |
| QueryHandler.ParseParams | src/query_handler.rs:159-206 | the loop builds exactly the parameter list `ExpectedParams` describes |
| QueryHandler.ExpectedParams | src/query_handler.rs:159-206 | one parameter per portal value, in order; parameter i has ordinal i, no name and no type, and the converted value |
| QueryHandler.ConvertParam | src/query_handler.rs:162-201 | an undeclared parameter or a client NULL gives Null; otherwise bool gives 1 or 0, INT2/4/8 keep their value, TEXT/VARCHAR give Text of the same string, BYTEA gives Blob of the same bytes, FLOAT4/8 give Real of the same number; a non-null result has the storage class of its declared type |
| QueryHandler.DescribedTypeRoundTrip | src/query_handler.rs:164-195 | every wire type the server describes is accepted back as a parameter type of the same storage class |
| QueryHandler.TranslateRecords | src/query_handler.rs:135-153 | always Ok; one row per record, in order, each with exactly as many cells as the schema has columns |
| QueryHandler.EncodeRows | src/query_handler.rs:135-153 | one row per record, in order, each holding exactly the first `numCols` values of its record |
| QueryHandler.TranslateSchema | src/query_handler.rs:155-157 | each field becomes its wire column, in order |
| QueryHandler.TranslateResponse | src/query_handler.rs:117-134 | rows win and give a query response; otherwise the error is returned; otherwise FATAL/XX000 "Unexpected Failure" |
| QueryHandler.AwaitResponse | src/query_handler.rs:27-37 | a timeout and a disconnect each give their FATAL/XX000 error; a received response passes through |
| QueryHandler.DoSimpleQuery | src/query_handler.rs:20-40 | sends a SimpleQuery message for the query text, and returns the translated response or the wait error |
| QueryHandler.DoExtendedQuery | src/query_handler.rs:57-78 | sends the portal's statement text with the converted parameters, ignoring the row limit, and returns the translated response or the wait error |
| QueryHandler.DoDescribe | src/query_handler.rs:80-109 | sends a Describe message; succeeds iff a schema comes back, giving its columns and no parameter description; otherwise a FATAL/XX000 error |
| QueryHandler.DescribeStatementOrPortal | src/query_handler.rs:83-86 | describing a statement and a portal over it give the same message and the same result |
| QueryHandler.WorkerAnswerTranslatable | src/query_handler.rs:117-121 | every worker answer to a query satisfies what the translation requires |
| QueryHandler.WorkerAnswerNeverUnexpected | src/query_handler.rs:129-133 | the "Unexpected Failure" fallback is never reached for a worker answer; an error reaching the client is the backend call's own error |
| QueryHandler.DescribeHidesBackendError | src/query_handler.rs:103-108 | a describe whose statement fails to prepare reports "Was unable to process the query schema", not the SQLite error |
| QueryHandler.NonSelectSimpleQuery | src/query_handler.rs:20-40 | a non-SELECT through the whole path yields one response with the OK column and one row of the affected-row count |
| BasicAuthenticator.CreateAuthenticator | src/auth/basic_authenticator.rs:16-19 | always succeeds; the expected password is the configured one, or "123" |
| BasicAuthenticator.PgAuthType | src/auth/basic_authenticator.rs:30-32 | the mechanism is always cleartext password |
| BasicAuthenticator.VerifyIdentity | src/auth/basic_authenticator.rs:34-56 | succeeds iff the credential is exactly the expected password; on success the map has exactly the keys user, database, dbpath, with the names verbatim and dbpath = user joined with database; the two failures carry their own messages |
| BasicAuthenticator.IdentityMetadata | src/auth/basic_authenticator.rs:43-46 | exactly the keys user, database and dbpath, with the names verbatim and dbpath the user joined with the database |
| BasicAuthenticator.VerifyIndependentOfIdentity | src/auth/basic_authenticator.rs:41 | the outcome does not depend on the user or database name |
| BasicAuthenticator.RejectionIsInvalidPassword | src/auth/basic_authenticator.rs:35-54 | every rejection is FATAL with code 28P01 |
| BasicAuthenticator.DbPathExample | src/auth/basic_authenticator.rs:46 | user "john" with database "data.sqlite" gives "john/data.sqlite" |
| BasicAuthenticator.DbPathUnfiltered | src/auth/basic_authenticator.rs:46 | ".." is kept as is, and an absolute database name becomes the whole path |
| Auth.LoadAuthenticator | src/auth/mod.rs:76-80 | the sole auth type yields the basic authenticator built from the configuration |
| Auth.MetadataOr | src/auth/mod.rs:38-39 | a missing user or database reads as "unknown" |
| Auth.SaveStartupParameters | src/auth/mod.rs:29 | the startup parameters are merged into the metadata; nothing else changes |
| Auth.FinishAuthentication | src/auth/mod.rs:46 | the client is told authentication finished and becomes ready for queries |
| Auth.OnStartup | src/auth/mod.rs:20-59 | always Ok(()); the client changes as `StartupHandled` says: Startup saves the parameters, enters AuthenticationInProgress and requests a cleartext password; a right password merges the returned metadata and finishes authentication; a wrong one sends the error and closes; other messages change nothing |
| Auth.Login | src/auth/mod.rs:26-56 | the Startup/password handshake on a fresh client: a password request then either the finish message with dbpath user/database, or the 28P01 error and a closed client |
| Auth.PasswordBeforeStartup | src/auth/mod.rs:38-46 | a password without a Startup logs in as user "unknown" on database "unknown" |
| Connection.ReadI32 | src/connection.rs:249-250 | a big-endian int32 lies in the signed 32-bit range |
| Connection.WriteI32 | src/connection.rs:249-250 | the four bytes of an int32 |
| Connection.RadixDigits | src/connection.rs:249-250 | a number is the sum of its base-256 digits |
| Connection.ReadWriteI32 | src/connection.rs:249-250 | reading back the bytes of any int32 gives that int32 |
| Connection.RequestCodeBytes | src/connection.rs:25 | the SSLRequest, GSSENCRequest and protocol 3.0 codes have the bytes the protocol defines |
| Connection.TcpStream.constructor | src/connection.rs:58 | a stream starts with its incoming bytes and nothing written |
| Connection.PeekDecision | src/connection.rs:236-260 | a first poll of no bytes reports the end of the stream; a first poll of eight bytes decides, found iff the second big-endian int32 is the magic number; any found/not-found verdict rests on eight bytes and means exactly that |
| Connection.PeekAsWritten | src/connection.rs:236-260 | as written, a match happens only on the first poll and only when the second int32 is the magic number; a first poll of no bytes reports the end of the stream |
| Connection.WholePeekAgrees | src/connection.rs:236-260 | when the first poll sees all 8 bytes or none, the code as written and the intended probe agree |
| Connection.StartupIsNoRequest | src/connection.rs:246-258 | a StartupMessage is never taken for an SSL or GSSENC request |
| Connection.PeekForMagic | src/connection.rs:236-260 | the outcome is the probe's decision; found iff the second int32 of the 8 bytes is the magic number; the 8 bytes are consumed only when found and asked to |
| Connection.RouteOf | src/connection.rs:142-147 | a message goes to the authenticator iff the state is AwaitingStartup or AuthenticationInProgress |
| Connection.TerminateDuringStartupIsIgnored | src/connection.rs:142-147 | a Terminate before login is the authenticator's, and so ignored |
| Connection.ContainsTerminateMarker | src/connection.rs:90 | as written, the loop ends on an error whose text contains `{TERMINATE}`; a shorter error text never matches |
| Connection.IsTerminateSignal | src/connection.rs:90 | as intended, only the sentinel error ends the loop, and the written substring test accepts it |
| Connection.ErrorReply | src/connection.rs:189-211 | a UserError sends its own ErrorResponse; an ApiError sends ERROR/XX000 with its text; both then send ReadyForQuery('I'); any other error sends FATAL/XX000 and closes, without ReadyForQuery |
| Connection.PgLiteConnection.constructor | src/connection.rs:43-56 | a connection starts unauthenticated and not TLS |
| Connection.PgLiteConnection.PeekForTlsRequest | src/connection.rs:213-225 | an SSLRequest is answered 'S' and true only when TLS is supported, 'N' and false otherwise; without one nothing is written |
| Connection.PgLiteConnection.PeekForGssencRequest | src/connection.rs:227-233 | a GSSENCRequest is consumed and answered 'N'; the result is always false |
| Connection.PgLiteConnection.NegotiateEncryption | src/connection.rs:62-67 | GSSENC and SSL requests are refused with 'N' each, and the connection is never TLS |
| Connection.PgLiteConnection.ProcessMessage | src/connection.rs:140-187 | during startup the authenticator handles the message as `OnStartup` does, the result is Ok and the backend cache is untouched; afterwards the backend is resolved for every message and the client is left alone; query messages go to the handler with that backend, Terminate gives the `{TERMINATE}` error, and anything else is Ok |
| Connection.PgLiteConnection.SendErrorToClient | src/connection.rs:189-211 | appends the reply of `ErrorReply` and closes the client exactly for errors that are neither user nor API errors |
| Connection.PgLiteConnection.HandleFrame | src/connection.rs:88-95 | the result is what `process_message` returns; the sentinel leaves the client alone, and any other error is reported by `send_error_to_client` |
| Connection.PgLiteConnection.Process | src/connection.rs:83-109 | reading stops at the first frame whose handling yields the terminate sentinel after startup, at a "Connection reset by peer" read error, or at the end of the stream, reporting which; before that, every frame is handled by the authenticator during startup and otherwise has each error it yields reported to the client, and other read errors change nothing; the trace links the client as it was to the client as it is |
| Connection.PartialPeekNeverMatches | src/connection.rs:237-246 | as written, once a poll has returned fewer than 8 bytes the probe can never match |
| Connection.FragmentedSslRequest | src/connection.rs:237-246 | an SSLRequest arriving as 3 bytes then 8 is missed as written and found by the intended probe |
| Connection.SqlErrorMistakenForTerminate | src/connection.rs:90 | an SQL error mentioning `{TERMINATE}` passes the substring test but is not the sentinel |
| Connection.ReadStepAsWritten | src/connection.rs:85-107 | as written, the loop exits exactly on an error mentioning `{TERMINATE}` or a peer reset, never at the end of the stream; apart from the end of the stream it exits whenever the intended step does |
| Connection.ReadStep | src/connection.rs:85-107 | as intended, the loop exits exactly on the sentinel error, a peer reset or the end of the stream |
| Connection.EndOfStreamSpinsAsWritten | src/connection.rs:85-107 | as written, a closed stream never ends the loop; the intended step exits on it |

## Left out

- Threads, channels, locks, `spawn_blocking` and real-time timeouts are not modelled. The worker is a sequential loop over a queue of deliveries, idle timeouts and disconnects. A wait for a reply is an abstract outcome: received, timed out or disconnected.
- The TLS path (`process_tls`) is not modelled. It is unreachable because the TLS acceptor is always absent.
- Nothing about I/O failure is modelled: flush and send errors on the socket, `read_exact` and `write_all` errors, and failures of `set_nodelay`.
- The wire-protocol framing of `pgwire` is left out: the message codec, `MemPortalStore`, the `DataRowEncoder` byte encoding, and the server parameters sent by `finish_authentication`. Frontend messages arrive decoded. `finish_authentication` is one `AuthenticationFinished` message plus the ReadyForQuery state.
- What pgwire's own `on_query`, `on_parse`, `on_bind`, `on_execute`, `on_describe`, `on_sync` and `on_close` do around the handler calls is not modelled. `ProcessMessage` takes the outcome of that call as an input, and records which message kind went to which backend.
- SQLite is an `Engine` of total functions; its SQL semantics are not modelled. `prepare_cached` is modelled as `prepare`, since the statement cache changes no result.
- SimpleBackend.Query: a SELECT whose column has no declared type, or an unsupported one, makes the code panic. The model requires the column to be typed (`Answerable`) instead of modelling the panic.
- SimpleBackend.BuildRecords: `get_unwrap` panics on a row with fewer cells than the schema has columns. The model requires every row to be that long.
- QueryHandler.ParseParams: a declared parameter type outside the supported set aborts with `unimplemented!`, and a value pgwire cannot decode panics in `unwrap`. The model requires every parameter to be decodable under a supported type.
- QueryHandler.ConvertParam: FLOAT4 and FLOAT8 parameters become `Real` values copied exactly. The single- and double-precision rounding is not modelled.
- SimpleBackend.NonSelectAnswer: `affected_rows as i64` is the unbounded count; SQLite never reports more than 2^63 - 1 rows.
- Auth.LoadAuthenticator: the `unwrap` on the authenticator factory cannot fail, because `create_authenticator` always succeeds; the model returns the authenticator directly.
- The rendering of a `UserError` by pgwire's `Display` is modelled as its message text. It only matters for the substring test on `{TERMINATE}`.
- The lock-poisoning branches of the cache and `SimplePgLiteDBBackend::open(...).unwrap()` in the worker are not modelled.
- `close` of a backend handle does nothing in the code and is not modelled.
- Strings.ToUpper: only the ASCII letters a-z are upper-cased. Rust's `to_uppercase` follows Unicode, so the code also maps other letters: `"ſelect 1"` (long s) upper-cases to `"SELECT 1"` and takes the row-returning path, where the model does not; `"ß"` becomes `"SS"`, which changes the length and so the declared-type key.
- The process bootstrap, configuration parsing, logging and the TCP accept loop (`src/main.rs`, `src/config.rs`, `src/server.rs`) are not part of this model.

## Findings

| source | as written | input that shows it | evidently intended | confidence | as-written member | corrected member |
|---|---|---|---|---|---|---|
| src/connection.rs:237-246 | one 8-byte `ReadBuf` is reused by every `poll_peek`. A poll only fills what earlier polls left free, so after a partial first peek `size == 8` can never hold. The probe then reports "stream ended" and the request is missed. | an SSLRequest (`00 00 00 08 04 D2 16 2F`) whose first 3 bytes arrive before the rest | every poll peeks a fresh 8-byte buffer, so the request is found once all 8 bytes have arrived | not executed | Connection.PartialPeekNeverMatches | Connection.PgLiteConnection.PeekForMagic |
| src/connection.rs:85-107 | `socket.next()` returning `None` at the end of the stream is ignored, and the loop polls again forever | a client that closes its socket without sending Terminate | end the loop at the end of the stream | not executed | Connection.EndOfStreamSpinsAsWritten | Connection.PgLiteConnection.Process |
| src/connection.rs:90 | the loop ends on any error whose text contains `{TERMINATE}`. The error is then neither reported nor followed by ReadyForQuery. | `SELECT * FROM "{TERMINATE}"` fails with the SQLite error "no such table: {TERMINATE}" | end the loop only on the sentinel error that a Terminate message produces | not executed | Connection.SqlErrorMistakenForTerminate | Connection.PgLiteConnection.Process |
