/**
 * One client connection (src/connection.rs): the encryption-request probes before the
 * startup message, the routing of each message by protocol state, the three ways an
 * error is reported, and the read loop with its exit rules.
 */
module Connection {
  import opened Wrappers
  import opened Strings
  import opened PgWire
  import opened Backend
  import opened BackendFactory
  import opened BasicAuthenticator
  import opened Auth

  // ---------------------------------------------------------------------------
  // Big-endian int32

  /** An octet on the wire. */
  type Byte = b: int | 0 <= b < 0x100

  const TWO_24: int := 0x100_0000
  const TWO_16: int := 0x1_0000
  const TWO_31: int := 0x8000_0000
  const TWO_32: int := 0x1_0000_0000

  /** `Buf::get_i32`: four bytes, most significant first, two's complement. */
  function ReadI32(b: seq<Byte>): (x: int)
    requires |b| == 4
    ensures -TWO_31 <= x < TWO_31
  {
    var u: int := b[0] * TWO_24 + b[1] * TWO_16 + (b[2] as int) * 0x100 + b[3];
    if u >= TWO_31 then u - TWO_32 else u
  }

  /** The four bytes a client writes for a 32-bit integer. */
  function WriteI32(x: int): (b: seq<Byte>)
    requires -TWO_31 <= x < TWO_31
    ensures |b| == 4
  {
    var u := if x < 0 then x + TWO_32 else x;
    var t1 := u / 0x100;
    var t2 := t1 / 0x100;
    [(t2 / 0x100), (t2 % 0x100), (t1 % 0x100), (u % 0x100)]
  }

  /** Dividing by 256 three times and summing back the remainders gives the number again. */
  lemma RadixDigits(u: int)
    requires 0 <= u
    ensures var t1 := u / 0x100; var t2 := t1 / 0x100;
      u == (t2 / 0x100) * TWO_24 + (t2 % 0x100) * TWO_16 + (t1 % 0x100) * 0x100 + u % 0x100
  {
    var t1 := u / 0x100;
    var t2 := t1 / 0x100;
    assert u == t1 * 0x100 + u % 0x100;
    assert t1 == t2 * 0x100 + t1 % 0x100;
    assert t2 == (t2 / 0x100) * 0x100 + t2 % 0x100;
  }

  lemma {:induction false} ReadWriteI32(x: int)
    requires -TWO_31 <= x < TWO_31
    ensures ReadI32(WriteI32(x)) == x
  {
    var u := if x < 0 then x + TWO_32 else x;
    var t1 := u / 0x100;
    var t2 := t1 / 0x100;
    RadixDigits(u);
  }

  /** The request codes of the PostgreSQL frontend/backend protocol ("Message Formats"). */
  const SSL_REQUEST_CODE: int := 80877103
  const GSSENC_REQUEST_MAGIC_NUMBER: int := 80877104
  /** The protocol version 3.0 that a real StartupMessage carries. */
  const PROTOCOL_VERSION_3: int := 196608

  lemma RequestCodeBytes()
    ensures WriteI32(SSL_REQUEST_CODE) == [0x04, 0xD2, 0x16, 0x2F]
    ensures WriteI32(GSSENC_REQUEST_MAGIC_NUMBER) == [0x04, 0xD2, 0x16, 0x30]
    ensures WriteI32(PROTOCOL_VERSION_3) == [0x00, 0x03, 0x00, 0x00]
  {
  }

  // ---------------------------------------------------------------------------
  // Probing for an encryption request

  /** The client's byte stream: bytes not yet consumed, and bytes the server wrote raw. */
  class TcpStream {
    var unread: seq<Byte>
    var written: seq<Byte>

    constructor (incoming: seq<Byte>)
      ensures unread == incoming && written == []
    {
      unread := incoming;
      written := [];
    }
  }

  const BODY_SIZE: nat := 8
  const NO: Byte := 0x4E   // 'N'
  const YES: Byte := 0x53  // 'S'

  function Min(a: nat, b: nat): nat
  {
    if a <= b then a else b
  }

  /**
   * How a probe ends. `StillWaiting` stands for a probe still polling when the
   * modelled polls run out; the code would keep polling.
   */
  datatype PeekOutcome = Matched | NotMatched | StreamEnded | StillWaiting

  /** `avail[i]` is how many bytes of the stream had arrived at poll `i`; 0 means end of stream. */
  predicate PollsFit(avail: seq<nat>, stream: seq<Byte>)
  {
    forall i :: 0 <= i < |avail| ==> avail[i] <= |stream|
  }

  /** The eight peeked bytes: skip the length, compare the second int32 with the magic number. */
  function Judge(stream: seq<Byte>, magic: int): PeekOutcome
    requires BODY_SIZE <= |stream|
  {
    if ReadI32(stream[4..8]) == magic then Matched else NotMatched
  }

  /**
   * `peek_for_magic` as intended: each poll peeks the first (up to) eight bytes of the
   * stream; no bytes means the stream ended, eight bytes decide, fewer poll again.
   */
  function PeekDecision(avail: seq<nat>, stream: seq<Byte>, magic: int): (o: PeekOutcome)
    requires PollsFit(avail, stream)
    ensures |avail| > 0 && avail[0] == 0 ==> o == StreamEnded
    ensures |avail| > 0 && avail[0] >= BODY_SIZE ==>
      o != StreamEnded && o != StillWaiting && (o == Matched <==> ReadI32(stream[4..8]) == magic)
    ensures (o == Matched || o == NotMatched) ==>
      BODY_SIZE <= |stream| && (o == Matched <==> ReadI32(stream[4..8]) == magic)
  {
    if avail == [] then StillWaiting
    else
      var size := Min(avail[0], BODY_SIZE);
      if size == 0 then StreamEnded
      else if size == BODY_SIZE then Judge(stream, magic)
      else PeekDecision(avail[1..], stream, magic)
  }

  /**
   * `peek_for_magic` as written: the one 8-byte ReadBuf is reused by every poll, so a
   * poll only fills what earlier polls left free, and its size is compared with 8.
   */
  function PeekAsWritten(avail: seq<nat>, filled: nat, stream: seq<Byte>, magic: int): (o: PeekOutcome)
    requires filled <= BODY_SIZE && PollsFit(avail, stream)
    ensures o == Matched ==> filled == 0 && BODY_SIZE <= |stream| && ReadI32(stream[4..8]) == magic
    ensures |avail| > 0 && avail[0] == 0 ==> o == StreamEnded
  {
    if avail == [] then StillWaiting
    else
      var size := Min(avail[0], BODY_SIZE - filled);
      if size == 0 then StreamEnded
      else if size == BODY_SIZE then Judge(stream, magic)
      else PeekAsWritten(avail[1..], filled + size, stream, magic)
  }

  /** As written, once a poll has seen fewer than eight bytes the probe can no longer match. */
  lemma {:induction false} PartialPeekNeverMatches(avail: seq<nat>, filled: nat, stream: seq<Byte>, magic: int)
    requires 0 < filled <= BODY_SIZE && PollsFit(avail, stream)
    ensures PeekAsWritten(avail, filled, stream, magic) != Matched
  {
    if avail != [] {
      var size := Min(avail[0], BODY_SIZE - filled);
      if 0 < size < BODY_SIZE {
        PartialPeekNeverMatches(avail[1..], filled + size, stream, magic);
      }
    }
  }

  /**
   * An SSLRequest whose first three bytes arrive alone: as written the probe reports
   * the end of the stream, as intended it finds the request.
   */
  lemma FragmentedSslRequest()
    ensures var stream := [0x00, 0x00, 0x00, 0x08, 0x04, 0xD2, 0x16, 0x2F];
      PollsFit([3, 8, 8], stream)
      && PeekAsWritten([3, 8, 8], 0, stream, SSL_REQUEST_CODE) == StreamEnded
      && PeekDecision([3, 8, 8], stream, SSL_REQUEST_CODE) == Matched
  {
    var stream: seq<Byte> := [0x00, 0x00, 0x00, 0x08, 0x04, 0xD2, 0x16, 0x2F];
    RequestCodeBytes();
    assert stream[4..8] == WriteI32(SSL_REQUEST_CODE);
    ReadWriteI32(SSL_REQUEST_CODE);
  }

  /** When all eight bytes are there at the first poll, the two readings agree. */
  lemma WholePeekAgrees(avail: seq<nat>, stream: seq<Byte>, magic: int)
    requires PollsFit(avail, stream) && |avail| > 0 && (avail[0] == 0 || avail[0] >= BODY_SIZE)
    ensures PeekAsWritten(avail, 0, stream, magic) == PeekDecision(avail, stream, magic)
  {
  }

  /** A StartupMessage is never taken for an encryption request. */
  lemma StartupIsNoRequest(stream: seq<Byte>)
    requires |stream| >= BODY_SIZE && stream[4..8] == WriteI32(PROTOCOL_VERSION_3)
    ensures Judge(stream, SSL_REQUEST_CODE) == NotMatched
    ensures Judge(stream, GSSENC_REQUEST_MAGIC_NUMBER) == NotMatched
  {
    ReadWriteI32(PROTOCOL_VERSION_3);
  }

  /** `peek_for_magic`: the polling loop; the eight bytes are consumed only on a match. */
  method PeekForMagic(stream: TcpStream, avail: seq<nat>, magic: int, consume: bool) returns (found: bool, outcome: PeekOutcome)
    requires PollsFit(avail, stream.unread)
    modifies stream
    ensures outcome == PeekDecision(avail, old(stream.unread), magic)
    ensures found <==> outcome == Matched
    ensures stream.unread == if found && consume then old(stream.unread)[BODY_SIZE..] else old(stream.unread)
    ensures stream.written == old(stream.written)
  {
    var i := 0;
    while i < |avail|
      invariant i <= |avail|
      invariant PeekDecision(avail, stream.unread, magic) == PeekDecision(avail[i..], stream.unread, magic)
      invariant stream.unread == old(stream.unread) && stream.written == old(stream.written)
    {
      var size := Min(avail[i], BODY_SIZE);
      if size == 0 {
        return false, StreamEnded;
      }
      if size == BODY_SIZE {
        if ReadI32(stream.unread[4..8]) == magic {
          if consume {
            stream.unread := stream.unread[BODY_SIZE..];
          }
          return true, Matched;
        } else {
          return false, NotMatched;
        }
      }
      assert avail[i..][1..] == avail[i + 1..];
      i := i + 1;
    }
    return false, StillWaiting;
  }

  // ---------------------------------------------------------------------------
  // The connection

  /** Where process_message sends a message. */
  datatype Route = ToAuthenticator | ToQueryHandler(kind: QueryKind) | TerminateSignal | Ignored

  function RouteOf(state: ConnState, message: FrontendMessage): (r: Route)
    ensures r == ToAuthenticator <==> state == AwaitingStartup || state == AuthenticationInProgress
  {
    if state == AwaitingStartup || state == AuthenticationInProgress then ToAuthenticator
    else match message
      case QueryFamily(kind) => ToQueryHandler(kind)
      case Terminate => TerminateSignal
      case _ => Ignored
  }

  /** Before authentication completes a Terminate does not end the session; it is ignored. */
  lemma TerminateDuringStartupIsIgnored(state: ConnState)
    requires state == AwaitingStartup || state == AuthenticationInProgress
    ensures RouteOf(state, Terminate) == ToAuthenticator
  {
  }

  const TERMINATE: string := "{TERMINATE}"
  const TERMINATE_ERROR: PgWireError := ApiError(TERMINATE)

  /** A string shorter than `t` cannot contain it. */
  lemma {:induction false} ShorterNeverContains(s: string, t: string)
    requires |s| < |t|
    ensures !Contains(s, t)
    decreases |s|
  {
    if |s| > 0 {
      ShorterNeverContains(s[1..], t);
    }
  }

  /**
   * As written, the loop ends on any error whose text contains the sentinel; an error
   * text shorter than the sentinel never does.
   */
  predicate ContainsTerminateMarker(e: PgWireError)
    ensures |Display(e)| < |TERMINATE| ==> !ContainsTerminateMarker(e)
  {
    if |Display(e)| < |TERMINATE| then ShorterNeverContains(Display(e), TERMINATE); false
    else Contains(Display(e), TERMINATE)
  }

  /**
   * As intended, only the sentinel error itself ends the loop; it is one of the errors
   * the written test accepts.
   */
  predicate IsTerminateSignal(e: PgWireError)
    ensures IsTerminateSignal(e) ==> ContainsTerminateMarker(e)
  {
    assert TERMINATE[0..|TERMINATE|] == TERMINATE;
    ContainsAt(TERMINATE, TERMINATE, 0);
    e == TERMINATE_ERROR
  }

  /**
   * A query against a table named `{TERMINATE}` fails with an SQLite error quoting the
   * name; as written that error closes the session without reporting it.
   */
  lemma SqlErrorMistakenForTerminate()
    ensures ContainsTerminateMarker(ApiError("no such table: {TERMINATE}"))
    ensures !IsTerminateSignal(ApiError("no such table: {TERMINATE}"))
    ensures ContainsTerminateMarker(TERMINATE_ERROR) && IsTerminateSignal(TERMINATE_ERROR)
  {
    var msg := "no such table: {TERMINATE}";
    assert msg[15..15 + |TERMINATE|] == TERMINATE;
    ContainsAt(msg, TERMINATE, 15);
    assert TERMINATE[0..|TERMINATE|] == TERMINATE;
    ContainsAt(TERMINATE, TERMINATE, 0);
  }

  /** What send_error_to_client writes, and whether it then closes the client. */
  function ErrorReply(e: PgWireError): (out: (seq<BackendMessage>, bool))
    ensures out.1 <==> e.OtherError?
    ensures |out.0| > 0 && out.0[0].ErrorResponse?
    ensures out.0[|out.0| - 1] == ReadyForQueryMessage(READY_STATUS_IDLE) <==> !out.1
    ensures e.UserError? ==> out.0 == [ErrorResponse(e.info), ReadyForQueryMessage('I')]
    ensures e.ApiError? ==> out.0 == [ErrorResponse(ErrorInfo("ERROR", "XX000", e.text)), ReadyForQueryMessage('I')]
    ensures e.OtherError? ==> out.0 == [ErrorResponse(ErrorInfo("FATAL", "XX000", Display(e)))]
  {
    match e
    case UserError(info) => ([ErrorResponse(info), ReadyForQueryMessage(READY_STATUS_IDLE)], false)
    case ApiError(text) => ([ErrorResponse(ErrorInfo("ERROR", "XX000", text)), ReadyForQueryMessage(READY_STATUS_IDLE)], false)
    case OtherError(_) => ([ErrorResponse(ErrorInfo("FATAL", "XX000", Display(e)))], true)
  }

  /** One read of the socket. */
  datatype ReadEvent =
    | Frame(message: FrontendMessage, handlerOutcome: Result<(), PgWireError>)  // with what pgwire's handler returns for it
    | ReadError(text: string)
    | EndOfStream

  const PEER_RESET: string := "Connection reset by peer"

  datatype Step = Continue | Exit

  /**
   * As written: the loop ends on an error mentioning the sentinel or on a peer reset;
   * the end of the stream is polled again. Apart from the end of the stream it exits
   * whenever the intended step does.
   */
  function ReadStepAsWritten(e: ReadEvent, processed: Result<(), PgWireError>): (step: Step)
    ensures step == Exit <==>
      || (e.Frame? && processed.Err? && ContainsTerminateMarker(processed.error))
      || (e.ReadError? && Contains(e.text, PEER_RESET))
    ensures !e.EndOfStream? && ReadStep(e, processed) == Exit ==> step == Exit
  {
    match e
    case Frame(_, _) => if processed.Err? && ContainsTerminateMarker(processed.error) then Exit else Continue
    case ReadError(text) => if Contains(text, PEER_RESET) then Exit else Continue
    case EndOfStream => Continue
  }

  /** As intended: the loop also ends at the end of the stream, and only on the sentinel itself. */
  function ReadStep(e: ReadEvent, processed: Result<(), PgWireError>): (step: Step)
    ensures step == Exit <==>
      || (e.Frame? && processed == Err(TERMINATE_ERROR))
      || (e.ReadError? && Contains(e.text, PEER_RESET))
      || e.EndOfStream?
  {
    match e
    case Frame(_, _) => if processed.Err? && IsTerminateSignal(processed.error) then Exit else Continue
    case ReadError(text) => if Contains(text, PEER_RESET) then Exit else Continue
    case EndOfStream => Exit
  }

  /** As written, a client that just closes its socket keeps the loop polling forever. */
  lemma EndOfStreamSpinsAsWritten(events: seq<ReadEvent>, processed: Result<(), PgWireError>)
    requires forall k :: 0 <= k < |events| ==> events[k] == EndOfStream
    ensures forall k :: 0 <= k < |events| ==> ReadStepAsWritten(events[k], processed) == Continue
    ensures |events| > 0 ==> ReadStep(events[0], processed) == Exit
  {
  }

  datatype ExitReason = TerminateRequested | PeerReset | StreamClosed | EventsExhausted

  /** What process_message returns for a message in a given protocol state. */
  predicate FrameOutcome(state: ConnState, message: FrontendMessage, handlerOutcome: Result<(), PgWireError>,
                         outcome: Result<(), PgWireError>)
  {
    match RouteOf(state, message)
    case ToQueryHandler(_) => outcome == handlerOutcome
    case TerminateSignal => outcome == Err(TERMINATE_ERROR)
    case _ => outcome == Ok(())
  }

  /** One event of the read loop: the client before it, what handling returned, the client after it. */
  datatype EventTrace = EventTrace(before: ClientView, outcome: Result<(), PgWireError>, after: ClientView)

  /** Each event starts from the client the previous one left, from `start` to `end`. */
  ghost predicate Chained(start: ClientView, trace: seq<EventTrace>, end: ClientView)
  {
    && (trace == [] ==> end == start)
    && (trace != [] ==> trace[0].before == start && trace[|trace| - 1].after == end)
    && forall k :: 0 < k < |trace| ==> trace[k].before == trace[k - 1].after
  }

  /** A chain extended by an event that starts where it ends. */
  lemma ChainedAppend(start: ClientView, trace: seq<EventTrace>, t: EventTrace)
    requires Chained(start, trace, t.before)
    ensures Chained(start, trace + [t], t.after)
  {
  }

  /**
   * An event that does not end the loop. A frame yields what process_message returns,
   * never the terminate sentinel; during startup the authenticator handles it, and
   * afterwards an error it yields is reported to the client by send_error_to_client.
   * A read error other than a peer reset changes nothing.
   */
  ghost predicate EventHandled(auth: BasicPasswordAuthenticator, e: ReadEvent, t: EventTrace)
  {
    match e
    case Frame(message, handlerOutcome) =>
      && FrameOutcome(t.before.state, message, handlerOutcome, t.outcome)
      && t.outcome != Err(TERMINATE_ERROR)
      && if RouteOf(t.before.state, message) == ToAuthenticator then
           StartupHandled(auth, message, t.before, t.after)
         else if t.outcome.Err? then
           t.after == t.before.(sent := t.before.sent + ErrorReply(t.outcome.error).0,
                                closed := t.before.closed || ErrorReply(t.outcome.error).1)
         else
           t.after == t.before
    case ReadError(text) => !Contains(text, PEER_RESET) && t.after == t.before
    case EndOfStream => false
  }

  class PgLiteConnection {
    const authenticator: BasicPasswordAuthenticator
    const factory: SimpleBackendFactory
    const client: Client
    var isTls: bool
    /** The query-family messages handed to pgwire's handlers, with the backend each one used. */
    var handled: seq<(QueryKind, BackendConnection)>

    ghost predicate Valid()
      reads this, factory
    {
      factory.Valid()
    }

    constructor (factory: SimpleBackendFactory, authenticator: BasicPasswordAuthenticator)
      requires factory.Valid()
      ensures Valid() && this.factory == factory && this.authenticator == authenticator
      ensures fresh(client) && client.state == AwaitingStartup && client.metadata == map[]
      ensures client.sent == [] && !client.closed
      ensures !isTls && handled == []
    {
      this.factory := factory;
      this.authenticator := authenticator;
      client := new Client();
      isTls := false;
      handled := [];
    }

    /** `peek_for_tls_request`: 'S' and true only when TLS is supported, else 'N' and false. */
    method PeekForTlsRequest(stream: TcpStream, avail: seq<nat>, tlsSupported: bool) returns (tls: bool, outcome: PeekOutcome)
      requires PollsFit(avail, stream.unread)
      modifies stream
      ensures outcome == PeekDecision(avail, old(stream.unread), SSL_REQUEST_CODE)
      ensures tls <==> outcome == Matched && tlsSupported
      ensures stream.written == old(stream.written) + (if outcome == Matched then [if tlsSupported then YES else NO] else [])
      ensures stream.unread == if outcome == Matched then old(stream.unread)[BODY_SIZE..] else old(stream.unread)
    {
      var found;
      found, outcome := PeekForMagic(stream, avail, SSL_REQUEST_CODE, true);
      tls := false;
      if found {
        if tlsSupported {
          stream.written := stream.written + [YES];
          tls := true;
        } else {
          stream.written := stream.written + [NO];
        }
      }
    }

    /** `peek_for_gssenc_request`: a GSSENCRequest is consumed and refused; the answer is always false. */
    method PeekForGssencRequest(stream: TcpStream, avail: seq<nat>) returns (gss: bool, outcome: PeekOutcome)
      requires PollsFit(avail, stream.unread)
      modifies stream
      ensures !gss
      ensures outcome == PeekDecision(avail, old(stream.unread), GSSENC_REQUEST_MAGIC_NUMBER)
      ensures stream.written == old(stream.written) + (if outcome == Matched then [NO] else [])
      ensures stream.unread == if outcome == Matched then old(stream.unread)[BODY_SIZE..] else old(stream.unread)
    {
      var found;
      found, outcome := PeekForMagic(stream, avail, GSSENC_REQUEST_MAGIC_NUMBER, true);
      if found {
        stream.written := stream.written + [NO];
      }
      gss := false;
    }

    /**
     * The start of `handle`: refuse a GSSENCRequest, then answer an SSLRequest. There is
     * no TLS acceptor, so the connection is never TLS.
     */
    method NegotiateEncryption(stream: TcpStream, gssAvail: seq<nat>, tlsAvail: seq<nat>)
      returns (gssOutcome: PeekOutcome, tlsOutcome: PeekOutcome)
      requires PollsFit(gssAvail, stream.unread)
      requires PollsFit(tlsAvail, stream.unread) && (|stream.unread| >= BODY_SIZE ==> PollsFit(tlsAvail, stream.unread[BODY_SIZE..]))
      modifies this, stream
      ensures !isTls
      ensures stream.written == old(stream.written)
        + (if gssOutcome == Matched then [NO] else []) + (if tlsOutcome == Matched then [NO] else [])
      ensures handled == old(handled)
    {
      var gss;
      gss, gssOutcome := PeekForGssencRequest(stream, gssAvail);
      var tls;
      tls, tlsOutcome := PeekForTlsRequest(stream, tlsAvail, false);
      isTls := tls;
    }

    /**
     * `process_message`: during startup every message goes to the authenticator;
     * afterwards the backend is resolved again for every message (which may spawn a
     * new worker), then the message is handed on, turned into the terminate sentinel,
     * or ignored.
     */
    method ProcessMessage(message: FrontendMessage, handlerOutcome: Result<(), PgWireError>) returns (r: Result<(), PgWireError>)
      requires Valid()
      modifies this, client, factory
      ensures Valid() && isTls == old(isTls)
      ensures RouteOf(old(client.state), message) == ToAuthenticator ==>
        && r == Ok(()) && StartupHandled(authenticator, message, old(client.View()), client.View())
        && factory.cache == old(factory.cache) && handled == old(handled)
      ensures RouteOf(old(client.state), message) != ToAuthenticator ==>
        var key := DbPathKey(factory.dbRoot, old(client.metadata));
        && key in factory.cache
        && (key in old(factory.cache) ==> factory.cache == old(factory.cache))
        && (key !in old(factory.cache) ==> factory.cache == old(factory.cache)[key := factory.cache[key]])
        && client.sent == old(client.sent) && client.state == old(client.state)
        && client.metadata == old(client.metadata) && client.closed == old(client.closed)
        && match RouteOf(old(client.state), message) {
             case ToQueryHandler(kind) => r == handlerOutcome && handled == old(handled) + [(kind, factory.cache[key])]
             case TerminateSignal => r == Err(TERMINATE_ERROR) && handled == old(handled)
             case _ => r == Ok(()) && handled == old(handled)
           }
    {
      var route := RouteOf(client.state, message);
      if route == ToAuthenticator {
        r := OnStartup(authenticator, client, message);
      } else {
        var backend, spawned := factory.CreateBackend(client.metadata);
        match route {
          case ToQueryHandler(kind) =>
            handled := handled + [(kind, backend)];
            r := handlerOutcome;
          case TerminateSignal =>
            r := Err(TERMINATE_ERROR);
          case _ =>
            r := Ok(());
        }
      }
    }

    /** `send_error_to_client`. */
    method SendErrorToClient(e: PgWireError)
      modifies client
      ensures client.sent == old(client.sent) + ErrorReply(e).0
      ensures client.closed == (old(client.closed) || ErrorReply(e).1)
      ensures client.state == old(client.state) && client.metadata == old(client.metadata)
    {
      var (messages, close) := ErrorReply(e);
      client.sent := client.sent + messages;
      if close {
        client.closed := true;
      }
    }

    /**
     * One frame read by `process`: process_message, then, unless the result is the
     * terminate sentinel, the report of an error it returned.
     */
    method HandleFrame(message: FrontendMessage, handlerOutcome: Result<(), PgWireError>) returns (r: Result<(), PgWireError>)
      requires Valid()
      modifies this, client, factory
      ensures Valid()
      ensures FrameOutcome(old(client.state), message, handlerOutcome, r)
      ensures r == Err(TERMINATE_ERROR) ==>
        RouteOf(old(client.state), message) != ToAuthenticator && client.View() == old(client.View())
      ensures r != Err(TERMINATE_ERROR) ==>
        EventHandled(authenticator, Frame(message, handlerOutcome), EventTrace(old(client.View()), r, client.View()))
    {
      r := ProcessMessage(message, handlerOutcome);
      if r.Err? && !IsTerminateSignal(r.error) {
        SendErrorToClient(r.error);
      }
    }

    /**
     * `process`: read and handle messages until the client terminates, the peer resets
     * the connection, or the stream ends; every other error is reported to the client
     * and reading goes on. `trace` records each event read, with the client before and
     * after it.
     */
    method Process(events: seq<ReadEvent>) returns (stop: nat, reason: ExitReason, ghost trace: seq<EventTrace>)
      requires Valid()
      modifies this, client, factory
      ensures Valid()
      ensures stop <= |events|
      ensures reason == EventsExhausted <==> stop == |events|
      ensures |trace| == if reason == TerminateRequested then stop + 1 else stop
      ensures Chained(old(client.View()), trace, client.View())
      ensures forall k :: 0 <= k < stop ==> EventHandled(authenticator, events[k], trace[k])
      ensures reason == PeerReset ==> events[stop].ReadError? && Contains(events[stop].text, PEER_RESET)
      ensures reason == StreamClosed ==> events[stop].EndOfStream?
      ensures reason == TerminateRequested ==>
        && events[stop].Frame?
        && RouteOf(trace[stop].before.state, events[stop].message) != ToAuthenticator
        && (events[stop].message.Terminate? || events[stop].handlerOutcome == Err(TERMINATE_ERROR))
        && FrameOutcome(trace[stop].before.state, events[stop].message, events[stop].handlerOutcome, trace[stop].outcome)
        && trace[stop].outcome == Err(TERMINATE_ERROR)
        && trace[stop].after == trace[stop].before
    {
      trace := [];
      var i := 0;
      while i < |events|
        invariant i <= |events| && Valid()
        invariant |trace| == i
        invariant Chained(old(client.View()), trace, client.View())
        invariant forall k :: 0 <= k < i ==> EventHandled(authenticator, events[k], trace[k])
      {
        ghost var before := client.View();
        match events[i] {
          case Frame(message, handlerOutcome) =>
            var r := HandleFrame(message, handlerOutcome);
            ChainedAppend(old(client.View()), trace, EventTrace(before, r, client.View()));
            trace := trace + [EventTrace(before, r, client.View())];
            if ReadStep(events[i], r) == Exit {
              stop, reason := i, TerminateRequested;
              return;
            }
          case ReadError(text) =>
            if ReadStep(events[i], Ok(())) == Exit {
              stop, reason := i, PeerReset;
              return;
            }
            assert EventHandled(authenticator, events[i], EventTrace(before, Ok(()), before));
            ChainedAppend(old(client.View()), trace, EventTrace(before, Ok(()), before));
            trace := trace + [EventTrace(before, Ok(()), before)];
          case EndOfStream =>
            stop, reason := i, StreamClosed;
            return;
        }
        i := i + 1;
      }
      stop, reason := |events|, EventsExhausted;
    }
  }
}
