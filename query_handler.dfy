/**
 * The translation between pgwire's query handler interface and the database worker
 * (src/query_handler.rs): bound parameters become storage values, worker responses
 * become query responses or errors, and every wait for the worker ends in a reply,
 * a timeout or a disconnect.
 */
module QueryHandler {
  import opened Wrappers
  import opened PgWire
  import opened Backend
  import opened SimpleBackend
  import opened BackendFactory

  // ---------------------------------------------------------------------------
  // Bound parameters

  /** A bound parameter as pgwire decodes it for its declared type; NULL is `NullParam`. */
  datatype ParamValue =
    | NullParam
    | BoolParam(b: bool)
    | IntParam(i: int)
    | TextParam(s: string)
    | BytesParam(bytes: seq<bv8>)
    | FloatParam(r: real)

  /** A prepared statement: its text and the parameter types declared at Parse. */
  datatype Statement = Statement(query: string, parameterTypes: seq<PgType>)

  /** A bound portal: its statement and one value per bound parameter. */
  datatype Portal = Portal(statement: Statement, parameters: seq<ParamValue>)

  /** The bounds of the signed integers pgwire decodes for INT2, INT4 and INT8 (i16, i32, i64). */
  const I16_LIMIT: int := 0x8000
  const I32_LIMIT: int := 0x8000_0000
  const I64_LIMIT: int := 0x8000_0000_0000_0000

  /** The declared types parse_params converts; any other one hits `unimplemented!`. */
  predicate SupportedParamType(t: PgType)
  {
    t in {BOOL, INT2, INT4, INT8, TEXT, VARCHAR, FLOAT4, FLOAT8, BYTEA}
  }

  /**
   * A value decodes under its declared type (so the `unwrap` after `portal.parameter`
   * does not panic): NULL always does, otherwise the kinds must agree and an integer
   * must fit the declared width.
   */
  predicate Decodable(t: PgType, v: ParamValue)
  {
    SupportedParamType(t) &&
    match v
    case NullParam => true
    case BoolParam(_) => t == BOOL
    case IntParam(i) =>
      || (t == INT2 && -I16_LIMIT <= i < I16_LIMIT)
      || (t == INT4 && -I32_LIMIT <= i < I32_LIMIT)
      || (t == INT8 && -I64_LIMIT <= i < I64_LIMIT)
    case TextParam(_) => t == TEXT || t == VARCHAR
    case BytesParam(_) => t == BYTEA
    case FloatParam(_) => t == FLOAT4 || t == FLOAT8
  }

  /** Every parameter with a declared type decodes under it; undeclared ones need nothing. */
  predicate ParamsDecodable(portal: Portal)
  {
    forall i :: 0 <= i < |portal.parameters| && i < |portal.statement.parameterTypes| ==>
      Decodable(portal.statement.parameterTypes[i], portal.parameters[i])
  }

  /**
   * The storage value of parameter `i`. An undeclared parameter or a client NULL is
   * NULL; otherwise a boolean becomes 1 or 0 and every other value is carried over
   * unchanged, in the storage class of its declared type.
   */
  function ConvertParam(portal: Portal, i: nat): (v: Value)
    requires i < |portal.parameters| && ParamsDecodable(portal)
    ensures i >= |portal.statement.parameterTypes| ==> v == Null
    ensures portal.parameters[i] == NullParam ==> v == Null
    ensures i < |portal.statement.parameterTypes| ==>
      v == Null || TypeOf(v) == ParamClass(portal.statement.parameterTypes[i])
    ensures i < |portal.statement.parameterTypes| ==>
      && (portal.parameters[i] == BoolParam(true) ==> v == Integer(1))
      && (portal.parameters[i] == BoolParam(false) ==> v == Integer(0))
      && (portal.parameters[i].IntParam? ==> v == Integer(portal.parameters[i].i))
      && (portal.parameters[i].TextParam? ==> v == Text(portal.parameters[i].s))
      && (portal.parameters[i].BytesParam? ==> v == Blob(portal.parameters[i].bytes))
      && (portal.parameters[i].FloatParam? ==> v == Real(portal.parameters[i].r))
  {
    if i < |portal.statement.parameterTypes| then
      match portal.parameters[i]
      case NullParam => Null
      case BoolParam(b) => Integer(if b then 1 else 0)
      case IntParam(n) => Integer(n)
      case TextParam(s) => Text(s)
      case BytesParam(bs) => Blob(bs)
      case FloatParam(r) => Real(r)
    else
      Null
  }

  /** The parameters the worker receives: one per bound value, numbered, unnamed, untyped. */
  function ExpectedParams(portal: Portal): (ps: seq<DBParam>)
    requires ParamsDecodable(portal)
    ensures |ps| == |portal.parameters|
    ensures forall i :: 0 <= i < |ps| ==>
      ps[i].ordinal == Some(i) && ps[i].name.None? && ps[i].paramType.None?
      && ps[i].value == ConvertParam(portal, i)
  {
    seq(|portal.parameters|, i requires 0 <= i < |portal.parameters| => DBParam(None, Some(i), None, ConvertParam(portal, i)))
  }

  /** `parse_params`: a loop over the parameter indices pushing one converted parameter each. */
  method ParseParams(portal: Portal) returns (params: seq<DBParam>)
    requires ParamsDecodable(portal)
    ensures params == ExpectedParams(portal)
  {
    params := [];
    for idx := 0 to |portal.parameters|
      invariant |params| == idx
      invariant forall i :: 0 <= i < idx ==> params[i] == DBParam(None, Some(i), None, ConvertParam(portal, i))
    {
      params := params + [DBParam(None, Some(idx), None, ConvertParam(portal, idx))];
    }
  }

  /** The storage class a declared parameter type converts to. */
  function ParamClass(t: PgType): SqlType
  {
    match t
    case BOOL => IntegerType
    case INT2 => IntegerType
    case INT4 => IntegerType
    case INT8 => IntegerType
    case TEXT => TextType
    case VARCHAR => TextType
    case BYTEA => BlobType
    case FLOAT4 => RealType
    case FLOAT8 => RealType
    case _ => NullType
  }

  /**
   * A parameter declared with the wire type a result column is described with converts
   * back to that column's storage class: describe and bind agree for INT8, FLOAT8,
   * TEXT and BYTEA.
   */
  lemma DescribedTypeRoundTrip(t: SqlType)
    requires t != NullType
    ensures SupportedParamType(PgWireTypeFor(t))
    ensures ParamClass(PgWireTypeFor(t)) == t
  {
  }

  // ---------------------------------------------------------------------------
  // Responses

  /** One encoded DataRow: a cell per schema column (byte encoding is pgwire's). */
  datatype DataRow = DataRow(cells: seq<Value>)

  datatype QueryResponse = QueryResponse(schema: seq<FieldInfo>, rows: seq<DataRow>)

  datatype DescribeResponse = DescribeResponse(parameters: Option<seq<PgType>>, fields: seq<FieldInfo>)

  predicate RecordsFit(numCols: nat, records: seq<Record>)
  {
    forall k :: 0 <= k < |records| ==> numCols <= |records[k].values|
  }

  /** The DataRows of `records`: one per record, in order, holding its first `numCols` values. */
  function EncodeRows(numCols: nat, records: seq<Record>): (rows: seq<DataRow>)
    requires RecordsFit(numCols, records)
    ensures |rows| == |records|
    ensures forall k :: 0 <= k < |records| ==>
      |rows[k].cells| == numCols && rows[k].cells == records[k].values[..numCols]
  {
    seq(|records|, k requires 0 <= k < |records| => DataRow(records[k].values[..numCols]))
  }

  /**
   * `translate_records_to_pgwire`: one DataRow per record, in order, encoding exactly
   * the schema's number of columns; it never fails.
   */
  method TranslateRecords(schema: seq<FieldInfo>, records: seq<Record>) returns (r: Result<seq<DataRow>, PgWireError>)
    requires RecordsFit(|schema|, records)
    ensures r.Ok?
    ensures |r.value| == |records|
    ensures forall k :: 0 <= k < |records| ==> r.value[k].cells == records[k].values[..|schema|]
    ensures r.value == EncodeRows(|schema|, records)
  {
    var results: seq<DataRow> := [];
    var numCols := |schema|;
    for k := 0 to |records|
      invariant |results| == k
      invariant forall j :: 0 <= j < k ==> results[j].cells == records[j].values[..numCols]
    {
      var cells: seq<Value> := [];
      for col := 0 to numCols
        invariant cells == records[k].values[..col]
      {
        cells := cells + [records[k].values[col]];
      }
      results := results + [DataRow(cells)];
    }
    r := Ok(results);
  }

  function TranslateSchema(fields: seq<Field>): (infos: seq<FieldInfo>)
    ensures |infos| == |fields| && forall i :: 0 <= i < |fields| ==> infos[i] == ToFieldInfo(fields[i])
  {
    seq(|fields|, i requires 0 <= i < |fields| => ToFieldInfo(fields[i]))
  }

  /** A response can be translated without panicking: rows come with a schema they fit. */
  predicate Translatable(resp: DBResponse)
  {
    resp.result.Some? ==> resp.resultSchema.Some? && RecordsFit(|resp.resultSchema.value|, resp.result.value)
  }

  const UNEXPECTED_FAILURE: PgWireError := FatalInternal("Unexpected Failure")

  /** `translate_dbresponse_to_pgwire`: rows first, then the error, then a generic failure. */
  function TranslateResponse(resp: DBResponse): (r: Result<QueryResponse, PgWireError>)
    requires Translatable(resp)
    ensures resp.result.Some? ==> r.Ok?
    ensures resp.result.None? && resp.error.Some? ==> r == Err(resp.error.value)
    ensures resp.result.None? && resp.error.None? ==> r == Err(UNEXPECTED_FAILURE)
    ensures r.Ok? ==>
      r.value.schema == TranslateSchema(resp.resultSchema.value)
      && |r.value.rows| == |resp.result.value|
      && forall k :: 0 <= k < |r.value.rows| ==>
           r.value.rows[k].cells == resp.result.value[k].values[..|resp.resultSchema.value|]
  {
    if resp.result.Some? then
      var schema := TranslateSchema(resp.resultSchema.value);
      Ok(QueryResponse(schema, EncodeRows(|schema|, resp.result.value)))
    else if resp.error.Some? then
      Err(resp.error.value)
    else
      Err(UNEXPECTED_FAILURE)
  }

  // ---------------------------------------------------------------------------
  // Waiting for the worker

  /** The outcome of `recv_timeout` on the reply channel. A failed send shows as Disconnected. */
  datatype Wait = Received(response: DBResponse) | TimedOut | Disconnected

  const TIMEOUT_ERROR: PgWireError := FatalInternal("Timeout waiting for response from the database")
  const DISCONNECTED_ERROR: PgWireError := FatalInternal("Was disconnected from the database backend")
  const NO_SCHEMA_ERROR: PgWireError := FatalInternal("Was unable to process the query schema")

  function AwaitResponse(w: Wait): (r: Result<DBResponse, PgWireError>)
    ensures w.TimedOut? ==> r == Err(TIMEOUT_ERROR)
    ensures w.Disconnected? ==> r == Err(DISCONNECTED_ERROR)
    ensures w.Received? ==> r == Ok(w.response)
  {
    match w
    case Received(resp) => Ok(resp)
    case TimedOut => Err(TIMEOUT_ERROR)
    case Disconnected => Err(DISCONNECTED_ERROR)
  }

  predicate WaitTranslatable(w: Wait)
  {
    w.Received? ==> Translatable(w.response)
  }

  /**
   * The simple-protocol `do_query`: the text is sent unchanged as a SimpleQuery on
   * `reply`, and the outcome of the wait is translated into a one-element response list.
   */
  function DoSimpleQuery(query: string, reply: ReplyChannel, w: Wait): (out: (DBMessage, Result<seq<QueryResponse>, PgWireError>))
    requires WaitTranslatable(w)
    ensures out.0 == FromQuery(query, reply)
    ensures w.Received? ==>
      match TranslateResponse(w.response) {
        case Ok(q) => out.1 == Ok([q])
        case Err(e) => out.1 == Err(e)
      }
    ensures !w.Received? ==> out.1 == Err(AwaitResponse(w).error)
  {
    var sent := FromQuery(query, reply);
    match AwaitResponse(w)
    case Err(e) => (sent, Err(e))
    case Ok(resp) =>
      match TranslateResponse(resp)
      case Ok(q) => (sent, Ok([q]))
      case Err(e) => (sent, Err(e))
  }

  /**
   * The extended-protocol `do_query`: the portal's statement text and its converted
   * parameters are sent as one QueryWithParams; `maxRows` is ignored, so every row
   * comes back in one response.
   */
  method DoExtendedQuery(portal: Portal, maxRows: nat, reply: ReplyChannel, w: Wait)
    returns (sent: DBMessage, r: Result<QueryResponse, PgWireError>)
    requires ParamsDecodable(portal) && WaitTranslatable(w)
    ensures sent == FromQueryWithParams(portal.statement.query, ExpectedParams(portal), reply)
    ensures w.Received? ==> r == TranslateResponse(w.response)
    ensures !w.Received? ==> r == Err(AwaitResponse(w).error)
  {
    var params := ParseParams(portal);
    sent := FromQueryWithParams(portal.statement.query, params, reply);
    match AwaitResponse(w)
    case Err(e) => r := Err(e);
    case Ok(resp) => r := TranslateResponse(resp);
  }

  /** What Describe names: a statement, or a portal (whose statement is described). */
  datatype Target = StatementTarget(statement: Statement) | PortalTarget(portal: Portal)

  function TargetQuery(t: Target): string
  {
    match t
    case StatementTarget(s) => s.query
    case PortalTarget(p) => p.statement.query
  }

  /**
   * `do_describe`: the statement text goes to the worker as a Describe; a schema comes
   * back as fields with no parameter description, anything else is a FATAL XX000 error.
   */
  function DoDescribe(target: Target, reply: ReplyChannel, w: Wait): (out: (DBMessage, Result<DescribeResponse, PgWireError>))
    ensures out.0 == FromDescribe(TargetQuery(target), reply)
    ensures out.1.Ok? <==> w.Received? && w.response.resultSchema.Some?
    ensures out.1.Ok? ==>
      out.1.value.parameters.None? && out.1.value.fields == TranslateSchema(w.response.resultSchema.value)
    ensures out.1.Err? ==>
      out.1.error.UserError? && out.1.error.info.severity == "FATAL" && out.1.error.info.code == "XX000"
  {
    var sent := FromDescribe(TargetQuery(target), reply);
    match AwaitResponse(w)
    case Err(e) => (sent, Err(e))
    case Ok(resp) =>
      if resp.resultSchema.Some? then
        (sent, Ok(DescribeResponse(None, TranslateSchema(resp.resultSchema.value))))
      else
        (sent, Err(NO_SCHEMA_ERROR))
  }

  /** A statement and a portal over it are described by the same message. */
  lemma DescribeStatementOrPortal(s: Statement, values: seq<ParamValue>, reply: ReplyChannel, w: Wait)
    ensures DoDescribe(StatementTarget(s), reply, w) == DoDescribe(PortalTarget(Portal(s, values)), reply, w)
  {
  }

  // ---------------------------------------------------------------------------
  // Together with the worker

  /** The worker's answers to query messages can always be translated. */
  lemma {:induction false} WorkerAnswerTranslatable(engine: Engine, m: DBMessage)
    requires MessageAnswerable(engine, m)
    requires m.messageType != Describe
    ensures Translatable(Answer(engine, m))
  {
    var resp := Answer(engine, m);
    if m.messageType == SimpleQuery {
      QueryRecordsMatchSchema(engine, m.query);
    } else {
      QueryWithParamsRecordsMatchSchema(engine, m.query, m.params.GetOr([]));
    }
    assert RecordsMatchSchema(resp);
  }

  /**
   * For a message the worker answered, the generic "Unexpected Failure" never occurs:
   * the client sees either the rows or the worker's own error.
   */
  lemma WorkerAnswerNeverUnexpected(engine: Engine, m: DBMessage)
    requires MessageAnswerable(engine, m)
    requires m.messageType != Describe
    ensures Translatable(Answer(engine, m))
    ensures TranslateResponse(Answer(engine, m)) != Err(UNEXPECTED_FAILURE)
    ensures TranslateResponse(Answer(engine, m)).Err? ==>
      Dispatch(engine, m).Err? && TranslateResponse(Answer(engine, m)).error == Dispatch(engine, m).error
  {
    WorkerAnswerTranslatable(engine, m);
  }

  /**
   * A describe on a statement that SQLite cannot prepare reports the schema failure,
   * not SQLite's own error text.
   */
  lemma DescribeHidesBackendError(engine: Engine, target: Target, reply: ReplyChannel, sqliteError: string)
    requires engine.prepare(TargetQuery(target)) == Err(sqliteError)
    ensures var m := FromDescribe(TargetQuery(target), reply);
      MessageAnswerable(engine, m) && DoDescribe(target, reply, Received(Answer(engine, m))).1 == Err(NO_SCHEMA_ERROR)
  {
  }

  /**
   * End to end, a successful non-SELECT simple query yields one column `OK` of wire
   * type INT8 in text format and one row holding the affected-row count.
   */
  lemma NonSelectSimpleQuery(engine: Engine, query: string, n: nat, reply: ReplyChannel)
    requires !IsSelect(query) && engine.execute(query) == Ok(n)
    ensures var m := FromQuery(query, reply);
      MessageAnswerable(engine, m) && WaitTranslatable(Received(Answer(engine, m)))
      && DoSimpleQuery(query, reply, Received(Answer(engine, m))).1
         == Ok([QueryResponse([FieldInfo("OK", None, None, INT8, TextFormat)], [DataRow([Integer(n)])])])
  {
    var m := FromQuery(query, reply);
    var resp := Answer(engine, m);
    assert resp == AffectedRows(n);
    assert TranslateSchema([OkField]) == [FieldInfo("OK", None, None, INT8, TextFormat)];
    assert [Integer(n)][..1] == [Integer(n)];
    assert EncodeRows(1, [Record([Integer(n)])]) == [DataRow([Integer(n)])];
  }
}
