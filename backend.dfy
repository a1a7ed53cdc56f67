/**
 * The types exchanged between a client connection and its database worker, the
 * message constructors, and the translation of a storage column into a wire column
 * description (src/backend/mod.rs).
 */
module Backend {
  import opened Wrappers
  import opened PgWire

  /** SQLite storage classes (`rusqlite::types::Type`). */
  datatype SqlType = NullType | IntegerType | RealType | TextType | BlobType

  /**
   * SQLite values (`rusqlite::types::Value`). Integers are 64-bit in SQLite; the model
   * keeps them unbounded. A real is carried as an uninterpreted number.
   */
  datatype Value = Null | Integer(i: int) | Real(r: real) | Text(s: string) | Blob(bytes: seq<bv8>)

  function TypeOf(v: Value): SqlType
  {
    match v
    case Null => NullType
    case Integer(_) => IntegerType
    case Real(_) => RealType
    case Text(_) => TextType
    case Blob(_) => BlobType
  }

  datatype Field = Field(ordinal: nat, name: string, fieldType: SqlType)

  datatype Record = Record(values: seq<Value>)

  datatype DBResponse = DBResponse(
    resultSchema: Option<seq<Field>>, result: Option<seq<Record>>, error: Option<PgWireError>)

  datatype DBParam = DBParam(name: Option<string>, ordinal: Option<nat>, paramType: Option<SqlType>, value: Value)

  datatype MessageType = SimpleQuery | QueryWithParams | Describe

  /** The sending half of a one-shot reply channel, identified by a number. */
  datatype ReplyChannel = ReplyChannel(id: nat)

  datatype DBMessage = DBMessage(
    messageType: MessageType, query: string, params: Option<seq<DBParam>>, respond: ReplyChannel)

  /** The sending half of a database worker's queue, identified by a number. */
  datatype BackendConnection = BackendConnection(sender: nat)

  function FromQuery(query: string, respond: ReplyChannel): (m: DBMessage)
    ensures m.messageType == SimpleQuery && m.query == query && m.respond == respond
    ensures m.params == None
  {
    DBMessage(SimpleQuery, query, None, respond)
  }

  function FromQueryWithParams(query: string, params: seq<DBParam>, respond: ReplyChannel): (m: DBMessage)
    ensures m.messageType == QueryWithParams && m.query == query && m.respond == respond
    ensures m.params == Some(params)
  {
    DBMessage(QueryWithParams, query, Some(params), respond)
  }

  function FromDescribe(query: string, respond: ReplyChannel): (m: DBMessage)
    ensures m.messageType == Describe && m.query == query && m.respond == respond
    ensures m.params == None
  {
    DBMessage(Describe, query, None, respond)
  }

  /** A message as one of the three constructors builds it. */
  predicate WellFormedMessage(m: DBMessage)
  {
    m == FromQuery(m.query, m.respond)
    || (m.params.Some? && m == FromQueryWithParams(m.query, m.params.value, m.respond))
    || m == FromDescribe(m.query, m.respond)
  }

  /** Only a QueryWithParams message carries parameters, and it always does. */
  lemma ParamsOnlyWithQueryWithParams(m: DBMessage)
    requires WellFormedMessage(m)
    ensures m.params.Some? <==> m.messageType == QueryWithParams
  {
  }

  /**
   * `get_pgwiretype_for_type`: each value-carrying storage class has its own
   * wire type; the null class is described as VARCHAR.
   */
  function PgWireTypeFor(t: SqlType): (w: PgType)
    ensures t == IntegerType <==> w == INT8
    ensures t == RealType <==> w == FLOAT8
    ensures t == TextType <==> w == TEXT
    ensures t == BlobType <==> w == BYTEA
    ensures t == NullType <==> w == VARCHAR
  {
    match t
    case IntegerType => INT8
    case RealType => FLOAT8
    case TextType => TEXT
    case BlobType => BYTEA
    case NullType => VARCHAR
  }

  /** `Into<FieldInfo> for &Field`. */
  function ToFieldInfo(f: Field): (fi: FieldInfo)
    ensures fi.name == f.name && fi.tableId == None && fi.columnId == None
    ensures fi.dataType == PgWireTypeFor(f.fieldType)
    ensures fi.format == BinaryFormat <==> f.fieldType == BlobType
  {
    FieldInfo(f.name, None, None, PgWireTypeFor(f.fieldType),
              match f.fieldType { case BlobType => BinaryFormat case _ => TextFormat })
  }

  /**
   * The four value-carrying storage classes go to four distinct wire types, so a
   * client can recover the storage class from the described column type; only the
   * null class falls back to VARCHAR.
   */
  lemma PgWireTypeForInjective(s: SqlType, t: SqlType)
    requires s != NullType && t != NullType && s != t
    ensures PgWireTypeFor(s) != PgWireTypeFor(t)
    ensures PgWireTypeFor(s) != VARCHAR
  {
  }

  /** Binary format on the wire exactly when the described type is BYTEA. */
  lemma BinaryExactlyForBytea(f: Field)
    ensures ToFieldInfo(f).format == BinaryFormat <==> ToFieldInfo(f).dataType == BYTEA
  {
  }

  /** The wire OIDs of the described column types (INT8, FLOAT8, TEXT, BYTEA, VARCHAR). */
  lemma DescribedOids(t: SqlType)
    ensures Oid(PgWireTypeFor(t)) in {20, 701, 25, 17, 1043}
    ensures t == BlobType <==> Oid(PgWireTypeFor(t)) == 17
  {
  }
}
