/**
 * The decision logic of the SQLite backend (src/backend/simple_backend.rs): the
 * declared-type mapping, the result schema, the row collection loop, the SELECT
 * classification and the shape of each backend answer. SQLite itself is an `Engine`
 * of total functions, so every outcome it may produce is covered.
 */
module SimpleBackend {
  import opened Wrappers
  import opened Strings
  import opened PgWire
  import opened Backend

  // ---------------------------------------------------------------------------
  // Declared type names

  predicate IsDelimiter(c: char)
  {
    c == ' ' || c == '('
  }

  /** `take_while(|ch| ch != ' ' && ch != '(')`. */
  function PrefixBeforeDelimiter(s: string): (r: string)
    ensures IsPrefix(r, s)
    ensures forall i :: 0 <= i < |r| ==> !IsDelimiter(r[i])
    ensures |r| < |s| ==> IsDelimiter(s[|r|])
  {
    if s == [] || IsDelimiter(s[0]) then [] else [s[0]] + PrefixBeforeDelimiter(s[1..])
  }

  /** The lookup key of a declared type: upper-cased, cut at the first space or `(`. */
  function TypeKey(name: string): (key: string)
    ensures IsPrefix(key, ToUpper(name))
    ensures forall i :: 0 <= i < |key| ==> !IsDelimiter(key[i])
    ensures |key| < |name| ==> IsDelimiter(UpperChar(name[|key|]))
  {
    PrefixBeforeDelimiter(ToUpper(name))
  }

  /** The fixed table of supported declared types. */
  const TypeTable: map<string, SqlType> := map[
    "INT" := IntegerType,
    "VARCHAR" := TextType,
    "DATE" := RealType,
    "TIME" := RealType,
    "TIMESTAMP" := RealType,
    "TEXT" := TextType,
    "BINARY" := BlobType,
    "FLOAT" := RealType,
    "SERIAL" := IntegerType
  ]

  function UnsupportedType(name: string): PgWireError
  {
    UserError(ErrorInfo("ERROR", "42846", "Unsupported data type: " + name))
  }

  /**
   * `get_sqlite_type_for_type`: each storage class is produced for exactly its table
   * names, the null class never; any other name is an ERROR 42846 quoting the name.
   */
  function SqliteTypeFor(name: string): (r: Result<SqlType, PgWireError>)
    ensures r == Ok(IntegerType) <==> TypeKey(name) in {"INT", "SERIAL"}
    ensures r == Ok(TextType) <==> TypeKey(name) in {"VARCHAR", "TEXT"}
    ensures r == Ok(RealType) <==> TypeKey(name) in {"DATE", "TIME", "TIMESTAMP", "FLOAT"}
    ensures r == Ok(BlobType) <==> TypeKey(name) == "BINARY"
    ensures r != Ok(NullType)
    ensures r.Err? ==>
      && r.error.UserError? && r.error.info.severity == "ERROR" && r.error.info.code == "42846"
      && Contains(r.error.info.message, name)
  {
    var key := TypeKey(name);
    if key in TypeTable then Ok(TypeTable[key])
    else
      var message := "Unsupported data type: " + name;
      assert message[23..23 + |name|] == name;
      ContainsAt(message, name, 23);
      Err(UnsupportedType(name))
  }

  /** Upper-casing leaves the delimiters alone and never produces one. */
  lemma UpperKeepsDelimiters(c: char)
    ensures IsDelimiter(UpperChar(c)) <==> IsDelimiter(c)
  {
  }

  /** PrefixBeforeDelimiter is determined by its three properties. */
  lemma {:induction false} PrefixBeforeDelimiterUnique(s: string, p: string)
    requires IsPrefix(p, s)
    requires forall i :: 0 <= i < |p| ==> !IsDelimiter(p[i])
    requires |p| < |s| ==> IsDelimiter(s[|p|])
    ensures PrefixBeforeDelimiter(s) == p
  {
    var r := PrefixBeforeDelimiter(s);
    if |r| != |p| {
      assert false;
    }
  }

  /**
   * Only the part before the first space or `(` matters, in any letter case:
   * `varchar(255)`, `VARCHAR` and `varchar not null` share one key.
   */
  lemma {:induction false} TypeKeyIgnoresModifiers(base: string, rest: string)
    requires forall i :: 0 <= i < |base| ==> !IsDelimiter(base[i])
    requires |rest| > 0 ==> IsDelimiter(rest[0])
    ensures TypeKey(base + rest) == ToUpper(base)
    ensures SqliteTypeFor(base + rest).Ok? <==> SqliteTypeFor(base).Ok?
    ensures SqliteTypeFor(base + rest).Ok? ==> SqliteTypeFor(base + rest) == SqliteTypeFor(base)
  {
    var u := ToUpper(base + rest);
    ToUpperAppend(base, rest);
    forall i | 0 <= i < |base| ensures !IsDelimiter(ToUpper(base)[i]) {
      UpperKeepsDelimiters(base[i]);
    }
    if |rest| > 0 {
      UpperKeepsDelimiters(rest[0]);
      assert u[|base|] == UpperChar(rest[0]);
    }
    assert u[..|base|] == ToUpper(base);
    PrefixBeforeDelimiterUnique(u, ToUpper(base));
    PrefixBeforeDelimiterUnique(ToUpper(base), ToUpper(base));
  }

  /** Upper-casing the declared name first changes nothing. */
  lemma TypeKeyCaseInsensitive(name: string)
    ensures TypeKey(ToUpper(name)) == TypeKey(name)
  {
    ToUpperIdempotent(name);
  }

  /** INTEGER and BIGINT, common SQL spellings, are not in the table. */
  lemma IntegerAndBigintUnsupported()
    ensures SqliteTypeFor("INTEGER").Err? && SqliteTypeFor("BIGINT").Err?
  {
    UpperNameIsKey("INTEGER");
    UpperNameIsKey("BIGINT");
  }

  /** A name of upper-case letters only is its own key. */
  lemma UpperNameIsKey(name: string)
    requires forall i :: 0 <= i < |name| ==> 'A' <= name[i] <= 'Z'
    ensures TypeKey(name) == name
  {
    assert ToUpper(name) == name;
    PrefixBeforeDelimiterUnique(name, name);
  }

  // ---------------------------------------------------------------------------
  // Result schema

  /** A result column of a prepared statement: its name and declared type, if any. */
  datatype Column = Column(name: string, declType: Option<string>)

  /**
   * The schema can be built only when every column has a declared type that the
   * table knows; otherwise the two `unwrap`s of build_record_schema_from_statement
   * panic (an expression column such as `SELECT 1` has no declared type).
   */
  predicate SchemaBuildable(columns: seq<Column>)
  {
    forall c | c in columns :: c.declType.Some? && SqliteTypeFor(c.declType.value).Ok?
  }

  /**
   * `build_record_schema_from_statement`: one field per column, numbered from 0,
   * named after the column, typed by the table.
   */
  function BuildRecordSchema(columns: seq<Column>): (fields: seq<Field>)
    requires SchemaBuildable(columns)
    ensures |fields| == |columns|
    ensures forall i :: 0 <= i < |columns| ==>
      fields[i].ordinal == i && fields[i].name == columns[i].name
      && Ok(fields[i].fieldType) == SqliteTypeFor(columns[i].declType.value)
  {
    assert forall i :: 0 <= i < |columns| ==> columns[i] in columns;
    seq(|columns|, i requires 0 <= i < |columns| => Field(i, columns[i].name, SqliteTypeFor(columns[i].declType.value).value))
  }

  /** An expression column without a declared type cannot be described. */
  lemma SelectOneNotBuildable()
    ensures !SchemaBuildable([Column("1", None)])
  {
    assert Column("1", None) in [Column("1", None)];
  }

  // ---------------------------------------------------------------------------
  // Collecting rows

  /** One call of `Rows::next`: a row, the end of the rows, or a fetch error. */
  datatype Fetch = FetchRow(cells: seq<Value>) | FetchEnd | FetchError(reason: string)

  /** Index of the first fetch that is not a row: where build_records stops. */
  function StopIndex(fetches: seq<Fetch>): (k: nat)
    ensures k <= |fetches|
    ensures forall i :: 0 <= i < k ==> fetches[i].FetchRow?
    ensures k < |fetches| ==> !fetches[k].FetchRow?
  {
    if fetches == [] || !fetches[0].FetchRow? then 0 else 1 + StopIndex(fetches[1..])
  }

  /** Every row before the stop has at least `n` cells (`get_unwrap` would panic otherwise). */
  predicate RowsHaveFields(fetches: seq<Fetch>, n: nat)
  {
    forall i :: 0 <= i < StopIndex(fetches) ==> n <= |fetches[i].cells|
  }

  /** The records build_records returns: the first `n` cells of each row, in row order. */
  function RecordsOf(fetches: seq<Fetch>, n: nat): (rs: seq<Record>)
    requires RowsHaveFields(fetches, n)
  {
    seq(StopIndex(fetches), i requires 0 <= i < StopIndex(fetches) => Record(fetches[i].cells[..n]))
  }

  /** `build_records`: a loop over the row cursor, copying `numFields` values per row. */
  method BuildRecords(fetches: seq<Fetch>, numFields: nat) returns (records: seq<Record>)
    requires RowsHaveFields(fetches, numFields)
    ensures |records| == StopIndex(fetches)
    ensures forall k :: 0 <= k < |records| ==>
      |records[k].values| == numFields && records[k].values == fetches[k].cells[..numFields]
    ensures records == RecordsOf(fetches, numFields)
  {
    records := [];
    var next := 0;
    while next < |fetches| && fetches[next].FetchRow?
      invariant next <= StopIndex(fetches)
      invariant |records| == next
      invariant forall k :: 0 <= k < next ==> records[k].values == fetches[k].cells[..numFields]
    {
      var row := fetches[next].cells;
      var values: seq<Value> := [];
      for field := 0 to numFields
        invariant values == row[..field]
      {
        values := values + [row[field]];
      }
      records := records + [Record(values)];
      next := next + 1;
    }
  }

  // ---------------------------------------------------------------------------
  // Queries

  /**
   * The row-returning path is taken when the upper-cased text starts with SELECT; only
   * the first six characters decide.
   */
  predicate IsSelect(query: string)
    ensures IsSelect(query) <==> 6 <= |query| && ToUpper(query[..6]) == "SELECT"
  {
    assert 6 <= |query| ==> ToUpper(query)[..6] == ToUpper(query[..6]);
    IsPrefix("SELECT", ToUpper(query))
  }

  /** A prepared statement: its result columns, and running it with bound values. */
  datatype Prepared = Prepared(
    columns: seq<Column>,
    query: seq<Value> -> Result<seq<Fetch>, string>,
    execute: seq<Value> -> Result<nat, string>)

  /** An open SQLite connection: preparing a statement, and executing SQL directly. */
  datatype Engine = Engine(
    prepare: string -> Result<Prepared, string>,
    execute: string -> Result<nat, string>)

  /** The backend does not panic on `query`: a prepared statement has a buildable schema. */
  predicate WellTyped(engine: Engine, query: string)
  {
    engine.prepare(query).Ok? ==> SchemaBuildable(engine.prepare(query).value.columns)
  }

  /** Rows are collected only when they have as many cells as the schema has fields. */
  predicate RowsFit(engine: Engine, query: string, values: seq<Value>)
  {
    engine.prepare(query).Ok? ==>
      var p := engine.prepare(query).value;
      p.query(values).Ok? ==> RowsHaveFields(p.query(values).value, |p.columns|)
  }

  /** What `query` and `query_with_params` need in order not to panic: only a SELECT builds a schema. */
  predicate Answerable(engine: Engine, query: string, values: seq<Value>)
  {
    IsSelect(query) ==> WellTyped(engine, query) && RowsFit(engine, query, values)
  }

  const OkField: Field := Field(0, "OK", IntegerType)

  /** The answer of a statement that returns no rows: a single `OK` column with the count. */
  function AffectedRows(n: nat): DBResponse
  {
    DBResponse(Some([OkField]), Some([Record([Integer(n)])]), None)
  }

  function Rows(fields: seq<Field>, records: seq<Record>): DBResponse
  {
    DBResponse(Some(fields), Some(records), None)
  }

  /** `query`: SELECT text is prepared and its rows collected; anything else is executed. */
  function Query(engine: Engine, query: string): (r: Result<DBResponse, PgWireError>)
    requires Answerable(engine, query, [])
    ensures r.Err? ==> r.error.ApiError?
    ensures r.Ok? ==> r.value.resultSchema.Some? && r.value.result.Some? && r.value.error.None?
    ensures !IsSelect(query) ==>
      r == match engine.execute(query) { case Ok(n) => Ok(AffectedRows(n)) case Err(e) => Err(ApiError(e)) }
    ensures IsSelect(query) ==>
      (r.Ok? <==> engine.prepare(query).Ok? && engine.prepare(query).value.query([]).Ok?)
    ensures IsSelect(query) && r.Err? ==>
      r.error == ApiError(if engine.prepare(query).Err? then engine.prepare(query).error
                          else engine.prepare(query).value.query([]).error)
    ensures IsSelect(query) && r.Ok? ==>
      var p := engine.prepare(query).value;
      r.value == Rows(BuildRecordSchema(p.columns), RecordsOf(p.query([]).value, |p.columns|))
  {
    if IsSelect(query) then
      match engine.prepare(query)
      case Err(e) => Err(ApiError(e))
      case Ok(p) =>
        var fields := BuildRecordSchema(p.columns);
        match p.query([])
        case Err(e) => Err(ApiError(e))
        case Ok(fetches) =>
          Ok(Rows(fields, RecordsOf(fetches, |fields|)))
    else
      match engine.execute(query)
      case Ok(n) => Ok(AffectedRows(n))
      case Err(e) => Err(ApiError(e))
  }

  function ParamValues(params: seq<DBParam>): (vs: seq<Value>)
    ensures |vs| == |params| && forall i :: 0 <= i < |params| ==> vs[i] == params[i].value
  {
    seq(|params|, i requires 0 <= i < |params| => params[i].value)
  }

  /**
   * `query_with_params`: the text is always prepared first (so a preparation error
   * wins even for a non-SELECT); the bound values are the parameters' values in order.
   */
  function QueryWithParams(engine: Engine, query: string, params: seq<DBParam>): (r: Result<DBResponse, PgWireError>)
    requires Answerable(engine, query, ParamValues(params))
    ensures engine.prepare(query).Err? ==> r == Err(ApiError(engine.prepare(query).error))
    ensures r.Err? ==> r.error.ApiError?
    ensures r.Ok? ==> r.value.resultSchema.Some? && r.value.result.Some? && r.value.error.None?
    ensures engine.prepare(query).Ok? && !IsSelect(query) ==>
      r == match engine.prepare(query).value.execute(ParamValues(params)) {
             case Ok(n) => Ok(AffectedRows(n))
             case Err(e) => Err(ApiError(e)) }
    ensures engine.prepare(query).Ok? && IsSelect(query) ==>
      var p := engine.prepare(query).value;
      && (r.Ok? <==> p.query(ParamValues(params)).Ok?)
      && (r.Err? ==> r.error == ApiError(p.query(ParamValues(params)).error))
      && (r.Ok? ==> r.value == Rows(BuildRecordSchema(p.columns), RecordsOf(p.query(ParamValues(params)).value, |p.columns|)))
  {
    match engine.prepare(query)
    case Err(e) => Err(ApiError(e))
    case Ok(p) =>
      var values := ParamValues(params);
      if IsSelect(query) then
        var fields := BuildRecordSchema(p.columns);
        match p.query(values)
        case Err(e) => Err(ApiError(e))
        case Ok(fetches) =>
          Ok(Rows(fields, RecordsOf(fetches, |fields|)))
      else
        match p.execute(values)
        case Ok(n) => Ok(AffectedRows(n))
        case Err(e) => Err(ApiError(e))
  }

  /** `describe_query`: the schema of the prepared statement, with no rows. */
  function DescribeQuery(engine: Engine, query: string): (r: Result<DBResponse, PgWireError>)
    requires WellTyped(engine, query)
    ensures r.Ok? <==> engine.prepare(query).Ok?
    ensures r.Err? ==> r == Err(ApiError(engine.prepare(query).error))
    ensures r.Ok? ==>
      r.value == DBResponse(Some(BuildRecordSchema(engine.prepare(query).value.columns)), None, None)
  {
    match engine.prepare(query)
    case Err(e) => Err(ApiError(e))
    case Ok(p) => Ok(DBResponse(Some(BuildRecordSchema(p.columns)), None, None))
  }

  /** Without parameters, a SELECT through `query_with_params` answers as `query` does. */
  lemma QueryWithParamsWithoutParams(engine: Engine, query: string)
    requires IsSelect(query) && Answerable(engine, query, [])
    ensures ParamValues([]) == [] && QueryWithParams(engine, query, []) == Query(engine, query)
  {
  }

  /** Describing a SELECT announces the schema that running it returns. */
  lemma DescribeAgreesWithQuery(engine: Engine, query: string)
    requires IsSelect(query) && Answerable(engine, query, [])
    ensures Query(engine, query).Ok? ==>
      DescribeQuery(engine, query).Ok?
      && DescribeQuery(engine, query).value.resultSchema == Query(engine, query).value.resultSchema
  {
  }

  /** Every record a successful answer carries has exactly one value per schema field. */
  ghost predicate RecordsMatchSchema(resp: DBResponse)
  {
    resp.resultSchema.Some? && resp.result.Some? ==>
      forall k :: 0 <= k < |resp.result.value| ==>
        |resp.result.value[k].values| == |resp.resultSchema.value|
  }

  lemma {:induction false} QueryRecordsMatchSchema(engine: Engine, query: string)
    requires Answerable(engine, query, [])
    ensures Query(engine, query).Ok? ==> RecordsMatchSchema(Query(engine, query).value)
  {
    if IsSelect(query) && engine.prepare(query).Ok? {
      var p := engine.prepare(query).value;
      assert |BuildRecordSchema(p.columns)| == |p.columns|;
    }
  }

  lemma {:induction false} QueryWithParamsRecordsMatchSchema(engine: Engine, query: string, params: seq<DBParam>)
    requires Answerable(engine, query, ParamValues(params))
    ensures QueryWithParams(engine, query, params).Ok? ==> RecordsMatchSchema(QueryWithParams(engine, query, params).value)
  {
    if IsSelect(query) && engine.prepare(query).Ok? {
      var p := engine.prepare(query).value;
      assert |BuildRecordSchema(p.columns)| == |p.columns|;
    }
  }

  /** A non-SELECT that succeeds answers `[("OK", Integer, 0)]` with one record `[count]`. */
  lemma NonSelectAnswer(engine: Engine, query: string, n: nat)
    requires !IsSelect(query) && engine.execute(query) == Ok(n)
    ensures Query(engine, query) == Ok(DBResponse(Some([Field(0, "OK", IntegerType)]), Some([Record([Integer(n)])]), None))
  {
  }

  /** Letter case does not matter to the classification. */
  lemma IsSelectCaseInsensitive(query: string)
    ensures IsSelect(ToUpper(query)) == IsSelect(query)
  {
    ToUpperIdempotent(query);
  }

  lemma LowerCaseSelectIsSelect()
    ensures IsSelect("select * from links")
  {
    assert ToUpper("select * from links")[..6] == "SELECT";
  }
}
