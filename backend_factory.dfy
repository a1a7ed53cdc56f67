/**
 * The process-wide handle cache of the SQLite backend and the worker that serves one
 * database (src/backend/simple_backend.rs). Calls of CreateBackend are serialised by
 * the mutex around the factory, so the cache is a plain map updated in place. A
 * worker is modelled sequentially: it answers the messages of its queue in arrival
 * order until the queue reports an idle timeout or a disconnect, then leaves the cache.
 */
module BackendFactory {
  import opened Wrappers
  import opened Strings
  import opened PgWire
  import opened Backend
  import opened SimpleBackend
  import Paths

  const DEFAULT_DB_PATH: string := "blackhole"

  /**
   * The cache key of a connection: `db_root.join(metadata["dbpath"] or "blackhole")`.
   * It lies below the root unless the client's `dbpath` is absolute.
   */
  function DbPathKey(dbRoot: string, metadata: map<string, string>): (key: string)
    ensures IsPrefix(dbRoot, key) || ("dbpath" in metadata && Paths.IsAbsolute(metadata["dbpath"]) && key == metadata["dbpath"])
  {
    Paths.Join(dbRoot, if "dbpath" in metadata then metadata["dbpath"] else DEFAULT_DB_PATH)
  }

  /** Without a `dbpath`, every client lands on the same fallback database below the root. */
  lemma DbPathKeyFallback(dbRoot: string, metadata: map<string, string>)
    requires "dbpath" !in metadata
    ensures DbPathKey(dbRoot, metadata) == Paths.Join(dbRoot, "blackhole")
  {
  }

  /** An absolute `dbpath` is used as it stands: the root does not confine it. */
  lemma DbPathKeyAbsolute(dbRoot: string, metadata: map<string, string>)
    requires "dbpath" in metadata && Paths.IsAbsolute(metadata["dbpath"])
    ensures DbPathKey(dbRoot, metadata) == metadata["dbpath"]
  {
  }

  class SimpleBackendFactory {
    const dbRoot: string
    /** `db_cache`: resolved path to the queue of the worker serving it. */
    var cache: map<string, BackendConnection>
    /** Channels are numbered as they are created; this is the next number. */
    var nextSender: nat

    /** Every cached connection was created before, so a new channel differs from all of them. */
    ghost predicate Valid()
      reads this
    {
      forall k | k in cache :: cache[k].sender < nextSender
    }

    constructor (dbRoot: string)
      ensures Valid() && this.dbRoot == dbRoot && cache == map[]
    {
      this.dbRoot := dbRoot;
      cache := map[];
      nextSender := 0;
    }

    /**
     * `create_backend`: the cached connection for the resolved path, or a new channel
     * (with a new worker, `spawned`) that is inserted under that path. It never fails.
     */
    method CreateBackend(metadata: map<string, string>) returns (conn: BackendConnection, spawned: bool)
      requires Valid()
      modifies this
      ensures Valid()
      ensures old(nextSender) <= nextSender && conn.sender < nextSender
      ensures var key := DbPathKey(dbRoot, metadata);
        if key in old(cache) then
          conn == old(cache)[key] && !spawned && cache == old(cache) && nextSender == old(nextSender)
        else
          spawned && cache == old(cache)[key := conn] && conn.sender == old(nextSender)
          && forall k | k in old(cache) :: old(cache)[k] != conn
    {
      var key := DbPathKey(dbRoot, metadata);
      if key in cache {
        conn, spawned := cache[key], false;
      } else {
        conn := SpawnBackendConnection(key);
        spawned := true;
      }
    }

    /** `spawn_backend_connection`: a new channel, inserted under its path. */
    method SpawnBackendConnection(key: string) returns (conn: BackendConnection)
      requires Valid()
      modifies this
      ensures Valid()
      ensures cache == old(cache)[key := conn]
      ensures conn.sender == old(nextSender) && nextSender == old(nextSender) + 1
      ensures forall k | k in old(cache) :: old(cache)[k] != conn
    {
      conn := BackendConnection(nextSender);
      nextSender := nextSender + 1;
      cache := cache[key := conn];
    }

    /** The worker for `key` has exited: its entry, and only that one, leaves the cache. */
    method Expire(key: string)
      requires Valid()
      modifies this
      ensures Valid()
      ensures cache == old(cache) - {key} && nextSender == old(nextSender)
    {
      cache := cache - {key};
    }
  }

  /** Two clients whose metadata resolve to the same path share one connection and one worker. */
  method SharedUntilExpired(f: SimpleBackendFactory, m1: map<string, string>, m2: map<string, string>)
    returns (c1: BackendConnection, c2: BackendConnection, c3: BackendConnection)
    requires f.Valid()
    requires DbPathKey(f.dbRoot, m1) == DbPathKey(f.dbRoot, m2)
    modifies f
    ensures c1 == c2
    ensures c3 != c1
    ensures DbPathKey(f.dbRoot, m1) in f.cache && f.cache[DbPathKey(f.dbRoot, m1)] == c3
  {
    var spawned: bool;
    c1, spawned := f.CreateBackend(m1);
    c2, spawned := f.CreateBackend(m2);
    assert !spawned;
    f.Expire(DbPathKey(f.dbRoot, m1));
    c3, spawned := f.CreateBackend(m1);
    assert spawned;
  }

  // ---------------------------------------------------------------------------
  // The worker

  /** What `recv_timeout` yields: a message, the idle timeout, or a disconnected queue. */
  datatype Inbound = Deliver(message: DBMessage) | IdleTimeout | QueueDisconnected

  datatype Reply = Reply(to: ReplyChannel, response: DBResponse)

  /** The worker does not panic on this message. */
  predicate MessageAnswerable(engine: Engine, m: DBMessage)
  {
    match m.messageType
    case SimpleQuery => Answerable(engine, m.query, [])
    case QueryWithParams => Answerable(engine, m.query, ParamValues(m.params.GetOr([])))
    case Describe => WellTyped(engine, m.query)
  }

  /**
   * The dispatch by message type; absent parameters are an empty list. Failures are
   * API errors; a success carries no error, and rows exactly for the two query types.
   */
  function Dispatch(engine: Engine, m: DBMessage): (r: Result<DBResponse, PgWireError>)
    requires MessageAnswerable(engine, m)
    ensures r.Err? ==> r.error.ApiError?
    ensures r.Ok? ==> r.value.error.None? && r.value.resultSchema.Some?
    ensures r.Ok? ==> (r.value.result.Some? <==> m.messageType != Describe)
    ensures m.messageType == Describe ==> (r.Ok? <==> engine.prepare(m.query).Ok?)
  {
    match m.messageType
    case SimpleQuery => Query(engine, m.query)
    case QueryWithParams => SimpleBackend.QueryWithParams(engine, m.query, m.params.GetOr([]))
    case Describe => DescribeQuery(engine, m.query)
  }

  /** The response sent back: the backend's answer, or a response holding only the error. */
  function Answer(engine: Engine, m: DBMessage): (resp: DBResponse)
    requires MessageAnswerable(engine, m)
    ensures Dispatch(engine, m).Err? ==> resp == DBResponse(None, None, Some(Dispatch(engine, m).error))
    ensures Dispatch(engine, m).Ok? ==> resp == Dispatch(engine, m).value
  {
    match Dispatch(engine, m)
    case Ok(res) => res
    case Err(e) => DBResponse(None, None, Some(e))
  }

  /**
   * An answer never holds both rows and an error. An answer to a query holds exactly
   * one of them; an answer to a Describe holds an error, or only a schema.
   */
  lemma AnswerShape(engine: Engine, m: DBMessage)
    requires MessageAnswerable(engine, m)
    ensures !(Answer(engine, m).result.Some? && Answer(engine, m).error.Some?)
    ensures m.messageType == Describe ==> Answer(engine, m).result.None?
    ensures m.messageType == Describe && Answer(engine, m).error.None? ==> Answer(engine, m).resultSchema.Some?
    ensures m.messageType != Describe ==> (Answer(engine, m).result.Some? <==> Answer(engine, m).error.None?)
    ensures Answer(engine, m).error.Some? ==> Answer(engine, m).error.value.ApiError?
  {
  }

  /** Index of the first event that ends the worker loop. */
  function QueueStop(inbox: seq<Inbound>): (k: nat)
    ensures k <= |inbox|
    ensures forall i :: 0 <= i < k ==> inbox[i].Deliver?
    ensures k < |inbox| ==> !inbox[k].Deliver?
  {
    if inbox == [] || !inbox[0].Deliver? then 0 else 1 + QueueStop(inbox[1..])
  }

  /**
   * The worker loop: one reply per delivered message, in arrival order, each to the
   * message's own reply channel, until the idle timeout or a disconnect (the end of
   * the modelled queue counts as a disconnect).
   */
  method ServeQueue(engine: Engine, inbox: seq<Inbound>) returns (replies: seq<Reply>)
    requires forall i :: 0 <= i < QueueStop(inbox) ==> MessageAnswerable(engine, inbox[i].message)
    ensures |replies| == QueueStop(inbox)
    ensures forall k :: 0 <= k < |replies| ==>
      replies[k] == Reply(inbox[k].message.respond, Answer(engine, inbox[k].message))
  {
    replies := [];
    var i := 0;
    while i < |inbox|
      invariant i <= QueueStop(inbox)
      invariant |replies| == i
      invariant forall k :: 0 <= k < i ==> replies[k] == Reply(inbox[k].message.respond, Answer(engine, inbox[k].message))
    {
      match inbox[i]
      case IdleTimeout => break;
      case QueueDisconnected => break;
      case Deliver(m) =>
        var resp := match Dispatch(engine, m) {
          case Ok(res) => res
          case Err(e) => DBResponse(None, None, Some(e))
        };
        replies := replies + [Reply(m.respond, resp)];
      i := i + 1;
    }
  }

  /** A worker's whole life: serve its queue, then remove its own path from the cache. */
  method RunWorker(f: SimpleBackendFactory, key: string, engine: Engine, inbox: seq<Inbound>)
    returns (replies: seq<Reply>)
    requires f.Valid()
    requires forall i :: 0 <= i < QueueStop(inbox) ==> MessageAnswerable(engine, inbox[i].message)
    modifies f
    ensures f.Valid()
    ensures f.cache == old(f.cache) - {key}
    ensures |replies| == QueueStop(inbox)
    ensures forall k :: 0 <= k < |replies| ==>
      replies[k] == Reply(inbox[k].message.respond, Answer(engine, inbox[k].message))
  {
    replies := ServeQueue(engine, inbox);
    f.Expire(key);
  }
}
