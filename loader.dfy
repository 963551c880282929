/**
 * The bulk loader's resilient connection wrapper: a fixed pool of
 * connections over one base database, each running its queries and
 * statement batches under a retry budget, with reset of the underlying
 * handle when the connection is lost.
 */
module Loader {
  import opened Wrappers
  import opened Errors
  import opened Conn
  import opened Retry

  /** The error returned when an operation is asked of a missing connection or handle. */
  const InvalidConnection: DbError := Unexpected("database connection not valid")

  /** MySQL error numbers for "database exists", "table exists" and "duplicate entry". */
  const ErrDBCreateExists: uint16 := 1007
  const ErrTableExists: uint16 := 1050
  const ErrDupEntry: uint16 := 1062

  /** Queries: ten attempts, one second apart. */
  const QueryParams: Params := Params(10, 1000, Stable)
  /** Statement batches: ten attempts, waits of two seconds times the retry number. */
  const ExecuteParams: Params := Params(10, 2000, LinearIncrease)

  /** The marker a single-statement batch must contain for the injected failure to fire. */
  const CreateTableMarker: string := "CREATE TABLE"

  /** The labels every metric of a connection carries. */
  datatype Labels = Labels(name: string, sourceID: string)

  /** What one query attempt returns on success: a result set and its deferred row error. */
  datatype Rows = Rows(id: nat, err: Option<DbError>)

  /** The two metrics the connection layer emits: query-latency observations and execution errors. */
  class Metrics {
    var queryObservations: map<Labels, nat>
    var executionErrors: map<Labels, nat>

    constructor ()
      ensures queryObservations == map[] && executionErrors == map[]
    {
      queryObservations := map[];
      executionErrors := map[];
    }

    function QueryObservations(l: Labels): nat
      reads this
    {
      if l in queryObservations then queryObservations[l] else 0
    }

    function ExecutionErrors(l: Labels): nat
      reads this
    {
      if l in executionErrors then executionErrors[l] else 0
    }

    method ObserveQuery(l: Labels)
      modifies this
      ensures QueryObservations(l) == old(QueryObservations(l)) + 1
      ensures forall l' :: l' != l ==> QueryObservations(l') == old(QueryObservations(l'))
      ensures executionErrors == old(executionErrors)
    {
      queryObservations := queryObservations[l := QueryObservations(l) + 1];
    }

    method IncExecutionErrors(l: Labels)
      modifies this
      ensures ExecutionErrors(l) == old(ExecutionErrors(l)) + 1
      ensures forall l' :: l' != l ==> ExecutionErrors(l') == old(ExecutionErrors(l'))
      ensures queryObservations == old(queryObservations)
    {
      executionErrors := executionErrors[l := ExecutionErrors(l) + 1];
    }
  }

  /* ---------------- Error predicates ---------------- */

  predicate IsErrDBExists(err: DbError)
    ensures IsErrDBExists(err) <==> err.MySQLError? && err.number == 1007
  {
    IsMySQLError(err, ErrDBCreateExists)
  }

  predicate IsErrTableExists(err: DbError)
    ensures IsErrTableExists(err) <==> err.MySQLError? && err.number == 1050
  {
    IsMySQLError(err, ErrTableExists)
  }

  predicate IsErrDupEntry(err: DbError)
    ensures IsErrDupEntry(err) <==> err.MySQLError? && err.number == 1062
  {
    IsMySQLError(err, ErrDupEntry)
  }

  /* ---------------- Fault injection ---------------- */

  /** Whether `sub` occurs in `s` (Go's `strings.Contains`). */
  predicate HasSubstring(s: string, sub: string)
    decreases |s|
  {
    |sub| <= |s| && (s[..|sub|] == sub || HasSubstring(s[1..], sub))
  }

  /** `sub` occurs in `s` starting at index `k`. */
  predicate OccursAt(s: string, sub: string, k: nat)
  {
    k + |sub| <= |s| && s[k..k + |sub|] == sub
  }

  /** Whether a batch is one the injected failure applies to: exactly one statement, containing the marker. */
  predicate FailpointMatches(queries: seq<string>)
  {
    |queries| == 1 && HasSubstring(queries[0], CreateTableMarker)
  }

  /**
   * The outcome of one batch attempt after fault injection: when the
   * failpoint is armed with an error number and the batch matches, the
   * driver's outcome is replaced by a MySQL error with that number and an
   * empty message, whatever the driver returned.
   */
  function InjectFailpoint(queries: seq<string>, armed: Option<uint16>, err: Option<DbError>): (r: Option<DbError>)
    ensures armed.Some? && FailpointMatches(queries) ==> r == Some(MySQLError(armed.value, ""))
    ensures !(armed.Some? && FailpointMatches(queries)) ==> r == err
  {
    if armed.Some? && FailpointMatches(queries) then Some(MySQLError(armed.value, "")) else err
  }

  /* ---------------- Retry decision ---------------- */

  /** What the decision closure does with a failure, before any reset is attempted. */
  datatype Action = ResetThenRetry | RetryOnly | Stop

  /** The pure classification half of the decision: connection errors first, then retryable errors. */
  function Classify(cls: Classifier, err: DbError): (a: Action)
    ensures a == ResetThenRetry <==> cls.isConnectionError(err)
    ensures a == RetryOnly <==> !cls.isConnectionError(err) && cls.isRetryableError(err)
    ensures a == Stop <==> !cls.isConnectionError(err) && !cls.isRetryableError(err)
  {
    if cls.isConnectionError(err) then ResetThenRetry
    else if cls.isRetryableError(err) then RetryOnly
    else Stop
  }

  /**
   * The answer the decision closure gives for `err` when a reset, if one
   * is made, yields `reset`.
   */
  function ShouldRetry(cls: Classifier, err: DbError, reset: Result<BaseConn, DbError>): (retry: bool)
    ensures cls.isConnectionError(err) && reset.Failure? ==> !retry
    ensures cls.isConnectionError(err) && reset.Success? ==> retry
    ensures !cls.isConnectionError(err) && cls.isRetryableError(err) ==> retry
    ensures !cls.isConnectionError(err) && !cls.isRetryableError(err) ==> !retry
  {
    match Classify(cls, err)
    case ResetThenRetry => reset.Success?
    case RetryOnly => true
    case Stop => false
  }

  /* ---------------- The state an operation runs over ---------------- */

  /**
   * What an operation on one connection can change: the connection's
   * handle, and on the base database the number of handles requested and
   * the handles force-closed.
   */
  datatype Env = Env(handle: BaseConn, served: nat, forceClosed: seq<Option<BaseConn>>)

  /** The effect of one reset: the old handle is force-closed, a new one requested, and swapped in if obtained. */
  function ResetEnv(nextConn: nat -> Result<BaseConn, DbError>, env: Env): (env': Env)
    ensures env'.served == env.served + 1
    ensures env'.forceClosed == env.forceClosed + [Some(env.handle)]
    ensures nextConn(env.served).Success? ==> env'.handle == nextConn(env.served).value
    ensures nextConn(env.served).Failure? ==> env'.handle == env.handle
  {
    var r := nextConn(env.served);
    Env(if r.Success? then r.value else env.handle, env.served + 1, env.forceClosed + [Some(env.handle)])
  }

  /**
   * The record of one operation: the last attempt's outcome, the handle
   * each attempt ran on, the waits between attempts, and the final state.
   */
  datatype Trace<T> = Trace(result: Result<T, DbError>, handles: seq<BaseConn>, delays: seq<nat>, env: Env)

  /** How many times the decision closure ran: once per failed attempt. */
  function Decisions<T>(t: Trace<T>): nat
  {
    if t.result.Success? && |t.handles| > 0 then |t.handles| - 1 else |t.handles|
  }

  /**
   * An operation from attempt `i` on, under budget `p`: run the attempt on
   * the current handle; on failure let the decision closure classify it
   * (resetting the handle on a connection error); attempt again after the
   * backoff wait when it says retry and attempts remain, else stop with the
   * last outcome. `hs` and `ds` are the handles and waits so far.
   */
  function Run<T>(p: Params, cls: Classifier, attempt: (BaseConn, nat) -> Result<T, DbError>,
                  nextConn: nat -> Result<BaseConn, DbError>, env: Env, i: nat,
                  hs: seq<BaseConn>, ds: seq<nat>): (t: Trace<T>)
    requires i < p.retryCount
    ensures |hs| < |t.handles| <= |hs| + p.retryCount - i
    ensures |t.delays| == |ds| + |t.handles| - |hs| - 1
    decreases p.retryCount - i
  {
    var res := attempt(env.handle, i);
    var hs' := hs + [env.handle];
    if res.Success? then Trace(res, hs', ds, env)
    else
      var env' := if Classify(cls, res.error) == ResetThenRetry then ResetEnv(nextConn, env) else env;
      if ShouldRetry(cls, res.error, nextConn(env.served)) && i + 1 < p.retryCount then
        Run(p, cls, attempt, nextConn, env', i + 1, hs', ds + [Backoff(p, i)])
      else
        Trace(res, hs', ds, env')
  }

  /** One query attempt: the driver's outcome, with a deferred row error counted as failure. */
  function QueryAttempt(driver: (BaseConn, nat) -> Result<Rows, DbError>): (attempt: (BaseConn, nat) -> Result<Rows, DbError>)
    ensures forall h: BaseConn, i: nat :: attempt(h, i).Success? <==> driver(h, i).Success? && driver(h, i).value.err.None?
    ensures forall h: BaseConn, i: nat :: attempt(h, i).Success? ==> attempt(h, i) == driver(h, i)
    ensures forall h: BaseConn, i: nat :: driver(h, i).Failure? ==> attempt(h, i) == driver(h, i)
    ensures forall h: BaseConn, i: nat :: driver(h, i).Success? && driver(h, i).value.err.Some? ==>
      attempt(h, i) == Failure(driver(h, i).value.err.value)
  {
    (h: BaseConn, i: nat) =>
      var r := driver(h, i);
      if r.Success? && r.value.err.Some? then Failure(r.value.err.value) else r
  }

  /** One batch attempt: the driver's outcome after fault injection. */
  function ExecuteAttempt(queries: seq<string>, armed: Option<uint16>,
                          driver: (BaseConn, nat) -> Option<DbError>): (attempt: (BaseConn, nat) -> Result<(), DbError>)
    ensures armed.Some? && FailpointMatches(queries) ==>
      forall h: BaseConn, i: nat :: attempt(h, i) == Failure(MySQLError(armed.value, ""))
    ensures !(armed.Some? && FailpointMatches(queries)) ==>
      forall h: BaseConn, i: nat :: (attempt(h, i).Success? <==> driver(h, i).None?) &&
                                    (driver(h, i).Some? ==> attempt(h, i) == Failure(driver(h, i).value))
  {
    assert armed.Some? && FailpointMatches(queries) ==>
      forall e: Option<DbError> :: InjectFailpoint(queries, armed, e) == Some(MySQLError(armed.value, ""));
    (h: BaseConn, i: nat) =>
      var e := InjectFailpoint(queries, armed, driver(h, i));
      if e.Some? then Failure(e.value) else Success(())
  }

  /* ---------------- Connections ---------------- */

  /**
   * One worker connection. It is not safe for concurrent use. `baseDB` is
   * the base database its reset capability closes over.
   */
  class DBConn {
    const name: string
    const sourceID: string
    var baseConn: Option<BaseConn>
    const baseDB: BaseDB

    constructor (baseConn: Option<BaseConn>, name: string, sourceID: string, baseDB: BaseDB)
      ensures this.baseConn == baseConn && this.name == name && this.sourceID == sourceID
      ensures this.baseDB == baseDB
    {
      this.baseConn := baseConn;
      this.name := name;
      this.sourceID := sourceID;
      this.baseDB := baseDB;
    }

    /** Replaces the handle by a fresh one; on failure the handle is left as it was and the error returned. */
    method ResetConn() returns (err: Option<DbError>)
      modifies this, baseDB
      ensures var r := baseDB.nextConn(old(baseDB.served));
        (r.Success? ==> err.None? && baseConn == Some(r.value)) &&
        (r.Failure? ==> err == Some(r.error) && baseConn == old(baseConn))
      ensures baseDB.served == old(baseDB.served) + 1
      ensures baseDB.forceClosed == old(baseDB.forceClosed) + [old(baseConn)]
      ensures baseDB.closed == old(baseDB.closed)
    {
      var r := ResetBaseConnFn(baseDB, baseConn);
      if r.Failure? {
        return Some(r.error);
      }
      baseConn := Some(r.value);
      return None;
    }

    /**
     * The decision closure of both operations: on a connection error reset
     * the handle and retry exactly when the reset worked; otherwise retry
     * exactly the retryable errors. `retryTime` only labels log lines.
     */
    method IsRetryable(retryTime: int, err: DbError, cls: Classifier) returns (retry: bool)
      requires baseConn.Some?
      modifies this, baseDB
      ensures baseConn.Some?
      ensures retry == ShouldRetry(cls, err, baseDB.nextConn(old(baseDB.served)))
      ensures EnvOf(this) ==
        if Classify(cls, err) == ResetThenRetry then ResetEnv(baseDB.nextConn, old(EnvOf(this))) else old(EnvOf(this))
      ensures baseDB.closed == old(baseDB.closed)
    {
      if cls.isConnectionError(err) {
        var e := ResetConn();
        if e.Some? {
          return false;
        }
        return true;
      }
      if cls.isRetryableError(err) {
        return true;
      }
      return false;
    }

    /** The batch operation's decision closure: it counts the error first, then decides as IsRetryable. */
    method ExecuteIsRetryable(retryTime: int, err: DbError, cls: Classifier, m: Metrics) returns (retry: bool)
      requires baseConn.Some?
      modifies this, baseDB, m
      ensures baseConn.Some?
      ensures retry == ShouldRetry(cls, err, baseDB.nextConn(old(baseDB.served)))
      ensures EnvOf(this) ==
        if Classify(cls, err) == ResetThenRetry then ResetEnv(baseDB.nextConn, old(EnvOf(this))) else old(EnvOf(this))
      ensures baseDB.closed == old(baseDB.closed)
      ensures m.ExecutionErrors(Labels(name, sourceID)) == old(m.ExecutionErrors(Labels(name, sourceID))) + 1
      ensures forall l' :: l' != Labels(name, sourceID) ==> m.ExecutionErrors(l') == old(m.ExecutionErrors(l'))
      ensures m.queryObservations == old(m.queryObservations)
    {
      m.IncExecutionErrors(Labels(name, sourceID));
      retry := IsRetryable(retryTime, err, cls);
    }
  }

  /** The state of `c` an operation runs over. */
  function EnvOf(c: DBConn): Env
    reads c, c.baseDB
    requires c.baseConn.Some?
  {
    Env(c.baseConn.value, c.baseDB.served, c.baseDB.forceClosed)
  }

  /** The scope of a connection's errors: its handle's, or not set when there is no connection or handle. */
  function Scope(conn: DBConn?): (s: ErrScope)
    reads conn
    ensures conn == null || conn.baseConn.None? ==> s == ScopeNotSet
    ensures conn != null && conn.baseConn.Some? ==> s == conn.baseConn.value.scope
  {
    if conn == null || conn.baseConn.None? then ScopeNotSet else conn.baseConn.value.scope
  }

  /**
   * The reset capability a pool gives each connection: force-close the
   * current handle, ignoring a failure to close, then request a new one.
   */
  method ResetBaseConnFn(baseDB: BaseDB, current: Option<BaseConn>) returns (r: Result<BaseConn, DbError>)
    modifies baseDB
    ensures r == baseDB.nextConn(old(baseDB.served))
    ensures baseDB.served == old(baseDB.served) + 1
    ensures baseDB.forceClosed == old(baseDB.forceClosed) + [current]
    ensures baseDB.closed == old(baseDB.closed)
  {
    var err := baseDB.ForceCloseConn(current);
    // a failure to close is only logged
    r := baseDB.GetBaseConn();
  }

  /**
   * Runs one query on `conn` under the query budget. `driver(h, i)` is what
   * the driver returns for attempt `i` on handle `h`; `calls` lists the
   * handle of every driver call made.
   */
  method QuerySQL(conn: DBConn?, driver: (BaseConn, nat) -> Result<Rows, DbError>, cls: Classifier, m: Metrics)
    returns (r: Result<Rows, DbError>, calls: seq<BaseConn>)
    modifies if conn == null then {} else {conn, conn.baseDB}, m
    ensures conn == null || old(conn.baseConn).None? ==>
      r == Failure(InvalidConnection) && calls == [] && unchanged(m)
    ensures conn != null && old(conn.baseConn.None?) ==> unchanged(conn, conn.baseDB)
    ensures conn != null && old(conn.baseConn).Some? ==>
      var t := Run(QueryParams, cls, QueryAttempt(driver), conn.baseDB.nextConn, old(EnvOf(conn)), 0, [], []);
      && r == t.result && calls == t.handles
      && conn.baseConn.Some? && EnvOf(conn) == t.env && conn.baseDB.closed == old(conn.baseDB.closed)
      && m.QueryObservations(Labels(conn.name, conn.sourceID))
         == old(m.QueryObservations(Labels(conn.name, conn.sourceID))) + (if r.Success? then 1 else 0)
      && (forall l' :: l' != Labels(conn.name, conn.sourceID) ==> m.QueryObservations(l') == old(m.QueryObservations(l')))
      && m.executionErrors == old(m.executionErrors)
  {
    if conn == null || conn.baseConn.None? {
      return Failure(InvalidConnection), [];
    }
    var attempt := QueryAttempt(driver);
    var db := conn.baseDB;
    ghost var t := Run(QueryParams, cls, attempt, db.nextConn, EnvOf(conn), 0, [], []);
    var l := Labels(conn.name, conn.sourceID);
    var i := 0;
    var ds: seq<nat> := [];
    var done := false;
    calls := [];
    r := Failure(InvalidConnection);
    while !done
      invariant conn.baseConn.Some? && i < QueryParams.retryCount
      invariant !done ==> Run(QueryParams, cls, attempt, db.nextConn, EnvOf(conn), i, calls, ds) == t
      invariant done ==> t == Trace(r, calls, ds, EnvOf(conn))
      invariant db.closed == old(db.closed)
      invariant m.QueryObservations(l) == old(m.QueryObservations(l)) + (if done && r.Success? then 1 else 0)
      invariant forall l' :: l' != l ==> m.QueryObservations(l') == old(m.QueryObservations(l'))
      invariant m.executionErrors == old(m.executionErrors)
      decreases if done then 0 else 1, QueryParams.retryCount - i
    {
      ghost var env0 := EnvOf(conn);
      var h := conn.baseConn.value;
      r := attempt(h, i);
      calls := calls + [h];
      if r.Success? {
        m.ObserveQuery(l);
        done := true;
      } else {
        var retry := conn.IsRetryable(i, r.error, cls);
        ghost var env1 := EnvOf(conn);
        assert env1 == if Classify(cls, r.error) == ResetThenRetry then ResetEnv(db.nextConn, env0) else env0;
        if retry && i + 1 < QueryParams.retryCount {
          ds := ds + [Backoff(QueryParams, i)];
          i := i + 1;
          assert Run(QueryParams, cls, attempt, db.nextConn, env1, i, calls, ds) == t;
        } else {
          done := true;
          assert t == Trace(r, calls, ds, env1);
        }
      }
    }
  }

  /**
   * Runs one statement batch on `conn` under the batch budget. An empty
   * batch succeeds at once. `driver(h, i)` is what the driver returns for
   * attempt `i` on handle `h`; `armed` is the error number the test
   * failpoint is armed with, if any; `calls` lists the handle of every
   * driver call made.
   */
  method ExecuteSQL(conn: DBConn?, queries: seq<string>, driver: (BaseConn, nat) -> Option<DbError>,
                    armed: Option<uint16>, cls: Classifier, m: Metrics)
    returns (err: Option<DbError>, calls: seq<BaseConn>)
    modifies if conn == null then {} else {conn, conn.baseDB}, m
    ensures queries == [] ==> err == None && calls == [] && unchanged(m)
    ensures queries != [] && (conn == null || old(conn.baseConn).None?) ==>
      err == Some(InvalidConnection) && calls == [] && unchanged(m)
    ensures conn != null && (queries == [] || old(conn.baseConn.None?)) ==> unchanged(conn, conn.baseDB)
    ensures queries != [] && conn != null && old(conn.baseConn).Some? ==>
      var t := Run(ExecuteParams, cls, ExecuteAttempt(queries, armed, driver), conn.baseDB.nextConn,
                   old(EnvOf(conn)), 0, [], []);
      && err == (if t.result.Failure? then Some(t.result.error) else None) && calls == t.handles
      && conn.baseConn.Some? && EnvOf(conn) == t.env && conn.baseDB.closed == old(conn.baseDB.closed)
      && m.ExecutionErrors(Labels(conn.name, conn.sourceID))
         == old(m.ExecutionErrors(Labels(conn.name, conn.sourceID))) + Decisions(t)
      && (forall l' :: l' != Labels(conn.name, conn.sourceID) ==> m.ExecutionErrors(l') == old(m.ExecutionErrors(l')))
      && m.queryObservations == old(m.queryObservations)
  {
    if |queries| == 0 {
      return None, [];
    }
    if conn == null || conn.baseConn.None? {
      return Some(InvalidConnection), [];
    }
    var attempt := ExecuteAttempt(queries, armed, driver);
    var db := conn.baseDB;
    ghost var t := Run(ExecuteParams, cls, attempt, db.nextConn, EnvOf(conn), 0, [], []);
    var l := Labels(conn.name, conn.sourceID);
    var i := 0;
    var ds: seq<nat> := [];
    var done := false;
    var r: Result<(), DbError> := Success(());
    calls := [];
    while !done
      invariant conn.baseConn.Some? && i < ExecuteParams.retryCount
      invariant !done ==> Run(ExecuteParams, cls, attempt, db.nextConn, EnvOf(conn), i, calls, ds) == t
      invariant done ==> t == Trace(r, calls, ds, EnvOf(conn))
      invariant db.closed == old(db.closed)
      invariant m.ExecutionErrors(l) == old(m.ExecutionErrors(l)) + (if done then Decisions(t) else |calls|)
      invariant forall l' :: l' != l ==> m.ExecutionErrors(l') == old(m.ExecutionErrors(l'))
      invariant m.queryObservations == old(m.queryObservations)
      decreases if done then 0 else 1, ExecuteParams.retryCount - i
    {
      ghost var env0 := EnvOf(conn);
      var h := conn.baseConn.value;
      r := attempt(h, i);
      calls := calls + [h];
      if r.Success? {
        done := true;
      } else {
        var retry := conn.ExecuteIsRetryable(i, r.error, cls, m);
        ghost var env1 := EnvOf(conn);
        assert env1 == if Classify(cls, r.error) == ResetThenRetry then ResetEnv(db.nextConn, env0) else env0;
        if retry && i + 1 < ExecuteParams.retryCount {
          ds := ds + [Backoff(ExecuteParams, i)];
          i := i + 1;
          assert Run(ExecuteParams, cls, attempt, db.nextConn, env1, i, calls, ds) == t;
        } else {
          done := true;
          assert t == Trace(r, calls, ds, env1);
        }
      }
    }
    err := if r.Failure? then Some(r.error) else None;
  }

  /* ---------------- Pool construction ---------------- */

  /** Whether the `n` successive handle requests numbered from `start` all succeed. */
  ghost predicate AllServed(nextConn: nat -> Result<BaseConn, DbError>, start: nat, n: nat)
  {
    forall j :: start <= j < start + n ==> nextConn(j).Success?
  }

  /**
   * Builds the pool over the base database `downstream` (or the error that
   * prevented opening it): one connection per worker, each with its own
   * freshly requested handle and the shared labels. All or nothing: on the
   * first failed request the base database is closed and no connection is
   * returned.
   */
  method CreateConns(downstream: Result<BaseDB, DbError>, name: string, sourceID: string, workerCount: int)
    returns (baseDB: BaseDB?, conns: seq<DBConn>, err: Option<DbError>)
    requires downstream.Success? ==> workerCount >= 0
    modifies if downstream.Success? then {downstream.value} else {}
    ensures downstream.Failure? ==>
      baseDB == null && conns == [] && err == Some(WithScope(downstream.error, ScopeDownstream))
    ensures downstream.Success? ==>
      var db := downstream.value;
      var n := workerCount;
      && db.forceClosed == old(db.forceClosed)
      && (err.None? <==> AllServed(db.nextConn, old(db.served), n))
      && (err.None? ==>
            && baseDB == db && |conns| == n
            && db.served == old(db.served) + n && db.closed == old(db.closed)
            && (forall j :: 0 <= j < n ==>
                  && fresh(conns[j]) && conns[j].baseDB == db
                  && conns[j].name == name && conns[j].sourceID == sourceID
                  && conns[j].baseConn == Some(db.nextConn(old(db.served) + j).value))
            && (forall j, j' :: 0 <= j < j' < n ==> conns[j] != conns[j']))
      && (err.Some? ==>
            && baseDB == null && conns == [] && db.closed
            && old(db.served) < db.served <= old(db.served) + n
            && AllServed(db.nextConn, old(db.served), db.served - 1 - old(db.served))
            && db.nextConn(db.served - 1).Failure?
            && err == Some(WithScope(db.nextConn(db.served - 1).error, ScopeDownstream)))
  {
    if downstream.Failure? {
      return null, [], Some(WithScope(downstream.error, ScopeDownstream));
    }
    var db := downstream.value;
    ghost var start := db.served;
    ghost var n := workerCount;
    conns := [];
    var i := 0;
    while i < workerCount
      invariant 0 <= i <= n && |conns| == i
      invariant db.served == start + i && db.closed == old(db.closed) && db.forceClosed == old(db.forceClosed)
      invariant AllServed(db.nextConn, start, i)
      invariant forall j :: 0 <= j < i ==>
        && fresh(conns[j]) && conns[j].baseDB == db
        && conns[j].name == name && conns[j].sourceID == sourceID
        && conns[j].baseConn == Some(db.nextConn(start + j).value)
      invariant forall j, j' :: 0 <= j < j' < i ==> conns[j] != conns[j']
    {
      var baseConn := db.GetBaseConn();
      if baseConn.Failure? {
        var terr := db.Close();
        // a failure to close is only logged
        return null, [], Some(WithScope(baseConn.error, ScopeDownstream));
      }
      var c := new DBConn(Some(baseConn.value), name, sourceID, db);
      assert forall j :: 0 <= j < i ==> conns[j] != c;
      conns := conns + [c];
      i := i + 1;
    }
    baseDB, err := db, None;
  }
}
