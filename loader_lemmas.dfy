/** Properties of the loader's retry run, fault injection and pool-construction helpers. */
module LoaderLemmas {
  import opened Wrappers
  import opened Errors
  import opened Conn
  import opened Retry
  import opened Loader

  /* ---------------- The shape of a run ---------------- */

  /** A run extends the handles and waits it started with, and its first attempt uses the current handle. */
  lemma {:induction false} RunExtendsPrefix<T>(p: Params, cls: Classifier, attempt: (BaseConn, nat) -> Result<T, DbError>,
                                               nextConn: nat -> Result<BaseConn, DbError>, env: Env, i: nat,
                                               hs: seq<BaseConn>, ds: seq<nat>)
    requires i < p.retryCount
    ensures var t := Run(p, cls, attempt, nextConn, env, i, hs, ds);
      t.handles[..|hs|] == hs && t.handles[|hs|] == env.handle && t.delays[..|ds|] == ds
    decreases p.retryCount - i
  {
    var res := attempt(env.handle, i);
    if res.Failure? {
      var env' := if Classify(cls, res.error) == ResetThenRetry then ResetEnv(nextConn, env) else env;
      if ShouldRetry(cls, res.error, nextConn(env.served)) && i + 1 < p.retryCount {
        var hs', ds' := hs + [env.handle], ds + [Backoff(p, i)];
        RunExtendsPrefix(p, cls, attempt, nextConn, env', i + 1, hs', ds');
        var t := Run(p, cls, attempt, nextConn, env', i + 1, hs', ds');
        assert t.handles[..|hs|] == t.handles[..|hs'|][..|hs|];
        assert t.delays[..|ds|] == t.delays[..|ds'|][..|ds|];
      }
    }
  }

  /** What a run returns is the outcome of its last attempt, on the last handle it used. */
  lemma {:induction false} RunEndsWithLastAttempt<T>(p: Params, cls: Classifier, attempt: (BaseConn, nat) -> Result<T, DbError>,
                                                     nextConn: nat -> Result<BaseConn, DbError>, env: Env, i: nat,
                                                     hs: seq<BaseConn>, ds: seq<nat>)
    requires i < p.retryCount
    ensures var t := Run(p, cls, attempt, nextConn, env, i, hs, ds);
      t.result == attempt(t.handles[|t.handles| - 1], i + |t.handles| - |hs| - 1)
    decreases p.retryCount - i
  {
    var res := attempt(env.handle, i);
    if res.Failure? {
      var env' := if Classify(cls, res.error) == ResetThenRetry then ResetEnv(nextConn, env) else env;
      if ShouldRetry(cls, res.error, nextConn(env.served)) && i + 1 < p.retryCount {
        RunEndsWithLastAttempt(p, cls, attempt, nextConn, env', i + 1, hs + [env.handle], ds + [Backoff(p, i)]);
      }
    }
  }

  /**
   * A run makes at most one reset per attempt, and each reset is one handle
   * request plus one force-close appended to those made before.
   */
  lemma {:induction false} RunResetAccounting<T>(p: Params, cls: Classifier, attempt: (BaseConn, nat) -> Result<T, DbError>,
                                                 nextConn: nat -> Result<BaseConn, DbError>, env: Env, i: nat,
                                                 hs: seq<BaseConn>, ds: seq<nat>)
    requires i < p.retryCount
    ensures var t := Run(p, cls, attempt, nextConn, env, i, hs, ds);
      && env.served <= t.env.served <= env.served + |t.handles| - |hs|
      && |t.env.forceClosed| == |env.forceClosed| + t.env.served - env.served
      && t.env.forceClosed[..|env.forceClosed|] == env.forceClosed
    decreases p.retryCount - i
  {
    var res := attempt(env.handle, i);
    if res.Failure? {
      var env' := if Classify(cls, res.error) == ResetThenRetry then ResetEnv(nextConn, env) else env;
      if ShouldRetry(cls, res.error, nextConn(env.served)) && i + 1 < p.retryCount {
        RunResetAccounting(p, cls, attempt, nextConn, env', i + 1, hs + [env.handle], ds + [Backoff(p, i)]);
        var t := Run(p, cls, attempt, nextConn, env', i + 1, hs + [env.handle], ds + [Backoff(p, i)]);
        assert t.env.forceClosed[..|env.forceClosed|]
            == t.env.forceClosed[..|env'.forceClosed|][..|env.forceClosed|];
      }
    }
  }

  /**
   * Every attempt of a run is issued over either the handle the connection
   * started with or a handle the base database handed out during the run.
   */
  lemma {:induction false} RunHandleProvenance<T>(p: Params, cls: Classifier, attempt: (BaseConn, nat) -> Result<T, DbError>,
                                                  nextConn: nat -> Result<BaseConn, DbError>, env: Env, i: nat,
                                                  hs: seq<BaseConn>, ds: seq<nat>)
    requires i < p.retryCount
    ensures var t := Run(p, cls, attempt, nextConn, env, i, hs, ds);
      forall j :: |hs| <= j < |t.handles| ==>
        t.handles[j] == env.handle ||
        exists s :: env.served <= s < t.env.served && nextConn(s) == Success(t.handles[j])
    decreases p.retryCount - i
  {
    var t := Run(p, cls, attempt, nextConn, env, i, hs, ds);
    RunExtendsPrefix(p, cls, attempt, nextConn, env, i, hs, ds);
    var res := attempt(env.handle, i);
    if res.Failure? {
      var env' := if Classify(cls, res.error) == ResetThenRetry then ResetEnv(nextConn, env) else env;
      if ShouldRetry(cls, res.error, nextConn(env.served)) && i + 1 < p.retryCount {
        var hs', ds' := hs + [env.handle], ds + [Backoff(p, i)];
        RunHandleProvenance(p, cls, attempt, nextConn, env', i + 1, hs', ds');
        RunResetAccounting(p, cls, attempt, nextConn, env', i + 1, hs', ds');
        forall j | |hs| <= j < |t.handles|
          ensures t.handles[j] == env.handle ||
                  exists s :: env.served <= s < t.env.served && nextConn(s) == Success(t.handles[j])
        {
          if j > |hs| && t.handles[j] != env.handle {
            if t.handles[j] == env'.handle {
              assert nextConn(env.served) == Success(t.handles[j]);
            }
          }
        }
      }
    }
  }

  /* ---------------- Backoff ---------------- */

  /** The n-th wait of a run is the backoff for retry number n. */
  lemma {:induction false} RunDelaysFollowBackoff<T>(p: Params, cls: Classifier, attempt: (BaseConn, nat) -> Result<T, DbError>,
                                                     nextConn: nat -> Result<BaseConn, DbError>, env: Env, i: nat,
                                                     hs: seq<BaseConn>, ds: seq<nat>)
    requires i < p.retryCount && |ds| == i
    requires forall j :: 0 <= j < i ==> ds[j] == Backoff(p, j)
    ensures var t := Run(p, cls, attempt, nextConn, env, i, hs, ds);
      forall j :: 0 <= j < |t.delays| ==> t.delays[j] == Backoff(p, j)
    decreases p.retryCount - i
  {
    var res := attempt(env.handle, i);
    if res.Failure? {
      var env' := if Classify(cls, res.error) == ResetThenRetry then ResetEnv(nextConn, env) else env;
      if ShouldRetry(cls, res.error, nextConn(env.served)) && i + 1 < p.retryCount {
        RunDelaysFollowBackoff(p, cls, attempt, nextConn, env', i + 1, hs + [env.handle], ds + [Backoff(p, i)]);
      }
    }
  }

  /** A query waits one second between any two attempts. */
  lemma QueryWaitsAreConstant<T>(cls: Classifier, attempt: (BaseConn, nat) -> Result<T, DbError>,
                                 nextConn: nat -> Result<BaseConn, DbError>, env: Env)
    ensures var t := Run(QueryParams, cls, attempt, nextConn, env, 0, [], []);
      |t.delays| < 10 && forall j :: 0 <= j < |t.delays| ==> t.delays[j] == 1000
  {
    RunDelaysFollowBackoff(QueryParams, cls, attempt, nextConn, env, 0, [], []);
  }

  /** A batch waits two seconds times the retry number, so each wait is at least the one before. */
  lemma ExecuteWaitsGrowLinearly<T>(cls: Classifier, attempt: (BaseConn, nat) -> Result<T, DbError>,
                                    nextConn: nat -> Result<BaseConn, DbError>, env: Env)
    ensures var t := Run(ExecuteParams, cls, attempt, nextConn, env, 0, [], []);
      && |t.delays| < 10
      && (forall j :: 0 <= j < |t.delays| ==> t.delays[j] == 2000 * (j + 1))
      && (forall j, k :: 0 <= j <= k < |t.delays| ==> t.delays[j] <= t.delays[k])
  {
    var t := Run(ExecuteParams, cls, attempt, nextConn, env, 0, [], []);
    RunDelaysFollowBackoff(ExecuteParams, cls, attempt, nextConn, env, 0, [], []);
    forall j, k | 0 <= j <= k < |t.delays|
      ensures t.delays[j] == 2000 * (j + 1) && t.delays[j] <= t.delays[k]
    {
      LinearBackoffIsMonotone(ExecuteParams, j, k);
    }
  }

  /* ---------------- How a run ends ---------------- */

  /**
   * When every remaining attempt fails with a retryable error, the run uses
   * up the whole budget, never resets, and returns the last error.
   */
  lemma {:induction false} RunExhaustsBudget<T>(p: Params, cls: Classifier, attempt: (BaseConn, nat) -> Result<T, DbError>,
                                                nextConn: nat -> Result<BaseConn, DbError>, env: Env, i: nat,
                                                hs: seq<BaseConn>, ds: seq<nat>)
    requires i < p.retryCount
    requires forall j :: i <= j < p.retryCount ==>
      attempt(env.handle, j).Failure? && Classify(cls, attempt(env.handle, j).error) == RetryOnly
    ensures var t := Run(p, cls, attempt, nextConn, env, i, hs, ds);
      && |t.handles| == |hs| + p.retryCount - i
      && t.result == attempt(env.handle, p.retryCount - 1)
      && t.env == env
    decreases p.retryCount - i
  {
    if i + 1 < p.retryCount {
      RunExhaustsBudget(p, cls, attempt, nextConn, env, i + 1, hs + [env.handle], ds + [Backoff(p, i)]);
    }
  }

  /**
   * The handle a run is on after `m` successful resets from `env`: the
   * starting handle, or the last of the `m` handles handed out since.
   */
  function HandleAt(nextConn: nat -> Result<BaseConn, DbError>, env: Env, m: nat): BaseConn
    requires m == 0 || nextConn(env.served + m - 1).Success?
  {
    if m == 0 then env.handle else nextConn(env.served + m - 1).value
  }

  /**
   * After k lost connections, each followed by a successful reset, and then
   * a successful attempt on the handle obtained last, all within the budget:
   * the run succeeds after exactly k + 1 attempts and k resets, and the m-th
   * attempt uses the handle obtained by the m-th reset. Only the handles the
   * run actually uses are constrained, so a dead handle replaced by a
   * working one is covered.
   */
  lemma {:induction false} RunRecoversAfterConnectionLosses<T>(
    p: Params, cls: Classifier, attempt: (BaseConn, nat) -> Result<T, DbError>,
    nextConn: nat -> Result<BaseConn, DbError>, env: Env, i: nat,
    hs: seq<BaseConn>, ds: seq<nat>, k: nat)
    requires i + k < p.retryCount
    requires forall s :: env.served <= s < env.served + k ==> nextConn(s).Success?
    requires forall m :: 0 <= m < k ==>
      attempt(HandleAt(nextConn, env, m), i + m).Failure? &&
      cls.isConnectionError(attempt(HandleAt(nextConn, env, m), i + m).error)
    requires attempt(HandleAt(nextConn, env, k), i + k).Success?
    ensures var t := Run(p, cls, attempt, nextConn, env, i, hs, ds);
      && t.result.Success? && |t.handles| == |hs| + k + 1
      && (forall m :: 0 <= m <= k ==> t.handles[|hs| + m] == HandleAt(nextConn, env, m))
      && t.env.served == env.served + k && |t.env.forceClosed| == |env.forceClosed| + k
      && t.env.handle == HandleAt(nextConn, env, k)
      && t.result == attempt(t.env.handle, i + k)
    decreases k
  {
    if k > 0 {
      var env' := ResetEnv(nextConn, env);
      assert HandleAt(nextConn, env, 0) == env.handle;
      assert Classify(cls, attempt(env.handle, i).error) == ResetThenRetry;
      forall m | 0 <= m <= k - 1
        ensures HandleAt(nextConn, env', m) == HandleAt(nextConn, env, m + 1)
      {
      }
      var hs', ds' := hs + [env.handle], ds + [Backoff(p, i)];
      RunRecoversAfterConnectionLosses(p, cls, attempt, nextConn, env', i + 1, hs', ds', k - 1);
      RunExtendsPrefix(p, cls, attempt, nextConn, env', i + 1, hs', ds');
      var t := Run(p, cls, attempt, nextConn, env', i + 1, hs', ds');
      forall m | 0 <= m <= k
        ensures t.handles[|hs| + m] == HandleAt(nextConn, env, m)
      {
        if m > 0 {
          assert t.handles[|hs'| + (m - 1)] == HandleAt(nextConn, env', m - 1);
        }
      }
    }
  }

  /**
   * The case a reset exists for: the driver fails on the old handle with a
   * connection error and works on any other. When the reset hands out a
   * different handle, the run succeeds on its second attempt, on that handle.
   */
  lemma DeadHandleIsReplaced(p: Params, cls: Classifier, nextConn: nat -> Result<BaseConn, DbError>, env: Env,
                             lost: DbError)
    requires 2 <= p.retryCount
    requires cls.isConnectionError(lost)
    requires nextConn(env.served).Success? && nextConn(env.served).value != env.handle
    ensures var attempt := (h: BaseConn, j: nat) => if h == env.handle then Failure(lost) else Success(());
      var t := Run(p, cls, attempt, nextConn, env, 0, [], []);
      && t.result == Success(()) && t.handles == [env.handle, nextConn(env.served).value]
      && t.env.handle == nextConn(env.served).value
  {
    var attempt := (h: BaseConn, j: nat) => if h == env.handle then Failure(lost) else Success(());
    RunRecoversAfterConnectionLosses(p, cls, attempt, nextConn, env, 0, [], [], 1);
  }

  /**
   * A lost connection whose reset fails ends the run at once. The run
   * returns the connection error of that attempt, not the reset's error,
   * and keeps the old handle.
   */
  lemma RunStopsAfterResetFailure<T>(p: Params, cls: Classifier, attempt: (BaseConn, nat) -> Result<T, DbError>,
                                     nextConn: nat -> Result<BaseConn, DbError>, env: Env, i: nat,
                                     hs: seq<BaseConn>, ds: seq<nat>)
    requires i < p.retryCount
    requires attempt(env.handle, i).Failure? && cls.isConnectionError(attempt(env.handle, i).error)
    requires nextConn(env.served).Failure?
    ensures var t := Run(p, cls, attempt, nextConn, env, i, hs, ds);
      && t.result == attempt(env.handle, i)
      && t.handles == hs + [env.handle] && t.delays == ds
      && t.env == Env(env.handle, env.served + 1, env.forceClosed + [Some(env.handle)])
  {
  }

  /** An error that is neither a connection error nor retryable ends the run at once, with no reset. */
  lemma RunStopsOnFinalError<T>(p: Params, cls: Classifier, attempt: (BaseConn, nat) -> Result<T, DbError>,
                                nextConn: nat -> Result<BaseConn, DbError>, env: Env, i: nat,
                                hs: seq<BaseConn>, ds: seq<nat>)
    requires i < p.retryCount
    requires attempt(env.handle, i).Failure?
    requires !cls.isConnectionError(attempt(env.handle, i).error) && !cls.isRetryableError(attempt(env.handle, i).error)
    ensures Run(p, cls, attempt, nextConn, env, i, hs, ds) == Trace(attempt(env.handle, i), hs + [env.handle], ds, env)
  {
  }

  /* ---------------- Fault injection ---------------- */

  /** The substring test agrees with "occurs at some index". */
  lemma {:induction false} HasSubstringIffOccurs(s: string, sub: string)
    ensures HasSubstring(s, sub) <==> exists k: nat :: OccursAt(s, sub, k)
    decreases |s|
  {
    if |sub| <= |s| {
      if s[..|sub|] == sub {
        assert OccursAt(s, sub, 0);
      } else {
        HasSubstringIffOccurs(s[1..], sub);
        if HasSubstring(s[1..], sub) {
          var k: nat :| OccursAt(s[1..], sub, k);
          assert s[k + 1..k + 1 + |sub|] == s[1..][k..k + |sub|];
          assert OccursAt(s, sub, k + 1);
        }
        if k: nat :| OccursAt(s, sub, k) {
          assert k != 0;
          assert s[1..][k - 1..k - 1 + |sub|] == s[k..k + |sub|];
          assert OccursAt(s[1..], sub, k - 1);
        }
      }
    }
  }

  /** A string in which the first character of `sub` never appears does not contain `sub`. */
  lemma {:induction false} MissingFirstCharMeansNoSubstring(s: string, sub: string)
    requires |sub| > 0
    requires forall k :: 0 <= k < |s| ==> s[k] != sub[0]
    ensures !HasSubstring(s, sub)
    decreases |s|
  {
    if |sub| <= |s| {
      assert s[..|sub|][0] == s[0];
      MissingFirstCharMeansNoSubstring(s[1..], sub);
    }
  }

  /** The failpoint fires on a lone CREATE TABLE statement, not on a longer batch or in lower case. */
  lemma FailpointMatchExamples()
    ensures FailpointMatches(["CREATE TABLE t (id INT)"])
    ensures !FailpointMatches(["CREATE TABLE t (id INT)", "INSERT INTO t VALUES (1)"])
    ensures !FailpointMatches(["create table t (id int)"])
    ensures !FailpointMatches([])
  {
    assert "CREATE TABLE t (id INT)"[..|CreateTableMarker|] == CreateTableMarker;
    MissingFirstCharMeansNoSubstring("create table t (id int)", CreateTableMarker);
  }

  /**
   * A batch the failpoint armed with "table exists" matches fails on its
   * first attempt with that error and, when that error is classified as
   * final, returns it after one attempt without touching the connection.
   */
  lemma TableExistsIsReturnedAtOnce(queries: seq<string>, driver: (BaseConn, nat) -> Option<DbError>, cls: Classifier,
                                    nextConn: nat -> Result<BaseConn, DbError>, env: Env)
    requires FailpointMatches(queries)
    requires Classify(cls, MySQLError(ErrTableExists, "")) == Stop
    ensures var t := Run(ExecuteParams, cls, ExecuteAttempt(queries, Some(ErrTableExists), driver), nextConn, env, 0, [], []);
      && t.result == Failure(MySQLError(ErrTableExists, "")) && IsErrTableExists(t.result.error)
      && |t.handles| == 1 && t.env == env && Decisions(t) == 1
  {
    var attempt := ExecuteAttempt(queries, Some(ErrTableExists), driver);
    assert InjectFailpoint(queries, Some(ErrTableExists), driver(env.handle, 0)) == Some(MySQLError(ErrTableExists, ""));
    assert attempt(env.handle, 0) == Failure(MySQLError(ErrTableExists, ""));
    RunStopsOnFinalError(ExecuteParams, cls, attempt, nextConn, env, 0, [], []);
  }
}

/** A caller's view: what the contracts of pool construction and batch execution let it conclude. */
module LoaderClient {
  import opened Wrappers
  import opened Errors
  import opened Conn
  import opened Loader
  import opened LoaderLemmas

  /** Over a base database that hands out every handle requested, a pool of two is two distinct connections. */
  method PoolOfTwoScenario()
  {
    var db := new BaseDB((n: nat) => Success(BaseConn(n, ScopeDownstream)), (c: Option<BaseConn>) => None, None);
    assert forall j :: 0 <= j < 2 ==> db.nextConn(j).Success?;
    var base, conns, err := CreateConns(Success(db), "load", "mysql-01", 2);
    assert err.None? && base == db && |conns| == 2 && !db.closed;
    assert conns[0] != conns[1] && conns[1].baseConn == Some(BaseConn(1, ScopeDownstream));
  }

  /**
   * A batch that the failpoint armed with "table exists" matches returns
   * that error after one driver call, counts one execution error and leaves
   * the connection's handle alone.
   */
  method CreateTableAlreadyExistsScenario(c: DBConn, m: Metrics, queries: seq<string>, driver: (BaseConn, nat) -> Option<DbError>)
    requires c.baseConn.Some? && FailpointMatches(queries)
    modifies c, c.baseDB, m
  {
    var cls := Classifier((e: DbError) => e.DriverError?, (e: DbError) => false);
    ghost var h := c.baseConn.value;
    ghost var before := m.ExecutionErrors(Labels(c.name, c.sourceID));
    ghost var t := Run(ExecuteParams, cls, ExecuteAttempt(queries, Some(ErrTableExists), driver),
                       c.baseDB.nextConn, EnvOf(c), 0, [], []);
    TableExistsIsReturnedAtOnce(queries, driver, cls, c.baseDB.nextConn, EnvOf(c));
    RunExtendsPrefix(ExecuteParams, cls, ExecuteAttempt(queries, Some(ErrTableExists), driver),
                     c.baseDB.nextConn, EnvOf(c), 0, [], []);
    assert t.handles == [h];
    var e, calls := ExecuteSQL(c, queries, driver, Some(ErrTableExists), cls, m);
    assert e == Some(MySQLError(ErrTableExists, "")) && IsErrTableExists(e.value);
    assert calls == [h] && c.baseConn == Some(h);
    assert m.ExecutionErrors(Labels(c.name, c.sourceID)) == before + 1;
  }

  /** When the base database cannot be opened, the pool size is never looked at: even a negative one gives the scoped error. */
  method UnopenedBaseDBScenario(e: DbError, name: string, sourceID: string)
  {
    var base, conns, err := CreateConns(Failure(e), name, sourceID, -1);
    assert base == null && conns == [] && err == Some(WithScope(e, ScopeDownstream));
  }
}
