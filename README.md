# Loader connection layer: a verified Dafny model

This project models the resilient connection wrapper of the DM bulk loader (`dm/loader/db.go`). The wrapper owns a fixed
pool of worker connections, all drawn from one downstream base database. Each connection runs a query or a statement
batch under a fixed retry budget. After every failed attempt a decision closure picks one of three outcomes:

- a **connection error** resets the connection's handle, and the operation retries exactly when the reset worked;
- a **retryable error** retries;
- **anything else** stops.

The model states and proves what `db.go` itself decides and changes: the guard clauses, the decision, the handle swap
in `resetConn`, and the all-or-nothing pool built by `createConns`. The code it calls into is represented by oracles:

- Driver calls are pure functions `driver(h, i)`: the driver's outcome for attempt `i` on handle `h`.
- The base database is the class `Conn.BaseDB`. Its outcomes are scripted: the n-th handle request yields
  `nextConn(n)`; force-closing a handle and closing the base database yield fixed results. The object records the
  requests and force-closes made.
- The two classification predicates (`retry.IsConnectionError`, `dbutil.IsRetryableError`) are given as an
  `Errors.Classifier`.

Modules:

- `Wrappers`: `Option` and `Result`.
- `Errors`: error values, scopes and the classifier.
- `Conn`: handles, the base database oracle and `IsMySQLError`.
- `Retry`: retry parameters and backoff shapes.
- `Loader`: the model of `db.go`.
- `LoaderLemmas`: properties of a whole operation.
- `LoaderClient`: three client methods showing what callers can conclude from the contracts.

How an operation is specified. The pure function `Loader.Run` describes an entire operation. It performs attempt `i`
on the current handle. On failure it applies the decision closure, which includes the reset. It attempts again after
the backoff wait when the closure says retry and budget remains. Otherwise it stops with the last attempt's outcome.
The result is a `Trace`: that outcome, the handle of every attempt, the waits between attempts, and the final handle
and base-database state. `QuerySQL` and `ExecuteSQL` are methods with a loop over attempts. They call the `DBConn`
methods that mutate the handle, and their postconditions equate the result, the driver calls made, the new state and
the metric counts with that trace.

Two facts about the code that its outcomes depend on:

- **A failed reset surfaces the connection error, not the reset's error.** The closure assigns the reset's error only
  to its own parameter `err` (dm/loader/db.go:66, :136), so the retry driver returns the attempt's original
  connection error. `RunStopsAfterResetFailure` states this.
- **The code has no idempotent-outcome class.** "Already exists" and "duplicate entry" errors are simply neither
  connection errors nor retryable (unless the given classifier says otherwise). They stop the operation and are
  recognised only by `isErrDBExists`, `isErrTableExists` and `isErrDupEntry`.

The retry driver `ApplyRetryStrategy` is not part of this model. Its behaviour is assumed as follows: at most
`RetryCount` attempts; the decision closure runs after every failed attempt, including the last; the wait before
attempt `i + 1` is the first delay (`Stable`) or `(i + 1)` times it (`LinearIncrease`); and no wait follows the last
attempt, even when the decision says retry. Durations are in milliseconds.

## Model

| member | source | states |
|---|---|---|
| `Loader.Scope` | dm/loader/db.go:47-53 | no connection or no handle gives `ScopeNotSet`; otherwise the result is the handle's own scope |
| `Loader.IsErrDBExists` | dm/loader/db.go:237-239 | holds exactly for MySQL error 1007 |
| `Loader.IsErrTableExists` | dm/loader/db.go:241-243 | holds exactly for MySQL error 1050 |
| `Loader.IsErrDupEntry` | dm/loader/db.go:245-247 | holds exactly for MySQL error 1062 |
| `Loader.Classify` | dm/loader/db.go:64-84 | connection errors reset first; other retryable errors retry; everything else stops; the three cases are exhaustive and exclusive (iff) |
| `Loader.ShouldRetry` | dm/loader/db.go:133-154 | the four cases of the decision: connection error with failed reset stops, connection error with working reset retries, retryable error retries, any other error stops |
| `Loader.InjectFailpoint` | dm/loader/db.go:163-173 | an armed failpoint replaces the attempt's outcome by a MySQL error with the armed number and an empty message exactly when the batch is one statement containing "CREATE TABLE"; otherwise the outcome is untouched |
| `LoaderLemmas.FailpointMatchExamples` | dm/loader/db.go:169 | the match fires on a lone CREATE TABLE statement, not on a two-statement batch, a lower-case statement or an empty batch |
| `LoaderLemmas.HasSubstringIffOccurs` | dm/loader/db.go:169 | the substring test used by the match holds iff the marker occurs at some index |
| `LoaderLemmas.MissingFirstCharMeansNoSubstring` | dm/loader/db.go:169 | a statement lacking the marker's first character never matches |
| `Loader.ResetEnv` | dm/loader/db.go:198-203 | a reset force-closes the current handle, makes one handle request, and swaps in the new handle only if the request succeeded |
| `Loader.ResetBaseConnFn` | dm/loader/db.go:225-231 | force-closes the handle it is given, whatever the close returns, and returns exactly the outcome of one fresh handle request |
| `Loader.DBConn.ResetConn` | dm/loader/db.go:198-205 | on success the handle becomes exactly the new handle; on failure the error is returned and the handle is unchanged; one request and one force-close of the old handle either way |
| `Loader.DBConn.IsRetryable` | dm/loader/db.go:64-84 | returns `ShouldRetry` of the error and the reset outcome; resets (changing state as `ResetEnv`) exactly on connection errors; nothing else changes |
| `Loader.DBConn.ExecuteIsRetryable` | dm/loader/db.go:133-154 | as `IsRetryable`, plus the execution-error count for the connection's labels rises by exactly one whatever the classification; other labels are untouched |
| `Loader.QueryAttempt` | dm/loader/db.go:90-109 | a query attempt succeeds exactly when the driver succeeds with no deferred row error; it then returns the driver's rows; a driver failure is returned as is, and a deferred row error becomes the attempt's failure |
| `Loader.ExecuteAttempt` | dm/loader/db.go:160-186 | with the failpoint armed and matching, every attempt fails with the armed MySQL error whatever the driver did; otherwise an attempt succeeds exactly when the driver reports no error, and fails with the driver's error |
| `Loader.Run` | dm/loader/db.go:87-109 | the retry flow of a query, and the same flow for a batch at dm/loader/db.go:157-186: an operation makes at least one and at most the budget's number of attempts, with exactly one wait between consecutive attempts |
| `LoaderLemmas.RunExtendsPrefix` | dm/loader/db.go:160-162 | the first attempt runs on the connection's current handle; handles and waits are only appended |
| `LoaderLemmas.RunEndsWithLastAttempt` | dm/loader/db.go:157-194 | the operation's outcome is the outcome of its last attempt, on the handle current at that attempt |
| `LoaderLemmas.RunResetAccounting` | dm/loader/db.go:135-144 | at most one reset per attempt, each one handle request plus one force-close appended to earlier ones |
| `LoaderLemmas.RunHandleProvenance` | dm/loader/db.go:199-203 | every attempt runs on the original handle or on a handle the base database handed out during this operation |
| `LoaderLemmas.RunDelaysFollowBackoff` | dm/loader/db.go:129-132 | the n-th wait of an operation is the backoff for retry number n |
| `LoaderLemmas.QueryWaitsAreConstant` | dm/loader/db.go:60-63 | a query makes fewer than ten waits, each of one second |
| `LoaderLemmas.ExecuteWaitsGrowLinearly` | dm/loader/db.go:129-132 | a batch makes fewer than ten waits; the n-th is 2000·(n+1) ms, so the waits never decrease |
| `Retry.LinearBackoffIsMonotone` | dm/loader/db.go:129-132 | a linear backoff waits the first delay times the retry number, so never less than before |
| `LoaderLemmas.RunExhaustsBudget` | dm/loader/db.go:146-151 | when every attempt fails with a retryable error, the operation uses the whole budget, never resets, and returns the last error |
| `LoaderLemmas.RunRecoversAfterConnectionLosses` | dm/loader/db.go:135-144 | k lost connections, each on the handle the run is then using and each followed by a working reset, then a success on the handle obtained last, within the budget: success after exactly k+1 attempts and k resets, the m-th attempt on the handle from the m-th reset, ending on the last handle obtained |
| `LoaderLemmas.DeadHandleIsReplaced` | dm/loader/db.go:135-144 | a driver that fails with a connection error on the old handle and works on any other succeeds on the second attempt, on the handle the reset obtained |
| `LoaderLemmas.RunStopsAfterResetFailure` | dm/loader/db.go:136-142 | a failed reset stops at once: it returns the attempt's connection error, not the reset's error, and keeps the old handle |
| `LoaderLemmas.RunStopsOnFinalError` | dm/loader/db.go:146-153 | an error that is neither a connection error nor retryable stops after that attempt with no reset |
| `LoaderLemmas.TableExistsIsReturnedAtOnce` | dm/loader/db.go:169-171 | when the failpoint is armed with 1050 and matches, and 1050 is final, the batch returns "table exists" after one attempt, with one error counted and no reset |
| `Loader.QuerySQL` | dm/loader/db.go:55-118 | no connection or no handle: "database connection not valid" with no driver call and no metric; otherwise the result, driver calls and new state are those of `Run` under 10 attempts and 1 s stable backoff, a deferred row error counts as failure, and exactly one latency observation is made iff the query succeeds |
| `Loader.ExecuteSQL` | dm/loader/db.go:120-195 | an empty batch succeeds before the validity check, even on no connection, with no driver call or metric; otherwise as `QuerySQL` with 10 attempts and 2 s linear backoff, and the error count rises by exactly one per failed attempt |
| `Loader.DBConn.constructor` | dm/loader/db.go:232 | a connection holds the given handle, labels and base database |
| `Loader.CreateConns` | dm/loader/db.go:207-235 | failure to open the base database returns its error scoped downstream, whatever the worker count; otherwise, for a non-negative worker count, success iff every one of the `workerCount` handle requests succeeds; success gives exactly `workerCount` distinct fresh connections, the j-th holding the j-th handle and the shared labels; failure at the first failed request closes the base database and returns that request's error scoped downstream, with no connections |

## Left out

- Context cancellation and deadlines, which end the retry loop early: the model has no context.
- Sleeping: a wait is recorded as its duration, not performed.
- Wall-clock timing and the "slow statement" warning (`time.Since`, the float comparison `ds > 1`): these are
  floating point and time, so a latency observation is modelled as a count.
- Logging, and the truncation of log strings.
- Metrics beyond two counters per label pair: query-latency observations and execution errors.
- The driver's parameters: the query text and its arguments are folded into the driver oracle. A batch's statements
  are kept, because the empty-batch check and the failpoint read them.
- The failpoint value parsing (`strconv.ParseUint`, with a process-fatal error when it fails): the armed value is
  modelled as an already parsed 16-bit error number.
- The internals of `retry.IsConnectionError`, `dbutil.IsRetryableError`, `conn.GetDownstreamDB`,
  `BaseDB.GetBaseConn`, `BaseDB.ForceCloseConn`, `BaseDB.Close`, `BaseConn.QuerySQL`, `BaseConn.ExecuteSQL` and
  `ApplyRetryStrategy`: these live in packages that are not part of this model and are given as oracles.
- `Conn.IsMySQLError`: does not unwrap wrapped errors to find their cause, as the connection package may do. That
  package is not part of this model.
- A `DBConn` whose reset function is missing: every modelled connection closes over a base database, as those built by
  `createConns` do.
- `cdc/scheduler/internal/table_executor.go`: an interface of the change-data-capture scheduler, a separate subsystem
  with no logic of its own.
- `Loader.CreateConns`: requires a non-negative `workerCount` once the base database has been opened. A negative count
  then panics in `make` (dm/loader/db.go:215) before any handle is requested, and a panic is not modelled. When opening
  the base database fails, any count is accepted, since the source returns before reaching `make`.
