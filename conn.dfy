/**
 * The connection package the loader builds on, reduced to what the loader
 * observes of it: opaque connection handles and a base database that hands
 * them out, force-closes them and can itself be closed.
 */
module Conn {
  import opened Wrappers
  import opened Errors

  /** One live connection, identified by `id`; `scope` is the side its errors are attributed to. */
  datatype BaseConn = BaseConn(id: nat, scope: ErrScope)

  /**
   * The shared base database. Its outcomes are scripted: the n-th call of
   * GetBaseConn yields `nextConn(n)`, ForceCloseConn of a handle yields
   * `forceCloseResult` of it, and Close yields `closeResult`. The fields
   * record what was asked of it.
   */
  class BaseDB {
    const nextConn: nat -> Result<BaseConn, DbError>
    const forceCloseResult: Option<BaseConn> -> Option<DbError>
    const closeResult: Option<DbError>
    /** How many handles have been requested so far. */
    var served: nat
    /** The handles force-closed so far, in order. */
    var forceClosed: seq<Option<BaseConn>>
    var closed: bool

    constructor (nextConn: nat -> Result<BaseConn, DbError>,
                 forceCloseResult: Option<BaseConn> -> Option<DbError>,
                 closeResult: Option<DbError>)
      ensures this.nextConn == nextConn && this.forceCloseResult == forceCloseResult
      ensures this.closeResult == closeResult
      ensures served == 0 && forceClosed == [] && !closed
    {
      this.nextConn := nextConn;
      this.forceCloseResult := forceCloseResult;
      this.closeResult := closeResult;
      served := 0;
      forceClosed := [];
      closed := false;
    }

    /** Obtains a fresh handle, or the error that prevented it. */
    method GetBaseConn() returns (r: Result<BaseConn, DbError>)
      modifies this
      ensures r == nextConn(old(served))
      ensures served == old(served) + 1
      ensures forceClosed == old(forceClosed) && closed == old(closed)
    {
      r := nextConn(served);
      served := served + 1;
    }

    /** Closes a handle without waiting for it to become idle. */
    method ForceCloseConn(c: Option<BaseConn>) returns (err: Option<DbError>)
      modifies this
      ensures err == forceCloseResult(c)
      ensures forceClosed == old(forceClosed) + [c]
      ensures served == old(served) && closed == old(closed)
    {
      err := forceCloseResult(c);
      forceClosed := forceClosed + [c];
    }

    /** Closes the base database itself. */
    method Close() returns (err: Option<DbError>)
      modifies this
      ensures closed && err == closeResult
      ensures served == old(served) && forceClosed == old(forceClosed)
    {
      err := closeResult;
      closed := true;
    }
  }

  /** Whether `err` is a MySQL server error with error number `code`. */
  predicate IsMySQLError(err: DbError, code: uint16)
  {
    err.MySQLError? && err.number == code
  }
}
