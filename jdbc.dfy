/**
 * The database connection that the schema upgrader drives, reduced to the
 * state it observes: whether the connection is closed, whether the
 * `versions` bookkeeping table exists, the version rows committed and not yet
 * committed, and the schema changes made by version builders, committed and
 * not yet committed. A transaction is the pair of pending buffers: `Commit`
 * folds them into the committed state, `Rollback` discards them.
 *
 * Faults the DBMS may raise for reasons this code does not control are an
 * oracle (`Faults`) fixed per connection.
 */
module Jdbc {

  datatype Option<+T> = None | Some(value: T)

  /** Why a statement on the connection failed (a `java.sql.SQLException`). */
  datatype SqlFault =
    | ConnectionClosed
    | TableExists
    | NoSuchTable
    | DuplicateVersion(version: int)
    | CreateRejected
    | InsertRejected(version: int)
    | CommitRejected

  /** The exceptions that leave the upgrader. */
  datatype Error =
    | IllegalArgument(message: string)
    | AssertionFailed(message: string)
    | BuilderException(message: string)
    | NullPointer
    | SqlError(fault: SqlFault)

  /** Normal completion, or the exception thrown. */
  datatype Outcome = Ok | Fail(error: Error)

  /** A value, or the exception thrown instead of returning it. */
  datatype Result<+T> = Success(value: T) | Failure(error: Error)

  /** The database as seen through one connection. */
  datatype Db = Db(
    closed: bool,
    tableExists: bool,
    rows: seq<int>,           // committed rows of `versions`
    pendingRows: seq<int>,    // rows of `versions` inserted in the open transaction
    schema: seq<int>,         // versions whose builder changes are committed
    pendingSchema: seq<int>   // versions whose builder changes are in the open transaction
  )

  /**
   * Failures the DBMS may raise on an open connection besides those the
   * state explains: the version query failing on an existing table, the DDL
   * being refused, an insert of a given version being refused, a commit of a
   * given batch of version rows being refused.
   */
  datatype Faults = Faults(
    queryFails: bool,
    createFails: bool,
    insertFails: int -> bool,
    commitFails: seq<int> -> bool
  )

  /** A database state after a statement, with how the statement ended. */
  datatype Moved = Moved(db: Db, outcome: Outcome)

  /** The rows of `versions` a query on this connection sees: its own uncommitted rows included. */
  function VisibleRows(db: Db): seq<int>
  {
    db.rows + db.pendingRows
  }

  /** `create table versions(...)`: DDL takes effect at once, outside the open transaction. */
  function CreateVersions(db: Db, faults: Faults): Moved
  {
    if db.closed then Moved(db, Fail(SqlError(ConnectionClosed)))
    else if db.tableExists then Moved(db, Fail(SqlError(TableExists)))
    else if faults.createFails then Moved(db, Fail(SqlError(CreateRejected)))
    else Moved(db.(tableExists := true), Ok)
  }

  /** `insert into versions values(v, now())`: `number` is the primary key. */
  function InsertVersion(db: Db, faults: Faults, v: int): Moved
  {
    if db.closed then Moved(db, Fail(SqlError(ConnectionClosed)))
    else if !db.tableExists then Moved(db, Fail(SqlError(NoSuchTable)))
    else if v in VisibleRows(db) then Moved(db, Fail(SqlError(DuplicateVersion(v))))
    else if faults.insertFails(v) then Moved(db, Fail(SqlError(InsertRejected(v))))
    else Moved(db.(pendingRows := db.pendingRows + [v]), Ok)
  }

  /** `Connection.commit()`: the open transaction becomes durable. */
  function Committed(db: Db, faults: Faults): Moved
  {
    if db.closed then Moved(db, Fail(SqlError(ConnectionClosed)))
    else if faults.commitFails(db.pendingRows) then Moved(db, Fail(SqlError(CommitRejected)))
    else Moved(Db(false, db.tableExists, db.rows + db.pendingRows, [], db.schema + db.pendingSchema, []), Ok)
  }

  /** `Connection.rollback()`: the open transaction is discarded. */
  function RolledBack(db: Db): Moved
  {
    if db.closed then Moved(db, Fail(SqlError(ConnectionClosed)))
    else Moved(db.(pendingRows := [], pendingSchema := []), Ok)
  }

  /** A `java.sql.Connection` in manual-commit mode. */
  class Connection {
    var closed: bool
    var tableExists: bool
    var rows: seq<int>
    var pendingRows: seq<int>
    var schema: seq<int>
    var pendingSchema: seq<int>
    const faults: Faults

    function State(): Db
      reads this
    {
      Db(closed, tableExists, rows, pendingRows, schema, pendingSchema)
    }

    /** An open connection to a fresh, empty database. */
    constructor (faults: Faults)
      ensures State() == Db(false, false, [], [], [], [])
      ensures this.faults == faults
    {
      closed, tableExists := false, false;
      rows, pendingRows, schema, pendingSchema := [], [], [], [];
      this.faults := faults;
    }

    method Close()
      modifies this
      ensures State() == old(State()).(closed := true)
    {
      closed := true;
    }

    method Commit() returns (r: Outcome)
      modifies this
      ensures Moved(State(), r) == Committed(old(State()), faults)
    {
      if closed {
        r := Fail(SqlError(ConnectionClosed));
      } else if faults.commitFails(pendingRows) {
        r := Fail(SqlError(CommitRejected));
      } else {
        rows, schema := rows + pendingRows, schema + pendingSchema;
        pendingRows, pendingSchema := [], [];
        r := Ok;
      }
    }

    method Rollback() returns (r: Outcome)
      modifies this
      ensures Moved(State(), r) == RolledBack(old(State()))
    {
      if closed {
        r := Fail(SqlError(ConnectionClosed));
      } else {
        pendingRows, pendingSchema := [], [];
        r := Ok;
      }
    }
  }
}
