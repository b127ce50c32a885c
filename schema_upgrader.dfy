/**
 * The schema upgrader: reads the schema version recorded in the `versions`
 * table and brings the database up to a target version one version at a
 * time, each version in its own transaction.
 *
 * Each operation that changes the connection is a method; each is specified
 * by a function over `Db` values (`Build`, `Step`, `Steps`, `BuildSpec`,
 * `Upgrade`) about which the properties are proved, in UpgradeProperties.
 */
module SchemaUpgrader {
  import opened Jdbc

  /**
   * The caller's `VersionBuilder`, or a null reference. `build(v)` is `None`
   * when building version `v` returns normally and `Some(message)` when it
   * throws an exception with that message.
   */
  datatype VersionBuilder = NullBuilder | VersionBuilder(build: int -> Option<string>)

  /** What an upgrade did: the final state, how it ended, and the versions it invoked the builder for, in order. */
  datatype Run = Run(db: Db, outcome: Outcome, built: seq<int>)

  const NegativeTargetMessage: string := "Expected version < 0."

  /** The message of the `AssertionError` thrown when the recorded version is above the target. */
  function GreaterMessage(actual: int): string
  {
    "Actual schema version = " + DecimalString(actual) + " is greater than target version."
  }

  function DigitChar(d: nat): (c: char)
    requires d < 10
    ensures '0' <= c <= '9'
  {
    "0123456789"[d]
  }

  function DigitValue(c: char): nat
  {
    if '0' <= c <= '9' then (c as int) - ('0' as int) else 0
  }

  /** The decimal digits of `n`, most significant first, as Java prints an int. */
  function Digits(n: nat): (s: string)
    ensures |s| >= 1
    ensures forall i :: 0 <= i < |s| ==> '0' <= s[i] <= '9'
    ensures n > 0 ==> s[0] != '0'
    decreases n
  {
    if n < 10 then [DigitChar(n)] else Digits(n / 10) + [DigitChar(n % 10)]
  }

  /** The number a string of decimal digits denotes. */
  function DigitsValue(s: string): nat
  {
    if s == [] then 0 else DigitsValue(s[..|s| - 1]) * 10 + DigitValue(s[|s| - 1])
  }

  /** String concatenation of an `int`, as in `"..." + actualVersion`. */
  function DecimalString(n: int): string
  {
    if n < 0 then "-" + Digits(-n) else Digits(n)
  }

  /** The largest element of a non-empty sequence. */
  function Max(s: seq<int>): (m: int)
    requires s != []
    ensures m in s
    ensures forall x :: x in s ==> x <= m
  {
    if |s| == 1 then s[0]
    else
      var rest := Max(s[1..]);
      assert s == [s[0]] + s[1..];
      if s[0] > rest then s[0] else rest
  }

  /**
   * `getVersionOf`: `select max(number) from versions`. A closed connection
   * fails before the query is issued; any failure of the query itself reads
   * as -1; an empty table (a null maximum) reads as 0.
   */
  function GetVersionOf(db: Db, faults: Faults): (r: Result<int>)
    ensures r.Failure? <==> db.closed
    ensures r.Failure? ==> r.error == SqlError(ConnectionClosed)
    ensures !db.closed && (!db.tableExists || faults.queryFails) ==> r == Success(-1)
    ensures !db.closed && db.tableExists && !faults.queryFails && VisibleRows(db) == [] ==> r == Success(0)
    ensures !db.closed && db.tableExists && !faults.queryFails && VisibleRows(db) != [] ==>
              r.Success? && r.value in VisibleRows(db) && forall x :: x in VisibleRows(db) ==> x <= r.value
  {
    if db.closed then Failure(SqlError(ConnectionClosed))
    else if !db.tableExists || faults.queryFails then Success(-1)
    else if VisibleRows(db) == [] then Success(0)
    else Success(Max(VisibleRows(db)))
  }

  /** `builder.build(c, v)`: its changes, whole or partial, join the open transaction. */
  function Build(db: Db, b: VersionBuilder, v: int): Moved
  {
    match b
    case NullBuilder => Moved(db, Fail(NullPointer))
    case VersionBuilder(build) =>
      var db' := db.(pendingSchema := db.pendingSchema + [v]);
      if build(v).Some? then Moved(db', Fail(BuilderException(build(v).value))) else Moved(db', Ok)
  }

  /** One pass of the loop body: build, append the row, commit; on any exception roll back and rethrow. */
  function Step(db: Db, faults: Faults, b: VersionBuilder, v: int): Run
  {
    var built := if b.VersionBuilder? then [v] else [];
    var built1 := Build(db, b, v);
    var appended := if built1.outcome.Ok? then InsertVersion(built1.db, faults, v) else built1;
    var committed := if appended.outcome.Ok? then Committed(appended.db, faults) else appended;
    if committed.outcome.Ok? then Run(committed.db, Ok, built)
    else
      // an exception thrown by rollback() replaces the one being rethrown
      var back := RolledBack(committed.db);
      Run(back.db, if back.outcome.Fail? then back.outcome else committed.outcome, built)
  }

  /** The loop over versions `v`..`target`, after builder calls `done`, stopping at the first exception. */
  function Steps(db: Db, faults: Faults, b: VersionBuilder, v: int, target: int, done: seq<int>): Run
    decreases target - v
  {
    if v > target then Run(db, Ok, done)
    else
      var first := Step(db, faults, b, v);
      if first.outcome.Fail? then Run(first.db, first.outcome, done + first.built)
      else Steps(first.db, faults, b, v + 1, target, done + first.built)
  }

  /** What is left of the loop after the pass for `v`. */
  lemma StepsUnfold(db: Db, faults: Faults, b: VersionBuilder, v: int, target: int, done: seq<int>)
    requires v <= target
    ensures var first := Step(db, faults, b, v);
            first.built == (if b.VersionBuilder? then [v] else [])
            && Steps(db, faults, b, v, target, done)
               == if first.outcome.Fail? then Run(first.db, first.outcome, done + first.built)
                  else Steps(first.db, faults, b, v + 1, target, done + first.built)
  {
  }

  /** `buildVersion`: bootstrap the table when it is missing, then the loop. */
  function BuildSpec(db: Db, faults: Faults, actual: int, target: int, b: VersionBuilder): Run
  {
    if actual == -1 then
      var created := CreateVersions(db, faults);
      if created.outcome.Fail? then Run(created.db, created.outcome, [])
      else Steps(created.db, faults, b, 1, target, [])
    else Steps(db, faults, b, actual + 1, target, [])
  }

  /** `upgradeVersion`: the two guards, then `buildVersion`. */
  function Upgrade(db: Db, faults: Faults, target: int, b: VersionBuilder): Run
  {
    if target < 0 then Run(db, Fail(IllegalArgument(NegativeTargetMessage)), [])
    else
      match GetVersionOf(db, faults)
      case Failure(e) => Run(db, Fail(e), [])
      case Success(actual) =>
        if actual > target then Run(db, Fail(AssertionFailed(GreaterMessage(actual))), [])
        else BuildSpec(db, faults, actual, target, b)
  }

  method InvokeBuilder(c: Connection, b: VersionBuilder, v: int) returns (r: Outcome)
    modifies c
    ensures Moved(c.State(), r) == Build(old(c.State()), b, v)
  {
    match b
    case NullBuilder =>
      r := Fail(NullPointer);
    case VersionBuilder(build) =>
      c.pendingSchema := c.pendingSchema + [v];
      var thrown := build(v);
      r := if thrown.Some? then Fail(BuilderException(thrown.value)) else Ok;
  }

  /** `createVersionsTable`. */
  method CreateVersionsTable(c: Connection) returns (r: Outcome)
    modifies c
    ensures Moved(c.State(), r) == CreateVersions(old(c.State()), c.faults)
  {
    if c.closed {
      r := Fail(SqlError(ConnectionClosed));
    } else if c.tableExists {
      r := Fail(SqlError(TableExists));
    } else if c.faults.createFails {
      r := Fail(SqlError(CreateRejected));
    } else {
      c.tableExists := true;
      r := Ok;
    }
  }

  /** `appendVersion`. */
  method AppendVersion(c: Connection, v: int) returns (r: Outcome)
    modifies c
    ensures Moved(c.State(), r) == InsertVersion(old(c.State()), c.faults, v)
  {
    if c.closed {
      r := Fail(SqlError(ConnectionClosed));
    } else if !c.tableExists {
      r := Fail(SqlError(NoSuchTable));
    } else if v in c.rows + c.pendingRows {
      r := Fail(SqlError(DuplicateVersion(v)));
    } else if c.faults.insertFails(v) {
      r := Fail(SqlError(InsertRejected(v)));
    } else {
      c.pendingRows := c.pendingRows + [v];
      r := Ok;
    }
  }

  /** The body of `buildVersion`'s loop for version `v`: the `try` block and its `catch`. */
  method TryVersion(c: Connection, b: VersionBuilder, v: int) returns (r: Outcome)
    modifies c
    ensures var step := Step(old(c.State()), c.faults, b, v); c.State() == step.db && r == step.outcome
  {
    r := InvokeBuilder(c, b, v);
    if r.Ok? {
      r := AppendVersion(c, v);
    }
    if r.Ok? {
      r := c.Commit();
    }
    if r.Fail? {
      var back := c.Rollback();
      if back.Fail? {
        r := back;
      }
    }
  }

  /** The loop of `buildVersion`, from version `from` up to `targetVersion`. */
  method BuildSteps(c: Connection, from: int, targetVersion: int, b: VersionBuilder)
    returns (r: Outcome, built: seq<int>)
    modifies c
    ensures Run(c.State(), r, built) == Steps(old(c.State()), c.faults, b, from, targetVersion, [])
  {
    built := [];
    r := Ok;
    var v := from;
    ghost var db := c.State();
    while v <= targetVersion
      invariant r == Ok
      invariant c.State() == db
      invariant Steps(old(c.State()), c.faults, b, from, targetVersion, []) == Steps(db, c.faults, b, v, targetVersion, built)
      decreases targetVersion - v
    {
      ghost var first := Step(db, c.faults, b, v);
      StepsUnfold(db, c.faults, b, v, targetVersion, built);
      if b.VersionBuilder? {
        built := built + [v];
      }
      r := TryVersion(c, b, v);
      db := first.db;
      if r.Fail? {
        return;
      }
      v := v + 1;
    }
  }

  /** `buildVersion`; `built` lists the versions the builder was invoked for. */
  method BuildVersion(c: Connection, actualVersion: int, targetVersion: int, b: VersionBuilder)
    returns (r: Outcome, built: seq<int>)
    modifies c
    ensures Run(c.State(), r, built) == BuildSpec(old(c.State()), c.faults, actualVersion, targetVersion, b)
  {
    built := [];
    var actual := actualVersion;
    if actual == -1 {
      r := CreateVersionsTable(c);
      if r.Fail? {
        return;
      }
      actual := 0;
    }
    r, built := BuildSteps(c, actual + 1, targetVersion, b);
  }

  /** `upgradeVersion`. */
  method UpgradeVersion(c: Connection, targetVersion: int, b: VersionBuilder) returns (r: Outcome, built: seq<int>)
    modifies c
    ensures Run(c.State(), r, built) == Upgrade(old(c.State()), c.faults, targetVersion, b)
  {
    if targetVersion < 0 {
      return Fail(IllegalArgument(NegativeTargetMessage)), [];
    }
    var version := GetVersionOf(c.State(), c.faults);
    if version.Failure? {
      return Fail(version.error), [];
    }
    var actualVersion := version.value;
    if actualVersion > targetVersion {
      return Fail(AssertionFailed(GreaterMessage(actualVersion))), [];
    }
    r, built := BuildVersion(c, actualVersion, targetVersion, b);
  }
}
