# Schema upgrader, modelled in Dafny

A model of `SchemaUpgrader`, the class that brings a relational database's
schema from the version it holds up to a requested target version. The
version is the largest `number` in a bookkeeping table named `versions`:
-1 when the table does not exist, 0 when it is empty. An upgrade checks its
arguments and reads the current version. It creates the `versions` table when
it is missing. Then, for each version above the current one up to the target,
it calls the caller's `VersionBuilder`, appends the version row and commits.
On any exception in a step it rolls that step back and rethrows.

Files:

- `jdbc.dfy` (module `Jdbc`): the connection as the upgrader sees it. `Db` is
  a value with the closed flag, whether `versions` exists, the committed and
  pending version rows, and the committed and pending builder changes. The
  pure functions give the effect of each statement the upgrader issues:
  `CreateVersions`, `InsertVersion`, `Committed` and `RolledBack`. `Faults` is
  an oracle for DBMS failures that the state does not explain. The class
  `Connection` holds the same state in fields and has the JDBC methods
  `Commit`, `Rollback` and `Close`.
- `schema_upgrader.dfy` (module `SchemaUpgrader`): `GetVersionOf`, the
  `VersionBuilder` oracle, and the methods `UpgradeVersion`, `BuildVersion`,
  `BuildSteps` (its loop), `TryVersion` (one pass of the loop body), `CreateVersionsTable`,
  `AppendVersion` and `InvokeBuilder`. Each method is proved equal to a
  specification function over `Db` (`Upgrade`, `BuildSpec`, `Step`, `Steps`,
  `Build`, and the `Jdbc` transitions).
- `upgrade_properties.dfy` (modules `UpgradeProperties`, `MessageProperties`):
  the closed-form behaviour of an upgrade and its invariants, plus the
  assertion message.
- `use_cases.dfy` (module `UseCases`): the scenarios of the use-case tests.
- `loop_bounds.dfy` (module `LoopBounds`): the loop counter in 32-bit
  arithmetic (see Findings).

How the source's collaborators are represented:

- A `VersionBuilder` is either `NullBuilder` (a null reference) or
  `VersionBuilder(build)`. `build(v)` is `None` when building `v` returns
  normally and `Some(message)` when it throws `Exception(message)`.
- Each invocation adds the token `v` to the open transaction's builder
  changes, whether the build completes or fails part-way. `Commit` makes the
  token durable and `Rollback` discards it. This is how the model states that
  a failing version leaves no partial change behind.
- The `built` out-parameter lists, in order, the versions the builder was
  invoked for.
- `Settled(db)` is the bookkeeping invariant: no open transaction, rows
  exactly 1..N, and the committed builder changes exactly those versions.
  `SettledSteps` is an independent closed form of the loop from a settled
  database, written with `FirstFault`, the first version whose step throws.

Behaviour of the code that the model keeps on purpose:

- Any `SQLException` from the version query reads as -1, not only a missing
  table (`Faults.queryFails`). `UpgradeMisreadsQueryFault` shows the
  consequence: the bootstrap DDL then fails on the existing table.
- A null builder fails with a null reference only after a missing `versions`
  table has been created. That table stays (`NullBuilderFailsWhenStepsAreNeeded`).
  The database is therefore not unchanged in that case.
- The rollback also covers a failing `commit()`, not only the builder and the
  insert.
- An exception thrown by `rollback()` itself replaces the one being rethrown.

## Model

| member | source | states |
|---|---|---|
| `Jdbc.Connection.constructor` | test/schemaupgrader/SchemaUpgraderUseCases.java:39-42 | a new connection reaches a fresh database: open, no `versions` table, no rows, no pending work |
| `Jdbc.Connection.Close` | test/schemaupgrader/SchemaUpgraderUseCases.java:49-52 | closing sets the closed flag and changes nothing else |
| `Jdbc.Connection.Commit` | src/schemaupgrader/SchemaUpgrader.java:82 | commit appends the pending rows and builder changes to the committed ones and empties the transaction; on a closed connection or a refused commit it throws a SQL error and the state is unchanged |
| `Jdbc.Connection.Rollback` | src/schemaupgrader/SchemaUpgrader.java:84 | rollback discards the pending rows and builder changes and keeps the committed ones; on a closed connection it throws a SQL error |
| `SchemaUpgrader.Max` | src/schemaupgrader/SchemaUpgrader.java:39 | `max(number)` is an element of the rows and no row exceeds it |
| `SchemaUpgrader.GetVersionOf` | src/schemaupgrader/SchemaUpgrader.java:35-45 | fails exactly on a closed connection, with the connection's SQL error; -1 when the table is missing or the query fails; 0 for an empty table; otherwise a recorded version that no row exceeds |
| `SchemaUpgrader.Digits` | src/schemaupgrader/SchemaUpgrader.java:62-63 | the printed version is a non-empty string of decimal digits with no leading zero |
| `SchemaUpgrader.InvokeBuilder` | src/schemaupgrader/SchemaUpgrader.java:112-115 | a null builder throws a null reference and changes nothing; otherwise the version's changes join the open transaction and the builder's exception, if any, is thrown unchanged |
| `SchemaUpgrader.CreateVersionsTable` | src/schemaupgrader/SchemaUpgrader.java:92-98 | the table exists afterwards; on a closed connection, an existing table or a refused DDL it throws a SQL error and nothing changes |
| `SchemaUpgrader.AppendVersion` | src/schemaupgrader/SchemaUpgrader.java:102-108 | the row joins the open transaction; a closed connection, a missing table, a duplicate primary key or a refused insert throws a SQL error and nothing changes |
| `SchemaUpgrader.TryVersion` | src/schemaupgrader/SchemaUpgrader.java:79-86 | one pass of the loop body ends in the state and with the exception given by `Step`: build, append, commit, or roll back and rethrow |
| `SchemaUpgrader.BuildSteps` | src/schemaupgrader/SchemaUpgrader.java:78-87 | final state, outcome and builder calls of the loop are those of `Steps`: one pass per version from `from` to the target, stopping at the first exception |
| `SchemaUpgrader.BuildVersion` | src/schemaupgrader/SchemaUpgrader.java:70-88 | final state, outcome and builder calls are those of `BuildSpec`: bootstrap when the version is -1 (a DDL fault ends the call with nothing built), then the loop from version+1 to the target |
| `SchemaUpgrader.UpgradeVersion` | src/schemaupgrader/SchemaUpgrader.java:53-66 | final state, outcome and builder calls are those of `Upgrade`: the negative-target guard, the version query, the greater-than-target guard, then `buildVersion` |
| `UpgradeProperties.VersionOfSettled` | src/schemaupgrader/SchemaUpgrader.java:38-44 | on a settled database the version query reads N, the number of recorded versions, or -1 without the table |
| `UpgradeProperties.StepSettled` | src/schemaupgrader/SchemaUpgrader.java:79-86 | a step from version v-1 either commits exactly row v and its changes, or throws its fault and leaves the database exactly as before |
| `UpgradeProperties.StepsSettled` | src/schemaupgrader/SchemaUpgrader.java:78-87 | the loop from a settled database at v-1 equals the closed form `SettledSteps`: it reaches the target with rows 1..target and builds v..target in ascending order, or it stops at the first faulty version w with rows 1..w-1, rethrows w's fault, and never builds past w |
| `UpgradeProperties.UpgradeEntersLoop` | src/schemaupgrader/SchemaUpgrader.java:74-78 | from a settled database at N, unless the bootstrap DDL is refused, an upgrade to a target at or above N is the loop from N+1 with the table in place |
| `UpgradeProperties.UpgradeFromSettled` | src/schemaupgrader/SchemaUpgrader.java:53-88 | the whole upgrade in closed form: a refused bootstrap DDL propagates with nothing changed; otherwise the result is `SettledSteps` from N+1: success at rows 1..target, or failure at the first faulty version with exactly the earlier versions committed |
| `UpgradeProperties.UpgradeKeepsSettled` | src/schemaupgrader/SchemaUpgrader.java:70-88 | whatever the outcome, recorded versions stay the contiguous run 1..N, no transaction is left open, and committed changes match the recorded rows |
| `UpgradeProperties.UpgradeReachesTarget` | src/schemaupgrader/SchemaUpgrader.java:78-82 | after success the rows are exactly 1..target, the builder ran once for each of N+1..target in ascending order, and the version query reads the target |
| `UpgradeProperties.UpgradeToCurrentIsNoOp` | src/schemaupgrader/SchemaUpgrader.java:78 | an upgrade to the version the database reports succeeds with no builder call and no change |
| `UpgradeProperties.UpgradeTwiceIsNoOp` | test/schemaupgrader/SchemaUpgraderUseCases.java:178-192 | repeating a successful upgrade to the same target, with any builder, does nothing |
| `UpgradeProperties.UpgradeFailureKeepsEarlierCommits` | src/schemaupgrader/SchemaUpgrader.java:74-86 | with the table in place or bootstrapped, a fault at version w is rethrown unchanged, rows are exactly 1..w-1, there is no row w, no transaction is left open, and no version after w is built |
| `UpgradeProperties.UpgradeRejectsNegativeTarget` | src/schemaupgrader/SchemaUpgrader.java:57-59 | a negative target throws `IllegalArgumentException("Expected version < 0.")` with no builder call and no change, even on a closed connection |
| `UpgradeProperties.UpgradeOnClosedConnection` | src/schemaupgrader/SchemaUpgrader.java:60 | on a closed connection an upgrade to a non-negative target throws the connection's SQL error and changes nothing |
| `UpgradeProperties.UpgradeRejectsDowngrade` | src/schemaupgrader/SchemaUpgrader.java:60-64 | a database above the target throws an `AssertionError` whose message names its version, and is left unchanged |
| `UpgradeProperties.UpgradeMisreadsQueryFault` | src/schemaupgrader/SchemaUpgrader.java:41-42 | a failing version query on an existing table is read as a missing table, so the bootstrap DDL fails and that SQL error is thrown with nothing changed |
| `MessageProperties.DigitsRoundTrip` | src/schemaupgrader/SchemaUpgrader.java:62-63 | reading the printed digits back gives the version |
| `MessageProperties.GreaterMessageNamesVersion` | src/schemaupgrader/SchemaUpgrader.java:62-63 | two assertion messages are equal only for the same version |
| `MessageProperties.GreaterMessageForVersionOne` | test/schemaupgrader/SchemaUpgraderUseCases.java:168-169 | the message for version 1 is the one the use case expects |
| `UseCases.FreshDatabaseReadsMinusOne` | test/schemaupgrader/SchemaUpgraderUseCases.java:91-94 | a fresh database reads -1 |
| `UseCases.ClosedConnectionFails` | test/schemaupgrader/SchemaUpgraderUseCases.java:74-86 | on a closed connection both the version query and an upgrade throw the connection's SQL error |
| `UseCases.UpgradeFreshToZero` | test/schemaupgrader/SchemaUpgraderUseCases.java:100-109 | upgrading a fresh database to 0 with a null builder succeeds, creates the empty table and then reads 0 |
| `UseCases.NullBuilderFailsWhenStepsAreNeeded` | test/schemaupgrader/SchemaUpgraderUseCases.java:215-226 | with a null builder an upgrade to 3 throws a null reference, with the table created and no row |
| `UseCases.UpgradeFreshToOne` | test/schemaupgrader/SchemaUpgraderUseCases.java:133-135 | a fresh database upgraded to 1 succeeds with one builder call, holds exactly row 1 and its changes, and reads 1 |
| `UseCases.UpgradeOneToThree` | test/schemaupgrader/SchemaUpgraderUseCases.java:143-148 | from version 1 to 3 the builder runs for 2 then 3, the database holds exactly rows 1, 2, 3 and their changes, and the query reads 3 |
| `UseCases.LowerTargetFails` | test/schemaupgrader/SchemaUpgraderUseCases.java:159-173 | from version 1 an upgrade to 0 throws the expected assertion message and changes nothing |
| `UseCases.SameTargetDoesNothing` | test/schemaupgrader/SchemaUpgraderUseCases.java:178-192 | from version 1 an upgrade to 1 succeeds without building or writing |
| `UseCases.ThrowingBuilderKeepsVersion` | test/schemaupgrader/SchemaUpgraderUseCases.java:231-245 | a builder throwing "test" at version 2 makes the upgrade throw that same exception and leaves version 1 |
| `UseCases.UpgradeTwice` | test/schemaupgrader/SchemaUpgraderUseCases.java:130-154 | on a `Connection` object, upgrading a fresh database to 1 and then to 3 leaves exactly rows 1, 2, 3 and their changes committed, and reads 3 |
| `LoopBounds.Wrap32` | src/schemaupgrader/SchemaUpgrader.java:78 | Java `int` arithmetic: the result is in int range, equals the exact value when that fits, and differs from it by a multiple of 2^32 |
| `LoopBounds.AsWrittenAgreesBelowMax` | src/schemaupgrader/SchemaUpgrader.java:78 | for targets below `Integer.MAX_VALUE` the 32-bit loop visits exactly v..target |
| `LoopBounds.AsWrittenNeverStopsAtMax` | src/schemaupgrader/SchemaUpgrader.java:78 | with target `Integer.MAX_VALUE` the loop guard never ends the loop |
| `LoopBounds.AsWrittenPassesMax` | src/schemaupgrader/SchemaUpgrader.java:78 | from `MAX_VALUE - 1` to `MAX_VALUE` the builder is invoked for `MAX_VALUE` and then `MIN_VALUE` |
| `LoopBounds.AsWrittenRebuildsAtMax` | src/schemaupgrader/SchemaUpgrader.java:78 | from `MAX_VALUE` to `MAX_VALUE` the builder is still invoked, for `MIN_VALUE` |
| `LoopBounds.CorrectedVisitsRange` | src/schemaupgrader/SchemaUpgrader.java:78 | a loop that tests the guard before incrementing visits exactly actual+1..target for all ints, and nothing when they are equal |

## Left out

- A null `Connection` (a `NullPointerException` from the JVM) is not modelled. A null builder is modelled.
- A builder that throws a `java.lang.Error` rather than an `Exception` escapes the `catch` without a rollback. The builder oracle only throws exceptions.
- What a builder does with the connection besides its own changes is not modelled: committing, rolling back or closing it inside `build`. Its changes are one token per version in the open transaction.
- `Statement` and `ResultSet` creation and closing, the SQL text, and the `now()` timestamps in column `ts` are not modelled. Each statement is an abstract state transition.
- `CreateVersionsTable` takes effect at once and leaves the open transaction alone. Whether a DBMS implicitly commits pending work on DDL is not modelled. Autocommit mode is not modelled either: the connection is in manual-commit mode.
- `UpgradeProperties.UpgradeFromSettled` and the other closed-form lemmas assume no uncommitted work at entry. The methods and `Upgrade` allow it: a query then also sees the caller's uncommitted rows, the first commit keeps them and a rollback discards them.
- Version numbers are unbounded integers everywhere except in `LoopBounds`. The 32-bit wrap of the loop counter is modelled only there. Stored `integer` values are unbounded.
- `Faults.commitFails` decides a commit's failure from the batch of rows being committed. The DBMS's real reasons for refusing a statement are not modelled.
- Concurrent upgrades of one database from several connections are not modelled.
- `DatabaseVersions.build` is not modelled beyond the use cases. There it is a builder that returns normally for every version. The tables it creates are not modelled.
- `getVersionOf` is modelled as a function of the connection's state, not as a method on the connection object. It has no side effects.

## Findings

| source | as written | input that shows it | evidently intended | confidence | as-written member | corrected member |
|---|---|---|---|---|---|---|
| src/schemaupgrader/SchemaUpgrader.java:78 | `for (int v = actualVersion + 1; v <= targetVersion; v++)` counts in 32 bits: after `Integer.MAX_VALUE` the counter wraps to `Integer.MIN_VALUE`, which still passes `v <= targetVersion` | `upgradeVersion(c, 2147483647, b)`. From version 2147483646 the builder is invoked for 2147483647 and then for -2147483648. From version 2147483647 it is invoked for -2147483648 although the target equals the current version. | the loop stops after the target, and an upgrade to the current version builds nothing | not executed; follows from Java `int` overflow | `LoopBounds.AsWrittenNeverStopsAtMax` | `LoopBounds.CorrectedVisitsRange` |

The rest of the model counts versions in unbounded integers, as the corrected
loop does. By `UpgradeProperties.StepsSettled`, `SchemaUpgrader.BuildVersion`
and its loop `SchemaUpgrader.BuildSteps` visit exactly current+1..target.
