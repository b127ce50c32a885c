/**
 * The scenarios of the upgrader's use cases, stated over the abstract
 * database: an in-memory database reached through a connection that raises
 * no faults of its own, and the example builder, which returns normally for
 * every version.
 */
module UseCases {
  import opened Jdbc
  import opened SchemaUpgrader
  import opened UpgradeProperties
  import MessageProperties

  function NoFaults(): Faults
  {
    Faults(false, false, _ => false, _ => false)
  }

  /** A fresh database: no `versions` table. */
  function Fresh(): Db
  {
    Db(false, false, [], [], [], [])
  }

  /** `DatabaseVersions::build`: returns normally for every version number. */
  function ExampleBuilder(): VersionBuilder
  {
    VersionBuilder(_ => None)
  }

  /** A builder that throws `new Exception(message)` for every version. */
  function ThrowingBuilder(message: string): VersionBuilder
  {
    VersionBuilder(_ => Some(message))
  }

  lemma FreshDatabaseReadsMinusOne()
    ensures GetVersionOf(Fresh(), NoFaults()) == Success(-1)
  {
  }

  lemma ClosedConnectionFails()
    ensures GetVersionOf(Fresh().(closed := true), NoFaults()) == Failure(SqlError(ConnectionClosed))
    ensures Upgrade(Fresh().(closed := true), NoFaults(), 3, ExampleBuilder()).outcome == Fail(SqlError(ConnectionClosed))
  {
  }

  /** Upgrading a fresh database to 0 with a null builder creates the empty table and reads 0. */
  lemma UpgradeFreshToZero()
    ensures var r := Upgrade(Fresh(), NoFaults(), 0, NullBuilder);
            && r == Run(Fresh().(tableExists := true), Ok, [])
            && GetVersionOf(r.db, NoFaults()) == Success(0)
  {
  }

  /** A null builder fails with a null reference as soon as a version must be built; the table created first remains. */
  lemma NullBuilderFailsWhenStepsAreNeeded()
    ensures Upgrade(Fresh(), NoFaults(), 3, NullBuilder) == Run(Fresh().(tableExists := true), Fail(NullPointer), [])
  {
    UpgradeFromSettled(Fresh(), NoFaults(), 3, NullBuilder);
    assert FirstFault(NoFaults(), NullBuilder, 1, 3) == Some(1);
  }

  /** The database at version 1, as the example builder leaves it. */
  function AtOne(): Db
  {
    Db(false, true, [1], [], [1], [])
  }

  /** The database at version 3. */
  function AtThree(): Db
  {
    Db(false, true, [1, 2, 3], [], [1, 2, 3], [])
  }

  lemma UpgradeFreshToOne()
    ensures Upgrade(Fresh(), NoFaults(), 1, ExampleBuilder()) == Run(AtOne(), Ok, [1])
    ensures GetVersionOf(AtOne(), NoFaults()) == Success(1)
  {
    UpgradeFromSettled(Fresh(), NoFaults(), 1, ExampleBuilder());
    assert FirstFault(NoFaults(), ExampleBuilder(), 1, 1) == None;
    assert Range(1, 1) == [1];
  }

  /** From version 1 to 3: the builder runs for 2 then 3, and the table holds 1, 2, 3. */
  lemma UpgradeOneToThree()
    ensures Upgrade(AtOne(), NoFaults(), 3, ExampleBuilder()) == Run(AtThree(), Ok, [2, 3])
    ensures GetVersionOf(AtThree(), NoFaults()) == Success(3)
  {
    assert Range(1, 1) == [1];
    UpgradeFromSettled(AtOne(), NoFaults(), 3, ExampleBuilder());
    assert FirstFault(NoFaults(), ExampleBuilder(), 2, 3) == None;
    assert Range(2, 3) == [2, 3];
    assert Range(1, 3) == [1, 2, 3];
    VersionOfSettled(AtThree(), NoFaults());
  }

  lemma LowerTargetFails()
    ensures Upgrade(AtOne(), NoFaults(), 0, NullBuilder)
         == Run(AtOne(), Fail(AssertionFailed("Actual schema version = " + "1" + " is greater than target version.")), [])
  {
    MessageProperties.GreaterMessageForVersionOne();
  }

  lemma SameTargetDoesNothing()
    ensures Upgrade(AtOne(), NoFaults(), 1, ExampleBuilder()) == Run(AtOne(), Ok, [])
  {
  }

  /** A builder throwing at version 2 leaves the database at version 1, and its exception is the one thrown. */
  lemma ThrowingBuilderKeepsVersion()
    ensures var r := Upgrade(AtOne(), NoFaults(), 2, ThrowingBuilder("test"));
            && r.outcome == Fail(BuilderException("test"))
            && r.db == AtOne()
            && GetVersionOf(r.db, NoFaults()) == Success(1)
  {
    assert Range(1, 1) == [1];
    UpgradeFromSettled(AtOne(), NoFaults(), 2, ThrowingBuilder("test"));
    assert FirstFault(NoFaults(), ThrowingBuilder("test"), 2, 2) == Some(2);
  }

  /** The use case on the connection object: a fresh database upgraded to 1, then to 3. */
  method UpgradeTwice() returns (c: Connection)
    ensures c.State() == AtThree()
    ensures GetVersionOf(c.State(), c.faults) == Success(3)
  {
    c := new Connection(NoFaults());
    var r, built := UpgradeVersion(c, 1, ExampleBuilder());
    UpgradeFreshToOne();
    r, built := UpgradeVersion(c, 3, ExampleBuilder());
    UpgradeOneToThree();
  }
}
