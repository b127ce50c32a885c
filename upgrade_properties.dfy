/**
 * What an upgrade does, stated in closed form over the abstract database.
 *
 * A database is `Settled` when no transaction is open, the recorded versions
 * are exactly 1..N, and the committed builder changes are exactly those of
 * the recorded versions. From a settled database on an open connection an
 * upgrade to a target at or above N invokes the builder for N+1, N+2, ... in
 * ascending order and stops at the first version whose step throws; every
 * version before it stays committed, and nothing of the failing version
 * remains.
 */
module UpgradeProperties {
  import opened Jdbc
  import opened SchemaUpgrader

  /** The versions `lo`, `lo + 1`, ..., `hi` in ascending order. */
  function Range(lo: int, hi: int): (s: seq<int>)
    ensures |s| == if lo <= hi then hi - lo + 1 else 0
    ensures forall i :: 0 <= i < |s| ==> s[i] == lo + i
    decreases hi - lo
  {
    if lo > hi then [] else [lo] + Range(lo + 1, hi)
  }

  lemma RangeExtend(lo: int, hi: int)
    requires lo <= hi + 1
    ensures Range(lo, hi) + [hi + 1] == Range(lo, hi + 1)
  {
    assert (Range(lo, hi) + [hi + 1])[hi + 1 - lo] == hi + 1;
  }

  /** No open transaction, versions 1..N recorded, and exactly their builder changes committed. */
  ghost predicate Settled(db: Db)
  {
    && db.pendingRows == []
    && db.pendingSchema == []
    && db.rows == Range(1, |db.rows|)
    && db.schema == db.rows
    && (!db.tableExists ==> db.rows == [])
  }

  /**
   * The exception the step for version `w` throws on an open connection
   * whose `versions` table holds exactly 1..w-1, or `None` when it commits.
   */
  function StepFault(faults: Faults, b: VersionBuilder, w: int): Option<Error>
  {
    match b
    case NullBuilder => Some(NullPointer)
    case VersionBuilder(build) =>
      if build(w).Some? then Some(BuilderException(build(w).value))
      else if faults.insertFails(w) then Some(SqlError(InsertRejected(w)))
      else if faults.commitFails([w]) then Some(SqlError(CommitRejected))
      else None
  }

  /** The first version in `lo`..`hi` whose step throws, if any. */
  function FirstFault(faults: Faults, b: VersionBuilder, lo: int, hi: int): (w: Option<int>)
    ensures w.Some? ==> lo <= w.value <= hi && StepFault(faults, b, w.value).Some?
    ensures w.Some? ==> forall u :: lo <= u < w.value ==> StepFault(faults, b, u).None?
    ensures w.None? ==> forall u :: lo <= u <= hi ==> StepFault(faults, b, u).None?
    decreases hi - lo
  {
    if lo > hi then None
    else if StepFault(faults, b, lo).Some? then Some(lo)
    else FirstFault(faults, b, lo + 1, hi)
  }

  /** `FirstFault` finds exactly the first faulty version. */
  lemma {:induction false} FirstFaultIs(faults: Faults, b: VersionBuilder, lo: int, hi: int, w: int)
    requires lo <= w <= hi
    requires forall u :: lo <= u < w ==> StepFault(faults, b, u).None?
    requires StepFault(faults, b, w).Some?
    ensures FirstFault(faults, b, lo, hi) == Some(w)
    decreases w - lo
  {
    if lo < w {
      FirstFaultIs(faults, b, lo + 1, hi, w);
    }
  }

  /** The builder invocations of a run that stopped at `w` (none for a null builder). */
  function BuiltUpTo(b: VersionBuilder, lo: int, w: int): seq<int>
  {
    if b.VersionBuilder? then Range(lo, w) else []
  }

  /** The settled database holding versions 1..n, otherwise as `db`, with the table in place. */
  function AtVersion(db: Db, n: int): Db
  {
    db.(tableExists := true, rows := Range(1, n), schema := Range(1, n))
  }

  /** The version query on a settled database reads the number of recorded versions. */
  lemma VersionOfSettled(db: Db, faults: Faults)
    requires Settled(db) && !db.closed
    requires db.tableExists ==> !faults.queryFails
    ensures GetVersionOf(db, faults) == Success(if db.tableExists then |db.rows| else -1)
  {
    if db.tableExists && db.rows != [] {
      var n := |db.rows|;
      var r := GetVersionOf(db, faults);
      assert VisibleRows(db) == db.rows;
      assert db.rows[n - 1] == n;
      assert n in VisibleRows(db);
      forall x | x in db.rows
        ensures x <= n
      {
        var i :| 0 <= i < n && db.rows[i] == x;
      }
      assert r.value in db.rows;
    }
  }

  /** One step from a settled database at version `v - 1`: it commits `v`, or changes nothing and throws. */
  lemma StepSettled(db: Db, faults: Faults, b: VersionBuilder, v: int)
    requires Settled(db) && !db.closed && db.tableExists && v >= 1 && |db.rows| == v - 1
    ensures var s := Step(db, faults, b, v);
            && s.built == (if b.VersionBuilder? then [v] else [])
            && (StepFault(faults, b, v).None? ==> s.outcome == Ok && s.db == AtVersion(db, v))
            && (StepFault(faults, b, v).Some? ==> s.outcome == Fail(StepFault(faults, b, v).value) && s.db == db)
  {
    match b
    case NullBuilder =>
    case VersionBuilder(build) =>
      var built := Build(db, b, v);
      assert built.db == db.(pendingSchema := [v]);
      if build(v).None? {
        assert v !in VisibleRows(built.db);
        var appended := InsertVersion(built.db, faults, v);
        if !faults.insertFails(v) {
          assert appended.db == db.(pendingRows := [v], pendingSchema := [v]);
          if !faults.commitFails([v]) {
            RangeExtend(1, v - 1);
            assert Committed(appended.db, faults).db == AtVersion(db, v);
          }
        }
      }
  }

  /**
   * What the loop from a settled database at version `v - 1` up to `target`
   * does, in closed form: without a fault it reaches `target`; otherwise it
   * stops at the first faulty version `w`, with exactly 1..w-1 committed,
   * the fault rethrown, and the builder invoked for v..w.
   */
  function SettledSteps(db: Db, faults: Faults, b: VersionBuilder, v: int, target: int): Run
  {
    match FirstFault(faults, b, v, target)
    case None => Run(AtVersion(db, target), Ok, Range(v, target))
    case Some(w) => Run(AtVersion(db, w - 1), Fail(StepFault(faults, b, w).value), BuiltUpTo(b, v, w))
  }

  /** The loop from a settled database, after builder calls `done`, is its closed form. */
  lemma {:induction false} StepsSettled(db: Db, faults: Faults, b: VersionBuilder, v: int, target: int, done: seq<int>)
    requires Settled(db) && !db.closed && db.tableExists && v >= 1 && |db.rows| == v - 1
    requires v - 1 <= target
    ensures var c := SettledSteps(db, faults, b, v, target);
            Steps(db, faults, b, v, target, done) == Run(c.db, c.outcome, done + c.built)
    decreases target - v
  {
    if v > target {
      assert done + Range(v, target) == done;
    } else {
      StepSettled(db, faults, b, v);
      StepsUnfold(db, faults, b, v, target, done);
      if StepFault(faults, b, v).None? {
        StepsSettled(AtVersion(db, v), faults, b, v + 1, target, done + [v]);
        match FirstFault(faults, b, v + 1, target)
        case None =>
          PrependVersion(done, v, target);
        case Some(w) =>
          PrependVersion(done, v, w);
      } else {
        assert Range(v, v) == [v];
      }
    }
  }

  lemma PrependVersion(done: seq<int>, v: int, hi: int)
    requires v <= hi
    ensures (done + [v]) + Range(v + 1, hi) == done + Range(v, hi)
  {
    assert [v] + Range(v + 1, hi) == Range(v, hi);
  }

  /**
   * The closed form of an upgrade from a settled database on an open
   * connection whose version query answers truthfully, to a target at or
   * above the current version: the table is bootstrapped if missing (or the
   * DDL fault propagates), then versions N+1.. are built in order up to the
   * target or to the first failing version.
   */
  lemma UpgradeFromSettled(db: Db, faults: Faults, target: int, b: VersionBuilder)
    requires Settled(db) && !db.closed
    requires db.tableExists ==> !faults.queryFails
    requires |db.rows| <= target
    ensures Upgrade(db, faults, target, b)
         == if !db.tableExists && faults.createFails then Run(db, Fail(SqlError(CreateRejected)), [])
            else SettledSteps(db, faults, b, |db.rows| + 1, target)
  {
    VersionOfSettled(db, faults);
    if db.tableExists || !faults.createFails {
      var start := db.(tableExists := true);
      UpgradeEntersLoop(db, faults, target, b);
      StepsSettled(start, faults, b, |db.rows| + 1, target, []);
      var c := SettledSteps(db, faults, b, |db.rows| + 1, target);
      assert SettledSteps(start, faults, b, |db.rows| + 1, target) == c;
      assert [] + c.built == c.built;
    }
  }

  /** Unless the bootstrap DDL fails, an upgrade from a settled database is the loop from N+1 with the table in place. */
  lemma UpgradeEntersLoop(db: Db, faults: Faults, target: int, b: VersionBuilder)
    requires Settled(db) && !db.closed
    requires db.tableExists ==> !faults.queryFails
    requires |db.rows| <= target
    requires db.tableExists || !faults.createFails
    ensures Upgrade(db, faults, target, b) == Steps(db.(tableExists := true), faults, b, |db.rows| + 1, target, [])
  {
    VersionOfSettled(db, faults);
  }

  /** Every upgrade, whatever its outcome, leaves a settled database settled. */
  lemma UpgradeKeepsSettled(db: Db, faults: Faults, target: int, b: VersionBuilder)
    requires Settled(db)
    ensures Settled(Upgrade(db, faults, target, b).db)
  {
    if target >= 0 && !db.closed && !(db.tableExists && faults.queryFails) {
      VersionOfSettled(db, faults);
      if |db.rows| <= target {
        UpgradeFromSettled(db, faults, target, b);
      }
    }
  }

  /** A successful upgrade records exactly 1..target, and the version query then reads the target. */
  lemma UpgradeReachesTarget(db: Db, faults: Faults, target: int, b: VersionBuilder)
    requires Settled(db) && !db.closed && !faults.queryFails
    requires Upgrade(db, faults, target, b).outcome == Ok
    ensures var r := Upgrade(db, faults, target, b);
            && r.db.rows == Range(1, target)
            && r.db.schema == Range(1, target)
            && r.built == Range(|db.rows| + 1, target)
            && GetVersionOf(r.db, faults) == Success(target)
  {
    VersionOfSettled(db, faults);
    UpgradeFromSettled(db, faults, target, b);
    var r := Upgrade(db, faults, target, b);
    VersionOfSettled(r.db, faults);
  }

  /** An upgrade to the version the database already reports builds nothing, writes nothing and succeeds. */
  lemma UpgradeToCurrentIsNoOp(db: Db, faults: Faults, target: int, b: VersionBuilder)
    requires target >= 0 && GetVersionOf(db, faults) == Success(target)
    ensures Upgrade(db, faults, target, b) == Run(db, Ok, [])
  {
  }

  /** Repeating a successful upgrade to the same target, with any builder, does nothing. */
  lemma UpgradeTwiceIsNoOp(db: Db, faults: Faults, target: int, b: VersionBuilder, b': VersionBuilder)
    requires Settled(db) && !db.closed && !faults.queryFails
    requires Upgrade(db, faults, target, b).outcome == Ok
    ensures var r := Upgrade(db, faults, target, b);
            Upgrade(r.db, faults, target, b') == Run(r.db, Ok, [])
  {
    UpgradeReachesTarget(db, faults, target, b);
  }

  /** A failed step at `w` leaves exactly the versions below `w` committed, no row for `w`, and nothing after `w` tried. */
  lemma UpgradeFailureKeepsEarlierCommits(db: Db, faults: Faults, target: int, b: VersionBuilder, w: int)
    requires Settled(db) && !db.closed && !faults.queryFails && (db.tableExists || !faults.createFails)
    requires |db.rows| < w <= target
    requires forall u :: |db.rows| < u < w ==> StepFault(faults, b, u).None?
    requires StepFault(faults, b, w).Some?
    ensures var r := Upgrade(db, faults, target, b);
            && r.outcome == Fail(StepFault(faults, b, w).value)
            && r.db.rows == Range(1, w - 1)
            && w !in r.db.rows
            && r.db.schema == r.db.rows
            && r.db.pendingRows == [] && r.db.pendingSchema == []
            && forall u :: u in r.built ==> u <= w
  {
    FirstFaultIs(faults, b, |db.rows| + 1, target, w);
    UpgradeFromSettled(db, faults, target, b);
    var r := Upgrade(db, faults, target, b);
    var built := BuiltUpTo(b, |db.rows| + 1, w);
    assert r == Run(AtVersion(db, w - 1), Fail(StepFault(faults, b, w).value), built);
    assert w !in Range(1, w - 1);
    forall u | u in built
      ensures u <= w
    {
      var i :| 0 <= i < |built| && built[i] == u;
    }
  }

  /** A negative target is refused with its fixed message before the connection is used, even a closed one. */
  lemma UpgradeRejectsNegativeTarget(db: Db, faults: Faults, target: int, b: VersionBuilder)
    requires target < 0
    ensures Upgrade(db, faults, target, b) == Run(db, Fail(IllegalArgument("Expected version < 0.")), [])
  {
  }

  /** On a closed connection an admissible target fails with the connection's SQL error, and nothing changes. */
  lemma UpgradeOnClosedConnection(db: Db, faults: Faults, target: int, b: VersionBuilder)
    requires db.closed && target >= 0
    ensures Upgrade(db, faults, target, b) == Run(db, Fail(SqlError(ConnectionClosed)), [])
  {
  }

  /** A database already above the target is refused with an assertion failure naming its version, unchanged. */
  lemma UpgradeRejectsDowngrade(db: Db, faults: Faults, target: int, b: VersionBuilder)
    requires Settled(db) && !db.closed && db.tableExists && !faults.queryFails
    requires 0 <= target < |db.rows|
    ensures Upgrade(db, faults, target, b) == Run(db, Fail(AssertionFailed(GreaterMessage(|db.rows|))), [])
  {
    VersionOfSettled(db, faults);
  }

  /**
   * Any failure of the version query reads as a missing table, so when the
   * query fails on an existing table the bootstrap DDL fails and the upgrade
   * throws that SQL error, changing nothing.
   */
  lemma UpgradeMisreadsQueryFault(db: Db, faults: Faults, target: int, b: VersionBuilder)
    requires !db.closed && db.tableExists && faults.queryFails && target >= 0
    ensures Upgrade(db, faults, target, b) == Run(db, Fail(SqlError(TableExists)), [])
  {
  }
}

/** The message of the assertion failure names the version found. */
module MessageProperties {
  import opened SchemaUpgrader

  lemma DigitValueOfChar(d: nat)
    requires d < 10
    ensures DigitValue(DigitChar(d)) == d
  {
    assert "0123456789"[d] as int == '0' as int + d;
  }

  lemma {:induction false} DigitsRoundTrip(n: nat)
    ensures DigitsValue(Digits(n)) == n
    decreases n
  {
    if n < 10 {
      DigitValueOfChar(n);
      assert Digits(n)[..0] == [];
    } else {
      DigitsRoundTrip(n / 10);
      DigitValueOfChar(n % 10);
      var s := Digits(n);
      assert s[..|s| - 1] == Digits(n / 10);
    }
  }

  /** Two assertion messages are equal only for the same version. */
  lemma GreaterMessageNamesVersion(a: nat, b: nat)
    requires GreaterMessage(a) == GreaterMessage(b)
    ensures a == b
  {
    var prefix := "Actual schema version = ";
    var suffix := " is greater than target version.";
    var m := GreaterMessage(a);
    assert m == prefix + Digits(a) + suffix;
    assert m == prefix + Digits(b) + suffix;
    assert |Digits(a)| == |Digits(b)|;
    assert Digits(a) == m[|prefix|..|prefix| + |Digits(a)|];
    assert Digits(b) == m[|prefix|..|prefix| + |Digits(b)|];
    DigitsRoundTrip(a);
    DigitsRoundTrip(b);
  }

  lemma GreaterMessageForVersionOne()
    ensures GreaterMessage(1) == "Actual schema version = " + "1" + " is greater than target version."
  {
    assert DigitChar(1) == '1';
  }
}
