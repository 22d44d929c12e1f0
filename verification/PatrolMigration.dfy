/** Migration 0013: lock, change with restoration, and the guarded downgrade. */
module PatrolMigration {
  import opened Options
  import opened Kleene
  import opened MigrationConnection

  datatype Table = WorldStates | VisitEntries

  /** A table's CHECKs as the server has them: the old set, the new set, or something else. */
  datatype Definition = Old | New | Unexpected

  type Checks = m: map<Table, Definition> | m.Keys == {WorldStates, VisitEntries}
    witness map[WorldStates := Old, VisitEntries := Old]

  const ORDER: seq<Table> := [WorldStates, VisitEntries]

  datatype PatrolRow = StateRow(schema: string) | EntryRow(schema: string, joined: int)

  const WORLD_SCHEMA := "run-world-state/v1"
  const FOG_WORLD_SCHEMA := "fog-world-state/v1"
  const REGIONAL_ENTRY := "run-regional-entry/v1"
  const FOG_ENTRY := "fog-patrol-entry/v1"

  function TableOf(row: PatrolRow): Table {
    if row.StateRow? then WorldStates else VisitEntries
  }

  /** All of one table's CHECKs together. */
  function RowCheck(def: Definition, row: PatrolRow): Truth {
    match (def, row)
    case (Old, StateRow(s)) => Is(s == WORLD_SCHEMA)
    case (New, StateRow(s)) => Is(s in {WORLD_SCHEMA, FOG_WORLD_SCHEMA})
    case (Old, EntryRow(s, v)) => Is(v == 5).And(Is(s == REGIONAL_ENTRY))
    case (New, EntryRow(s, v)) =>
      Is(s == REGIONAL_ENTRY).And(Is(v == 5)).Or(Is(s == FOG_ENTRY).And(Is(v == 4)))
      .And(Is(s in {REGIONAL_ENTRY, FOG_ENTRY}))
    case (Unexpected, _) => Unknown
  }

  /** The downgrade's evidence probe. */
  function Probe(row: PatrolRow): Truth {
    match row
    case StateRow(s) => Is(s != WORLD_SCHEMA)
    case EntryRow(s, v) => Is(s != REGIONAL_ENTRY).Or(Is(v != 5))
  }

  /** The old CHECKs accept one schema per table, and entries at version 5; the new ones also the patrol's, at version 4. */
  lemma AcceptedRows(row: PatrolRow)
    ensures RowCheck(Old, row).Accepts() <==>
      row in {StateRow("run-world-state/v1"), EntryRow("run-regional-entry/v1", 5)}
    ensures RowCheck(New, row).Accepts() <==>
      || row in {StateRow("run-world-state/v1"), EntryRow("run-regional-entry/v1", 5)}
      || row in {StateRow("fog-world-state/v1"), EntryRow("fog-patrol-entry/v1", 4)}
  {
  }

  /** The upgrade only weakens, and the probe finds exactly the rows that the downgrade cannot keep. */
  lemma WeakenedAndProbedExactly(row: PatrolRow)
    ensures RowCheck(Old, row).Accepts() ==> RowCheck(New, row).Accepts()
    ensures RowCheck(New, row).Accepts() ==> (Probe(row).Matches() <==> !RowCheck(Old, row).Accepts())
  {
  }

  predicate Legal(checks: Checks, row: PatrolRow) {
    RowCheck(checks[TableOf(row)], row).Accepts()
  }

  datatype Change =
    | Changed
    | Rejected(fault: Fault)
    | Undone(primary: Fault, completed: seq<Table>, restoration: Option<Fault>)

  datatype Exit =
    | Finished
    | NotLocked(fault: Fault)
    | Failed(change: Change, cleanup: Option<Fault>)
    | Refused(cleanup: Option<Fault>)
    | NotReleased(fault: Fault)

  predicate AllAre(checks: Checks, def: Definition) {
    forall t :: t in ORDER ==> checks[t] == def
  }

  /** Every table has one of the two definitions. */
  predicate Between(checks: Checks, before: Definition, after: Definition) {
    forall t :: t in ORDER ==> checks[t] in {before, after}
  }

  class Patrol {
    const connection: Connection
    /** The server: the tables' CHECKs, and the rows, which the lock keeps fixed. */
    var checks: Checks
    const rows: set<PatrolRow>
    /** GET_LOCK last replied 1. */
    var granted: bool

    constructor (connection: Connection, checks: Checks, rows: set<PatrolRow>)
      ensures this.connection == connection && this.checks == checks && this.rows == rows && !granted
    {
      this.connection, this.checks, this.rows, granted := connection, checks, rows, false;
    }

    /** The inspection returns only if every CHECK is enforced and matches. */
    method Check(expected: Definition) returns (fault: Option<Fault>)
      modifies connection`invalidated, connection`owner
      ensures connection.owner ==> old(connection.owner)
      ensures fault.None? ==> AllAre(checks, expected)
    {
      for i := 0 to |ORDER|
        invariant connection.owner ==> old(connection.owner)
        invariant forall j :: 0 <= j < i ==> checks[ORDER[j]] == expected
      {
        fault := connection.Run();
        if fault.Some? { return; }
        var enforced: bool := *;
        if checks[ORDER[i]] != expected || !enforced { return Some(Ordinary(false)); }
      }
      fault := None;
    }

    /** One ALTER per table replaces all its CHECKs atomically; it may take effect and still raise. */
    method Alter(table: Table, def: Definition) returns (fault: Option<Fault>)
      modifies connection`invalidated, connection`owner, this`checks
      ensures connection.owner ==> old(connection.owner)
      ensures checks == old(checks)[table := def] || (fault.Some? && checks == old(checks))
    {
      fault := connection.Run();
      var effective: bool := *;
      if fault.None? || effective {
        checks := checks[table := def];
      }
    }

    /** Takes every table from `before` to `after`; on failure takes the completed ones back. */
    method Change(before: Definition, after: Definition) returns (result: Change)
      requires before != after
      modifies connection`invalidated, connection`owner, this`checks
      ensures connection.owner ==> old(connection.owner)
      ensures result.Changed? ==> AllAre(checks, after)
      ensures result.Rejected? ==> checks == old(checks)
      ensures !result.Rejected? ==> AllAre(old(checks), before)
      ensures result.Undone? ==> result.completed <= ORDER
      ensures result.Undone? && result.restoration.None? ==> AllAre(checks, before)
      ensures !result.Rejected? ==> Between(checks, before, after)
    {
      var fault := Check(before);
      if fault.Some? { return Rejected(fault.value); }
      var changed: seq<Table> := [];
      var primary: Option<Fault> := None;
      for i := 0 to |ORDER|
        invariant connection.owner ==> old(connection.owner)
        invariant primary.None? && changed == ORDER[..i]
        invariant Between(checks, before, after)
        invariant forall j :: 0 <= j < |ORDER| ==> checks[ORDER[j]] == if j < i then after else before
      {
        primary := Alter(ORDER[i], after);
        if primary.Some? { break; }
        changed := changed + [ORDER[i]];
      }
      if primary.None? {
        primary := Check(after);
      }
      if primary.None? { return Changed; }
      var restoration := Restore(changed, before, after);
      result := Undone(primary.value, changed, restoration);
    }

    /** Takes the completed tables back in reverse order and inspects the result. */
    method Restore(changed: seq<Table>, before: Definition, after: Definition) returns (restoration: Option<Fault>)
      requires before != after && Between(checks, before, after)
      modifies connection`invalidated, connection`owner, this`checks
      ensures connection.owner ==> old(connection.owner)
      ensures restoration.None? ==> AllAre(checks, before)
      ensures Between(checks, before, after)
      ensures forall t :: t in ORDER && t !in changed ==> checks[t] == old(checks)[t]
    {
      var i := |changed|;
      while i > 0
        invariant connection.owner ==> old(connection.owner)
        invariant 0 <= i <= |changed|
        invariant Between(checks, before, after)
        invariant forall t :: t in ORDER && t !in changed ==> checks[t] == old(checks)[t]
      {
        i := i - 1;
        restoration := Alter(changed[i], before);
        if restoration.Some? { return; }
      }
      restoration := Check(before);
    }

    /** Enters the lock; unlike the other migrations, every failure, a timeout included, disposes. */
    method Enter() returns (fault: Option<Fault>)
      requires !connection.owner
      modifies connection, this`granted
      ensures fault.None? ==> granted && connection.discards == old(connection.discards)
      ensures fault.Some? ==> connection.NoLeak() && connection.discards == old(connection.discards) + 1
    {
      var reply := connection.GetLock();
      granted := reply == Value(1);
      if reply == Value(1) { return None; }
      var disposal := connection.Discard();
      fault := Some(if reply.Raises? then reply.fault else Ordinary(false));
    }

    /** Leaves the lock; only the reply 1 counts as a release. */
    method Leave() returns (cleanup: Option<Fault>)
      modifies connection
      ensures connection.NoLeak()
      ensures cleanup.None? ==> !connection.owner && connection.discards == old(connection.discards)
      ensures cleanup.Some? ==> connection.discards == old(connection.discards) + 1
    {
      var reply := connection.ReleaseLock();
      if reply == Value(1) { return None; }
      var disposal := connection.Discard();
      cleanup := Some(if reply.Raises? then reply.fault else Ordinary(false));
    }

    method Upgrade() returns (exit: Exit)
      requires !connection.owner
      modifies connection, this`checks, this`granted
      ensures connection.NoLeak()
      ensures checks != old(checks) ==> granted
      ensures connection.discards == old(connection.discards) ==> !connection.owner
      ensures exit.Finished? || exit.NotReleased? ==> AllAre(checks, New)
      ensures exit.Failed? ==> Restored(exit.change, Old)
      ensures exit.NotLocked? ==> checks == old(checks)
      ensures forall row :: row in rows && Legal(old(checks), row) ==> Legal(checks, row)
    {
      var fault := Enter();
      if fault.Some? { return NotLocked(fault.value); }
      var change := Change(Old, New);
      RowsStayLegal(old(checks), change, Old, New);
      var cleanup := Leave();
      exit := if !change.Changed? then Failed(change, cleanup)
        else if cleanup.Some? then NotReleased(cleanup.value) else Finished;
    }

    /** A failed change left the tables alone, or undid it, or says that it could not. */
    predicate Restored(change: Change, before: Definition)
      reads this
    {
      !change.Changed? && (change.Undone? && change.restoration.None? ==> AllAre(checks, before))
    }

    /** The evidence probes, one count per table. */
    method CountEvidence(table: Table) returns (fault: Option<Fault>, found: bool)
      modifies connection`invalidated, connection`owner
      ensures connection.owner ==> old(connection.owner)
      ensures fault.None? ==> (found <==> exists row :: row in rows && TableOf(row) == table && Probe(row).Matches())
    {
      fault := connection.Run();
      found := exists row :: row in rows && TableOf(row) == table && Probe(row).Matches();
    }

    /** The body of the downgrade: Refused means evidence exists or an inspection failed. */
    method Guard() returns (fault: Option<Fault>)
      modifies connection`invalidated, connection`owner
      ensures connection.owner ==> old(connection.owner)
      ensures fault.None? ==> AllAre(checks, New) && forall row :: row in rows ==> !Probe(row).Matches()
    {
      fault := Check(New);
      if fault.Some? { return; }
      for i := 0 to |ORDER|
        invariant connection.owner ==> old(connection.owner)
        invariant forall row :: row in rows && TableOf(row) in ORDER[..i] ==> !Probe(row).Matches()
      {
        var found;
        fault, found := CountEvidence(ORDER[i]);
        if fault.Some? { return; }
        if found { return Some(Ordinary(false)); }
        assert ORDER[..i + 1] == ORDER[..i] + [ORDER[i]];
      }
      assert ORDER[..|ORDER|] == ORDER;
      assert forall row: PatrolRow :: TableOf(row) == ORDER[0] || TableOf(row) == ORDER[1];
      fault := None;
    }

    method Downgrade() returns (exit: Exit)
      requires !connection.owner
      modifies connection, this`checks, this`granted
      ensures connection.NoLeak()
      ensures checks != old(checks) ==> granted
      ensures connection.discards == old(connection.discards) ==> !connection.owner
      ensures exit.Finished? || exit.NotReleased? ==> AllAre(checks, Old)
      ensures exit.Failed? ==> Restored(exit.change, New)
      ensures exit.NotLocked? || exit.Refused? ==> checks == old(checks)
      ensures (exists row :: row in rows && Probe(row).Matches()) ==> checks == old(checks) && !exit.Finished?
      ensures forall row :: row in rows && Legal(old(checks), row) ==> Legal(checks, row)
    {
      var fault := Enter();
      if fault.Some? { return NotLocked(fault.value); }
      var refused := Guard();
      if refused.Some? {
        var cleanup := Leave();
        return Refused(cleanup);
      }
      var change := Change(New, Old);
      RowsStayLegal(old(checks), change, New, Old);
      var cleanup := Leave();
      exit := if !change.Changed? then Failed(change, cleanup)
        else if cleanup.Some? then NotReleased(cleanup.value) else Finished;
    }

    /** Whatever a change did, rows legal before it are legal after it. */
    lemma RowsStayLegal(was: Checks, change: Change, before: Definition, after: Definition)
      requires {before, after} == {Old, New}
      requires change.Rejected? ==> checks == was
      requires !change.Rejected? ==> AllAre(was, before) && Between(checks, before, after)
      requires after.Old? ==> forall row :: row in rows ==> !Probe(row).Matches()
      ensures forall row :: row in rows && Legal(was, row) ==> Legal(checks, row)
    {
      forall row | row in rows && Legal(was, row) ensures Legal(checks, row) {
        WeakenedAndProbedExactly(row);
        assert TableOf(row) == ORDER[0] || TableOf(row) == ORDER[1];
      }
    }
  }
}
