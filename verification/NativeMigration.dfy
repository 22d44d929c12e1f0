/** The lock and DDL protocol shared by migrations 0008 to 0011. */
module NativeMigration {
  import opened Options
  import opened CheckMatrix
  import opened MigrationConnection

  datatype DdlStep = Replace(name: CheckName) | CreateTable(table: string) | DropTable(table: string)

  function NewTables(rev: Revision): seq<string> {
    match rev
    case Rev0009 => ["run_world_states", "run_world_visits", "run_world_positions"]
    case Rev0010 => ["run_world_visit_entries"]
    case _ => []
  }

  function Reverse<T>(s: seq<T>): (r: seq<T>)
    ensures |r| == |s| && forall i :: 0 <= i < |s| ==> r[i] == s[|s| - 1 - i]
  {
    if s == [] then [] else Reverse(s[1..]) + [s[0]]
  }

  function Replacements(names: seq<CheckName>): (r: seq<DdlStep>)
    ensures |r| == |names| && forall i :: 0 <= i < |names| ==> r[i] == Replace(names[i])
  {
    seq(|names|, i requires 0 <= i < |names| => Replace(names[i]))
  }

  function Creations(tables: seq<string>): (r: seq<DdlStep>)
    ensures |r| == |tables| && forall i :: 0 <= i < |tables| ==> r[i] == CreateTable(tables[i])
  {
    seq(|tables|, i requires 0 <= i < |tables| => CreateTable(tables[i]))
  }

  function Drops(tables: seq<string>): (r: seq<DdlStep>)
    ensures |r| == |tables| && forall i :: 0 <= i < |tables| ==> r[i] == DropTable(tables[i])
  {
    seq(|tables|, i requires 0 <= i < |tables| => DropTable(tables[i]))
  }

  /** The DDL statements in order. Migration 0009 creates its tables first and drops them last; from 0010 on a
      downgrade undoes the upgrade backwards. */
  function Plan(rev: Revision, upgrading: bool): seq<DdlStep> {
    var names, tables := Constraints(rev), NewTables(rev);
    if rev.Number() <= 9 then
      if upgrading then Creations(tables) + Replacements(names) else Replacements(names) + Drops(Reverse(tables))
    else
      if upgrading then Replacements(names) + Creations(tables) else Drops(Reverse(tables)) + Replacements(Reverse(names))
  }

  /** The constraints with their new definition before the migration, and after all of it. */
  function Start(rev: Revision, upgrading: bool): set<CheckName> { if upgrading then {} else Names(rev) }

  function End(rev: Revision, upgrading: bool): set<CheckName> { Start(rev, !upgrading) }

  function Names(rev: Revision): set<CheckName> { set i | 0 <= i < |Constraints(rev)| :: Constraints(rev)[i] }

  function Effect(inForce: set<CheckName>, step: DdlStep, upgrading: bool): set<CheckName> {
    match step
    case Replace(name) => if upgrading then inForce + {name} else inForce - {name}
    case _ => inForce
  }

  function Replaced(inForce: set<CheckName>, steps: seq<DdlStep>, upgrading: bool): set<CheckName> {
    if steps == [] then inForce
    else Effect(Replaced(inForce, steps[..|steps| - 1], upgrading), steps[|steps| - 1], upgrading)
  }

  lemma ReplacedStep(inForce: set<CheckName>, plan: seq<DdlStep>, j: nat, upgrading: bool)
    requires j < |plan|
    ensures Replaced(inForce, plan[..j + 1], upgrading) == Effect(Replaced(inForce, plan[..j], upgrading), plan[j], upgrading)
  {
    assert plan[..j + 1][..j] == plan[..j];
  }

  lemma {:induction false} ReplacedMembers(inForce: set<CheckName>, steps: seq<DdlStep>, upgrading: bool, name: CheckName)
    ensures name in Replaced(inForce, steps, upgrading) <==>
      if upgrading then name in inForce || Replace(name) in steps else name in inForce && Replace(name) !in steps
  {
    if steps != [] {
      ReplacedMembers(inForce, steps[..|steps| - 1], upgrading, name);
      assert steps == steps[..|steps| - 1] + [steps[|steps| - 1]];
    }
  }

  lemma PlanReplaces(rev: Revision, upgrading: bool, name: CheckName)
    ensures Replace(name) in Plan(rev, upgrading) <==> name in Names(rev)
  {
    var names, tables := Constraints(rev), NewTables(rev);
    ReplacesExactly(names, name);
    ReplacesExactly(Reverse(names), name);
    if name in Names(rev) {
      var i :| 0 <= i < |names| && names[i] == name;
      assert Reverse(names)[|names| - 1 - i] == name;
    }
  }

  lemma ReplacesExactly(names: seq<CheckName>, name: CheckName)
    ensures Replace(name) in Replacements(names) <==> name in names
  {
    if name in names {
      var i :| 0 <= i < |names| && names[i] == name;
      assert Replacements(names)[i] == Replace(name);
    }
  }

  /** The whole plan replaces every constraint, whatever was replaced before it. */
  lemma PlanEnds(rev: Revision, upgrading: bool, inForce: set<CheckName>)
    requires inForce <= Names(rev)
    ensures Replaced(inForce, Plan(rev, upgrading), upgrading) == End(rev, upgrading)
  {
    forall name: CheckName
      ensures name in Replaced(inForce, Plan(rev, upgrading), upgrading) <==> name in End(rev, upgrading)
    {
      ReplacedMembers(inForce, Plan(rev, upgrading), upgrading, name);
      PlanReplaces(rev, upgrading, name);
    }
  }

  // ---- the tables ----

  /** The tables that come and go with a migration. */
  function OwnTables(rev: Revision): set<string> {
    match rev
    case Rev0009 => {"run_world_states", "run_world_visits", "run_world_positions"}
    case Rev0010 => {"run_world_visit_entries"}
    case _ => {}
  }

  lemma AllOrNone(tables: set<string>, own: set<string>)
    ensures tables * own == own ==> own <= tables
    ensures tables * own == {} ==> own !! tables
  {
    forall name | name in own ensures (tables * own == own ==> name in tables) && (tables * own == {} ==> name !in tables) {
      assert name in tables * own <==> name in tables;
    }
  }

  function Tabled(tables: set<string>, step: DdlStep): set<string> {
    match step
    case CreateTable(name) => tables + {name}
    case DropTable(name) => tables - {name}
    case Replace(_) => tables
  }

  function TablesAfter(tables: set<string>, steps: seq<DdlStep>): set<string> {
    if steps == [] then tables else Tabled(TablesAfter(tables, steps[..|steps| - 1]), steps[|steps| - 1])
  }

  lemma TabledStep(tables: set<string>, plan: seq<DdlStep>, j: nat)
    requires j < |plan|
    ensures TablesAfter(tables, plan[..j + 1]) == Tabled(TablesAfter(tables, plan[..j]), plan[j])
  {
    assert plan[..j + 1][..j] == plan[..j];
  }

  lemma {:induction false} TabledMembers(tables: set<string>, steps: seq<DdlStep>, name: string)
    ensures DropTable(name) !in steps ==> (name in TablesAfter(tables, steps) <==> name in tables || CreateTable(name) in steps)
    ensures CreateTable(name) !in steps ==>
      (name in TablesAfter(tables, steps) <==> name in tables && DropTable(name) !in steps)
  {
    if steps != [] {
      TabledMembers(tables, steps[..|steps| - 1], name);
      assert steps == steps[..|steps| - 1] + [steps[|steps| - 1]];
    }
  }

  /** An upgrade creates exactly the migration's own tables, and a downgrade drops exactly those. */
  lemma PlanTables(rev: Revision, upgrading: bool, tables: set<string>)
    ensures TablesAfter(tables, Plan(rev, upgrading)) == if upgrading then tables + OwnTables(rev) else tables - OwnTables(rev)
  {
    forall name: string ensures
      name in TablesAfter(tables, Plan(rev, upgrading)) <==>
        name in (if upgrading then tables + OwnTables(rev) else tables - OwnTables(rev))
    {
      PlanCreates(rev, upgrading, name);
      TabledMembers(tables, Plan(rev, upgrading), name);
    }
  }

  lemma PlanCreates(rev: Revision, upgrading: bool, name: string)
    ensures CreateTable(name) in Plan(rev, upgrading) <==> upgrading && name in OwnTables(rev)
    ensures DropTable(name) in Plan(rev, upgrading) <==> !upgrading && name in OwnTables(rev)
  {
    match rev
    case Rev0009 =>
      NinthCreates(upgrading, name);
    case Rev0010 =>
      TenthCreates(upgrading, name);
    case _ =>
      PlanWritten(rev, upgrading);
  }

  lemma NinthCreates(upgrading: bool, name: string)
    ensures CreateTable(name) in Plan(Rev0009, upgrading) <==> upgrading && name in OwnTables(Rev0009)
    ensures DropTable(name) in Plan(Rev0009, upgrading) <==> !upgrading && name in OwnTables(Rev0009)
  {
    NinthWritten();
  }

  lemma TenthCreates(upgrading: bool, name: string)
    ensures CreateTable(name) in Plan(Rev0010, upgrading) <==> upgrading && name in OwnTables(Rev0010)
    ensures DropTable(name) in Plan(Rev0010, upgrading) <==> !upgrading && name in OwnTables(Rev0010)
  {
    TenthWritten();
  }

  // ---- the plans, written out ----

  lemma ReverseThree<T>(a: T, b: T, c: T)
    ensures Reverse([a, b, c]) == [c, b, a]
  {
  }

  lemma ReverseSix<T>(a: T, b: T, c: T, d: T, e: T, f: T)
    ensures Reverse([a, b, c, d, e, f]) == [f, e, d, c, b, a]
  {
  }

  lemma ReplacementsThree(a: CheckName, b: CheckName, c: CheckName)
    ensures Replacements([a, b, c]) == [Replace(a), Replace(b), Replace(c)]
  {
  }

  lemma ReplacementsSix(a: CheckName, b: CheckName, c: CheckName, d: CheckName, e: CheckName, f: CheckName)
    ensures Replacements([a, b, c, d, e, f]) == [Replace(a), Replace(b), Replace(c), Replace(d), Replace(e), Replace(f)]
  {
  }

  lemma TablesThree(a: string, b: string, c: string)
    ensures Creations([a, b, c]) == [CreateTable(a), CreateTable(b), CreateTable(c)]
    ensures Drops(Reverse([a, b, c])) == [DropTable(c), DropTable(b), DropTable(a)]
  {
    ReverseThree(a, b, c);
  }

  lemma TablesOne(a: string)
    ensures Creations([a]) == [CreateTable(a)] && Drops(Reverse([a])) == [DropTable(a)]
  {
  }

  /** Every statement of every migration, in its order. */
  lemma PlanWritten(rev: Revision, upgrading: bool)
    ensures Plan(rev, upgrading) ==
      match (rev, upgrading)
      case (Rev0009, true) =>
        [CreateTable("run_world_states"), CreateTable("run_world_visits"), CreateTable("run_world_positions"),
         Replace(RevisionsMutation), Replace(CurrentMutation), Replace(ReceiptsProtocol)]
      case (Rev0009, false) =>
        [Replace(RevisionsMutation), Replace(CurrentMutation), Replace(ReceiptsProtocol),
         DropTable("run_world_positions"), DropTable("run_world_visits"), DropTable("run_world_states")]
      case (Rev0010, true) =>
        [Replace(RevisionsMutation), Replace(CurrentMutation), Replace(ReceiptsProtocol), Replace(VisitsVersions),
         Replace(VisitsOrdinalJoin), Replace(PositionsVersions), CreateTable("run_world_visit_entries")]
      case (Rev0010, false) =>
        [DropTable("run_world_visit_entries"), Replace(PositionsVersions), Replace(VisitsOrdinalJoin),
         Replace(VisitsVersions), Replace(ReceiptsProtocol), Replace(CurrentMutation), Replace(RevisionsMutation)]
      case (Rev0011, false) => [Replace(ReceiptsProtocol), Replace(CurrentMutation), Replace(RevisionsMutation)]
      case _ => [Replace(RevisionsMutation), Replace(CurrentMutation), Replace(ReceiptsProtocol)]
  {
    match rev
    case Rev0009 =>
      NinthWritten();
    case Rev0010 =>
      TenthWritten();
    case Rev0011 =>
      EleventhWritten();
    case _ =>
      ReplacementsThree(RevisionsMutation, CurrentMutation, ReceiptsProtocol);
  }

  lemma NinthWritten()
    ensures Plan(Rev0009, true) ==
      [CreateTable("run_world_states"), CreateTable("run_world_visits"), CreateTable("run_world_positions"),
       Replace(RevisionsMutation), Replace(CurrentMutation), Replace(ReceiptsProtocol)]
    ensures Plan(Rev0009, false) ==
      [Replace(RevisionsMutation), Replace(CurrentMutation), Replace(ReceiptsProtocol),
       DropTable("run_world_positions"), DropTable("run_world_visits"), DropTable("run_world_states")]
  {
    ReplacementsThree(RevisionsMutation, CurrentMutation, ReceiptsProtocol);
    TablesThree("run_world_states", "run_world_visits", "run_world_positions");
  }

  lemma TenthWritten()
    ensures Plan(Rev0010, true) ==
      [Replace(RevisionsMutation), Replace(CurrentMutation), Replace(ReceiptsProtocol), Replace(VisitsVersions),
       Replace(VisitsOrdinalJoin), Replace(PositionsVersions), CreateTable("run_world_visit_entries")]
    ensures Plan(Rev0010, false) ==
      [DropTable("run_world_visit_entries"), Replace(PositionsVersions), Replace(VisitsOrdinalJoin),
       Replace(VisitsVersions), Replace(ReceiptsProtocol), Replace(CurrentMutation), Replace(RevisionsMutation)]
  {
    TablesOne("run_world_visit_entries");
    SixWritten();
  }

  lemma EleventhWritten()
    ensures Plan(Rev0011, true) == [Replace(RevisionsMutation), Replace(CurrentMutation), Replace(ReceiptsProtocol)]
    ensures Plan(Rev0011, false) == [Replace(ReceiptsProtocol), Replace(CurrentMutation), Replace(RevisionsMutation)]
  {
    ReplacementsThree(RevisionsMutation, CurrentMutation, ReceiptsProtocol);
    ReverseThree(RevisionsMutation, CurrentMutation, ReceiptsProtocol);
    ReplacementsThree(ReceiptsProtocol, CurrentMutation, RevisionsMutation);
  }

  lemma SixWritten()
    ensures Replacements(Constraints(Rev0010)) ==
      [Replace(RevisionsMutation), Replace(CurrentMutation), Replace(ReceiptsProtocol), Replace(VisitsVersions),
       Replace(VisitsOrdinalJoin), Replace(PositionsVersions)]
    ensures Replacements(Reverse(Constraints(Rev0010))) ==
      [Replace(PositionsVersions), Replace(VisitsOrdinalJoin), Replace(VisitsVersions), Replace(ReceiptsProtocol),
       Replace(CurrentMutation), Replace(RevisionsMutation)]
  {
    ReplacementsSix(RevisionsMutation, CurrentMutation, ReceiptsProtocol, VisitsVersions, VisitsOrdinalJoin, PositionsVersions);
    ReverseSix(RevisionsMutation, CurrentMutation, ReceiptsProtocol, VisitsVersions, VisitsOrdinalJoin, PositionsVersions);
    ReplacementsSix(PositionsVersions, VisitsOrdinalJoin, VisitsVersions, ReceiptsProtocol, CurrentMutation, RevisionsMutation);
  }

  /** In 0009 every table is created before any constraint changes, and dropped after all of them. */
  lemma TablesAround(i: nat, j: nat)
    ensures var plan := Plan(Rev0009, true);
      i < |plan| && j < |plan| && plan[i].CreateTable? && plan[j].Replace? ==> i < j
    ensures var plan := Plan(Rev0009, false);
      i < |plan| && j < |plan| && plan[i].Replace? && plan[j].DropTable? ==> i < j
  {
    PlanWritten(Rev0009, true);
    PlanWritten(Rev0009, false);
  }

  /** The statement that takes another one back. */
  function Undo(step: DdlStep): DdlStep {
    match step
    case CreateTable(name) => DropTable(name)
    case DropTable(name) => CreateTable(name)
    case Replace(_) => step
  }

  /** From 0010 on the downgrade takes the upgrade back, last statement first. */
  lemma DowngradeIsBackwards(rev: Revision, i: nat)
    requires rev.Number() >= 10 && i < |Plan(rev, true)|
    ensures |Plan(rev, false)| == |Plan(rev, true)|
    ensures Plan(rev, false)[i] == Undo(Plan(rev, true)[|Plan(rev, true)| - 1 - i])
  {
    PlanWritten(rev, true);
    PlanWritten(rev, false);
  }

  /** A row satisfies every constraint as it is now defined. */
  predicate LegalNow(rev: Revision, inForce: set<CheckName>, row: Row)
    requires !rev.Rev0007?
  {
    forall i :: 0 <= i < |Constraints(rev)| ==>
      Definition(Constraints(rev)[i], if Constraints(rev)[i] in inForce then rev else rev.Previous(), row).Accepts()
  }

  /** A row that is legal when the migration starts, and unprobed if it is a downgrade, is legal whatever
      constraints have been replaced, in whatever order. */
  lemma RowStaysLegal(rev: Revision, upgrading: bool, now: set<CheckName>, row: Row)
    requires !rev.Rev0007? && LegalNow(rev, Start(rev, upgrading), row)
    requires upgrading || !Probe(rev, row).Matches()
    ensures LegalNow(rev, now, row)
  {
    var names := Constraints(rev);
    if upgrading {
      assert LegalAt(rev, 0, row);
      UpgradeKeepsRowsLegal(rev, |names|, row);
    } else {
      assert LegalAt(rev, |names|, row);
      DowngradeKeepsRowsLegal(rev, 0, row);
    }
  }

  /** Outside 0010 the start does not matter: a row legal under any mixture stays legal as more is replaced. */
  lemma MixtureStaysLegal(rev: Revision, upgrading: bool, before: set<CheckName>, now: set<CheckName>, row: Row)
    requires !rev.Rev0007? && !rev.Rev0010? && LegalNow(rev, before, row)
    requires if upgrading then before <= now else now <= before && !Probe(rev, row).Matches()
    ensures LegalNow(rev, now, row)
  {
    var names := Constraints(rev);
    forall i | 0 <= i < |names|
      ensures Definition(names[i], if names[i] in now then rev else rev.Previous(), row).Accepts()
    {
      if names[i] in now && names[i] !in before {
        Weakened(rev, names[i], row);
      } else if names[i] in before && names[i] !in now {
        Unprobed(rev, names[i], row);
      }
    }
  }

  lemma ReplacedMonotone(inForce: set<CheckName>, steps: seq<DdlStep>, upgrading: bool)
    ensures var now := Replaced(inForce, steps, upgrading);
      if upgrading then inForce <= now else now <= inForce
  {
    forall name: CheckName ensures
      var now := Replaced(inForce, steps, upgrading);
      if upgrading then name in inForce ==> name in now else name in now ==> name in inForce
    {
      ReplacedMembers(inForce, steps, upgrading, name);
    }
  }

  // ---- the protocol ----

  datatype AcquireStage = Before | Pending | After

  datatype Table = Revisions | Current | Receipts | Visits | Positions

  datatype Stage = BeforeProbes | ProbeOf(table: Table) | ProbeEvidence | Ddl(step: DdlStep) | AfterDdlPreflight

  /** The errors the migration raises itself. */
  datatype Code =
    | AcquireConnectionLost(at: AcquireStage)
    | AcquireTimeout
    | AcquireNull
    | AcquireInvalidResult
    | AcquireStatementFailed
    | BodyConnectionLost(stage: Stage)
    | Refusal
    | UnexpectedSchema
    | ReleaseConnectionLostBefore
    | ReleaseConnectionLostPending
    | ReleaseNotOwner
    | ReleaseNull
    | ReleaseInvalidResult
    | ReleaseStatementFailed

  datatype Error = Own(code: Code) | Foreign(fault: Fault)

  /** How the migration ends. A primary error carries the completed steps, the stage it failed in
      and the error of the lock's release, if any. */
  datatype Exit =
    | Finished
    | NotAcquired(error: Error)
    | Failed(error: Error, completed: seq<DdlStep>, stage: Stage, cleanup: Option<Error>)
    | NotReleased(error: Error)

  type Amended = rev: Revision | !rev.Rev0007? witness Rev0008

  function TableOf(row: Row): Table {
    match row
    case RevisionRow(_) => Revisions
    case CurrentRow(_) => Current
    case ReceiptOf(_) => Receipts
    case VisitOf(_) => Visits
    case PositionOf(_) => Positions
  }

  /** The tables a downgrade probes, in its order. */
  function Probed(rev: Amended): seq<Table> {
    if rev.Rev0009? || rev.Rev0010? then [Visits, Positions, Current, Revisions, Receipts]
    else [Revisions, Current, Receipts]
  }

  predicate ProbeHits(rev: Revision, table: Table, row: Row)
    requires !rev.Rev0007?
  {
    TableOf(row) == table && Probe(rev, row).Matches()
  }

  /** No row of a table that is not probed needs a probe. */
  lemma ProbedEnough(rev: Amended, row: Row)
    requires Probe(rev, row).Matches()
    ensures exists i :: 0 <= i < |Probed(rev)| && Probed(rev)[i] == TableOf(row)
  {
    var tables := Probed(rev);
    if rev.Rev0009? || rev.Rev0010? {
      assert tables[0] == Visits && tables[1] == Positions && tables[2] == Current && tables[3] == Revisions && tables[4] == Receipts;
    } else {
      assert tables[0] == Revisions && tables[1] == Current && tables[2] == Receipts;
    }
  }

  class Migration {
    const connection: Connection
    const rev: Amended
    /** The server: DDL statements that took effect, constraints with their new definition, and the
        rows of the tables concerned, which the probes' row locks and the named lock keep fixed. */
    var applied: seq<DdlStep>
    var inForce: set<CheckName>
    const rows: set<Row>
    var tables: set<string>
    /** GET_LOCK last replied 1, or 0; RELEASE_LOCK last replied 1. */
    var granted: bool
    var timedOut: bool
    var released: bool

    constructor (connection: Connection, rev: Amended, rows: set<Row>, inForce: set<CheckName>, tables: set<string>)
      ensures this.connection == connection && this.rev == rev && this.rows == rows
      ensures this.inForce == inForce && this.tables == tables
      ensures applied == [] && !granted && !timedOut && !released
    {
      this.connection, this.rev, this.rows, this.inForce, this.tables := connection, rev, rows, inForce, tables;
      applied, granted, timedOut, released := [], false, false, false;
    }

    predicate Lost(fault: Option<Fault>)
      reads connection
    {
      connection.closed || connection.invalidated || (fault.Some? && fault.value.Ordinary? && fault.value.lossy)
    }

    /** The guarded acquisition: the stage reached, and the error that ended it. */
    method TryAcquire() returns (stage: AcquireStage, error: Option<Error>)
      requires !connection.owner
      modifies connection`invalidated, connection`owner, this`timedOut, this`granted
      ensures error.None? ==> granted
      ensures error == Some(Own(AcquireTimeout)) ==> timedOut && !connection.owner
      ensures error.Some? && error.value.Own? ==>
        error.value.code in {AcquireTimeout, AcquireNull, AcquireInvalidResult, AcquireConnectionLost(Before), AcquireConnectionLost(After)}
    {
      stage, granted := Before, false;
      if Lost(None) { return stage, Some(Own(AcquireConnectionLost(Before))); }
      var fault := connection.Run();
      if fault.Some? { return stage, Some(Foreign(fault.value)); }
      if Lost(None) { return stage, Some(Own(AcquireConnectionLost(Before))); }
      stage := Pending;
      var reply := connection.GetLock();
      timedOut, granted := reply == Value(0), reply == Value(1);
      match reply {
        case Raises(f) => return stage, Some(Foreign(f));
        case Value(n) =>
          if n == 0 { return stage, Some(Own(AcquireTimeout)); }
          if n != 1 { return stage, Some(Own(AcquireInvalidResult)); }
        case NullReply => return stage, Some(Own(AcquireNull));
        case NotAnInt => return stage, Some(Own(AcquireInvalidResult));
      }
      stage := After;
      error := if Lost(None) then Some(Own(AcquireConnectionLost(After))) else None;
    }

    /** Takes the lock; every failure but a timeout disposes of the connection, since a failed
        statement can still have acquired the lock. */
    method Acquire() returns (error: Option<Error>)
      requires !connection.owner
      modifies connection, this`timedOut, this`granted
      ensures error.None? ==> granted
      ensures connection.discards >= old(connection.discards)
      ensures error.Some? && error.value == Own(AcquireTimeout) ==>
        timedOut && !connection.owner && connection.discards == old(connection.discards)
      ensures error.Some? && error.value != Own(AcquireTimeout) ==>
        connection.NoLeak() && connection.discards == old(connection.discards) + 1
      ensures error.None? ==> connection.discards == old(connection.discards)
    {
      var stage, raised := TryAcquire();
      if raised.None? { return None; }
      var selected := raised.value;
      if selected.Foreign? && selected.fault.Ordinary? {
        selected := if Lost(Some(selected.fault)) then Own(AcquireConnectionLost(stage)) else Own(AcquireStatementFailed);
      }
      if selected != Own(AcquireTimeout) {
        var disposal := connection.Discard();
      }
      error := Some(selected);
    }

    /** One DDL statement: the server commits it by itself, so it may have taken effect even if the
        call raises; if the call returns it has. */
    method Alter(upgrading: bool, step: DdlStep) returns (fault: Option<Fault>)
      modifies connection`invalidated, connection`owner, this`applied, this`inForce, this`tables
      ensures connection.owner ==> old(connection.owner)
      ensures Took(old(applied), old(inForce), old(tables), upgrading, step)
        || (fault.Some? && applied == old(applied) && inForce == old(inForce) && tables == old(tables))
    {
      fault := connection.Run();
      var effective: bool := *;
      if fault.None? || effective {
        applied := applied + [step];
        inForce := Effect(inForce, step, upgrading);
        tables := Tabled(tables, step);
      }
    }

    ghost predicate Took(before: seq<DdlStep>, defs: set<CheckName>, was: set<string>, upgrading: bool, step: DdlStep)
      reads this
    {
      applied == before + [step] && inForce == Effect(defs, step, upgrading) && tables == Tabled(was, step)
    }

    /** The schema inspection returns only if every constraint has the definition it should have, and the
        migration's own tables are all there or all missing. */
    method Preflight(expectNew: bool) returns (error: Option<Error>)
      modifies connection`invalidated, connection`owner
      ensures connection.owner ==> old(connection.owner)
      ensures error.None? ==> inForce == (if expectNew then Names(rev) else {})
      ensures error.None? ==> if expectNew then OwnTables(rev) <= tables else OwnTables(rev) !! tables
      ensures error.Some? ==> error.value.Foreign? || error.value.code == UnexpectedSchema
    {
      var fault := connection.Run();
      if fault.Some? { return Some(Foreign(fault.value)); }
      var otherwiseAsExpected: bool := *;
      if otherwiseAsExpected && inForce == (if expectNew then Names(rev) else {})
        && tables * OwnTables(rev) == (if expectNew then OwnTables(rev) else {})
      {
        AllOrNone(tables, OwnTables(rev));
        return None;
      }
      error := Some(Own(UnexpectedSchema));
    }

    /** `SELECT 1 ... FOR UPDATE` over one probed table. */
    method RunProbe(table: Table) returns (fault: Option<Fault>, found: bool)
      modifies connection`invalidated, connection`owner
      ensures connection.owner ==> old(connection.owner)
      ensures fault.None? ==> (found <==> exists row :: row in rows && ProbeHits(rev, table, row))
    {
      fault := connection.Run();
      found := exists row :: row in rows && ProbeHits(rev, table, row);
    }

    /** The downgrade's guard: refuses as soon as a probe finds a row. */
    method Probes() returns (stage: Stage, error: Option<Error>)
      modifies connection`invalidated, connection`owner
      ensures connection.owner ==> old(connection.owner)
      ensures !stage.Ddl?
      ensures error.None? ==> forall row :: row in rows ==> !Probe(rev, row).Matches()
    {
      stage := BeforeProbes;
      var tables := Probed(rev);
      for i := 0 to |tables|
        invariant connection.owner ==> old(connection.owner)
        invariant !stage.Ddl?
        invariant forall k, row :: 0 <= k < i && row in rows ==> !ProbeHits(rev, tables[k], row)
      {
        stage := ProbeOf(tables[i]);
        if Lost(None) { return stage, Some(Own(BodyConnectionLost(stage))); }
        var fault, found := RunProbe(tables[i]);
        if fault.Some? { return stage, Some(Foreign(fault.value)); }
        if found { return stage, Some(Own(Refusal)); }
      }
      forall row | row in rows ensures !Probe(rev, row).Matches() {
        if Probe(rev, row).Matches() {
          ProbedEnough(rev, row);
          assert ProbeHits(rev, TableOf(row), row);
        }
      }
      error := None;
      if rev.Rev0011? {
        stage := ProbeEvidence;
        var fault := connection.Run();
        var unclassifiable: bool := *;
        if fault.Some? { error := Some(Foreign(fault.value)); }
        else if unclassifiable { error := Some(Own(Refusal)); }
      }
    }

    /** How far the plan got: the steps that returned, and what the server has applied. */
    ghost predicate Progress(plan: seq<DdlStep>, upgrading: bool, start: seq<DdlStep>, defs: set<CheckName>,
                             was: set<string>, completed: seq<DdlStep>, extra: nat)
      reads this`applied, this`inForce, this`tables
    {
      && |completed| + extra <= |plan| && extra <= 1
      && completed == plan[..|completed|]
      && applied == start + plan[..|completed| + extra]
      && inForce == Replaced(defs, plan[..|completed| + extra], upgrading)
      && tables == TablesAfter(was, plan[..|completed| + extra])
    }

    /** The DDL loops: `completed` lists exactly the statements that returned. */
    method RunPlan(plan: seq<DdlStep>, upgrading: bool)
      returns (completed: seq<DdlStep>, stage: Stage, error: Option<Error>)
      modifies connection`invalidated, connection`owner, this`applied, this`inForce, this`tables
      ensures connection.owner ==> old(connection.owner)
      ensures Progress(plan, upgrading, old(applied), old(inForce), old(tables), completed, 0)
        || (error.Some? && Progress(plan, upgrading, old(applied), old(inForce), old(tables), completed, 1))
      ensures error.None? ==> completed == plan && Progress(plan, upgrading, old(applied), old(inForce), old(tables), completed, 0)
      ensures error.Some? ==> stage.Ddl?
    {
      completed, stage, error := [], BeforeProbes, None;
      for j := 0 to |plan|
        invariant connection.owner ==> old(connection.owner)
        invariant |completed| == j && Progress(plan, upgrading, old(applied), old(inForce), old(tables), completed, 0)
      {
        var step := plan[j];
        stage := Ddl(step);
        if Lost(None) { return completed, stage, Some(Own(BodyConnectionLost(stage))); }
        ReplacedStep(old(inForce), plan, j, upgrading);
        TabledStep(old(tables), plan, j);
        assert plan[..j + 1] == plan[..j] + [step];
        var fault := Alter(upgrading, step);
        if fault.Some? { return completed, stage, Some(Foreign(fault.value)); }
        completed := completed + [step];
        if Lost(None) { return completed, stage, Some(Own(BodyConnectionLost(stage))); }
      }
    }

    /** A plan run to its end has replaced everything. */
    lemma PlanDone(upgrading: bool, start: seq<DdlStep>, defs: set<CheckName>, was: set<string>)
      requires defs <= Names(rev)
      requires Progress(Plan(rev, upgrading), upgrading, start, defs, was, Plan(rev, upgrading), 0)
      ensures applied == start + Plan(rev, upgrading) && inForce == End(rev, upgrading)
      ensures tables == if upgrading then was + OwnTables(rev) else was - OwnTables(rev)
    {
      var plan := Plan(rev, upgrading);
      assert plan[..|plan|] == plan;
      PlanEnds(rev, upgrading, defs);
      PlanTables(rev, upgrading, was);
    }

    ghost predicate Untouched(start: seq<DdlStep>, defs: set<CheckName>, was: set<string>)
      reads this`applied, this`inForce, this`tables
    {
      applied == start && inForce == defs && tables == was
    }

    /** The plan started: no probe matched on a downgrade, and from 0009 on the schema was as expected. */
    ghost predicate Began(upgrading: bool, start: seq<DdlStep>, defs: set<CheckName>, was: set<string>,
                          completed: seq<DdlStep>)
      reads this`applied, this`inForce, this`tables
    {
      && (rev.Rev0008? || defs == Start(rev, upgrading))
      && (!upgrading ==> forall row :: row in rows ==> !Probe(rev, row).Matches())
      && exists extra: nat :: Progress(Plan(rev, upgrading), upgrading, start, defs, was, completed, extra)
    }

    /** The body up to its first exception. Migration 0008 inspects no schema, 0009 only beforehand. */
    method TryBody(upgrading: bool) returns (completed: seq<DdlStep>, stage: Stage, error: Option<Error>)
      modifies connection`invalidated, connection`owner, this`applied, this`inForce, this`tables
      ensures connection.owner ==> old(connection.owner)
      ensures (Untouched(old(applied), old(inForce), old(tables)) && completed == [] && !stage.Ddl? && error.Some?)
        || Began(upgrading, old(applied), old(inForce), old(tables), completed)
      ensures error.None? ==>
        && completed == Plan(rev, upgrading)
        && Progress(Plan(rev, upgrading), upgrading, old(applied), old(inForce), old(tables), completed, 0)
      ensures applied != old(applied) + completed ==> stage.Ddl?
    {
      completed, stage := [], BeforeProbes;
      if !rev.Rev0008? {
        error := Preflight(!upgrading);
        if error.Some? { return; }
      }
      if !upgrading {
        stage, error := Probes();
        if error.Some? { return; }
      }
      completed, stage, error := RunPlan(Plan(rev, upgrading), upgrading);
      if error.Some? || rev.Rev0008? || rev.Rev0009? { return; }
      stage := AfterDdlPreflight;
      error := Preflight(upgrading);
    }

    /** Every row that was legal under these definitions is legal now. */
    ghost predicate KeptLegal(defs: set<CheckName>)
      reads this`inForce
    {
      forall row :: row in rows && LegalNow(rev, defs, row) ==> LegalNow(rev, inForce, row)
    }

    /** The body, and what it leaves: the finished plan, or what was done when it raised. No row becomes illegal. */
    method Body(upgrading: bool) returns (completed: seq<DdlStep>, stage: Stage, raised: Option<Error>)
      requires inForce <= Names(rev)
      modifies connection`invalidated, connection`owner, this`applied, this`inForce, this`tables
      ensures connection.owner ==> old(connection.owner)
      ensures raised.None? ==> applied == old(applied) + Plan(rev, upgrading) && inForce == End(rev, upgrading)
      ensures raised.None? ==> tables == if upgrading then old(tables) + OwnTables(rev) else old(tables) - OwnTables(rev)
      ensures raised.Some? ==>
        || (Untouched(old(applied), old(inForce), old(tables)) && completed == [])
        || Began(upgrading, old(applied), old(inForce), old(tables), completed)
      ensures applied != old(applied) ==> stage.Ddl? || completed != []
      ensures KeptLegal(old(inForce))
    {
      completed, stage, raised := TryBody(upgrading);
      RowsStayLegal(upgrading, old(applied), old(inForce), old(tables), completed);
      if raised.None? {
        PlanDone(upgrading, old(applied), old(inForce), old(tables));
      }
    }

    /** Gives the lock back; only the reply 1 counts. */
    method Release(observedLoss: Option<Fault>) returns (cleanup: Option<Error>)
      modifies connection`invalidated, connection`owner, this`released
      ensures connection.owner ==> old(connection.owner)
      ensures cleanup.None? <==> released
      ensures cleanup.None? ==> !connection.owner
    {
      released := false;
      if Lost(observedLoss) { return Some(Own(ReleaseConnectionLostBefore)); }
      var reply := connection.ReleaseLock();
      released := reply == Value(1);
      match reply {
        case Value(n) =>
          cleanup := if n == 1 then None else if n == 0 then Some(Own(ReleaseNotOwner)) else Some(Own(ReleaseInvalidResult));
        case NullReply => cleanup := Some(Own(ReleaseNull));
        case NotAnInt => cleanup := Some(Own(ReleaseInvalidResult));
        case Raises(fault) =>
          cleanup := Some(
            if fault.Interrupt? then Foreign(fault)
            else if Lost(Some(fault)) then Own(ReleaseConnectionLostPending) else Own(ReleaseStatementFailed));
      }
    }

    /** An interrupt, or a loss already reported as one. */
    predicate Final(error: Error) {
      (error.Foreign? && error.fault.Interrupt?) || (error.Own? && error.code.BodyConnectionLost?)
    }

    function FaultOf(error: Error): Option<Fault> { if error.Foreign? then Some(error.fault) else None }

    /** After the body: the error it selects, the release, and the disposals. */
    method Settle(completed: seq<DdlStep>, stage: Stage, raised: Option<Error>) returns (exit: Exit)
      modifies connection, this`released
      ensures connection.discards >= old(connection.discards)
      ensures connection.discards == old(connection.discards) ==> released && !connection.owner
      ensures connection.NoLeak()
      ensures exit.Finished? ==> released && !connection.owner && connection.discards == old(connection.discards)
      ensures !exit.NotAcquired? && (exit.Finished? || exit.NotReleased? <==> raised.None?)
      ensures exit.Failed? ==> exit.completed == completed && exit.stage == stage
      ensures exit.Failed? ==> (exit.cleanup.None? <==> released)
      // The error is the one raised, unless it is an ordinary one and the connection was lost with it.
      ensures exit.Failed? ==>
        exit.error == if Final(raised.value) || !old(Lost(FaultOf(raised.value))) then raised.value else Own(BodyConnectionLost(stage))
      ensures exit.Failed? && !rev.Rev0008? && (stage.Ddl? || completed != []) ==>
        connection.closed || connection.discards > old(connection.discards)
    {
      var observedLoss: Option<Fault> := None;
      var primary := raised;
      if raised.Some? && !(raised.value.Foreign? && raised.value.fault.Interrupt?) {
        var fault := if raised.value.Foreign? then Some(raised.value.fault) else None;
        if Lost(fault) && !(raised.value.Own? && raised.value.code.BodyConnectionLost?) {
          observedLoss := fault;
          primary := Some(Own(BodyConnectionLost(stage)));
        }
      }
      var cleanup := Release(observedLoss);
      if cleanup.Some? {
        var disposal := connection.Discard();
      }
      if primary.Some? {
        if !rev.Rev0008? && (stage.Ddl? || completed != []) && !connection.closed {
          var disposal := connection.Discard();
        }
        return Failed(primary.value, completed, stage, cleanup);
      }
      exit := if cleanup.Some? then NotReleased(cleanup.value) else Finished;
    }

    /** The whole migration, against every behaviour of the server and the driver. */
    method Amend(upgrading: bool) returns (exit: Exit)
      requires !connection.owner && inForce <= Names(rev)
      modifies connection, this
      // Lock: released with reply 1, or timed out with reply 0, or the connection was disposed of.
      ensures connection.discards == old(connection.discards) ==> (released || timedOut) && !connection.owner
      ensures connection.NoLeak()
      ensures exit.Finished? ==> released && !connection.owner && connection.discards == old(connection.discards)
      // No statement of the plan runs without the lock.
      ensures exit.Finished? || applied != old(applied) ==> granted
      // DDL: what returned is a prefix of the plan, what the server applied is that or one more.
      ensures exit.Finished? || exit.NotReleased? ==>
        applied == old(applied) + Plan(rev, upgrading) && inForce == End(rev, upgrading)
      ensures exit.Finished? || exit.NotReleased? ==>
        tables == if upgrading then old(tables) + OwnTables(rev) else old(tables) - OwnTables(rev)
      ensures exit.NotAcquired? ==> Untouched(old(applied), old(inForce), old(tables))
      ensures exit.Failed? ==>
        || (Untouched(old(applied), old(inForce), old(tables)) && exit.completed == [])
        || Began(upgrading, old(applied), old(inForce), old(tables), exit.completed)
      ensures exit.Failed? && !rev.Rev0008? && (exit.completed != [] || applied != old(applied)) ==>
        connection.closed || connection.discards > old(connection.discards)
      // Data: no row that was legal becomes illegal, at whatever point the migration stopped.
      ensures KeptLegal(old(inForce))
    {
      released := false;
      var refused := Acquire();
      if refused.Some? { return NotAcquired(refused.value); }
      var completed, stage, raised := Body(upgrading);
      exit := Settle(completed, stage, raised);
    }

    lemma RowsStayLegal(upgrading: bool, start: seq<DdlStep>, defs: set<CheckName>, was: set<string>,
                        completed: seq<DdlStep>)
      requires inForce == defs || Began(upgrading, start, defs, was, completed)
      ensures KeptLegal(defs)
    {
      if inForce != defs {
        var extra: nat :| Progress(Plan(rev, upgrading), upgrading, start, defs, was, completed, extra);
        ReplacedMonotone(defs, Plan(rev, upgrading)[..|completed| + extra], upgrading);
        forall row | row in rows && LegalNow(rev, defs, row) ensures LegalNow(rev, inForce, row) {
          if rev.Rev0008? {
            MixtureStaysLegal(rev, upgrading, defs, inForce, row);
          } else {
            RowStaysLegal(rev, upgrading, inForce, row);
          }
        }
      }
    }
  }
}
