/** The CHECK matrices of migrations 0005 and 0008-0011 and their downgrade probes, in SQL's
    three-valued logic. */
module CheckMatrix {
  import opened Kleene

  const MAX_BIGINT := 0x7fff_ffff_ffff_ffff

  datatype MutationKind =
    | Create
    | AttachSession
    | BindPlayerCharacter
    | TerminateNativeRun
    | ContinueNativeRun
    | TerminateContinuedNativeRun
    | RevisitNativeRegion
    | TerminateRevisitedNativeRun
    | CompleteRevisitedNativeRun
    | OtherKind(text: string)

  datatype Lifecycle = PreFirstTurn | Active | Completed | Terminated | OtherLifecycle(text: string)

  datatype BindingState = ActiveBinding | HistoricalBinding | OtherBinding(text: string)

  /** A row of run_revisions or run_current: nullable columns are Columns. Only run_current has
      the active_player_character_id column. */
  datatype RunRow = RunRow(
    lifecycle: Lifecycle,
    version: int,
    creationOperation: string, creationSource: string, creationAt: int,
    prior: Column<int>,
    kind: MutationKind,
    operation: string, source: string, occurredAt: int,
    boundCharacter: Column<string>,
    contractVersion: Column<string>,
    recordRevision: Column<int>,
    bindingState: Column<BindingState>,
    bindingOperation: Column<string>,
    bindingAuthority: Column<string>,
    boundAt: Column<int>,
    inactivatedAt: Column<int>,
    activeCharacter: Column<string>)

  /** The schema after each migration that touches the matrices. */
  datatype Revision = Rev0007 | Rev0008 | Rev0009 | Rev0010 | Rev0011 {
    function Number(): nat {
      match this
      case Rev0007 => 7
      case Rev0008 => 8
      case Rev0009 => 9
      case Rev0010 => 10
      case Rev0011 => 11
    }

    function Previous(): Revision
      requires !Rev0007?
    {
      match this
      case Rev0008 => Rev0007
      case Rev0009 => Rev0008
      case Rev0010 => Rev0009
      case Rev0011 => Rev0010
    }
  }

  // ---- run_revisions and run_current ----

  function BaseMutation(r: RunRow): Truth {
    Is(r.kind == Create).And(Is(r.version == 1)).And(IsNull(r.prior))
      .And(Is(r.creationOperation == r.operation)).And(Is(r.creationSource == r.source))
      .And(Is(r.creationAt == r.occurredAt))
    .Or(Is(r.kind == AttachSession || r.kind == BindPlayerCharacter).And(Is(2 <= r.version <= MAX_BIGINT))
      .And(Equal(r.prior, Of(r.version - 1))))
  }

  datatype Shape = Shape(prior: int, lifecycle: Lifecycle)

  function NativeShape(kind: MutationKind): Shape {
    match kind
    case ContinueNativeRun => Shape(3, Active)
    case TerminateContinuedNativeRun => Shape(4, Terminated)
    case RevisitNativeRegion => Shape(4, Active)
    case TerminateRevisitedNativeRun => Shape(5, Terminated)
    case CompleteRevisitedNativeRun => Shape(5, Completed)
    case _ => Shape(3, Terminated)
  }

  /** One native branch of the mutation matrix; the last conjuncts only in run_current. */
  function NativeBranch(kind: MutationKind, current: bool, r: RunRow): Truth {
    var shape := NativeShape(kind);
    var active := shape.lifecycle.Active?;
    Is(r.kind == kind).And(NotNull(r.prior)).And(Equal(r.prior, Of(shape.prior)))
      .And(Is(r.version == shape.prior + 1)).And(Is(r.lifecycle == shape.lifecycle))
      .And(NotNull(r.boundCharacter)).And(NotNull(r.contractVersion)).And(NotNull(r.recordRevision))
      .And(NotNull(r.bindingState))
      .And(Equal(r.bindingState, Of(if active then ActiveBinding else HistoricalBinding)))
      .And(NotNull(r.bindingOperation)).And(NotNull(r.bindingAuthority)).And(NotNull(r.boundAt))
      .And(if active then IsNull(r.inactivatedAt)
           else NotNull(r.inactivatedAt).And(Equal(r.inactivatedAt, Of(r.occurredAt))))
      .And(AtLeast(Of(r.occurredAt), r.boundAt))
      .And(if !current then True
           else if active then NotNull(r.activeCharacter).And(Equal(r.activeCharacter, r.boundCharacter))
           else IsNull(r.activeCharacter))
  }

  function MutationMatrix(rev: Revision, current: bool, r: RunRow): Truth
    decreases rev.Number()
  {
    match rev
    case Rev0007 => BaseMutation(r)
    case Rev0008 => BaseMutation(r).Or(NativeBranch(TerminateNativeRun, current, r))
    case Rev0009 => MutationMatrix(Rev0008, current, r).Or(NativeBranch(ContinueNativeRun, current, r))
      .Or(NativeBranch(TerminateContinuedNativeRun, current, r))
    case Rev0010 => MutationMatrix(Rev0009, current, r).Or(NativeBranch(RevisitNativeRegion, current, r))
      .Or(NativeBranch(TerminateRevisitedNativeRun, current, r))
    case Rev0011 => MutationMatrix(Rev0010, current, r).Or(NativeBranch(CompleteRevisitedNativeRun, current, r))
  }

  /** A native branch is two-valued: every comparison of a nullable column is guarded, so a row
      cannot slip through on UNKNOWN. */
  lemma NativeBranchTwoValued(kind: MutationKind, current: bool, r: RunRow)
    ensures !NativeBranch(kind, current, r).Unknown?
  {
  }

  // ---- run_mutation_receipts ----

  datatype ReceiptRow = ReceiptRow(
    namespace: string,
    kind: MutationKind,
    schema: string,
    expected: int,
    resulting: int,
    lifecycle: Lifecycle,
    participationSession: Column<string>,
    participationOperation: Column<string>,
    participationSource: Column<string>,
    resultCharacter: Column<string>,
    resultContract: Column<string>,
    resultRevision: Column<int>)

  function Protocol(kind: MutationKind): string {
    match kind
    case AttachSession => "run.attach-session"
    case BindPlayerCharacter => "run.bind-player-character"
    case TerminateNativeRun => "run.terminate-native"
    case ContinueNativeRun => "run.continue-native"
    case TerminateContinuedNativeRun => "run.terminate-continued-native"
    case RevisitNativeRegion => "run.revisit-native-region"
    case TerminateRevisitedNativeRun => "run.terminate-revisited-native"
    case CompleteRevisitedNativeRun => "run.complete-revisited-native"
    case _ => ""
  }

  function Namespace(kind: MutationKind): string { Protocol(kind) + "/v1" }

  function ResultSchema(kind: MutationKind): string { Protocol(kind) + "-result/v1" }

  function Participation(present: bool, r: ReceiptRow): Truth {
    if present then NotNull(r.participationSession).And(NotNull(r.participationOperation)).And(NotNull(r.participationSource))
    else IsNull(r.participationSession).And(IsNull(r.participationOperation)).And(IsNull(r.participationSource))
  }

  function ResultCharacter(present: bool, r: ReceiptRow): Truth {
    if present then NotNull(r.resultCharacter).And(NotNull(r.resultContract)).And(NotNull(r.resultRevision))
    else IsNull(r.resultCharacter).And(IsNull(r.resultContract)).And(IsNull(r.resultRevision))
  }

  function Identified(kind: MutationKind, r: ReceiptRow): Truth {
    Is(r.namespace == Namespace(kind)).And(Is(r.kind == kind)).And(Is(r.schema == ResultSchema(kind)))
  }

  function NativeReceipt(kind: MutationKind, r: ReceiptRow): Truth {
    var shape := NativeShape(kind);
    Identified(kind, r).And(Is(r.expected == shape.prior)).And(Is(r.resulting == shape.prior + 1))
      .And(Is(r.lifecycle == shape.lifecycle))
      .And(Participation(kind.ContinueNativeRun? || kind.RevisitNativeRegion?, r)).And(ResultCharacter(false, r))
  }

  function ReceiptMatrix(rev: Revision, r: ReceiptRow): Truth
    decreases rev.Number()
  {
    match rev
    case Rev0007 =>
      Identified(AttachSession, r).And(Participation(true, r)).And(ResultCharacter(false, r))
      .Or(Identified(BindPlayerCharacter, r).And(Participation(false, r)).And(ResultCharacter(true, r)))
    case Rev0008 => ReceiptMatrix(Rev0007, r).Or(NativeReceipt(TerminateNativeRun, r))
    case Rev0009 => ReceiptMatrix(Rev0008, r).Or(NativeReceipt(ContinueNativeRun, r))
      .Or(NativeReceipt(TerminateContinuedNativeRun, r))
    case Rev0010 => ReceiptMatrix(Rev0009, r).Or(NativeReceipt(RevisitNativeRegion, r))
      .Or(NativeReceipt(TerminateRevisitedNativeRun, r))
    case Rev0011 => ReceiptMatrix(Rev0010, r).Or(NativeReceipt(CompleteRevisitedNativeRun, r))
  }

  // ---- run_world_visits and run_world_positions: every column NOT NULL ----

  datatype VisitRow = VisitRow(ordinal: int, joined: int, materialized: int, worldVersion: int, regionVersion: int)

  function VisitVersions(rev: Revision, v: VisitRow): Truth {
    Is(1 <= v.worldVersion <= MAX_BIGINT).And(Is(1 <= v.regionVersion <= MAX_BIGINT))
      .And(if rev.Number() < 10 then Is(v.materialized == 4) else Is(v.materialized in {4, 5}))
  }

  function VisitOrdinal(rev: Revision, v: VisitRow): Truth {
    if rev.Number() < 10 then
      Is(v.ordinal == 1).And(Is(v.joined == 3)).Or(Is(v.ordinal == 2).And(Is(v.joined == 4)))
    else
      Is(v.ordinal == 1).And(Is(v.joined == 3)).And(Is(v.materialized == 4))
      .Or(Is(v.ordinal == 2).And(Is(v.joined == 4)).And(Is(v.materialized == 4)))
      .Or(Is(v.ordinal == 3).And(Is(v.joined == 5)).And(Is(v.materialized == 5)))
  }

  function PositionVersions(rev: Revision, position: int): Truth {
    if rev.Number() < 10 then Is(position == 4) else Is(position in {4, 5})
  }

  // ---- a migration, constraint by constraint ----

  datatype Row =
    | RevisionRow(run: RunRow)
    | CurrentRow(run: RunRow)
    | ReceiptOf(receipt: ReceiptRow)
    | VisitOf(visit: VisitRow)
    | PositionOf(position: int)

  datatype CheckName =
    | RevisionsMutation
    | CurrentMutation
    | ReceiptsProtocol
    | VisitsVersions
    | VisitsOrdinalJoin
    | PositionsVersions

  /** The constraints a migration replaces, in the order its upgrade replaces them. */
  function Constraints(rev: Revision): seq<CheckName> {
    if rev.Rev0010? then
      [RevisionsMutation, CurrentMutation, ReceiptsProtocol, VisitsVersions, VisitsOrdinalJoin, PositionsVersions]
    else [RevisionsMutation, CurrentMutation, ReceiptsProtocol]
  }

  /** A constraint as one revision defines it; rows of other tables are not its concern. */
  function Definition(name: CheckName, rev: Revision, row: Row): Truth {
    match (name, row)
    case (RevisionsMutation, RevisionRow(r)) => MutationMatrix(rev, false, r)
    case (CurrentMutation, CurrentRow(r)) => MutationMatrix(rev, true, r)
    case (ReceiptsProtocol, ReceiptOf(r)) => ReceiptMatrix(rev, r)
    case (VisitsVersions, VisitOf(v)) => VisitVersions(rev, v)
    case (VisitsOrdinalJoin, VisitOf(v)) => VisitOrdinal(rev, v)
    case (PositionsVersions, PositionOf(p)) => PositionVersions(rev, p)
    case _ => True
  }

  /** The row satisfies every constraint when the first `applied` of them are the new ones. */
  predicate LegalAt(rev: Revision, applied: nat, row: Row)
    requires !rev.Rev0007?
  {
    forall i :: 0 <= i < |Constraints(rev)| ==>
      Definition(Constraints(rev)[i], if i < applied then rev else rev.Previous(), row).Accepts()
  }

  /** The downgrade's probe of the row's table. */
  function Probe(rev: Revision, row: Row): Truth
    requires !rev.Rev0007?
  {
    match row
    case RevisionRow(r) => RunProbe(rev, r)
    case CurrentRow(r) => RunProbe(rev, r)
    case ReceiptOf(r) => ReceiptProbe(rev, r)
    case VisitOf(v) =>
      if rev.Rev0010? then Is(v.ordinal == 3).Or(Is(v.joined == 5)).Or(Is(v.materialized == 5))
      else if rev.Rev0009? then True
      else False
    case PositionOf(p) => if rev.Rev0010? then Is(p == 5) else if rev.Rev0009? then True else False
  }

  function RunProbe(rev: Revision, r: RunRow): Truth
    requires !rev.Rev0007?
  {
    match rev
    case Rev0008 => Is(r.kind == TerminateNativeRun).Or(Is(r.lifecycle == Terminated))
    case Rev0009 => Is(r.kind in {ContinueNativeRun, TerminateContinuedNativeRun}).Or(Is(r.version >= 5))
      .Or(Is(r.version == 4).And(Is(r.lifecycle == Active)))
    case Rev0010 => Is(r.kind in {RevisitNativeRegion, TerminateRevisitedNativeRun}).Or(Is(r.version == 6))
      .Or(Is(r.version == 5).And(Is(r.lifecycle == Active)))
    case Rev0011 => Is(r.lifecycle == Completed).Or(Is(r.kind == CompleteRevisitedNativeRun))
  }

  function ReceiptProbe(rev: Revision, r: ReceiptRow): Truth
    requires !rev.Rev0007?
  {
    match rev
    case Rev0008 => Is(r.kind == TerminateNativeRun).Or(Is(r.lifecycle == Terminated))
      .Or(Is(r.namespace == Namespace(TerminateNativeRun))).Or(Is(r.schema == ResultSchema(TerminateNativeRun)))
    case Rev0009 =>
      var kinds := {ContinueNativeRun, TerminateContinuedNativeRun};
      Is(r.kind in kinds).Or(Is(r.namespace in {Namespace(ContinueNativeRun), Namespace(TerminateContinuedNativeRun)}))
      .Or(Is(r.schema in {ResultSchema(ContinueNativeRun), ResultSchema(TerminateContinuedNativeRun)}))
      .Or(Is(r.resulting >= 5)).Or(Is(r.resulting == 4).And(Is(r.lifecycle == Active)))
    case Rev0010 =>
      var kinds := {RevisitNativeRegion, TerminateRevisitedNativeRun};
      Is(r.kind in kinds).Or(Is(r.namespace in {Namespace(RevisitNativeRegion), Namespace(TerminateRevisitedNativeRun)}))
      .Or(Is(r.schema in {ResultSchema(RevisitNativeRegion), ResultSchema(TerminateRevisitedNativeRun)}))
      .Or(Is(r.resulting == 6)).Or(Is(r.resulting == 5).And(Is(r.lifecycle == Active)))
    case Rev0011 =>
      Is(r.lifecycle == Completed).Or(Is(r.kind == CompleteRevisitedNativeRun))
      .Or(Is(r.namespace == Namespace(CompleteRevisitedNativeRun)))
      .Or(Is(r.schema == ResultSchema(CompleteRevisitedNativeRun)))
  }

  /** One constraint, upwards: weaker by itself, except that the visit ordinal needs the old visit versions. */
  lemma Weakened(rev: Revision, name: CheckName, row: Row)
    requires !rev.Rev0007? && Definition(name, rev.Previous(), row).Accepts()
    requires row.VisitOf? ==> VisitVersions(rev.Previous(), row.visit).Accepts() || !rev.Rev0010?
    ensures Definition(name, rev, row).Accepts()
  {
    match (name, row)
    case (RevisionsMutation, RevisionRow(r)) =>
    case (CurrentMutation, CurrentRow(r)) =>
    case (ReceiptsProtocol, ReceiptOf(r)) =>
    case _ =>
  }

  /** One constraint, downwards: an unprobed row keeps it. */
  lemma Unprobed(rev: Revision, name: CheckName, row: Row)
    requires !rev.Rev0007? && Definition(name, rev, row).Accepts() && !Probe(rev, row).Matches()
    ensures Definition(name, rev.Previous(), row).Accepts()
  {
    match (name, row)
    case (RevisionsMutation, RevisionRow(r)) =>
      UnprobedRun(rev, false, r);
    case (CurrentMutation, CurrentRow(r)) =>
      UnprobedRun(rev, true, r);
    case (ReceiptsProtocol, ReceiptOf(r)) =>
      UnprobedReceipt(rev, r);
    case _ =>
  }

  lemma UnprobedRun(rev: Revision, current: bool, r: RunRow)
    requires !rev.Rev0007? && MutationMatrix(rev, current, r).Accepts() && !RunProbe(rev, r).Matches()
    ensures MutationMatrix(rev.Previous(), current, r).Accepts()
  {
  }

  lemma UnprobedReceipt(rev: Revision, r: ReceiptRow)
    requires !rev.Rev0007? && ReceiptMatrix(rev, r).Accepts() && !ReceiptProbe(rev, r).Matches()
    ensures ReceiptMatrix(rev.Previous(), r).Accepts()
  {
  }

  /** An upgrade only weakens: a row legal before it is legal after every prefix of its ALTERs. */
  lemma UpgradeKeepsRowsLegal(rev: Revision, applied: nat, row: Row)
    requires !rev.Rev0007? && LegalAt(rev, 0, row)
    ensures LegalAt(rev, applied, row)
  {
    var names := Constraints(rev);
    if rev.Rev0010? {
      assert names[3] == VisitsVersions;
    }
    forall i | 0 <= i < |names| && i < applied ensures Definition(names[i], rev, row).Accepts() {
      Weakened(rev, names[i], row);
    }
  }

  /** A guarded downgrade is safe: a row legal after the migration that no probe matches is legal
      at every prefix on the way back, so no ALTER of the downgrade can find a violating row. */
  lemma DowngradeKeepsRowsLegal(rev: Revision, applied: nat, row: Row)
    requires !rev.Rev0007? && LegalAt(rev, |Constraints(rev)|, row) && !Probe(rev, row).Matches()
    ensures LegalAt(rev, applied, row)
  {
    var names := Constraints(rev);
    forall i | 0 <= i < |names| && i >= applied ensures Definition(names[i], rev.Previous(), row).Accepts() {
      Unprobed(rev, names[i], row);
    }
  }

  /** The new ordinal check alone is not weaker than the old one: only the old version check,
      which fixes the materialized version, makes the pair weaken. */
  lemma OrdinalNeedsVersions(v: VisitRow)
    requires VisitOrdinal(Rev0009, v).Accepts()
    ensures VisitOrdinal(Rev0010, v).Accepts() <==> v.materialized == 4
  {
  }

  /** Between the two visit ALTERs, and only there, the schema admits rows that the finished
      upgrade rejects: exactly first and second visits materialized at version 5. */
  lemma VisitWindow(v: VisitRow)
    ensures LegalAt(Rev0010, 4, VisitOf(v)) && !LegalAt(Rev0010, 5, VisitOf(v)) <==>
      VisitVersions(Rev0010, v).Accepts() && v.materialized == 5
      && (v.ordinal, v.joined) in {(1, 3), (2, 4)}
  {
    var names := Constraints(Rev0010);
    assert names[3] == VisitsVersions && names[4] == VisitsOrdinalJoin;
  }
}
