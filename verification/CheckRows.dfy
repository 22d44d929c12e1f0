/** The rows the CHECK matrices accept and the downgrade probes find, written out value by value. */
module CheckRows {
  import opened Kleene
  import opened CheckMatrix

  // ---- run_revisions and run_current ----

  /** The kind, the version before, the version and the lifecycle that each native mutation writes. */
  predicate NativeValues(r: RunRow) {
    match r.kind
    case TerminateNativeRun => r.prior == Of(3) && r.version == 4 && r.lifecycle == Terminated
    case ContinueNativeRun => r.prior == Of(3) && r.version == 4 && r.lifecycle == Active
    case TerminateContinuedNativeRun => r.prior == Of(4) && r.version == 5 && r.lifecycle == Terminated
    case RevisitNativeRegion => r.prior == Of(4) && r.version == 5 && r.lifecycle == Active
    case TerminateRevisitedNativeRun => r.prior == Of(5) && r.version == 6 && r.lifecycle == Terminated
    case CompleteRevisitedNativeRun => r.prior == Of(5) && r.version == 6 && r.lifecycle == Completed
    case _ => false
  }

  /** The migration a native kind came with. */
  function CameWith(kind: MutationKind): nat {
    match kind
    case TerminateNativeRun => 8
    case ContinueNativeRun => 9
    case TerminateContinuedNativeRun => 9
    case RevisitNativeRegion => 10
    case TerminateRevisitedNativeRun => 10
    case CompleteRevisitedNativeRun => 11
    case _ => 0
  }

  /** The character of a native row: held while the Run is active, let go at the end of it. */
  predicate NativeBinding(current: bool, r: RunRow) {
    && r.boundCharacter.Of? && r.contractVersion.Of? && r.recordRevision.Of?
    && r.bindingOperation.Of? && r.bindingAuthority.Of? && r.boundAt.Of? && r.boundAt.value <= r.occurredAt
    && if r.lifecycle == Active then
        && r.bindingState == Of(ActiveBinding) && r.inactivatedAt == Null
        && (current ==> r.activeCharacter == r.boundCharacter)
      else
        && r.bindingState == Of(HistoricalBinding) && r.inactivatedAt == Of(r.occurredAt)
        && (current ==> r.activeCharacter == Null)
  }

  lemma EitherAccepts(a: Truth, b: Truth)
    ensures a.Or(b).Accepts() <==> a.Accepts() || b.Accepts()
  {
  }

  lemma BranchRows(kind: MutationKind, current: bool, r: RunRow)
    requires CameWith(kind) > 0
    ensures NativeBranch(kind, current, r).Accepts() <==> r.kind == kind && NativeValues(r) && NativeBinding(current, r)
  {
  }

  predicate BaseRow(r: RunRow) {
    match r.kind
    case Create =>
      && r.version == 1 && r.prior == Null
      && r.operation == r.creationOperation && r.source == r.creationSource && r.occurredAt == r.creationAt
    case AttachSession => 2 <= r.version < 0x8000_0000_0000_0000 && r.prior in {Null, Of(r.version - 1)}
    case BindPlayerCharacter => 2 <= r.version < 0x8000_0000_0000_0000 && r.prior in {Null, Of(r.version - 1)}
    case _ => false
  }

  lemma BaseRows(r: RunRow)
    ensures BaseMutation(r).Accepts() <==> BaseRow(r)
  {
  }

  lemma MutationStep(rev: Revision, current: bool, r: RunRow)
    requires !rev.Rev0007?
    ensures MutationMatrix(rev, current, r).Accepts() <==>
      || MutationMatrix(rev.Previous(), current, r).Accepts()
      || (CameWith(r.kind) == rev.Number() && NativeValues(r) && NativeBinding(current, r))
  {
    match rev
    case Rev0008 =>
      AddsBranch(MutationMatrix(Rev0007, current, r), TerminateNativeRun, current, r);
    case Rev0009 =>
      AddsBranches(MutationMatrix(Rev0008, current, r), ContinueNativeRun, TerminateContinuedNativeRun, current, r);
    case Rev0010 =>
      AddsBranches(MutationMatrix(Rev0009, current, r), RevisitNativeRegion, TerminateRevisitedNativeRun, current, r);
    case Rev0011 =>
      AddsBranch(MutationMatrix(Rev0010, current, r), CompleteRevisitedNativeRun, current, r);
  }

  /**
    * Which rows the matrix accepts: the base rows, where a NULL before an attachment passes because its comparison is
    * UNKNOWN, and the native rows of this migration and those before it.
    */
  lemma {:induction false} MutationRows(rev: Revision, current: bool, r: RunRow)
    ensures MutationMatrix(rev, current, r).Accepts() <==>
      BaseRow(r) || (1 <= CameWith(r.kind) <= rev.Number() && NativeValues(r) && NativeBinding(current, r))
    decreases rev.Number()
  {
    if rev.Rev0007? {
      BaseRows(r);
    } else {
      MutationRows(rev.Previous(), current, r);
      MutationStep(rev, current, r);
    }
  }

  lemma AddsBranch(t: Truth, kind: MutationKind, current: bool, r: RunRow)
    requires CameWith(kind) > 0
    ensures t.Or(NativeBranch(kind, current, r)).Accepts() <==>
      t.Accepts() || (r.kind == kind && NativeValues(r) && NativeBinding(current, r))
  {
    BranchRows(kind, current, r);
    EitherAccepts(t, NativeBranch(kind, current, r));
  }

  lemma AddsBranches(t: Truth, kind: MutationKind, other: MutationKind, current: bool, r: RunRow)
    requires CameWith(kind) > 0 && CameWith(other) > 0
    ensures t.Or(NativeBranch(kind, current, r)).Or(NativeBranch(other, current, r)).Accepts() <==>
      t.Accepts() || (r.kind in {kind, other} && NativeValues(r) && NativeBinding(current, r))
  {
    AddsBranch(t, kind, current, r);
    AddsBranch(t.Or(NativeBranch(kind, current, r)), other, current, r);
  }

  /** The part of a probe that looks at the version and the lifecycle. */
  predicate ByValues(rev: Revision, version: int, lifecycle: Lifecycle)
    requires !rev.Rev0007?
  {
    match rev
    case Rev0008 => lifecycle == Terminated
    case Rev0009 => version >= 5 || (version == 4 && lifecycle == Active)
    case Rev0010 => version == 6 || (version == 5 && lifecycle == Active)
    case Rev0011 => lifecycle == Completed
  }

  /** Which of these rows a downgrade finds: all native rows of its own migration, and no other native row. */
  lemma ProbedRuns(rev: Revision, current: bool, r: RunRow)
    requires !rev.Rev0007? && MutationMatrix(rev, current, r).Accepts()
    ensures RunProbe(rev, r).Matches() <==>
      if CameWith(r.kind) > 0 then CameWith(r.kind) == rev.Number() else ByValues(rev, r.version, r.lifecycle)
  {
    MutationRows(rev, current, r);
  }

  // ---- run_mutation_receipts ----

  /** The names under which each kind of receipt is filed. */
  lemma Namespaces()
    ensures Namespace(AttachSession) == "run.attach-session/v1"
    ensures Namespace(BindPlayerCharacter) == "run.bind-player-character/v1"
    ensures Namespace(TerminateNativeRun) == "run.terminate-native/v1"
    ensures Namespace(ContinueNativeRun) == "run.continue-native/v1"
    ensures Namespace(TerminateContinuedNativeRun) == "run.terminate-continued-native/v1"
    ensures Namespace(RevisitNativeRegion) == "run.revisit-native-region/v1"
    ensures Namespace(TerminateRevisitedNativeRun) == "run.terminate-revisited-native/v1"
    ensures Namespace(CompleteRevisitedNativeRun) == "run.complete-revisited-native/v1"
  {
  }

  lemma ResultSchemas()
    ensures ResultSchema(AttachSession) == "run.attach-session-result/v1"
    ensures ResultSchema(BindPlayerCharacter) == "run.bind-player-character-result/v1"
    ensures ResultSchema(TerminateNativeRun) == "run.terminate-native-result/v1"
    ensures ResultSchema(ContinueNativeRun) == "run.continue-native-result/v1"
    ensures ResultSchema(TerminateContinuedNativeRun) == "run.terminate-continued-native-result/v1"
    ensures ResultSchema(RevisitNativeRegion) == "run.revisit-native-region-result/v1"
    ensures ResultSchema(TerminateRevisitedNativeRun) == "run.terminate-revisited-native-result/v1"
    ensures ResultSchema(CompleteRevisitedNativeRun) == "run.complete-revisited-native-result/v1"
  {
  }

  /** The versions and the lifecycle of a native receipt. */
  predicate ReceiptValues(r: ReceiptRow) {
    match r.kind
    case TerminateNativeRun => r.expected == 3 && r.resulting == 4 && r.lifecycle == Terminated
    case ContinueNativeRun => r.expected == 3 && r.resulting == 4 && r.lifecycle == Active
    case TerminateContinuedNativeRun => r.expected == 4 && r.resulting == 5 && r.lifecycle == Terminated
    case RevisitNativeRegion => r.expected == 4 && r.resulting == 5 && r.lifecycle == Active
    case TerminateRevisitedNativeRun => r.expected == 5 && r.resulting == 6 && r.lifecycle == Terminated
    case CompleteRevisitedNativeRun => r.expected == 5 && r.resulting == 6 && r.lifecycle == Completed
    case _ => true
  }

  /** A session takes part in attaching, continuing and revisiting; a character results from binding alone. */
  predicate ReceiptColumns(r: ReceiptRow) {
    && (if r.kind in {AttachSession, ContinueNativeRun, RevisitNativeRegion}
        then r.participationSession.Of? && r.participationOperation.Of? && r.participationSource.Of?
        else r.participationSession == Null && r.participationOperation == Null && r.participationSource == Null)
    && (if r.kind == BindPlayerCharacter
        then r.resultCharacter.Of? && r.resultContract.Of? && r.resultRevision.Of?
        else r.resultCharacter == Null && r.resultContract == Null && r.resultRevision == Null)
  }

  predicate Filed(r: ReceiptRow) {
    r.namespace == Namespace(r.kind) && r.schema == ResultSchema(r.kind) && ReceiptValues(r) && ReceiptColumns(r)
  }

  lemma ReceiptBranchRows(kind: MutationKind, r: ReceiptRow)
    requires CameWith(kind) > 0
    ensures NativeReceipt(kind, r).Accepts() <==> r.kind == kind && Filed(r)
  {
  }

  lemma BaseReceiptRows(r: ReceiptRow)
    ensures ReceiptMatrix(Rev0007, r).Accepts() <==> r.kind in {AttachSession, BindPlayerCharacter} && Filed(r)
  {
  }

  lemma ReceiptStep(rev: Revision, r: ReceiptRow)
    requires !rev.Rev0007?
    ensures ReceiptMatrix(rev, r).Accepts() <==>
      ReceiptMatrix(rev.Previous(), r).Accepts() || (CameWith(r.kind) == rev.Number() && Filed(r))
  {
    match rev
    case Rev0008 =>
      EighthReceipts(r);
    case Rev0009 =>
      NinthReceipts(r);
    case Rev0010 =>
      TenthReceipts(r);
    case Rev0011 =>
      EleventhReceipts(r);
  }

  lemma EighthReceipts(r: ReceiptRow)
    ensures ReceiptMatrix(Rev0008, r).Accepts() <==>
      ReceiptMatrix(Rev0007, r).Accepts() || (r.kind == TerminateNativeRun && Filed(r))
  {
    AddsReceipt(ReceiptMatrix(Rev0007, r), TerminateNativeRun, r);
  }

  lemma NinthReceipts(r: ReceiptRow)
    ensures ReceiptMatrix(Rev0009, r).Accepts() <==>
      ReceiptMatrix(Rev0008, r).Accepts() || (r.kind in {ContinueNativeRun, TerminateContinuedNativeRun} && Filed(r))
  {
    AddsReceipts(ReceiptMatrix(Rev0008, r), ContinueNativeRun, TerminateContinuedNativeRun, r);
  }

  lemma TenthReceipts(r: ReceiptRow)
    ensures ReceiptMatrix(Rev0010, r).Accepts() <==>
      ReceiptMatrix(Rev0009, r).Accepts() || (r.kind in {RevisitNativeRegion, TerminateRevisitedNativeRun} && Filed(r))
  {
    AddsReceipts(ReceiptMatrix(Rev0009, r), RevisitNativeRegion, TerminateRevisitedNativeRun, r);
  }

  lemma EleventhReceipts(r: ReceiptRow)
    ensures ReceiptMatrix(Rev0011, r).Accepts() <==>
      ReceiptMatrix(Rev0010, r).Accepts() || (r.kind == CompleteRevisitedNativeRun && Filed(r))
  {
    AddsReceipt(ReceiptMatrix(Rev0010, r), CompleteRevisitedNativeRun, r);
  }

  /** Which receipts are accepted: those of the kinds known so far, under their names, with these values. */
  lemma {:induction false} ReceiptRows(rev: Revision, r: ReceiptRow)
    ensures ReceiptMatrix(rev, r).Accepts() <==>
      (r.kind in {AttachSession, BindPlayerCharacter} || 1 <= CameWith(r.kind) <= rev.Number()) && Filed(r)
    decreases rev.Number()
  {
    if rev.Rev0007? {
      BaseReceiptRows(r);
    } else {
      ReceiptRows(rev.Previous(), r);
      ReceiptStep(rev, r);
    }
  }

  lemma AddsReceipt(t: Truth, kind: MutationKind, r: ReceiptRow)
    requires CameWith(kind) > 0
    ensures t.Or(NativeReceipt(kind, r)).Accepts() <==> t.Accepts() || (r.kind == kind && Filed(r))
  {
    ReceiptBranchRows(kind, r);
    EitherAccepts(t, NativeReceipt(kind, r));
  }

  lemma AddsReceipts(t: Truth, kind: MutationKind, other: MutationKind, r: ReceiptRow)
    requires CameWith(kind) > 0 && CameWith(other) > 0
    ensures t.Or(NativeReceipt(kind, r)).Or(NativeReceipt(other, r)).Accepts() <==>
      t.Accepts() || (r.kind in {kind, other} && Filed(r))
  {
    AddsReceipt(t, kind, r);
    AddsReceipt(t.Or(NativeReceipt(kind, r)), other, r);
  }

  lemma ProtocolsDiffer(kind: MutationKind, other: MutationKind)
    requires CameWith(kind) > 0 && other != kind
    requires CameWith(other) > 0 || other in {AttachSession, BindPlayerCharacter}
    ensures Protocol(kind) != Protocol(other)
  {
    if |Protocol(kind)| == |Protocol(other)| {
      assert Protocol(kind)[4] != Protocol(other)[4] || Protocol(kind)[14] != Protocol(other)[14];
    }
  }

  lemma NamesDiffer(kind: MutationKind, other: MutationKind)
    requires Protocol(kind) != Protocol(other)
    ensures Namespace(kind) != Namespace(other) && ResultSchema(kind) != ResultSchema(other)
  {
    var a, b := Protocol(kind), Protocol(other);
    assert Namespace(kind)[..|Namespace(kind)| - 3] == a && Namespace(other)[..|Namespace(other)| - 3] == b;
    assert ResultSchema(kind)[..|ResultSchema(kind)| - 10] == a && ResultSchema(other)[..|ResultSchema(other)| - 10] == b;
  }

  /** The part of a probe that looks at names. */
  function NameProbe(kind: MutationKind, r: ReceiptRow): Truth {
    Is(r.kind == kind).Or(Is(r.namespace == Namespace(kind))).Or(Is(r.schema == ResultSchema(kind)))
  }

  /** A probe for a kind's names finds no accepted receipt of another kind. */
  lemma NamesFind(kind: MutationKind, r: ReceiptRow)
    requires CameWith(kind) > 0 && Filed(r) && (CameWith(r.kind) > 0 || r.kind in {AttachSession, BindPlayerCharacter})
    ensures NameProbe(kind, r).Matches() <==> r.kind == kind
  {
    if r.kind != kind {
      ProtocolsDiffer(kind, r.kind);
      NamesDiffer(kind, r.kind);
    }
  }

  predicate ByName(rev: Revision, r: ReceiptRow)
    requires !rev.Rev0007?
  {
    match rev
    case Rev0008 => NameProbe(TerminateNativeRun, r).Matches()
    case Rev0009 => NameProbe(ContinueNativeRun, r).Matches() || NameProbe(TerminateContinuedNativeRun, r).Matches()
    case Rev0010 => NameProbe(RevisitNativeRegion, r).Matches() || NameProbe(TerminateRevisitedNativeRun, r).Matches()
    case Rev0011 => NameProbe(CompleteRevisitedNativeRun, r).Matches()
  }

  lemma ProbeParts(rev: Revision, r: ReceiptRow)
    requires !rev.Rev0007?
    ensures ReceiptProbe(rev, r).Matches() <==> ByName(rev, r) || ByValues(rev, r.resulting, r.lifecycle)
  {
  }

  lemma NameFinds(rev: Revision, r: ReceiptRow)
    requires !rev.Rev0007? && Filed(r)
    requires CameWith(r.kind) > 0 || r.kind in {AttachSession, BindPlayerCharacter}
    ensures ByName(rev, r) <==> CameWith(r.kind) == rev.Number()
  {
    match rev
    case Rev0008 =>
      NamesFind(TerminateNativeRun, r);
    case Rev0009 =>
      NamesFind(ContinueNativeRun, r);
      NamesFind(TerminateContinuedNativeRun, r);
    case Rev0010 =>
      NamesFind(RevisitNativeRegion, r);
      NamesFind(TerminateRevisitedNativeRun, r);
    case Rev0011 =>
      NamesFind(CompleteRevisitedNativeRun, r);
  }

  /** Which receipts a downgrade finds: all native ones of its own migration, and no other native one. */
  lemma ProbedReceipts(rev: Revision, r: ReceiptRow)
    requires !rev.Rev0007? && ReceiptMatrix(rev, r).Accepts()
    ensures ReceiptProbe(rev, r).Matches() <==>
      if CameWith(r.kind) > 0 then CameWith(r.kind) == rev.Number() else ByValues(rev, r.resulting, r.lifecycle)
  {
    ReceiptRows(rev, r);
    ProbeParts(rev, r);
    NameFinds(rev, r);
  }

  // ---- run_world_visits and run_world_positions ----

  /** Before 0010 two visits at version 4, from 0010 on also the third at version 5. */
  lemma VisitRows(rev: Revision, v: VisitRow)
    ensures VisitVersions(rev, v).Accepts() && VisitOrdinal(rev, v).Accepts() <==>
      && 1 <= v.worldVersion < 0x8000_0000_0000_0000 && 1 <= v.regionVersion < 0x8000_0000_0000_0000
      && ((v.ordinal, v.joined, v.materialized) in {(1, 3, 4), (2, 4, 4)}
          || (rev in {Rev0010, Rev0011} && (v.ordinal, v.joined, v.materialized) == (3, 5, 5)))
  {
  }

  lemma PositionRows(rev: Revision, position: int)
    ensures PositionVersions(rev, position).Accepts() <==> position == 4 || (rev in {Rev0010, Rev0011} && position == 5)
  {
  }

  /** The downgrade of 0010 finds exactly the third visits and the positions on them. */
  lemma ProbedVisits(row: Row)
    requires row.VisitOf? || row.PositionOf?
    requires row.VisitOf? ==> VisitVersions(Rev0010, row.visit).Accepts() && VisitOrdinal(Rev0010, row.visit).Accepts()
    requires row.PositionOf? ==> PositionVersions(Rev0010, row.position).Accepts()
    ensures Probe(Rev0010, row).Matches() <==> if row.VisitOf? then row.visit.ordinal == 3 else row.position == 5
  {
  }
}
