/** What run_current's constraints guarantee over every sequence of writes they accept. */
module RunExclusivity {
  import opened Kleene
  import opened CheckMatrix

  function LifecycleCheck(r: RunRow): Truth {
    Is(r.lifecycle in {PreFirstTurn, Active, Completed, Terminated})
  }

  function BindingCheck(r: RunRow): Truth {
    IsNull(r.boundCharacter).And(IsNull(r.contractVersion)).And(IsNull(r.recordRevision))
      .And(IsNull(r.bindingState)).And(IsNull(r.bindingOperation)).And(IsNull(r.bindingAuthority))
      .And(IsNull(r.boundAt)).And(IsNull(r.inactivatedAt)).And(IsNull(r.activeCharacter))
    .Or(NotNull(r.boundCharacter).And(NotNull(r.contractVersion)).And(NotNull(r.recordRevision))
      .And(NotNull(r.bindingOperation)).And(NotNull(r.bindingAuthority)).And(NotNull(r.boundAt))
      .And(
        Equal(r.bindingState, Of(ActiveBinding)).And(IsNull(r.inactivatedAt)).And(Equal(r.activeCharacter, r.boundCharacter))
        .Or(Equal(r.bindingState, Of(HistoricalBinding)).And(NotNull(r.inactivatedAt)).And(IsNull(r.activeCharacter)))))
  }

  function LifecycleBindingCheck(r: RunRow): Truth {
    Is(r.lifecycle in {PreFirstTurn, Active})
      .And(IsNull(r.bindingState).Or(Equal(r.bindingState, Of(ActiveBinding))))
    .Or(Is(r.lifecycle in {Completed, Terminated})
      .And(IsNull(r.bindingState).Or(Equal(r.bindingState, Of(HistoricalBinding)))))
  }

  predicate RowAccepted(r: RunRow) {
    && 1 <= r.version <= MAX_BIGINT
    && LifecycleCheck(r).Accepts()
    && MutationMatrix(Rev0011, true, r).Accepts()
    && BindingCheck(r).Accepts()
    && LifecycleBindingCheck(r).Accepts()
  }

  /** UNIQUE (active_player_character_id): NULLs do not collide. */
  predicate UniqueActive(t: map<string, RunRow>) {
    forall a, b :: a in t && b in t && a != b && t[a].activeCharacter.Of? ==> t[a].activeCharacter != t[b].activeCharacter
  }

  predicate TableAccepted(t: map<string, RunRow>) {
    UniqueActive(t) && forall a :: a in t ==> RowAccepted(t[a])
  }

  /** An INSERT or UPDATE of one run's row, or a DELETE. */
  datatype Write = Put(runId: string, row: RunRow) | Delete(runId: string)

  function After(t: map<string, RunRow>, w: Write): map<string, RunRow> {
    match w
    case Put(id, row) => t[id := row]
    case Delete(id) => t - {id}
  }

  /** The server refuses a write whose result violates a constraint. */
  function Step(t: map<string, RunRow>, w: Write): map<string, RunRow> {
    if TableAccepted(After(t, w)) then After(t, w) else t
  }

  function Execute(t: map<string, RunRow>, ws: seq<Write>): map<string, RunRow>
    decreases |ws|
  {
    if ws == [] then t else Execute(Step(t, ws[0]), ws[1..])
  }

  predicate NativeActive(r: RunRow) {
    r.kind.ContinueNativeRun? || r.kind.RevisitNativeRegion?
  }

  predicate NativeTerminal(r: RunRow) {
    r.kind.TerminateNativeRun? || r.kind.TerminateContinuedNativeRun?
    || r.kind.TerminateRevisitedNativeRun? || r.kind.CompleteRevisitedNativeRun?
  }

  /** A continued or revisited run owns its character: no other such run is bound to it, and no row
      at all holds it active. A natively finished run holds no character. */
  ghost predicate Exclusive(t: map<string, RunRow>) {
    && (forall a, b :: a in t && b in t && a != b && NativeActive(t[a]) ==>
          t[a].boundCharacter.Of? && t[b].activeCharacter != t[a].boundCharacter
          && (NativeActive(t[b]) ==> t[b].boundCharacter != t[a].boundCharacter))
    && (forall a :: a in t && NativeTerminal(t[a]) ==> t[a].activeCharacter.Null?)
  }

  lemma NativeRows(r: RunRow)
    requires RowAccepted(r)
    ensures NativeActive(r) ==> r.boundCharacter.Of? && r.activeCharacter == r.boundCharacter
    ensures NativeTerminal(r) ==> r.activeCharacter.Null?
  {
    if NativeActive(r) || NativeTerminal(r) {
      OnlyItsBranch(r);
    }
  }

  /** A row of a native kind is accepted by its own branch of the matrix alone. */
  lemma OnlyItsBranch(r: RunRow)
    requires MutationMatrix(Rev0011, true, r).Accepts() && (NativeActive(r) || NativeTerminal(r))
    ensures NativeBranch(r.kind, true, r).Accepts()
  {
  }

  lemma AcceptedIsExclusive(t: map<string, RunRow>)
    requires TableAccepted(t)
    ensures Exclusive(t)
  {
    forall a | a in t ensures
      && (NativeActive(t[a]) ==> t[a].boundCharacter.Of? && t[a].activeCharacter == t[a].boundCharacter)
      && (NativeTerminal(t[a]) ==> t[a].activeCharacter.Null?)
    {
      NativeRows(t[a]);
    }
  }

  lemma {:induction false} AcceptedAlways(t: map<string, RunRow>, ws: seq<Write>)
    requires TableAccepted(t)
    ensures TableAccepted(Execute(t, ws))
    decreases |ws|
  {
    if ws != [] {
      var next := Step(t, ws[0]);
      AcceptedAlways(next, ws[1..]);
    }
  }

  /** Exclusivity holds after every sequence of writes, accepted and refused ones mixed. */
  lemma ExclusiveAlways(ws: seq<Write>)
    ensures Exclusive(Execute(map[], ws))
  {
    AcceptedAlways(map[], ws);
    AcceptedIsExclusive(Execute(map[], ws));
  }

  /** Without a native kind the constraints do not give this: in any table that accepts each of two runs without the
      other, two rows that both record an active binding of one character are accepted together exactly when one of
      them leaves the active column NULL, because the comparison with NULL is UNKNOWN and UNKNOWN passes. */
  lemma SharedBindingIffNull(t: map<string, RunRow>, i: string, j: string)
    requires i in t && j in t && i != j
    requires TableAccepted(t - {i}) && TableAccepted(t - {j})
    requires t[i].bindingState == t[j].bindingState == Of(ActiveBinding)
    requires t[i].boundCharacter.Of? && t[i].boundCharacter == t[j].boundCharacter
    ensures TableAccepted(t) <==> t[i].activeCharacter.Null? || t[j].activeCharacter.Null?
  {
    assert RowAccepted((t - {j})[i]) && RowAccepted((t - {i})[j]);
    ActiveIsBound(t[i]);
    ActiveIsBound(t[j]);
    forall a | a in t ensures RowAccepted(t[a]) {
      assert if a != i then (t - {i})[a] == t[a] else (t - {j})[a] == t[a];
    }
    if t[i].activeCharacter.Null? || t[j].activeCharacter.Null? {
      forall a, b | a in t && b in t && a != b && t[a].activeCharacter.Of?
        ensures t[a].activeCharacter != t[b].activeCharacter
      {
        if i !in {a, b} {
          assert a in t - {i} && b in t - {i};
        } else if j !in {a, b} {
          assert a in t - {j} && b in t - {j};
        }
      }
    }
  }

  lemma ActiveIsBound(r: RunRow)
    requires RowAccepted(r) && r.bindingState == Of(ActiveBinding) && r.boundCharacter.Of?
    ensures r.activeCharacter.Of? ==> r.activeCharacter == r.boundCharacter
  {
  }

  /** Such a pair exists: two ATTACH_SESSION rows. */
  lemma BaseMatrixGap() returns (a: RunRow)
    ensures a.kind.AttachSession? && a.lifecycle.Active?
    ensures a.bindingState == Of(ActiveBinding) && a.boundCharacter.Of? && a.activeCharacter.Null?
    ensures TableAccepted(map["a" := a, "b" := a])
  {
    a := GapRow();
    GapRowAccepted();
    var t := map["a" := a, "b" := a];
    assert "a" != "b" by { assert "a"[0] != "b"[0]; }
    SharedBindingIffNull(t, "a", "b");
  }

  function GapRow(): RunRow {
    RunRow(Active, 3, "op", "src", 0, Of(2), AttachSession, "op3", "src", 1,
      Of("hero"), Of("v1"), Of(1), Of(ActiveBinding), Of("bind"), Of("src"), Of(1), Null, Null)
  }

  lemma GapRowAccepted()
    ensures RowAccepted(GapRow())
  {
    AttachAccepted(GapRow());
  }

  lemma AttachAccepted(r: RunRow)
    requires r.kind.AttachSession? && 2 <= r.version <= MAX_BIGINT && r.prior == Of(r.version - 1)
    ensures MutationMatrix(Rev0011, true, r).Accepts()
  {
    assert BaseMutation(r).Accepts();
  }

  /** A row without any binding. */
  predicate Unbound(r: RunRow) {
    && r.boundCharacter == Null && r.contractVersion == Null && r.recordRevision == Null && r.bindingState == Null
    && r.bindingOperation == Null && r.bindingAuthority == Null && r.boundAt == Null && r.inactivatedAt == Null
    && r.activeCharacter == Null
  }

  /** A row that names a character: held and not let go, or let go and not held. */
  predicate Bound(r: RunRow) {
    && r.boundCharacter.Of? && r.contractVersion.Of? && r.recordRevision.Of?
    && r.bindingOperation.Of? && r.bindingAuthority.Of? && r.boundAt.Of?
    && if r.inactivatedAt.Null? then
        r.bindingState in {Null, Of(ActiveBinding)} && r.activeCharacter in {Null, r.boundCharacter}
      else r.bindingState in {Null, Of(HistoricalBinding)} && r.activeCharacter == Null
  }

  /** What the binding CHECK amounts to: in both kinds of bound rows a NULL state passes, and a NULL active column too. */
  lemma BindingRows(r: RunRow)
    ensures BindingCheck(r).Accepts() <==> Unbound(r) || Bound(r)
  {
  }

  /** A Run that has ended has no active binding, and one that has not has no historical one. */
  lemma LifecycleRows(r: RunRow)
    ensures LifecycleCheck(r).Accepts() && LifecycleBindingCheck(r).Accepts() <==>
      if r.lifecycle in {PreFirstTurn, Active} then r.bindingState in {Null, Of(ActiveBinding)}
      else r.lifecycle in {Completed, Terminated} && r.bindingState in {Null, Of(HistoricalBinding)}
  {
  }
}
