/** What a continuation writes and answers, row by row and field by field. */
module FogResults {
  import opened Options
  import opened FogHistory
  import opened FogContinuation
  import opened FogContinuationRuns

  /** The answer names the source as it stood under the lock, and the prepared session on its second visit. */
  predicate Names(r: FogContinuation.Result, source: string, sourceVersion: int, destination: string) {
    r.sourceSession == source && r.sourceVersion == sourceVersion && r.session == destination && r.visit == VisitId(destination, 4)
  }

  lemma WrittenNames(bundle: Bundle, t: Tables, call: Call)
    requires Admit(bundle, t, call).Written?
    ensures call.prepared.Some? && call.request.sourceSession in t.sessions
    ensures Names(Admit(bundle, t, call).result, call.request.sourceSession, t.sessions[call.request.sourceSession].version,
      call.prepared.value.session)
  {
  }

  /** Every replay, whatever lies between, gives what the attempt that wrote gave, and only to its own request. */
  lemma ReplayNames(bundle: Bundle, t: Tables, first: Call, es: seq<FogContinuationRuns.Event>, call: Call)
    requires Nothing(t) && Admit(bundle, t, first).Written?
    ensures first.prepared.Some? && first.request.sourceSession in t.sessions
    ensures var later := FogContinuationRuns.Run(bundle, AfterLocked(bundle, t, first), es);
      Admit(bundle, later, call).Replayed? ==>
        && call.request == first.request
        && Names(Admit(bundle, later, call).result, first.request.sourceSession,
            t.sessions[first.request.sourceSession].version, first.prepared.value.session)
  {
    LockedAllOrNothing(bundle, t, first);
    WrittenReclassifies(bundle, t, first);
    var done := AfterLocked(bundle, t, first);
    ExactlyOnce(bundle, done, es);
    var later := FogContinuationRuns.Run(bundle, done, es);
    WrittenNames(bundle, t, first);
    WrittenRootAndEntry(bundle, t, first);
    if Admit(bundle, later, call).Replayed? {
      ReplayReads(bundle, later, call);
      assert RowsOf(later) == RowsOf(done);
    }
  }

  lemma WrittenRootAndEntry(bundle: Bundle, t: Tables, call: Call)
    requires Nothing(t) && Admit(bundle, t, call).Written?
    ensures var after := AfterLocked(bundle, t, call);
      && OneOfEach(after)
      && after.roots[0].session == call.request.sourceSession
      && after.roots[0].version == t.sessions[call.request.sourceSession].version
      && after.entries[0].session == call.prepared.value.session
      && after.entries[0].visit == VisitId(call.prepared.value.session, 4)
      && after.evidence[0].request == call.request
  {
  }

  /** A replay reads its fields off the rows. */
  lemma ReplayReads(bundle: Bundle, t: Tables, call: Call)
    requires Whole(t) && Admit(bundle, t, call).Replayed?
    ensures call.request == t.evidence[0].request
    ensures var r := Admit(bundle, t, call).result;
      && r.sourceSession == t.roots[0].session && r.sourceVersion == t.roots[0].version
      && r.session == t.entries[0].session && r.visit == t.entries[0].visit
  {
  }

  /** Every row a continuation adds, in terms of its request, its source and its prepared destination. */
  lemma WrittenRows(bundle: Bundle, t: Tables, call: Call)
    requires Admit(bundle, t, call).Written?
    ensures call.prepared.Some? && call.request.sourceSession in t.sessions
    ensures
      var after, request, prepared := AfterLocked(bundle, t, call), call.request, call.prepared.value;
      var source, op := t.sessions[request.sourceSession], Operation(request.controller, request.key);
      var root := Root(VisitId(request.sourceSession, 3), request.sourceSession, source.version, source.state, source.events);
      var entry := Entry(VisitId(prepared.session, 4), prepared.session, request.sourceSession, root, prepared.initial);
      && after.current == Revision(4, Continuing)
      && after.revisions == t.revisions + [Revision(4, Continuing)]
      && after.participations == t.participations + [Participation(prepared.session, 4, Some(op))]
      && after.receipts == t.receipts[op := Receipt(request, 4)]
      && after.evidence == t.evidence + [Evidence(request, root, entry, prepared.session)]
      && after.roots == t.roots + [root]
      && after.entries == t.entries + [entry]
      && after.visits == t.visits + [
          Visit(VisitId(request.sourceSession, 3), 1, request.sourceSession, 3, op),
          Visit(VisitId(prepared.session, 4), 2, prepared.session, 4, op)]
      && after.positions == t.positions + [Position(VisitId(prepared.session, 4), prepared.session, 4)]
      && after.sessions == t.sessions[prepared.session :=
          SessionRow("fog_patrol", "fog-patrol-1.0.0", 0, prepared.initial, [])]
      && after.character == t.character && after.activeJobs == t.activeJobs
  {
  }

  /** A whole continuation, read off the rows: both visits, both participations and the position name the same handoff. */
  lemma WholeRead(t: Tables)
    requires Whole(t)
    ensures
      var request := t.evidence[0].request;
      var op, source, entry := Operation(request.controller, request.key), t.roots[0], t.entries[0];
      && request.expectedRun == 3 && request.expectedSession == source.version
      && source.session == request.sourceSession == t.participations[0].session && entry.session != source.session
      && entry.sourceSession == source.session && entry.sourceDigest == source
      && t.evidence[0] == Evidence(request, source, entry, entry.session)
      && t.participations[1] == Participation(entry.session, 4, Some(op))
      && t.visits == [Visit(VisitId(source.session, 3), 1, source.session, 3, op),
          Visit(VisitId(entry.session, 4), 2, entry.session, 4, op)]
      && t.positions == [Position(VisitId(entry.session, 4), entry.session, 4)]
      && t.receipts == map[op := Receipt(request, 4)]
  {
  }

  /**
    * What a Run that has been continued answers to a client that can read it: the identical request is replayed, the
    * same key with another request is a conflict, and another key comes too late.
    */
  lemma ContinuedAnswers(bundle: Bundle, t: Tables, call: Call)
    requires Whole(t) && t.character.controller == call.request.controller
    requires var v := Read(bundle, t, call.request.controller, call.request.sourceSession);
      v.Some? && v.value.participation == call.participation
    ensures var request, first, answer := call.request, t.evidence[0].request, Admit(bundle, t, call);
      if request == first then answer.Replayed?
      else if request.controller == first.controller && request.key == first.key then answer == Refused(IdempotencyConflict)
      else answer == Refused(NotAvailable)
  {
  }
}
