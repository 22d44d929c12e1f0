/** What may change between a client's unlocked read and its locked section, and still lets it write. */
module FogSourceChanges {
  import opened Options
  import opened FogHistory
  import opened FogEngine
  import opened FogContinuation
  import opened FogContinuationRuns

  /** The first participation stays, and no session row is ever removed. */
  predicate Grows(t: Tables, later: Tables) {
    && |t.participations| >= 1 && |later.participations| >= 1
    && later.participations[0] == t.participations[0]
    && t.sessions.Keys <= later.sessions.Keys
  }

  lemma StepGrows(bundle: Bundle, t: Tables, e: FogContinuationRuns.Event)
    requires |t.participations| >= 1
    ensures Grows(t, Apply(bundle, t, e))
  {
  }

  lemma {:induction false} RunGrows(bundle: Bundle, t: Tables, es: seq<FogContinuationRuns.Event>)
    requires |t.participations| >= 1
    ensures Grows(t, FogContinuationRuns.Run(bundle, t, es))
    decreases |es|
  {
    if es != [] {
      StepGrows(bundle, t, es[0]);
      RunGrows(bundle, Apply(bundle, t, es[0]), es[1..]);
    }
  }

  /** The source as it must stand under the lock for a client that read it in this state. */
  predicate SourceStands(bundle: Bundle, later: Tables, request: Request, was: State) {
    && request.sourceSession in later.sessions
    && var row := later.sessions[request.sourceSession];
      && row.scenario == SOURCE_SCENARIO && row.scenarioVersion == SOURCE_VERSION
      && row.state == was
      && row.version == request.expectedSession
      && Accepted(bundle, row.state, request.sourceSession, row.version, row.events)
  }

  /** Everything around the source that must stand. */
  predicate NobodyInTheWay(later: Tables, request: Request, destination: Prepared) {
    && later.current == Revision(3, Attached)
    && later.character == Character(request.controller, true)
    && request.sourceSession !in later.activeJobs
    && destination.session !in later.sessions
  }

  lemma ReadGives(bundle: Bundle, t: Tables, request: Request, destination: Prepared)
    requires Nothing(t)
    requires var call := ReadPhase(bundle, t, request, destination); call.Some? && call.value.prepared.Some?
    ensures var call := ReadPhase(bundle, t, request, destination).value;
      && request.sourceSession in t.sessions && t.participations[0].session == request.sourceSession
      && call == Call(request, t.participations[0], t.sessions[request.sourceSession].state, Some(destination))
      && var state := t.sessions[request.sourceSession].state;
        state.endingId.Some? && state.endingId.value in ENDINGS && state.resolved
  {
  }

  /** The locked section of a call read from an eligible Run, decided by what stands under the lock. */
  lemma AdmitIff(bundle: Bundle, later: Tables, request: Request, p: Participation, was: State, destination: Prepared)
    requires Nothing(later) || Whole(later)
    requires later.participations[0] == p && p.session == request.sourceSession
    requires was.endingId.Some? && was.endingId.value in ENDINGS && was.resolved
    ensures Admit(bundle, later, Call(request, p, was, Some(destination))).Written? <==>
      request.expectedRun == 3 && SourceStands(bundle, later, request, was) && NobodyInTheWay(later, request, destination)
  {
    var call := Call(request, p, was, Some(destination));
    LockedAllOrNothing(bundle, later, call);
    if Nothing(later) && later.current == Revision(3, Attached) {
      assert Classify(bundle, later) == Some(Admission);
      assert FindParticipation(later.participations, request.sourceSession) == Some(p);
    }
  }

  /**
    * Whatever happened between the read and the lock, the section writes exactly if the source has the state that was
    * read, the expected version and a stream that still verifies, and nobody is in the way.
    */
  lemma WritesIff(bundle: Bundle, t: Tables, request: Request, destination: Prepared, es: seq<FogContinuationRuns.Event>)
    requires Nothing(t)
    requires var call := ReadPhase(bundle, t, request, destination); call.Some? && call.value.prepared.Some?
    ensures var later := FogContinuationRuns.Run(bundle, t, es);
      && request.sourceSession in t.sessions
      && (Admit(bundle, later, ReadPhase(bundle, t, request, destination).value).Written? <==>
            && request.expectedRun == 3
            && SourceStands(bundle, later, request, t.sessions[request.sourceSession].state)
            && NobodyInTheWay(later, request, destination))
  {
    ReadGives(bundle, t, request, destination);
    RunGrows(bundle, t, es);
    ExactlyOnce(bundle, t, es);
    var later := FogContinuationRuns.Run(bundle, t, es);
    AdmitIff(bundle, later, request, t.participations[0], t.sessions[request.sourceSession].state, destination);
  }

  /** A client that found the Run not eligible never writes, whatever it has become. */
  lemma UnpreparedWritesNothing(bundle: Bundle, later: Tables, call: Call)
    requires call.prepared.None?
    ensures !Admit(bundle, later, call).Written?
  {
  }

  /** A source whose state or version changed between the read and the lock: nothing is written. */
  lemma ChangedSourceWritesNothing(bundle: Bundle, t: Tables, request: Request, destination: Prepared,
                                   es: seq<FogContinuationRuns.Event>)
    requires Nothing(t) && ReadPhase(bundle, t, request, destination).Some?
    requires request.sourceSession in t.sessions
    requires var later := FogContinuationRuns.Run(bundle, t, es);
      request.sourceSession in later.sessions &&
      var now, was := later.sessions[request.sourceSession], t.sessions[request.sourceSession];
      now.state != was.state || now.version != request.expectedSession
    ensures var later, call := FogContinuationRuns.Run(bundle, t, es), ReadPhase(bundle, t, request, destination).value;
      !Admit(bundle, later, call).Written? && AfterLocked(bundle, later, call) == later
  {
    if ReadPhase(bundle, t, request, destination).value.prepared.Some? {
      WritesIff(bundle, t, request, destination, es);
    }
  }

  // ---- the change that is admitted ----

  /** A note behind an accepted stream leaves it accepted. */
  lemma NoteAccepted(bundle: Bundle, state: State, session: string, version: int, records: seq<Record>,
                     eventId: string, kind: string, payload: map<string, Json>)
    requires Accepted(bundle, state, session, version, records)
    requires kind != STARTED && kind != DECIDED
    requires FogEngine.Fresh(Engine(records, [], [], {}, "", 0), eventId)
    ensures Accepted(bundle, state, session, version,
      records + [MakeRecord(session, eventId, |records| + 1, kind, payload)])
  {
    var r := MakeRecord(session, eventId, |records| + 1, kind, payload);
    OrderedAppend(session, Engine(records, [], [], {}, "", 0), eventId, kind, payload);
    Appended(records, r, STARTED);
    Appended(records, r, DECIDED);
    assert OfType(records + [r], STARTED) == OfType(records, STARTED);
    assert OfType(records + [r], DECIDED) == OfType(records, DECIDED);
  }

  /** The source's row with one note more. */
  function Noted(row: SessionRow, session: string, eventId: string, kind: string, payload: map<string, Json>): SessionRow {
    row.(events := row.events + [MakeRecord(session, eventId, |row.events| + 1, kind, payload)])
  }

  /** What is written seals the stream as it stands under the lock. */
  lemma WrittenSeals(bundle: Bundle, later: Tables, call: Call)
    requires (Nothing(later) || Whole(later)) && Admit(bundle, later, call).Written?
    ensures var after := AfterLocked(bundle, later, call);
      && Whole(after)
      && call.request.sourceSession in later.sessions
      && RowsOf(after).root.events == later.sessions[call.request.sourceSession].events
  {
    LockedAllOrNothing(bundle, later, call);
  }

  lemma OneStep(bundle: Bundle, t: Tables, e: FogContinuationRuns.Event)
    ensures FogContinuationRuns.Run(bundle, t, [e]) == Apply(bundle, t, e)
  {
    assert FogContinuationRuns.Run(bundle, t, [e]) == FogContinuationRuns.Run(bundle, Apply(bundle, t, e), []);
  }

  /** A client whose section would write. */
  predicate Ready(bundle: Bundle, t: Tables, request: Request, destination: Prepared) {
    && Nothing(t)
    && (var call := ReadPhase(bundle, t, request, destination); call.Some? && call.value.prepared.Some?)
    && request.expectedRun == 3
    && NobodyInTheWay(t, request, destination)
    && request.sourceSession in t.sessions
    && SourceStands(bundle, t, request, t.sessions[request.sourceSession].state)
  }

  /** A note appended to the source's stream between the read and the lock does not keep the section from writing. */
  lemma AppendedNoteStillWrites(bundle: Bundle, t: Tables, request: Request, destination: Prepared,
                                eventId: string, kind: string, payload: map<string, Json>)
    requires Ready(bundle, t, request, destination) && kind != STARTED && kind != DECIDED
    requires FogEngine.Fresh(Engine(t.sessions[request.sourceSession].events, [], [], {}, "", 0), eventId)
    ensures var source := request.sourceSession;
      var change := ChangeSession(source, Noted(t.sessions[source], source, eventId, kind, payload));
      Admit(bundle, Apply(bundle, t, change), ReadPhase(bundle, t, request, destination).value).Written?
  {
    var source := request.sourceSession;
    var change := ChangeSession(source, Noted(t.sessions[source], source, eventId, kind, payload));
    NotedStands(bundle, t, request, destination, eventId, kind, payload);
    OneStep(bundle, t, change);
    WritesIff(bundle, t, request, destination, [change]);
  }

  lemma NotedStands(bundle: Bundle, t: Tables, request: Request, destination: Prepared,
                    eventId: string, kind: string, payload: map<string, Json>)
    requires NobodyInTheWay(t, request, destination) && request.sourceSession in t.sessions
    requires SourceStands(bundle, t, request, t.sessions[request.sourceSession].state)
    requires kind != STARTED && kind != DECIDED
    requires FogEngine.Fresh(Engine(t.sessions[request.sourceSession].events, [], [], {}, "", 0), eventId)
    ensures var source := request.sourceSession;
      var later := t.(sessions := t.sessions[source := Noted(t.sessions[source], source, eventId, kind, payload)]);
      NobodyInTheWay(later, request, destination) && SourceStands(bundle, later, request, t.sessions[source].state)
  {
    var row := t.sessions[request.sourceSession];
    NoteAccepted(bundle, row.state, request.sourceSession, row.version, row.events, eventId, kind, payload);
  }

  /** The section seals the longer stream. */
  lemma AppendedNoteIsSealed(bundle: Bundle, t: Tables, request: Request, destination: Prepared,
                             eventId: string, kind: string, payload: map<string, Json>)
    requires Ready(bundle, t, request, destination) && kind != STARTED && kind != DECIDED
    requires FogEngine.Fresh(Engine(t.sessions[request.sourceSession].events, [], [], {}, "", 0), eventId)
    ensures var source := request.sourceSession;
      var noted := Noted(t.sessions[source], source, eventId, kind, payload);
      var later, call := Apply(bundle, t, ChangeSession(source, noted)), ReadPhase(bundle, t, request, destination).value;
      Whole(AfterLocked(bundle, later, call)) && RowsOf(AfterLocked(bundle, later, call)).root.events == noted.events
  {
    var source := request.sourceSession;
    var noted := Noted(t.sessions[source], source, eventId, kind, payload);
    AppendedNoteStillWrites(bundle, t, request, destination, eventId, kind, payload);
    StepAllOrNothing(bundle, t, ChangeSession(source, noted));
    ReadGives(bundle, t, request, destination);
    WrittenSeals(bundle, Apply(bundle, t, ChangeSession(source, noted)), ReadPhase(bundle, t, request, destination).value);
  }
}
