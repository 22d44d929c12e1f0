/** The Fog continuation: one run goes from revision 3 to a continued revision 4 at most once, and
    a committed continuation is recovered by replaying the identical command. */
module FogContinuation {
  import opened Options
  import opened FogHistory

  datatype Request = Request(
    controller: string, player: string, key: string, sourceSession: string,
    expectedRun: int, expectedSession: int)

  /** The receipt key. The operation id binds the controller and the key only, so two requests that
      differ in what they expect share it. */
  datatype Operation = Operation(controller: string, key: string)

  function OperationOf(r: Request): Operation {
    Operation(r.controller, r.key)
  }

  datatype RevisionKind = Attached | Continuing | TerminatedNative | TerminatedContinued

  datatype Revision = Revision(version: int, kind: RevisionKind)

  datatype Character = Character(controller: string, active: bool)

  datatype Participation = Participation(session: string, joined: int, operation: Option<Operation>)

  datatype SessionRow = SessionRow(
    scenario: string, scenarioVersion: string, version: int, state: State, events: seq<Record>)

  /** Derived identities and digests are injective: they are the values they derive from. */
  datatype VisitId = VisitId(session: string, joined: int)

  datatype Root = Root(firstVisit: VisitId, session: string, version: int, state: State, events: seq<Record>)

  datatype Entry = Entry(visit: VisitId, session: string, sourceSession: string, sourceDigest: Root, initial: State)

  datatype Evidence = Evidence(request: Request, sourceDigest: Root, entryDigest: Entry, destination: string)

  datatype Visit = Visit(id: VisitId, ordinal: int, session: string, joined: int, operation: Operation)

  datatype Position = Position(visit: VisitId, session: string, version: int)

  /** Everything a continuation writes besides the revision and the destination session. */
  datatype Continuation = Continuation(
    evidence: Evidence, root: Root, entry: Entry, visits: seq<Visit>, position: Position, second: Participation)

  datatype Receipt = Receipt(fingerprint: Request, version: int)

  /** The tables of one run, its character and its sessions. Receipts and evidence are those of the
      continue namespace. */
  datatype Tables = Tables(
    character: Character,
    revisions: seq<Revision>,
    current: Revision,
    participations: seq<Participation>,
    receipts: map<Operation, Receipt>,
    evidence: seq<Evidence>,
    roots: seq<Root>,
    visits: seq<Visit>,
    entries: seq<Entry>,
    positions: seq<Position>,
    sessions: map<string, SessionRow>,
    activeJobs: set<string>)

  datatype Family = Admission | NativeExited | Continued(c: Continuation) | Terminated(c: Continuation)

  const DESTINATION_SCENARIO := "fog_patrol"
  const DESTINATION_VERSION := "fog-patrol-1.0.0"

  // ---- classification ----

  predicate NoRows(t: Tables) {
    t.receipts == map[] && t.evidence == [] && t.roots == [] && t.visits == [] && t.entries == [] && t.positions == []
  }

  predicate OneOfEach(t: Tables) {
    |t.evidence| == 1 && |t.roots| == 1 && |t.visits| == 2 && |t.entries| == 1 && |t.positions| == 1
    && |t.participations| == 2
  }

  function RowsOf(t: Tables): Continuation
    requires OneOfEach(t)
  {
    Continuation(t.evidence[0], t.roots[0], t.entries[0], t.visits, t.positions[0], t.participations[1])
  }

  /** The family's own validation: every row of the continuation names the same handoff. */
  predicate Bound(first: Participation, c: Continuation) {
    var request := c.evidence.request;
    && request.expectedRun == 3 && c.evidence.destination != request.sourceSession
    && c.evidence.sourceDigest == c.root && c.evidence.entryDigest == c.entry && c.entry.sourceDigest == c.root
    && c.entry.sourceSession == c.root.session == request.sourceSession == first.session
    && c.entry.session == c.evidence.destination
    && c.root.version == request.expectedSession
    && c.root.firstVisit == VisitId(c.root.session, 3) && c.entry.visit == VisitId(c.entry.session, 4)
    && c.second == Participation(c.entry.session, 4, Some(OperationOf(request)))
    && c.visits == [
      Visit(c.root.firstVisit, 1, first.session, 3, OperationOf(request)),
      Visit(c.entry.visit, 2, c.entry.session, 4, OperationOf(request))]
    && c.position == Position(c.entry.visit, c.entry.session, 4)
  }

  /** The sealed source still stands, with a history that verifies; the destination exists. */
  predicate SealedIn(bundle: Bundle, t: Tables, c: Continuation) {
    && c.root.session in t.sessions && c.entry.session in t.sessions
    && var row := t.sessions[c.root.session];
    && row.scenario == SOURCE_SCENARIO && row.scenarioVersion == SOURCE_VERSION
    && row.version == c.root.version && row.state == c.root.state && row.events == c.root.events
    && Accepted(bundle, row.state, c.root.session, row.version, row.events)
    && t.sessions[c.entry.session].scenario == DESTINATION_SCENARIO
    && t.sessions[c.entry.session].scenarioVersion == DESTINATION_VERSION
  }

  predicate Reconstructs(bundle: Bundle, t: Tables) {
    OneOfEach(t) && Bound(t.participations[0], RowsOf(t)) && SealedIn(bundle, t, RowsOf(t))
  }

  function Classify(bundle: Bundle, t: Tables): Option<Family> {
    match t.current.kind
    case Attached => if NoRows(t) && |t.participations| == 1 && t.current.version == 3 then Some(Admission) else None
    case TerminatedNative => if NoRows(t) && |t.participations| == 1 && t.current.version == 4 then Some(NativeExited) else None
    case Continuing => if Reconstructs(bundle, t) && t.current.version == 4 then Some(Continued(RowsOf(t))) else None
    case TerminatedContinued => if Reconstructs(bundle, t) && t.current.version == 5 then Some(Terminated(RowsOf(t))) else None
  }

  // ---- reading ----

  datatype View = View(participation: Participation, family: Family, row: SessionRow)

  function FindParticipation(ps: seq<Participation>, session: string): Option<Participation> {
    if ps == [] then None else if ps[0].session == session then Some(ps[0]) else FindParticipation(ps[1..], session)
  }

  predicate Ended(state: State) {
    state.endingId.Some? && state.resolved
  }

  function Read(bundle: Bundle, t: Tables, controller: string, session: string): Option<View> {
    var p := FindParticipation(t.participations, session);
    var family := Classify(bundle, t);
    if p.None? || family.None? || t.character.controller != controller || session !in t.sessions then None
    else if Ended(t.sessions[session].state) && session in t.activeJobs then None
    else Some(View(p.value, family.value, t.sessions[session]))
  }

  predicate Eligible(t: Tables, session: string, v: View)
    requires |t.participations| >= 1
  {
    && v.family.Admission? && t.current.version == 3 && t.character.active
    && t.participations[0].session == session
    && v.row.scenario == SOURCE_SCENARIO && v.row.scenarioVersion == SOURCE_VERSION
    && v.row.state.endingId.Some? && v.row.state.endingId.value in ENDINGS && v.row.state.resolved
  }

  /** A prepared destination: the identity and initial state issued for it outside the lock. */
  datatype Prepared = Prepared(session: string, initial: State)

  /** What a client carries from its unlocked read into the locked section. */
  datatype Call = Call(request: Request, participation: Participation, fingerprint: State, prepared: Option<Prepared>)

  function ReadPhase(bundle: Bundle, t: Tables, request: Request, destination: Prepared): Option<Call> {
    var v := Read(bundle, t, request.controller, request.sourceSession);
    if v.None? then None
    else if |t.participations| >= 1 && Eligible(t, request.sourceSession, v.value) then
      if Accepted(bundle, v.value.row.state, request.sourceSession, v.value.row.version, v.value.row.events)
      then Some(Call(request, v.value.participation, v.value.row.state, Some(destination)))
      else None
    else Some(Call(request, v.value.participation, v.value.row.state, None))
  }

  // ---- the locked section ----

  datatype Result = Result(sourceSession: string, sourceVersion: int, session: string, visit: VisitId)

  function ResultOf(c: Continuation): Result {
    Result(c.root.session, c.root.version, c.entry.session, c.entry.visit)
  }

  datatype Code = SessionNotFound | SnapshotInvalid | IdempotencyConflict | NotAvailable | Stale | StageFailed | CasConflict

  datatype Outcome = Replayed(result: Result) | Written(result: Result) | Refused(code: Code)

  function MakeContinuation(request: Request, row: SessionRow, p: Prepared): Continuation {
    var first := VisitId(request.sourceSession, 3);
    var second := VisitId(p.session, 4);
    var root := Root(first, request.sourceSession, row.version, row.state, row.events);
    var entry := Entry(second, p.session, request.sourceSession, root, p.initial);
    var op := OperationOf(request);
    Continuation(Evidence(request, root, entry, p.session), root, entry,
      [Visit(first, 1, request.sourceSession, 3, op), Visit(second, 2, p.session, 4, op)],
      Position(second, p.session, 4), Participation(p.session, 4, Some(op)))
  }

  function DestinationRow(p: Prepared): SessionRow {
    SessionRow(DESTINATION_SCENARIO, DESTINATION_VERSION, 0, p.initial, [])
  }

  const SUCCESSOR := Revision(4, Continuing)

  /** All rows of one continuation, added together. */
  function WithContinuation(t: Tables, c: Continuation, p: Prepared): Tables {
    t.(sessions := t.sessions[p.session := DestinationRow(p)],
       revisions := t.revisions + [SUCCESSOR], current := SUCCESSOR,
       participations := t.participations + [c.second],
       receipts := t.receipts[OperationOf(c.evidence.request) := Receipt(c.evidence.request, 4)],
       evidence := t.evidence + [c.evidence],
       roots := t.roots + [c.root], visits := t.visits + c.visits,
       entries := t.entries + [c.entry], positions := t.positions + [c.position])
  }

  /** Everything the locked section decides before it writes. */
  function Admit(bundle: Bundle, t: Tables, call: Call): Outcome {
    var request := call.request;
    if t.character.controller != request.controller then Refused(SessionNotFound)
    else
      var v := Read(bundle, t, request.controller, request.sourceSession);
      if v.None? then Refused(SnapshotInvalid)
      else if v.value.participation != call.participation then Refused(SnapshotInvalid)
      else if OperationOf(request) in t.receipts then
        if t.receipts[OperationOf(request)].fingerprint != request then Refused(IdempotencyConflict)
        else if !(v.value.family.Continued? || v.value.family.Terminated?) || v.value.family.c.evidence.request != request
        then Refused(SnapshotInvalid)
        else Replayed(ResultOf(v.value.family.c))
      else if !v.value.family.Admission? || !t.character.active then Refused(NotAvailable)
      else if request.expectedRun != 3 || request.expectedSession != v.value.row.version then Refused(Stale)
      else if |t.participations| < 1 || !Eligible(t, request.sourceSession, v.value) then Refused(NotAvailable)
      else if call.prepared.None? || call.fingerprint != v.value.row.state then Refused(Stale)
      else if !Accepted(bundle, v.value.row.state, request.sourceSession, v.value.row.version, v.value.row.events)
      then Refused(SnapshotInvalid)
      else if call.prepared.value.session in t.sessions then Refused(StageFailed)
      else Written(ResultOf(MakeContinuation(request, v.value.row, call.prepared.value)))
  }

  /** The tables after a locked section whose commit, if it reaches one, takes effect. */
  function AfterLocked(bundle: Bundle, t: Tables, call: Call): Tables {
    if Admit(bundle, t, call).Written? then
      var row := t.sessions[call.request.sourceSession];
      WithContinuation(t, MakeContinuation(call.request, row, call.prepared.value), call.prepared.value)
    else t
  }

  /** What an admitted section writes is a complete, valid family: the check before the commit,
      which reclassifies the written rows, can never fail. */
  lemma WrittenReclassifies(bundle: Bundle, t: Tables, call: Call)
    requires Admit(bundle, t, call).Written?
    ensures var after := AfterLocked(bundle, t, call);
      var c := MakeContinuation(call.request, t.sessions[call.request.sourceSession], call.prepared.value);
      Classify(bundle, t) == Some(Admission) && Classify(bundle, after) == Some(Continued(c))
      && after.revisions == t.revisions + [SUCCESSOR] && Admit(bundle, t, call).result == ResultOf(c)
  {
    var after := AfterLocked(bundle, t, call);
    var c := MakeContinuation(call.request, t.sessions[call.request.sourceSession], call.prepared.value);
    assert t.participations[0].session == call.request.sourceSession;
    assert OneOfEach(after) && RowsOf(after) == c;
    assert Bound(after.participations[0], c);
    assert SealedIn(bundle, after, c);
  }

  // ---- the unit of work ----

  class Database {
    var tables: Tables

    constructor (tables: Tables)
      ensures this.tables == tables
    {
      this.tables := tables;
    }
  }

  /** What a client sees: an answer, or a commit whose outcome it does not know. */
  datatype Answer = Returned(outcome: Outcome) | OutcomeUnknown

  /** One transaction: it works on its own copy and publishes it, if at all, as a whole. */
  class UnitOfWork {
    const database: Database
    var work: Tables

    constructor (database: Database)
      ensures this.database == database && work == database.tables
    {
      this.database := database;
      work := database.tables;
    }

    method AddSession(id: string, row: SessionRow) returns (ok: bool)
      modifies this
      ensures ok <==> id !in old(work).sessions
      ensures work == if ok then old(work).(sessions := old(work).sessions[id := row]) else old(work)
    {
      ok := id !in work.sessions;
      if ok { work := work.(sessions := work.sessions[id := row]); }
    }

    method AppendRevision(r: Revision)
      modifies this
      ensures work == old(work).(revisions := old(work).revisions + [r])
    {
      work := work.(revisions := work.revisions + [r]);
    }

    method AddParticipation(p: Participation)
      modifies this
      ensures work == old(work).(participations := old(work).participations + [p])
    {
      work := work.(participations := work.participations + [p]);
    }

    method CompareAndSwapCurrent(r: Revision, expected: int) returns (ok: bool)
      modifies this
      ensures ok <==> old(work).current.version == expected
      ensures work == if ok then old(work).(current := r) else old(work)
    {
      ok := work.current.version == expected;
      if ok { work := work.(current := r); }
    }

    method AddReceipt(op: Operation, r: Receipt, e: Evidence)
      modifies this
      ensures work == old(work).(receipts := old(work).receipts[op := r], evidence := old(work).evidence + [e])
    {
      work := work.(receipts := work.receipts[op := r], evidence := work.evidence + [e]);
    }

    method AddContinuation(c: Continuation)
      modifies this
      ensures work == old(work).(roots := old(work).roots + [c.root], visits := old(work).visits + c.visits,
        entries := old(work).entries + [c.entry], positions := old(work).positions + [c.position])
    {
      work := work.(roots := work.roots + [c.root], visits := work.visits + c.visits,
        entries := work.entries + [c.entry], positions := work.positions + [c.position]);
    }

    /** The commit publishes the whole copy or nothing; if it raises, either may have happened. */
    method Commit() returns (raised: bool)
      modifies database
      ensures database.tables == work || (raised && database.tables == old(database.tables))
    {
      var effective: bool;
      raised, effective := *, *;
      if !raised || effective { database.tables := work; }
    }
  }

  /** The locked section as the service runs it, check by check and write by write. */
  method ContinueLocked(bundle: Bundle, database: Database, call: Call) returns (answer: Answer)
    modifies database
    ensures answer.Returned? ==> answer.outcome == Admit(bundle, old(database.tables), call)
    ensures answer.Returned? ==> database.tables == AfterLocked(bundle, old(database.tables), call)
    // The answer names the source as it stood under the lock and the prepared destination.
    ensures answer.Returned? && answer.outcome.Written? ==>
      && call.prepared.Some? && call.request.sourceSession in old(database.tables).sessions
      && answer.outcome.result.sourceSession == call.request.sourceSession
      && answer.outcome.result.sourceVersion == old(database.tables).sessions[call.request.sourceSession].version
      && answer.outcome.result.session == call.prepared.value.session
      && answer.outcome.result.visit == VisitId(call.prepared.value.session, 4)
    ensures answer.OutcomeUnknown? ==> Admit(bundle, old(database.tables), call).Written?
    ensures answer.OutcomeUnknown? ==>
      database.tables in {old(database.tables), AfterLocked(bundle, old(database.tables), call)}
  {
    var uow := new UnitOfWork(database);
    var t := uow.work;
    var request := call.request;
    if t.character.controller != request.controller { return Returned(Refused(SessionNotFound)); }
    var view := Read(bundle, t, request.controller, request.sourceSession);
    if view.None? { return Returned(Refused(SnapshotInvalid)); }
    var row, family := view.value.row, view.value.family;
    if view.value.participation != call.participation { return Returned(Refused(SnapshotInvalid)); }
    if OperationOf(request) in t.receipts {
      if t.receipts[OperationOf(request)].fingerprint != request { return Returned(Refused(IdempotencyConflict)); }
      if family.Admission? || family.NativeExited? || family.c.evidence.request != request {
        return Returned(Refused(SnapshotInvalid));
      }
      return Returned(Replayed(ResultOf(family.c)));
    }
    if !family.Admission? || !t.character.active { return Returned(Refused(NotAvailable)); }
    if request.expectedRun != 3 || request.expectedSession != row.version { return Returned(Refused(Stale)); }
    if !Eligible(t, request.sourceSession, view.value) { return Returned(Refused(NotAvailable)); }
    if call.prepared.None? || call.fingerprint != row.state { return Returned(Refused(Stale)); }
    var verified := VerifyHistory(bundle, row.state, request.sourceSession, row.version, row.events);
    if verified.None? { return Returned(Refused(SnapshotInvalid)); }
    var prepared := call.prepared.value;
    var staged := uow.AddSession(prepared.session, DestinationRow(prepared));
    if !staged { return Returned(Refused(StageFailed)); }
    WrittenReclassifies(bundle, t, call);
    var c := MakeContinuation(request, row, prepared);
    uow.AppendRevision(SUCCESSOR);
    uow.AddParticipation(c.second);
    var swapped := uow.CompareAndSwapCurrent(SUCCESSOR, 3);
    if !swapped { return Returned(Refused(CasConflict)); }
    uow.AddReceipt(OperationOf(request), Receipt(request, 4), c.evidence);
    uow.AddContinuation(c);
    assert uow.work == AfterLocked(bundle, t, call);
    if Classify(bundle, uow.work) != Some(Continued(c)) { return Returned(Refused(SnapshotInvalid)); }
    var raised := uow.Commit();
    answer := if raised then OutcomeUnknown else Returned(Written(ResultOf(c)));
  }
}
