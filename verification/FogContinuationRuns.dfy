/** Every interleaving of continuing clients with each other and with the other services. */
module FogContinuationRuns {
  import opened Options
  import opened FogHistory
  import opened FogContinuation

  /** A step of the world. A locked section runs alone; whatever the call read, and when, is in the
      call. `durable` says whether its commit, if it reaches one, takes effect. The other services
      may rewrite sessions, the character and the job set at will, and terminate the run. */
  datatype Event =
    | Attempt(call: Call, durable: bool)
    | ChangeSession(id: string, row: SessionRow)
    | ChangeCharacter(character: Character)
    | ChangeJobs(jobs: set<string>)
    | ExitNative
    | ExitContinued

  function Advance(t: Tables, r: Revision): Tables {
    t.(revisions := t.revisions + [r], current := r)
  }

  function Apply(bundle: Bundle, t: Tables, e: Event): Tables {
    match e
    case Attempt(call, durable) => if durable then AfterLocked(bundle, t, call) else t
    case ChangeSession(id, row) => t.(sessions := t.sessions[id := row])
    case ChangeCharacter(c) => t.(character := c)
    case ChangeJobs(jobs) => t.(activeJobs := jobs)
    case ExitNative =>
      if Classify(bundle, t) == Some(Admission) then Advance(t, Revision(4, TerminatedNative)) else t
    case ExitContinued =>
      var family := Classify(bundle, t);
      if family.Some? && family.value.Continued? then Advance(t, Revision(5, TerminatedContinued)) else t
  }

  function Run(bundle: Bundle, t: Tables, es: seq<Event>): Tables
    decreases |es|
  {
    if es == [] then t else Run(bundle, Apply(bundle, t, es[0]), es[1..])
  }

  function Continuations(rs: seq<Revision>): nat {
    if rs == [] then 0 else Continuations(rs[..|rs| - 1]) + (if rs[|rs| - 1].kind.Continuing? then 1 else 0)
  }

  /** Nothing of a continuation exists. */
  predicate Nothing(t: Tables) {
    NoRows(t) && |t.participations| == 1 && Continuations(t.revisions) == 0
    && t.current in {Revision(3, Attached), Revision(4, TerminatedNative)}
  }

  /** Exactly one continuation exists, with all its rows, and they belong together. */
  predicate Whole(t: Tables) {
    && OneOfEach(t) && Bound(t.participations[0], RowsOf(t)) && Continuations(t.revisions) == 1
    && (var request := RowsOf(t).evidence.request; t.receipts == map[OperationOf(request) := Receipt(request, 4)])
    && t.current in {Revision(4, Continuing), Revision(5, TerminatedContinued)}
  }

  lemma ContinuationsAppend(rs: seq<Revision>, r: Revision)
    ensures Continuations(rs + [r]) == Continuations(rs) + (if r.kind.Continuing? then 1 else 0)
  {
    assert (rs + [r])[..|rs|] == rs;
  }

  /** A locked section either changes nothing or turns nothing into a whole continuation. */
  lemma LockedAllOrNothing(bundle: Bundle, t: Tables, call: Call)
    requires Nothing(t) || Whole(t)
    ensures Admit(bundle, t, call).Written? ==>
      && Nothing(t) && t.current == Revision(3, Attached)
      && Whole(AfterLocked(bundle, t, call)) && RowsOf(AfterLocked(bundle, t, call)).evidence.request == call.request
    ensures !Admit(bundle, t, call).Written? ==> AfterLocked(bundle, t, call) == t
  {
    if Admit(bundle, t, call).Written? {
      WrittenReclassifies(bundle, t, call);
      ContinuationsAppend(t.revisions, SUCCESSOR);
    }
  }

  lemma StepAllOrNothing(bundle: Bundle, t: Tables, e: Event)
    requires Nothing(t) || Whole(t)
    ensures var after := Apply(bundle, t, e); Nothing(after) || Whole(after)
    ensures Whole(t) ==> Whole(Apply(bundle, t, e)) && RowsOf(Apply(bundle, t, e)) == RowsOf(t)
  {
    match e
    case Attempt(call, durable) => LockedAllOrNothing(bundle, t, call);
    case ExitNative => ContinuationsAppend(t.revisions, Revision(4, TerminatedNative));
    case ExitContinued => ExitAllOrNothing(bundle, t);
    case _ =>
  }

  lemma ExitAllOrNothing(bundle: Bundle, t: Tables)
    requires Nothing(t) || Whole(t)
    ensures var after := Apply(bundle, t, ExitContinued);
      if Whole(t) then Whole(after) && RowsOf(after) == RowsOf(t) else after == t
  {
    ContinuationsAppend(t.revisions, Revision(5, TerminatedContinued));
    assert RowsOfAdvanced(t, Revision(5, TerminatedContinued));
  }

  /** A revision more leaves the rows of a continuation alone. */
  predicate RowsOfAdvanced(t: Tables, r: Revision) {
    OneOfEach(t) ==> OneOfEach(Advance(t, r)) && RowsOf(Advance(t, r)) == RowsOf(t)
  }

  /** Exactly once: in every run the continuation's rows are all there or none is, and revision 4 is
      reached by a continuation at most once; once there, the rows never change again. */
  lemma {:induction false} ExactlyOnce(bundle: Bundle, t: Tables, es: seq<Event>)
    requires Nothing(t) || Whole(t)
    ensures var last := Run(bundle, t, es); Nothing(last) || Whole(last)
    ensures Continuations(Run(bundle, t, es).revisions) <= 1
    ensures Whole(t) ==> Whole(Run(bundle, t, es)) && RowsOf(Run(bundle, t, es)) == RowsOf(t)
    decreases |es|
  {
    if es != [] {
      StepAllOrNothing(bundle, t, es[0]);
      ExactlyOnce(bundle, Apply(bundle, t, es[0]), es[1..]);
    }
  }

  /** Two attempts that both write cannot occur in one run, whatever lies between them. */
  lemma SecondAttemptWritesNothing(bundle: Bundle, t: Tables, first: Call, es: seq<Event>, second: Call)
    requires Nothing(t) && Admit(bundle, t, first).Written?
    ensures var later := Run(bundle, AfterLocked(bundle, t, first), es);
      !Admit(bundle, later, second).Written? && AfterLocked(bundle, later, second) == later
  {
    LockedAllOrNothing(bundle, t, first);
    var done := AfterLocked(bundle, t, first);
    ExactlyOnce(bundle, done, es);
    LockedAllOrNothing(bundle, Run(bundle, done, es), second);
  }

  /** The locked read succeeds and finds the participation the client read before. */
  predicate Readable(bundle: Bundle, t: Tables, call: Call) {
    var v := Read(bundle, t, call.request.controller, call.request.sourceSession);
    v.Some? && v.value.participation == call.participation
  }

  /** Recovery from a whole continuation: the identical command is answered with the same result as
      long as the run can be read, before or after termination; the same key with anything else
      changed is a conflict; nothing is ever written. */
  lemma ReplayAnswers(bundle: Bundle, t: Tables, call: Call)
    requires Whole(t)
    ensures AfterLocked(bundle, t, call) == t
    ensures Readable(bundle, t, call) && call.request == RowsOf(t).evidence.request
      ==> Admit(bundle, t, call) == Replayed(ResultOf(RowsOf(t)))
    ensures Readable(bundle, t, call) && call.request != RowsOf(t).evidence.request
      && OperationOf(call.request) == OperationOf(RowsOf(t).evidence.request)
      ==> Admit(bundle, t, call) == Refused(IdempotencyConflict)
    ensures !Readable(bundle, t, call) ==> Admit(bundle, t, call) in {Refused(SessionNotFound), Refused(SnapshotInvalid)}
  {
    LockedAllOrNothing(bundle, t, call);
  }

  /** Termination by the exit service does not take the replay away. */
  lemma ReplaySurvivesExit(bundle: Bundle, t: Tables, call: Call)
    requires Whole(t) && Readable(bundle, t, call) && call.request == RowsOf(t).evidence.request
    ensures var exited := Apply(bundle, t, ExitContinued);
      exited.current == Revision(5, TerminatedContinued)
      && Admit(bundle, exited, call) == Admit(bundle, t, call) == Replayed(ResultOf(RowsOf(t)))
  {
    ReplayAnswers(bundle, t, call);
    ExitStaysReadable(bundle, t, call);
    ExitAllOrNothing(bundle, t);
    ReplayAnswers(bundle, Apply(bundle, t, ExitContinued), call);
  }

  lemma ExitStaysReadable(bundle: Bundle, t: Tables, call: Call)
    requires Whole(t) && Readable(bundle, t, call)
    ensures var exited := Apply(bundle, t, ExitContinued);
      exited.current == Revision(5, TerminatedContinued) && Readable(bundle, exited, call)
  {
    if t.current == Revision(4, Continuing) {
      var exited := Advance(t, Revision(5, TerminatedContinued));
      assert Classify(bundle, t) == Some(Continued(RowsOf(t)));
      assert RowsOfAdvanced(t, Revision(5, TerminatedContinued));
      assert SealedIn(bundle, exited, RowsOf(t));
      assert Classify(bundle, exited) == Some(Terminated(RowsOf(t)));
    }
  }

  /** An attempt whose commit outcome is unknown, any further events, then the identical command:
      there is at most one continuation; if the first commit took effect, the retry writes nothing
      and, when the run can be read, returns the result the first attempt would have returned. */
  lemma UnknownOutcomeIsRecoverable(bundle: Bundle, t: Tables, first: Call, durable: bool, es: seq<Event>, retry: Call)
    requires Nothing(t) && Admit(bundle, t, first).Written? && retry.request == first.request
    ensures var later := Run(bundle, Apply(bundle, t, Attempt(first, durable)), es);
      && Continuations(AfterLocked(bundle, later, retry).revisions) <= 1
      && (durable ==> AfterLocked(bundle, later, retry) == later)
      && (durable && Readable(bundle, later, retry) ==>
            Admit(bundle, later, retry) == Replayed(Admit(bundle, t, first).result))
  {
    LockedAllOrNothing(bundle, t, first);
    var start := Apply(bundle, t, Attempt(first, durable));
    ExactlyOnce(bundle, start, es);
    var later := Run(bundle, start, es);
    LockedAllOrNothing(bundle, later, retry);
    if durable {
      WrittenReclassifies(bundle, t, first);
      ReplayAnswers(bundle, later, retry);
    }
  }

  /** The command is not vacuously safe: a client that reads an eligible run with the right expected
      versions, and is not disturbed before its locked section, continues it. */
  lemma UndisturbedClientContinues(bundle: Bundle, t: Tables, request: Request, destination: Prepared)
    requires Nothing(t) && t.current == Revision(3, Attached)
    requires t.participations[0].session == request.sourceSession && t.character == Character(request.controller, true)
    requires request.sourceSession in t.sessions && request.sourceSession !in t.activeJobs
    requires var row := t.sessions[request.sourceSession];
      && row.scenario == SOURCE_SCENARIO && row.scenarioVersion == SOURCE_VERSION
      && Accepted(bundle, row.state, request.sourceSession, row.version, row.events)
      && request.expectedRun == 3 && request.expectedSession == row.version
    requires destination.session !in t.sessions
    ensures var call := ReadPhase(bundle, t, request, destination);
      call.Some? && Admit(bundle, t, call.value).Written? && Whole(AfterLocked(bundle, t, call.value))
  {
    var call := ReadPhase(bundle, t, request, destination);
    assert call.Some?;
    LockedAllOrNothing(bundle, t, call.value);
  }
}
