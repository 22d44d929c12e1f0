/** Which events send a request, what it carries, and what its answer commits. */
module ForegroundSends {
  import opened Options
  import opened ForegroundProtocol

  // ---- sends ----

  /** No operation is in the foreground and the storage works. */
  predicate Ready(s: State) { s.foreground.None? && !s.storageFailed }

  /** A native entry whose recovery route could not be stored. */
  predicate RouteLost(kind: Kind, opening: bool, launch: Launch) { kind.NativeEntry? && opening && !launch.openingSaved }

  /** The answer of an earlier send is still at hand. */
  predicate AlreadyAnswered(a: Attempt) { (a.kind.SessionCreate? || a.kind.NativeEntry?) && a.retained.Some? }

  /** What an event sends: a start its own request under the next number, a retry the held one, nothing else anything. */
  function Sent(s: State, e: Event): seq<Send> {
    match e
    case Start(kind, key, body, opening, launch) =>
      if Ready(s) && s.attempt.None? && !RouteLost(kind, opening, launch)
      then [Send(s.generations + 1, key, body, s.operations + 1)] else []
    case Retry(launch) =>
      if Ready(s) && s.attempt.Some? && !s.attempt.value.inFlight && !AlreadyAnswered(s.attempt.value)
        && !RouteLost(s.attempt.value.kind, s.attempt.value.opening, launch)
      then [Send(s.attempt.value.generation, s.attempt.value.key, s.attempt.value.body, s.operations + 1)] else []
    case _ => []
  }

  lemma AfterResponseSendsNothing(s: State, e: Execution, session: nat, matches: bool, persisted: bool)
    ensures AfterResponse(s, e, session, matches, persisted).sends == s.sends
  {
  }

  lemma ExecuteSends(s: State, a: Attempt, operation: nat, launch: Launch)
    ensures Execute(s, a, operation, launch).sends == s.sends +
      if AlreadyAnswered(a) || RouteLost(a.kind, a.opening, launch) then [] else [Send(a.generation, a.key, a.body, operation)]
  {
    if AlreadyAnswered(a) {
      var e := Execution(a, operation, s.latest, ForResponse);
      AfterResponseSendsNothing(s, e, a.retained.value, launch.matches, launch.persisted);
    }
  }

  /** Exactly these requests are sent, in every state. */
  lemma SendsExactly(s: State, e: Event)
    ensures Step(s, e).sends == s.sends + Sent(s, e)
  {
    match e
    case Start(kind, key, body, opening, launch) =>
      var a := Attempt(kind, s.generations + 1, key, body, opening, false, true, None, false);
      var begun := Begin(s.(generations := s.generations + 1, attempt := Some(a)));
      if s.attempt.None? && begun.Some? {
        ExecuteSends(begun.value, a, begun.value.operations, launch);
      }
    case Retry(launch) =>
      if s.attempt.Some? && !s.attempt.value.inFlight {
        var a := s.attempt.value.(inFlight := true);
        var begun := Begin(s.(attempt := Some(a)));
        if begun.Some? {
          ExecuteSends(begun.value, a, begun.value.operations, launch);
        }
      }
    case Resume(op, answer) =>
      if op in s.running {
        RespondSendsNothing(s, op, answer);
      }
    case _ =>
  }

  lemma RespondSendsNothing(s: State, op: nat, answer: Answer)
    requires op in s.running
    ensures Respond(s, op, answer).sends == s.sends
  {
    var e := s.running[op];
    if IsCurrent(s, e) && e.wait.ForResponse? && answer.Answered? {
      AfterResponseSendsNothing(s, e, answer.session, answer.matches, answer.persisted);
    }
  }

  /** A request that is sent is waited for, by its own operation in the foreground, under the present client. */
  lemma SentIsAwaited(s: State, e: Event)
    requires Sent(s, e) != []
    ensures var t, op := Step(s, e), s.operations + 1;
      && op in t.running && t.foreground == Some(op) && t.operations == op
      && t.running[op].operation == op && t.running[op].client == s.latest && t.running[op].wait.ForResponse?
      && t.attempt == Some(t.running[op].attempt) && t.running[op].attempt.inFlight
      && Sent(s, e) == [Send(t.running[op].attempt.generation, t.running[op].attempt.key, t.running[op].attempt.body, op)]
  {
  }

  // ---- every awaited answer was asked for ----

  predicate LoggedAs(sends: seq<Send>, op: nat, e: Execution) {
    exists i :: 0 <= i < |sends| && sends[i] == Send(e.attempt.generation, e.attempt.key, e.attempt.body, op)
  }

  /** Every execution that waits for a response has its request in the log. */
  predicate Logged(s: State) {
    forall op :: op in s.running && s.running[op].wait.ForResponse? ==> LoggedAs(s.sends, op, s.running[op])
  }

  /** A waiting execution of t waited in s already, or e sent its request. */
  predicate NewlyWaiting(s: State, t: State, e: Event) {
    forall op :: op in t.running && t.running[op].wait.ForResponse? ==>
      || (op in s.running && t.running[op] == s.running[op])
      || Sent(s, e) == [Send(t.running[op].attempt.generation, t.running[op].attempt.key, t.running[op].attempt.body, op)]
  }

  predicate SameWaiting(s: State, t: State) {
    forall op :: op in t.running && t.running[op].wait.ForResponse? ==> op in s.running && t.running[op] == s.running[op]
  }

  lemma AfterResponseWaits(s: State, e: Execution, session: nat, matches: bool, persisted: bool)
    ensures SameWaiting(s, AfterResponse(s, e, session, matches, persisted))
  {
  }

  lemma ExecuteWaits(s: State, a: Attempt, launch: Launch)
    ensures var t, e := Execute(s, a, s.operations, launch), Execution(a, s.operations, s.latest, ForResponse);
      forall op :: op in t.running && t.running[op].wait.ForResponse? ==>
        (op in s.running && t.running[op] == s.running[op])
        || (op == s.operations && t.running[op] == e && !AlreadyAnswered(a) && !RouteLost(a.kind, a.opening, launch))
  {
    if AlreadyAnswered(a) {
      var e := Execution(a, s.operations, s.latest, ForResponse);
      AfterResponseWaits(s, e, a.retained.value, launch.matches, launch.persisted);
    }
  }

  lemma StepWaits(s: State, e: Event)
    ensures NewlyWaiting(s, Step(s, e), e)
  {
    match e
    case Start(kind, key, body, opening, launch) =>
      var a := Attempt(kind, s.generations + 1, key, body, opening, false, true, None, false);
      var begun := Begin(s.(generations := s.generations + 1, attempt := Some(a)));
      if s.attempt.None? && begun.Some? {
        ExecuteWaits(begun.value, a, launch);
      }
    case Retry(launch) =>
      if s.attempt.Some? && !s.attempt.value.inFlight {
        var a := s.attempt.value.(inFlight := true);
        var begun := Begin(s.(attempt := Some(a)));
        if begun.Some? {
          ExecuteWaits(begun.value, a, launch);
        }
      }
    case Resume(op, answer) =>
      if op in s.running {
        var x := s.running[op];
        if IsCurrent(s, x) && x.wait.ForResponse? && answer.Answered? {
          AfterResponseWaits(s, x, answer.session, answer.matches, answer.persisted);
        }
      }
    case _ =>
  }

  lemma LoggedGrows(sends: seq<Send>, more: seq<Send>, op: nat, e: Execution)
    requires LoggedAs(sends, op, e)
    ensures LoggedAs(sends + more, op, e)
  {
    var i :| 0 <= i < |sends| && sends[i] == Send(e.attempt.generation, e.attempt.key, e.attempt.body, op);
    assert (sends + more)[i] == sends[i];
  }

  lemma StepLogged(s: State, e: Event)
    requires Logged(s)
    ensures Logged(Step(s, e))
  {
    var t := Step(s, e);
    SendsExactly(s, e);
    StepWaits(s, e);
    forall op | op in t.running && t.running[op].wait.ForResponse? ensures LoggedAs(t.sends, op, t.running[op]) {
      if op in s.running && t.running[op] == s.running[op] {
        LoggedGrows(s.sends, Sent(s, e), op, s.running[op]);
      } else {
        assert t.sends[|s.sends|] == Sent(s, e)[0];
      }
    }
  }

  lemma {:induction false} RunLogged(s: State, events: seq<Event>)
    requires Logged(s)
    ensures Logged(Run(s, events))
    decreases |events|
  {
    if events != [] {
      StepLogged(s, events[0]);
      RunLogged(Step(s, events[0]), events[1..]);
    }
  }

  /** No response is waited for that was not asked for. */
  lemma EveryWaitWasSent(client: nat, events: seq<Event>, op: nat)
    ensures var s := Run(Initial(client), events);
      op in s.running && s.running[op].wait.ForResponse? ==> LoggedAs(s.sends, op, s.running[op])
  {
    RunLogged(Initial(client), events);
  }

  // ---- what a good answer commits ----

  /** The execution of op is current, waits for a response, and its attempt is the one held. */
  predicate Awaiting(s: State, op: nat, kind: Kind) {
    && op in s.running && s.running[op].operation == op && IsCurrent(s, s.running[op]) && s.running[op].wait.ForResponse?
    && s.running[op].attempt.kind == kind && Holds(s, s.running[op].attempt.generation) && s.attempt.value.kind == kind
  }

  lemma CharacterAnswered(s: State, op: nat, session: nat, matches: bool, persisted: bool)
    requires Awaiting(s, op, CharacterCreate)
    ensures var t := Step(s, Resume(op, Answered(session, matches, persisted)));
      && t.commits == s.commits + [Commit(s.attempt.value.generation, Some(op), Created)]
      && t.attempt.None? && t.foreground.None? && op !in t.running && t.storageFailed == s.storageFailed
  {
  }

  /** A Run that is entered and recorded lets go of its attempt before its view is read. */
  lemma EntryAnswered(s: State, op: nat, kind: Kind, session: nat, matches: bool)
    requires Awaiting(s, op, kind) && (kind.RunEntry? || kind.NativeEntry?)
    ensures var t := Step(s, Resume(op, Answered(session, matches, true)));
      && t.commits == s.commits + [Commit(s.attempt.value.generation, Some(op), Recorded)]
      && t.attempt.None? && t.foreground == Some(op) && op in t.running && t.running[op].wait == ForView(session)
      && t.storageFailed == s.storageFailed
  {
  }

  /** A created session keeps its attempt, with the response, until its view has been read. */
  lemma SessionAnswered(s: State, op: nat, session: nat)
    requires Awaiting(s, op, SessionCreate)
    ensures var t := Step(s, Resume(op, Answered(session, true, true)));
      && t.commits == s.commits + [Commit(s.attempt.value.generation, Some(op), Recorded)]
      && t.attempt == Some(s.attempt.value.(retained := Some(session)))
      && t.foreground == Some(op) && op in t.running && t.running[op].wait == ForView(session)
  {
  }

  /** A session the storage refuses to record: nothing is committed, the foreground is given up, and the attempt waits. */
  lemma StorageRefuses(s: State, op: nat, kind: Kind, session: nat)
    requires Awaiting(s, op, kind) && !kind.CharacterCreate?
    ensures var t := Step(s, Resume(op, Answered(session, true, false)));
      && t.commits == s.commits && t.storageFailed && t.foreground.None? && op !in t.running
      && t.attempt == Some(s.attempt.value.(
          inFlight := false,
          retained := if kind.RunEntry? then s.attempt.value.retained else Some(session),
          awaitingStorage := s.attempt.value.awaitingStorage || kind.RunEntry?))
  {
  }

  /** The view is read: it is loaded, and a session's attempt is let go. */
  lemma ViewRead(s: State, op: nat, session: nat, persisted: bool)
    requires op in s.running && s.running[op].operation == op && IsCurrent(s, s.running[op]) && s.running[op].wait.ForView?
    ensures var g, kind := s.running[op].attempt.generation, s.running[op].attempt.kind;
      var t := Step(s, Resume(op, Answered(session, true, persisted)));
      && t.commits == s.commits + [Commit(g, Some(op), Loaded)]
      && t.foreground.None? && op !in t.running
      && t.attempt == if kind.SessionCreate? && Holds(s, g) then None else s.attempt
  {
  }

  /** The view cannot be read: nothing is loaded, and a session's attempt is kept, tainted. */
  lemma ViewLost(s: State, op: nat, f: Failure)
    requires op in s.running && s.running[op].operation == op && IsCurrent(s, s.running[op]) && s.running[op].wait.ForView?
    ensures var g, kind := s.running[op].attempt.generation, s.running[op].attempt.kind;
      var t := Step(s, Resume(op, Failed(f)));
      && t.commits == s.commits && t.foreground.None? && op !in t.running
      && t.attempt ==
        if kind.SessionCreate? && Holds(s, g) then Some(s.attempt.value.(tainted := true, inFlight := false)) else s.attempt
  {
  }

  /** A retried session whose response is at hand is taken up where the response left it, without asking again. */
  lemma RetainedIsTakenUp(s: State, launch: Launch)
    requires Ready(s) && s.attempt.Some? && !s.attempt.value.inFlight
    requires AlreadyAnswered(s.attempt.value) && launch.matches && launch.persisted
    ensures var a, t, op := s.attempt.value, Step(s, Retry(launch)), s.operations + 1;
      && t.sends == s.sends && t.commits == s.commits + [Commit(a.generation, Some(op), Recorded)]
      && t.foreground == Some(op) && op in t.running && t.running[op].wait == ForView(a.retained.value)
      && t.attempt == (if a.kind.SessionCreate? then Some(a.(inFlight := true)) else None)
  {
  }

  /** The storage retry of a native entry: recorded at last, outside every operation, or still not. */
  lemma StorageRetried(s: State, persisted: bool)
    ensures var t := Step(s, StorageRetry(persisted));
      && t.sends == s.sends && t.running == s.running
      && if s.foreground.Some? || s.attempt.None? || !s.attempt.value.kind.NativeEntry? || s.attempt.value.retained.None? then
          t == s
        else if persisted then
          && t.commits == s.commits + [Commit(s.attempt.value.generation, None, Recorded)]
          && t.attempt.None? && !t.storageFailed
        else t.commits == s.commits && t.attempt == s.attempt && t.storageFailed
  {
  }

  /** A changed client is noticed once: the foreground is given up, and a request in flight is tainted. */
  lemma ClientNoticed(s: State)
    ensures var t := Step(s, ClientEffect);
      && t.previous == t.latest == s.latest && t.sends == s.sends && t.commits == s.commits && t.running == s.running
      && if s.previous == s.latest then t == s
        else
          && t.foreground.None? && t.operations == s.operations + 1
          && t.aborted == (if s.foreground.Some? then s.aborted + {s.foreground.value} else s.aborted)
          && t.attempt ==
            if s.attempt.Some? && s.attempt.value.inFlight then
              Some(s.attempt.value.(tainted := true, inFlight := false))
            else s.attempt
  {
  }

  // ---- which failures end an attempt ----

  /** The status, the code and the documented message. */
  predicate Documented(f: Failure, status: nat, codes: set<Code>) { f.Api? && f.exact && f.status == status && f.code in codes }

  /** The answers that prove an attempt took no effect, per kind, by status and code. */
  predicate Refuses(a: Attempt, f: Failure) {
    match a.kind
    case CharacterCreate =>
      || (Documented(f, 404, {CharacterNotFound}) && !a.tainted)
      || Documented(f, 409, {IdempotencyConflict})
      || Documented(f, 422, {RequestInvalid})
    case RunEntry =>
      || (Documented(f, 404, {CharacterNotFound}) && !a.tainted && !a.awaitingStorage)
      || Documented(f, 409, {IdempotencyConflict, CharacterStale, CharacterNotEligible, RunEntryConflict})
      || Documented(f, 422, {RequestInvalid, ScenarioInvalid})
    case SessionCreate =>
      !a.tainted && a.retained.None? &&
      (Documented(f, 409, {IdempotencyConflict}) || Documented(f, 422, {RequestInvalid, ScenarioInvalid}))
    case NativeEntry =>
      !a.tainted &&
      ( || Documented(f, 404, {CharacterNotFound})
        || Documented(f, 409, {IdempotencyConflict, CharacterStale, CharacterNotEligible, RunEntryConflict})
        || Documented(f, 422, {RequestInvalid, ScenarioInvalid, ProtocolInvalid, EntryWorldInvalid})
        || Documented(f, 503, {NativeUnavailable}))
  }

  /** A failed answer to the held attempt's own request ends it exactly if it is one of these, and taints it otherwise. */
  lemma FailureEndsIff(s: State, op: nat, f: Failure)
    requires op in s.running && s.running[op].operation == op && IsCurrent(s, s.running[op])
    requires s.running[op].wait.ForResponse? && Holds(s, s.running[op].attempt.generation)
    ensures var a, t := s.attempt.value, Step(s, Resume(op, Failed(f)));
      && t.attempt == (if Refuses(a, f) then None else Some(a.(tainted := true, inFlight := false)))
      && t.commits == s.commits && t.foreground.None? && op !in t.running
  {
  }
}
