/** The client's foreground operation and its frozen mutation attempt, between one await and the next. */
module ForegroundProtocol {
  import opened Options

  datatype Kind = CharacterCreate | RunEntry | NativeEntry | SessionCreate

  /** retained is the response already received; awaitingStorage is set when only its record could not be stored. */
  datatype Attempt = Attempt(
    kind: Kind, generation: nat, key: string, body: nat, opening: bool,
    tainted: bool, inFlight: bool, retained: Option<nat>, awaitingStorage: bool)

  datatype Wait = ForResponse | ForView(session: nat)

  /** One suspended call of executeMutationAttempt: its own copy of the attempt, its operation and its client. */
  datatype Execution = Execution(attempt: Attempt, operation: nat, client: nat, wait: Wait)

  datatype Send = Send(generation: nat, key: string, body: nat, operation: nat)

  datatype What = Created | Recorded | Loaded

  /** An effect outside the attempt itself; operation is None for the explicit storage retry. */
  datatype Commit = Commit(generation: nat, operation: Option<nat>, what: What)

  datatype Code =
    | CharacterNotFound | IdempotencyConflict | CharacterStale | CharacterNotEligible | RunEntryConflict
    | RequestInvalid | ScenarioInvalid | ProtocolInvalid | EntryWorldInvalid | NativeUnavailable | OtherCode

  /** exact: the message is the documented one. */
  datatype Failure = Api(status: nat, code: Code, exact: bool) | OtherFailure

  datatype Answer = Failed(failure: Failure) | Answered(session: nat, matches: bool, persisted: bool)

  /** What the browser does while an execution starts. */
  datatype Launch = Launch(openingSaved: bool, matches: bool, persisted: bool)

  datatype State = State(
    latest: nat, previous: nat, foreground: Option<nat>, operations: nat, aborted: set<nat>,
    attempt: Option<Attempt>, generations: nat, storageFailed: bool,
    running: map<nat, Execution>, sends: seq<Send>, commits: seq<Commit>)

  function Initial(client: nat): State {
    State(client, client, None, 0, {}, None, 0, false, map[], [], [])
  }

  // ---- operations ----

  function Invalidate(s: State): State {
    s.(
      operations := s.operations + 1,
      aborted := if s.foreground.Some? then s.aborted + {s.foreground.value} else s.aborted,
      foreground := None)
  }

  function Begin(s: State): Option<State> {
    if s.foreground.Some? || s.storageFailed then None
    else Some(s.(operations := s.operations + 1, foreground := Some(s.operations + 1)))
  }

  predicate IsCurrent(s: State, e: Execution) {
    s.latest == e.client && s.foreground == Some(e.operation) && e.operation !in s.aborted
  }

  /** The end of an execution: it leaves, and clears the foreground if that is still its own. */
  function Finish(s: State, operation: nat): State {
    s.(running := s.running - {operation}, foreground := if s.foreground == Some(operation) then None else s.foreground)
  }

  function EnterStorageFailure(s: State): State { Invalidate(s).(storageFailed := true) }

  // ---- attempts ----

  predicate Holds(s: State, generation: nat) { s.attempt.Some? && s.attempt.value.generation == generation }

  function Update(s: State, generation: nat, change: Attempt -> Attempt): State {
    if Holds(s, generation) then s.(attempt := Some(change(s.attempt.value))) else s
  }

  function Clear(s: State, generation: nat): State {
    if Holds(s, generation) then s.(attempt := None) else s
  }

  function Tainted(a: Attempt): Attempt { a.(tainted := true, inFlight := false) }

  // ---- failures ----

  function DocumentedStatus(code: Code): nat {
    match code
    case CharacterNotFound => 404
    case IdempotencyConflict => 409
    case CharacterStale => 409
    case CharacterNotEligible => 409
    case RunEntryConflict => 409
    case RequestInvalid => 422
    case ScenarioInvalid => 422
    case ProtocolInvalid => 422
    case EntryWorldInvalid => 422
    case NativeUnavailable => 503
    case OtherCode => 0
  }

  /** A failure whose status, code and message are all the documented ones. */
  predicate IsDocumented(f: Failure) {
    f.Api? && !f.code.OtherCode? && f.status == DocumentedStatus(f.code) && f.exact
  }

  /** The codes that end an attempt of this kind, apart from a missing character. */
  function Refusals(kind: Kind): set<Code> {
    match kind
    case CharacterCreate => {IdempotencyConflict, RequestInvalid}
    case RunEntry =>
      {IdempotencyConflict, CharacterStale, CharacterNotEligible, RunEntryConflict, RequestInvalid, ScenarioInvalid}
    case SessionCreate => {IdempotencyConflict, RequestInvalid, ScenarioInvalid}
    case NativeEntry =>
      {IdempotencyConflict, CharacterStale, CharacterNotEligible, RunEntryConflict, RequestInvalid, ScenarioInvalid,
       ProtocolInvalid, EntryWorldInvalid, NativeUnavailable}
  }

  /** Whether this failure proves that the attempt took no effect. */
  predicate Ends(a: Attempt, f: Failure) {
    && IsDocumented(f)
    && match a.kind
      case SessionCreate => !a.tainted && a.retained.None? && f.code in Refusals(SessionCreate)
      case NativeEntry => !a.tainted
      case _ =>
        if f.code.CharacterNotFound? then !a.tainted && !(a.kind.RunEntry? && a.awaitingStorage)
        else f.code in Refusals(a.kind)
  }

  function Classify(s: State, generation: nat, f: Failure): State {
    if !Holds(s, generation) then s
    else if Ends(s.attempt.value, f) then s.(attempt := None)
    else s.(attempt := Some(Tainted(s.attempt.value)))
  }

  // ---- executions ----

  function Record(s: State, e: Execution, what: What): State {
    s.(commits := s.commits + [Commit(e.attempt.generation, Some(e.operation), what)])
  }

  /** The new character exists as far as the page is concerned only if the attempt is still held. */
  function CharacterCreated(s: State, e: Execution): State {
    var g := e.attempt.generation;
    Finish(if Holds(s, g) then Record(Clear(s, g), e, Created) else s, e.operation)
  }

  function Remember(s: State, e: Execution, session: nat): State {
    if e.attempt.kind.RunEntry? then s
    else Update(s, e.attempt.generation, (a: Attempt) => a.(retained := Some(session)))
  }

  /** The session could not be recorded: the attempt waits for the storage. */
  function Unstored(s: State, e: Execution): State {
    Finish(Update(EnterStorageFailure(s), e.attempt.generation, (a: Attempt) =>
      a.(inFlight := false, awaitingStorage := a.awaitingStorage || a.kind.RunEntry?)), e.operation)
  }

  /** The session is recorded, and its view is read next; a created session keeps its attempt until then. */
  function Stored(s: State, e: Execution, session: nat): State {
    var g := e.attempt.generation;
    if e.attempt.kind.SessionCreate? then
      Record(s, e, Recorded).(running := s.running[e.operation := e.(wait := ForView(session))])
    else if !Holds(s, g) then Finish(s, e.operation)
    else Record(Clear(s, g), e, Recorded).(running := s.running[e.operation := e.(wait := ForView(session))])
  }

  function AfterResponse(s: State, e: Execution, session: nat, matches: bool, persisted: bool): State {
    if e.attempt.kind.CharacterCreate? then CharacterCreated(s, e)
    else if e.attempt.kind.SessionCreate? && !matches then
      Finish(Classify(s, e.attempt.generation, OtherFailure), e.operation)
    else if persisted then Stored(Remember(s, e, session), e, session)
    else Unstored(Remember(s, e, session), e)
  }

  function AfterView(s: State, e: Execution, ok: bool): State {
    var g := e.attempt.generation;
    if ok then
      var loaded := Record(s, e, Loaded);
      Finish(if e.attempt.kind.SessionCreate? then Clear(loaded, g) else loaded, e.operation)
    else Finish(if e.attempt.kind.SessionCreate? then Update(s, g, Tainted) else s, e.operation)
  }

  /** A suspended execution resumes. One that is no longer current only leaves. */
  function Respond(s: State, operation: nat, answer: Answer): State
    requires operation in s.running
  {
    var e := s.running[operation];
    if !IsCurrent(s, e) then Finish(s, operation)
    else
      match e.wait
      case ForView(_) => AfterView(s, e, answer.Answered? && answer.matches)
      case ForResponse =>
        if answer.Failed? then Finish(Classify(s, e.attempt.generation, answer.failure), operation)
        else AfterResponse(s, e, answer.session, answer.matches, answer.persisted)
  }

  /** executeMutationAttempt up to its first suspension. */
  function Execute(s: State, a: Attempt, operation: nat, launch: Launch): State {
    var e := Execution(a, operation, s.latest, ForResponse);
    if (a.kind.SessionCreate? || a.kind.NativeEntry?) && a.retained.Some? then
      AfterResponse(s, e, a.retained.value, launch.matches, launch.persisted)
    else if a.kind.NativeEntry? && a.opening && !launch.openingSaved then
      Finish(Update(s, a.generation, (c: Attempt) => c.(inFlight := false)), operation)
    else
      s.(
        sends := s.sends + [Send(a.generation, a.key, a.body, operation)],
        running := s.running[operation := e])
  }

  // ---- handlers ----

  datatype Event =
    | Start(kind: Kind, key: string, body: nat, opening: bool, launch: Launch)
    | Retry(launch: Launch)
    | StorageRetry(persisted: bool)
    | Resume(operation: nat, answer: Answer)
    | OtherBegins(cleared: bool)
    | OtherFinishes(operation: nat)
    | StorageFails
    | Abandon(cleared: bool)
    | RecoveryBegins
    | RecoveryStops(operation: nat)
    | NewClient(client: nat)
    | ClientEffect

  function StartAttempt(s: State, kind: Kind, key: string, body: nat, opening: bool, launch: Launch): State {
    if s.foreground.Some? || s.attempt.Some? then s
    else
      var a := Attempt(kind, s.generations + 1, key, body, opening, false, true, None, false);
      var counted := s.(generations := s.generations + 1);
      match Begin(counted.(attempt := Some(a)))
      case None => counted
      case Some(begun) => Execute(begun, a, begun.operations, launch)
  }

  function RetryAttempt(s: State, launch: Launch): State {
    if s.attempt.None? || s.attempt.value.inFlight then s
    else
      var a := s.attempt.value.(inFlight := true);
      match Begin(s.(attempt := Some(a)))
      case None => s
      case Some(begun) => Execute(begun, a, begun.operations, launch)
  }

  function RetryStorage(s: State, persisted: bool): State {
    if s.foreground.Some? || s.attempt.None? || !s.attempt.value.kind.NativeEntry? || s.attempt.value.retained.None? then s
    else if !persisted then EnterStorageFailure(s)
    else
      s.(
        storageFailed := false,
        attempt := None,
        commits := s.commits + [Commit(s.attempt.value.generation, None, Recorded)])
  }

  /** An operation of another kind; a session transition first clears the stored record. */
  function BeginOther(s: State, cleared: bool): State {
    if s.foreground.Some? || s.storageFailed then s
    else if !cleared then EnterStorageFailure(s)
    else s.(operations := s.operations + 1, foreground := Some(s.operations + 1))
  }

  /** The effect that notices a changed client taints what is in flight. */
  function ChangeClient(s: State): State {
    if s.previous == s.latest then s
    else
      var tainted :=
        if s.attempt.Some? && s.attempt.value.inFlight then s.(attempt := Some(Tainted(s.attempt.value))) else s;
      Invalidate(tainted).(previous := s.latest)
  }

  function Step(s: State, e: Event): State {
    match e
    case Start(kind, key, body, opening, launch) => StartAttempt(s, kind, key, body, opening, launch)
    case Retry(launch) => RetryAttempt(s, launch)
    case StorageRetry(persisted) => RetryStorage(s, persisted)
    case Resume(operation, answer) => if operation in s.running then Respond(s, operation, answer) else s
    case OtherBegins(cleared) => BeginOther(s, cleared)
    case OtherFinishes(operation) => if operation in s.running then s else Finish(s, operation)
    case StorageFails => EnterStorageFailure(s)
    case Abandon(cleared) => Invalidate(s).(storageFailed := !cleared)
    case RecoveryBegins =>
      if s.storageFailed then s else s.(operations := s.operations + 1, foreground := Some(s.operations + 1))
    case RecoveryStops(operation) =>
      if operation in s.running || operation > s.operations then s
      else Finish(s.(aborted := s.aborted + {operation}), operation)
    case NewClient(client) => s.(latest := client)
    case ClientEffect => ChangeClient(s)
  }

  function Run(s: State, events: seq<Event>): State
    decreases |events|
  {
    if events == [] then s else Run(Step(s, events[0]), events[1..])
  }

  // ---- the refs and their handlers ----

  class Page {
    var latest: nat
    var previous: nat
    var foreground: Option<nat>
    var operations: nat
    var aborted: set<nat>
    var attempt: Option<Attempt>
    var generations: nat
    var storageFailed: bool
    var running: map<nat, Execution>
    var sends: seq<Send>
    var commits: seq<Commit>

    constructor (client: nat)
      ensures Abstract() == Initial(client)
    {
      latest, previous, foreground, operations, aborted := client, client, None, 0, {};
      attempt, generations, storageFailed := None, 0, false;
      running, sends, commits := map[], [], [];
    }

    function Abstract(): State
      reads this
    {
      State(latest, previous, foreground, operations, aborted, attempt, generations, storageFailed, running, sends, commits)
    }

    method InvalidateForegroundOperation()
      modifies this
      ensures Abstract() == Invalidate(old(Abstract()))
    {
      operations := operations + 1;
      if foreground.Some? {
        aborted := aborted + {foreground.value};
      }
      foreground := None;
    }

    method BeginForegroundOperation() returns (operation: Option<nat>)
      modifies this
      ensures operation.None? ==> Begin(old(Abstract())).None? && Abstract() == old(Abstract())
      ensures operation.Some? ==> Begin(old(Abstract())) == Some(Abstract()) && operation.value == operations
    {
      if foreground.Some? || storageFailed {
        return None;
      }
      operations := operations + 1;
      foreground := Some(operations);
      operation := foreground;
    }

    method FinishForegroundOperation(operation: nat)
      modifies this
      ensures Abstract() == Finish(old(Abstract()), operation)
    {
      running := running - {operation};
      if foreground == Some(operation) {
        foreground := None;
      }
    }

    method ClearMutationAttempt(generation: nat) returns (cleared: bool)
      modifies this`attempt
      ensures cleared <==> Holds(old(Abstract()), generation)
      ensures Abstract() == Clear(old(Abstract()), generation)
    {
      if attempt.None? || attempt.value.generation != generation {
        return false;
      }
      attempt := None;
      cleared := true;
    }

    method RetainUncertainMutation(generation: nat)
      modifies this`attempt
      ensures Abstract() == Update(old(Abstract()), generation, Tainted)
    {
      if attempt.Some? && attempt.value.generation == generation {
        attempt := Some(attempt.value.(tainted := true, inFlight := false));
      }
    }

    method RetainResponse(generation: nat, session: nat)
      modifies this`attempt
      ensures Abstract() == Update(old(Abstract()), generation, (a: Attempt) => a.(retained := Some(session)))
    {
      if attempt.Some? && attempt.value.generation == generation {
        attempt := Some(attempt.value.(retained := Some(session)));
      }
    }

    /** Nothing is on its way any more; an entered Run still waits for its record to be stored. */
    method Settle(generation: nat, stored: bool)
      modifies this`attempt
      ensures stored ==> Abstract() == Update(old(Abstract()), generation, (a: Attempt) => a.(inFlight := false))
      ensures !stored ==> Abstract() == Update(old(Abstract()), generation, (a: Attempt) =>
        a.(inFlight := false, awaitingStorage := a.awaitingStorage || a.kind.RunEntry?))
    {
      if attempt.Some? && attempt.value.generation == generation {
        var current := attempt.value;
        if !stored && current.kind.RunEntry? {
          current := current.(awaitingStorage := true);
        }
        attempt := Some(current.(inFlight := false));
      }
    }

    /** The branches as they are taken, kind by kind and code by code. */
    method ClassifyMutationFailure(generation: nat, f: Failure)
      modifies this`attempt
      ensures Abstract() == Classify(old(Abstract()), generation, f)
    {
      if attempt.None? || attempt.value.generation != generation {
        return;
      }
      var current := attempt.value;
      if current.kind.SessionCreate? {
        if !current.tainted && current.retained.None? && IsDocumented(f) && f.code in Refusals(SessionCreate) {
          attempt := None;
        } else {
          RetainUncertainMutation(generation);
        }
        return;
      }
      if current.kind.NativeEntry? {
        if current.tainted || !IsDocumented(f) {
          RetainUncertainMutation(generation);
        } else {
          attempt := None;
        }
        return;
      }
      var missing := IsDocumented(f) && f.code.CharacterNotFound?;
      if missing && (current.tainted || (current.kind.RunEntry? && current.awaitingStorage)) {
        RetainUncertainMutation(generation);
        return;
      }
      if missing {
        attempt := None;
        return;
      }
      if current.kind.CharacterCreate? {
        if IsDocumented(f) && (f.code.IdempotencyConflict? || f.code.RequestInvalid?) {
          attempt := None;
        } else {
          RetainUncertainMutation(generation);
        }
        return;
      }
      if IsDocumented(f) && f.code in Refusals(RunEntry) {
        attempt := None;
        return;
      }
      RetainUncertainMutation(generation);
    }

    method PersistRecoveryRecord(stored: bool)
      modifies this
      ensures Abstract() == if stored then old(Abstract()) else EnterStorageFailure(old(Abstract()))
    {
      if !stored {
        InvalidateForegroundOperation();
        storageFailed := true;
      }
    }

    method ContinueAfterResponse(e: Execution, session: nat, matches: bool, persisted: bool)
      modifies this
      ensures Abstract() == AfterResponse(old(Abstract()), e, session, matches, persisted)
    {
      var g := e.attempt.generation;
      if e.attempt.kind.CharacterCreate? {
        var cleared := ClearMutationAttempt(g);
        if cleared {
          commits := commits + [Commit(g, Some(e.operation), Created)];
        }
        FinishForegroundOperation(e.operation);
        return;
      }
      if e.attempt.kind.SessionCreate? && !matches {
        ClassifyMutationFailure(g, OtherFailure);
        FinishForegroundOperation(e.operation);
        return;
      }
      if !e.attempt.kind.RunEntry? {
        RetainResponse(g, session);
      }
      PersistRecoveryRecord(persisted);
      if !persisted {
        Settle(g, false);
        FinishForegroundOperation(e.operation);
        return;
      }
      if !e.attempt.kind.SessionCreate? {
        var cleared := ClearMutationAttempt(g);
        if !cleared {
          FinishForegroundOperation(e.operation);
          return;
        }
      }
      commits := commits + [Commit(g, Some(e.operation), Recorded)];
      running := running[e.operation := e.(wait := ForView(session))];
    }

    method ContinueAfterView(e: Execution, ok: bool)
      modifies this
      ensures Abstract() == AfterView(old(Abstract()), e, ok)
    {
      var g := e.attempt.generation;
      if ok {
        commits := commits + [Commit(g, Some(e.operation), Loaded)];
      }
      if e.attempt.kind.SessionCreate? {
        if ok {
          var _ := ClearMutationAttempt(g);
        } else {
          RetainUncertainMutation(g);
        }
      }
      FinishForegroundOperation(e.operation);
    }

    method ResumeExecution(operation: nat, answer: Answer)
      requires operation in running
      modifies this
      ensures Abstract() == Respond(old(Abstract()), operation, answer)
    {
      var e := running[operation];
      if !IsCurrent(Abstract(), e) {
        FinishForegroundOperation(operation);
        return;
      }
      match e.wait
      case ForView(_) =>
        ContinueAfterView(e, answer.Answered? && answer.matches);
      case ForResponse =>
        match answer
        case Failed(f) =>
          ClassifyMutationFailure(e.attempt.generation, f);
          FinishForegroundOperation(operation);
        case Answered(session, matches, persisted) =>
          ContinueAfterResponse(e, session, matches, persisted);
    }

    method ExecuteMutationAttempt(a: Attempt, operation: nat, launch: Launch)
      modifies this
      ensures Abstract() == Execute(old(Abstract()), a, operation, launch)
    {
      var e := Execution(a, operation, latest, ForResponse);
      if (a.kind.SessionCreate? || a.kind.NativeEntry?) && a.retained.Some? {
        ContinueAfterResponse(e, a.retained.value, launch.matches, launch.persisted);
        return;
      }
      if a.kind.NativeEntry? && a.opening && !launch.openingSaved {
        Settle(a.generation, true);
        FinishForegroundOperation(operation);
        return;
      }
      sends := sends + [Send(a.generation, a.key, a.body, operation)];
      running := running[operation := e];
    }

    method InstallAndSend(kind: Kind, key: string, body: nat, opening: bool, launch: Launch)
      modifies this
      ensures Abstract() == StartAttempt(old(Abstract()), kind, key, body, opening, launch)
    {
      if foreground.Some? || attempt.Some? {
        return;
      }
      generations := generations + 1;
      var a := Attempt(kind, generations, key, body, opening, false, true, None, false);
      attempt := Some(a);
      var operation := BeginForegroundOperation();
      if operation.None? {
        var _ := ClearMutationAttempt(a.generation);
        return;
      }
      ExecuteMutationAttempt(a, operation.value, launch);
    }

    method HandleMutationRetry(launch: Launch)
      modifies this
      ensures Abstract() == RetryAttempt(old(Abstract()), launch)
    {
      if attempt.None? || attempt.value.inFlight {
        return;
      }
      var current := attempt;
      var next := current.value.(inFlight := true);
      attempt := Some(next);
      var operation := BeginForegroundOperation();
      if operation.None? {
        attempt := current;
        return;
      }
      ExecuteMutationAttempt(next, operation.value, launch);
    }

    method HandleNativeStorageRetry(persisted: bool)
      modifies this
      ensures Abstract() == RetryStorage(old(Abstract()), persisted)
    {
      if attempt.None? || !attempt.value.kind.NativeEntry? || attempt.value.retained.None? || foreground.Some? {
        return;
      }
      PersistRecoveryRecord(persisted);
      if !persisted {
        return;
      }
      storageFailed := false;
      var generation := attempt.value.generation;
      var cleared := ClearMutationAttempt(generation);
      commits := commits + [Commit(generation, None, Recorded)];
    }

    method NoticeClient()
      modifies this
      ensures Abstract() == ChangeClient(old(Abstract()))
    {
      if previous == latest {
        return;
      }
      if attempt.Some? && attempt.value.inFlight {
        attempt := Some(attempt.value.(tainted := true, inFlight := false));
      }
      InvalidateForegroundOperation();
      previous := latest;
    }
  }
}
