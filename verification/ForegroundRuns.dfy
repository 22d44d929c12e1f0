/** What the foreground protocol keeps over every interleaving of handlers, answers and client changes. */
module ForegroundRuns {
  import opened Options
  import opened ForegroundProtocol

  // ---- what every reachable state satisfies ----

  predicate SameRequest(a: Attempt, b: Attempt) { a.kind == b.kind && a.key == b.key && a.body == b.body }

  predicate Numbered(s: State) {
    && (s.foreground.Some? ==> s.foreground.value <= s.operations && s.foreground.value !in s.aborted)
    && (forall op :: op in s.aborted ==> op <= s.operations)
    && (forall op :: op in s.running ==> op <= s.operations && s.running[op].operation == op)
    && (s.attempt.Some? ==> s.attempt.value.generation <= s.generations)
    && (forall i :: 0 <= i < |s.sends| ==> s.sends[i].generation <= s.generations)
    && (forall op :: op in s.running ==> s.running[op].attempt.generation <= s.generations)
  }

  /** What is sent, and what is still running, for the attempt that is held is the attempt as it was frozen. */
  predicate Frozen(s: State) {
    s.attempt.Some? ==>
      && (forall i :: 0 <= i < |s.sends| && s.sends[i].generation == s.attempt.value.generation ==>
            s.sends[i].key == s.attempt.value.key && s.sends[i].body == s.attempt.value.body)
      && (forall op :: op in s.running && s.running[op].attempt.generation == s.attempt.value.generation ==>
            SameRequest(s.running[op].attempt, s.attempt.value))
  }

  predicate SendsAgree(sends: seq<Send>) {
    forall i, k :: 0 <= i < |sends| && 0 <= k < |sends| && sends[i].generation == sends[k].generation ==>
      sends[i].key == sends[k].key && sends[i].body == sends[k].body
  }

  predicate Sound(s: State) { Numbered(s) && Frozen(s) && SendsAgree(s.sends) }

  /** The execution may be running in this state: numbered, and with the frozen request if its attempt is held. */
  predicate Fits(s: State, e: Execution) {
    && e.operation <= s.operations
    && e.attempt.generation <= s.generations
    && (Holds(s, e.attempt.generation) ==> SameRequest(e.attempt, s.attempt.value))
  }

  /** Nothing is sent, the attempt, if it stays, keeps its request, and only e may have joined the running ones. */
  predicate QuietRefs(s: State, t: State) {
    && t.sends == s.sends
    && t.generations == s.generations
    && s.operations <= t.operations
    && (t.attempt.Some? ==>
          s.attempt.Some? && t.attempt.value.generation == s.attempt.value.generation &&
          SameRequest(t.attempt.value, s.attempt.value))
    && (forall op :: op in t.aborted ==> op in s.aborted || op <= t.operations)
    && (t.foreground.Some? ==>
          t.foreground.value !in t.aborted &&
          (t.foreground == s.foreground || s.operations < t.foreground.value <= t.operations))
  }

  predicate QuietRunning(s: State, t: State, e: Option<Execution>) {
    forall op :: op in t.running ==>
      if e.Some? && op == e.value.operation then t.running[op].operation == op && t.running[op].attempt == e.value.attempt
      else op in s.running && t.running[op] == s.running[op]
  }

  lemma QuietSound(s: State, t: State, e: Option<Execution>)
    requires Sound(s) && QuietRefs(s, t) && QuietRunning(s, t, e)
    requires e.Some? ==> Fits(s, e.value)
    ensures Sound(t)
  {
  }

  lemma RefsTransitive(s: State, t: State, u: State)
    requires QuietRefs(s, t) && QuietRefs(t, u)
    ensures QuietRefs(s, u)
  {
  }

  lemma UnstoredRefs(s: State, e: Execution)
    requires Numbered(s)
    ensures QuietRefs(s, Unstored(s, e))
  {
  }

  lemma StoredRefs(s: State, e: Execution, session: nat)
    requires Numbered(s)
    ensures QuietRefs(s, Stored(s, e, session))
  {
  }

  lemma AfterResponseRefs(s: State, e: Execution, session: nat, matches: bool, persisted: bool)
    requires Numbered(s)
    ensures QuietRefs(s, AfterResponse(s, e, session, matches, persisted))
  {
    if e.attempt.kind.CharacterCreate? {
      CreatedRefs(s, e);
    } else if e.attempt.kind.SessionCreate? && !matches {
      FailedRefs(s, e.attempt.generation, OtherFailure, e.operation);
    } else {
      var known := Remember(s, e, session);
      if persisted {
        StoredRefs(known, e, session);
        RefsTransitive(s, known, Stored(known, e, session));
      } else {
        UnstoredRefs(known, e);
        RefsTransitive(s, known, Unstored(known, e));
      }
    }
  }

  lemma CreatedRefs(s: State, e: Execution)
    requires Numbered(s)
    ensures QuietRefs(s, CharacterCreated(s, e))
  {
  }

  lemma FailedRefs(s: State, g: nat, f: Failure, op: nat)
    requires Numbered(s)
    ensures QuietRefs(s, Finish(Classify(s, g, f), op))
  {
  }

  lemma AfterResponseRunning(s: State, e: Execution, session: nat, matches: bool, persisted: bool)
    ensures QuietRunning(s, AfterResponse(s, e, session, matches, persisted), Some(e))
  {
  }

  lemma AfterResponseSound(s: State, e: Execution, session: nat, matches: bool, persisted: bool)
    requires Sound(s) && Fits(s, e)
    ensures Sound(AfterResponse(s, e, session, matches, persisted))
  {
    AfterResponseRefs(s, e, session, matches, persisted);
    AfterResponseRunning(s, e, session, matches, persisted);
    QuietSound(s, AfterResponse(s, e, session, matches, persisted), Some(e));
  }

  lemma RespondSound(s: State, op: nat, answer: Answer)
    requires Sound(s) && op in s.running
    ensures Sound(Respond(s, op, answer))
  {
    var e := s.running[op];
    if IsCurrent(s, e) && e.wait.ForResponse? && answer.Answered? {
      AfterResponseSound(s, e, answer.session, answer.matches, answer.persisted);
    } else {
      QuietSound(s, Respond(s, op, answer), None);
    }
  }

  /** The state in which an attempt has just been given the foreground. */
  predicate Begun(s: State, a: Attempt) {
    s.attempt == Some(a) && s.foreground == Some(s.operations)
  }

  lemma ExecuteSound(s: State, a: Attempt, launch: Launch)
    requires Sound(s) && Begun(s, a)
    ensures Sound(Execute(s, a, s.operations, launch))
  {
    var e := Execution(a, s.operations, s.latest, ForResponse);
    if (a.kind.SessionCreate? || a.kind.NativeEntry?) && a.retained.Some? {
      AfterResponseSound(s, e, a.retained.value, launch.matches, launch.persisted);
    } else if a.kind.NativeEntry? && a.opening && !launch.openingSaved {
      QuietSound(s, Execute(s, a, s.operations, launch), None);
    }
  }

  lemma StartSound(s: State, kind: Kind, key: string, body: nat, opening: bool, launch: Launch)
    requires Sound(s)
    ensures Sound(StartAttempt(s, kind, key, body, opening, launch))
  {
    var a := Attempt(kind, s.generations + 1, key, body, opening, false, true, None, false);
    var begun := Begin(s.(generations := s.generations + 1, attempt := Some(a)));
    if s.foreground.None? && s.attempt.None? && begun.Some? {
      FreshSound(s, a);
      ExecuteSound(begun.value, a, launch);
    }
  }

  /** An attempt with a new number was never sent and is not running. */
  lemma FreshSound(s: State, a: Attempt)
    requires Sound(s) && a.generation == s.generations + 1 && s.foreground.None? && !s.storageFailed
    ensures Sound(Begin(s.(generations := s.generations + 1, attempt := Some(a))).value)
  {
  }

  lemma RetrySound(s: State, launch: Launch)
    requires Sound(s)
    ensures Sound(RetryAttempt(s, launch))
  {
    if s.attempt.Some? && !s.attempt.value.inFlight {
      var a := s.attempt.value.(inFlight := true);
      var begun := Begin(s.(attempt := Some(a)));
      if begun.Some? {
        ExecuteSound(begun.value, a, launch);
      }
    }
  }

  lemma StepSound(s: State, e: Event)
    requires Sound(s)
    ensures Sound(Step(s, e))
  {
    match e
    case Start(kind, key, body, opening, launch) =>
      StartSound(s, kind, key, body, opening, launch);
    case Retry(launch) =>
      RetrySound(s, launch);
    case Resume(op, answer) =>
      if op in s.running {
        RespondSound(s, op, answer);
      }
    case OtherBegins(cleared) =>
      OtherSound(s, e);
    case RecoveryBegins =>
      OtherSound(s, e);
    case ClientEffect =>
      ChangeSound(s);
    case _ =>
      SmallSound(s, e);
  }

  lemma OtherSound(s: State, e: Event)
    requires Sound(s) && (e.OtherBegins? || e.RecoveryBegins?)
    ensures Sound(Step(s, e))
  {
    QuietSound(s, Step(s, e), None);
  }

  lemma ChangeSound(s: State)
    requires Sound(s)
    ensures Sound(ChangeClient(s))
  {
    QuietSound(s, ChangeClient(s), None);
  }

  lemma SmallSound(s: State, e: Event)
    requires Sound(s)
    requires e.StorageRetry? || e.OtherFinishes? || e.StorageFails? || e.Abandon? || e.RecoveryStops? || e.NewClient?
    ensures Sound(Step(s, e))
  {
    QuietSound(s, Step(s, e), None);
  }

  lemma {:induction false} RunSound(s: State, events: seq<Event>)
    requires Sound(s)
    ensures Sound(Run(s, events))
    decreases |events|
  {
    if events != [] {
      StepSound(s, events[0]);
      RunSound(Step(s, events[0]), events[1..]);
    }
  }

  /** Every send of one attempt, first or retried, under whatever client, carries the same key and body. */
  lemma SameKeyAndBody(client: nat, events: seq<Event>, i: nat, k: nat)
    ensures var sends := Run(Initial(client), events).sends;
      i < |sends| && k < |sends| && sends[i].generation == sends[k].generation ==>
        sends[i].key == sends[k].key && sends[i].body == sends[k].body
  {
    RunSound(Initial(client), events);
  }

  // ---- invalidated and superseded operations ----

  /** The operation has been begun and is not the foreground one. */
  predicate Superseded(s: State, op: nat) { op <= s.operations && s.foreground != Some(op) }

  /** t adds no send and no commit of op to those of s. */
  predicate NothingBy(s: State, t: State, op: nat) {
    && s.sends <= t.sends
    && s.commits <= t.commits
    && (forall i :: |s.sends| <= i < |t.sends| ==> t.sends[i].operation != op)
    && (forall i :: |s.commits| <= i < |t.commits| ==> t.commits[i].operation != Some(op))
  }

  lemma NothingTransitive(s: State, t: State, u: State, op: nat)
    requires NothingBy(s, t, op) && NothingBy(t, u, op)
    ensures NothingBy(s, u, op)
  {
  }

  lemma AfterResponseBy(s: State, e: Execution, session: nat, matches: bool, persisted: bool, op: nat)
    requires e.operation != op && Superseded(s, op)
    ensures Superseded(AfterResponse(s, e, session, matches, persisted), op)
    ensures NothingBy(s, AfterResponse(s, e, session, matches, persisted), op)
  {
    if !e.attempt.kind.CharacterCreate? && (matches || !e.attempt.kind.SessionCreate?) {
      var known := Remember(s, e, session);
      if persisted {
        StoredBy(known, e, session, op);
      } else {
        UnstoredBy(known, e, op);
      }
    }
  }

  lemma StoredBy(s: State, e: Execution, session: nat, op: nat)
    requires e.operation != op && Superseded(s, op)
    ensures Superseded(Stored(s, e, session), op) && NothingBy(s, Stored(s, e, session), op)
  {
  }

  lemma UnstoredBy(s: State, e: Execution, op: nat)
    requires e.operation != op && Superseded(s, op)
    ensures Superseded(Unstored(s, e), op) && NothingBy(s, Unstored(s, e), op)
  {
  }

  lemma ExecuteBy(s: State, a: Attempt, launch: Launch, op: nat)
    requires s.operations != op && Superseded(s, op)
    ensures Superseded(Execute(s, a, s.operations, launch), op)
    ensures NothingBy(s, Execute(s, a, s.operations, launch), op)
  {
    var e := Execution(a, s.operations, s.latest, ForResponse);
    if (a.kind.SessionCreate? || a.kind.NativeEntry?) && a.retained.Some? {
      AfterResponseBy(s, e, a.retained.value, launch.matches, launch.persisted, op);
    }
  }

  /** An answer to an operation that is no longer current changes nothing but that operation's own ending. */
  lemma StaleAnswer(s: State, op: nat, answer: Answer)
    requires op in s.running && !IsCurrent(s, s.running[op])
    ensures var t := Step(s, Resume(op, answer));
      && t == s.(running := s.running - {op}, foreground := t.foreground)
      && (t.foreground == s.foreground || (s.foreground == Some(op) && t.foreground.None?))
  {
  }

  lemma RespondBy(s: State, other: nat, answer: Answer, op: nat)
    requires Sound(s) && Superseded(s, op) && other in s.running
    ensures Superseded(Respond(s, other, answer), op) && NothingBy(s, Respond(s, other, answer), op)
  {
    var e := s.running[other];
    if IsCurrent(s, e) && e.wait.ForResponse? && answer.Answered? {
      AfterResponseBy(s, e, answer.session, answer.matches, answer.persisted, op);
    }
  }

  lemma StepBy(s: State, e: Event, op: nat)
    requires Sound(s) && Superseded(s, op)
    ensures Superseded(Step(s, e), op) && NothingBy(s, Step(s, e), op)
  {
    match e
    case Start(kind, key, body, opening, launch) =>
      var a := Attempt(kind, s.generations + 1, key, body, opening, false, true, None, false);
      var begun := Begin(s.(generations := s.generations + 1, attempt := Some(a)));
      if s.foreground.None? && s.attempt.None? && begun.Some? {
        ExecuteBy(begun.value, a, launch, op);
      }
    case Retry(launch) =>
      if s.attempt.Some? && !s.attempt.value.inFlight {
        var a := s.attempt.value.(inFlight := true);
        var begun := Begin(s.(attempt := Some(a)));
        if begun.Some? {
          ExecuteBy(begun.value, a, launch, op);
        }
      }
    case Resume(other, answer) =>
      if other in s.running {
        RespondBy(s, other, answer, op);
      }
    case _ =>
  }

  /** Once superseded, an operation is never foreground again, and commits and sends nothing more, ever. */
  lemma {:induction false} SupersededForGood(s: State, events: seq<Event>, op: nat)
    requires Sound(s) && Superseded(s, op)
    ensures Superseded(Run(s, events), op) && NothingBy(s, Run(s, events), op)
    decreases |events|
  {
    if events != [] {
      StepSound(s, events[0]);
      StepBy(s, events[0], op);
      SupersededForGood(Step(s, events[0]), events[1..], op);
      NothingTransitive(s, Step(s, events[0]), Run(s, events), op);
    }
  }

  /** At most one suspended execution can still commit anything. */
  lemma OneCurrent(client: nat, events: seq<Event>, a: nat, b: nat)
    ensures var s := Run(Initial(client), events);
      a in s.running && b in s.running && IsCurrent(s, s.running[a]) && IsCurrent(s, s.running[b]) ==> a == b
  {
    RunSound(Initial(client), events);
  }

  // ---- taint ----

  predicate HeldTainted(s: State, g: nat) { Holds(s, g) && s.attempt.value.tainted }

  predicate CommittedSince(s: State, t: State, g: nat) {
    s.commits <= t.commits && exists i :: |s.commits| <= i < |t.commits| && t.commits[i].generation == g
  }

  /** A commit has an operation that was current, or is the explicit storage retry; either way the attempt succeeded. */
  predicate Kept(s: State, t: State, g: nat) { HeldTainted(t, g) || CommittedSince(s, t, g) }

  predicate Precious(s: State) {
    s.attempt.Some? && (s.attempt.value.kind.NativeEntry? || s.attempt.value.kind.SessionCreate?)
  }

  /** What a step owes a tainted attempt. */
  predicate Respects(s: State, t: State, g: nat)
    requires s.attempt.Some?
  {
    && s.commits <= t.commits
    && (Holds(t, g) ==> t.attempt.value.tainted && t.attempt.value.kind == s.attempt.value.kind)
    && (Precious(s) ==> Kept(s, t, g))
  }

  lemma StoredTaint(s: State, e: Execution, session: nat, g: nat)
    requires HeldTainted(s, g)
    ensures Respects(s, Stored(s, e, session), g)
  {
    var t := Stored(s, e, session);
    assert |t.commits| > |s.commits| ==> t.commits[|s.commits|].generation == e.attempt.generation;
  }

  lemma UnstoredTaint(s: State, e: Execution, g: nat)
    requires HeldTainted(s, g)
    ensures Respects(s, Unstored(s, e), g)
  {
  }

  lemma AfterResponseTaint(s: State, e: Execution, session: nat, matches: bool, persisted: bool, g: nat)
    requires HeldTainted(s, g) && (e.attempt.generation == g ==> e.attempt.kind == s.attempt.value.kind)
    ensures Respects(s, AfterResponse(s, e, session, matches, persisted), g)
  {
    if !e.attempt.kind.CharacterCreate? && (matches || !e.attempt.kind.SessionCreate?) {
      var known := Remember(s, e, session);
      if persisted {
        StoredTaint(known, e, session, g);
      } else {
        UnstoredTaint(known, e, g);
      }
    }
  }

  lemma RespondTaint(s: State, op: nat, answer: Answer, g: nat)
    requires Sound(s) && HeldTainted(s, g) && op in s.running
    ensures Respects(s, Respond(s, op, answer), g)
  {
    var e := s.running[op];
    var t := Respond(s, op, answer);
    assert |t.commits| > |s.commits| ==> t.commits[|s.commits|].generation == e.attempt.generation;
    if IsCurrent(s, e) && e.wait.ForResponse? && answer.Answered? {
      AfterResponseTaint(s, e, answer.session, answer.matches, answer.persisted, g);
    }
  }

  lemma RetryTaint(s: State, launch: Launch, g: nat)
    requires HeldTainted(s, g)
    ensures Respects(s, RetryAttempt(s, launch), g)
  {
    if !s.attempt.value.inFlight {
      var a := s.attempt.value.(inFlight := true);
      var begun := Begin(s.(attempt := Some(a)));
      if begun.Some? && (a.kind.SessionCreate? || a.kind.NativeEntry?) && a.retained.Some? {
        var e := Execution(a, begun.value.operations, s.latest, ForResponse);
        AfterResponseTaint(begun.value, e, a.retained.value, launch.matches, launch.persisted, g);
      }
    }
  }

  lemma StepTaint(s: State, e: Event, g: nat)
    requires Sound(s) && HeldTainted(s, g)
    ensures Respects(s, Step(s, e), g)
  {
    match e
    case Retry(launch) =>
      RetryTaint(s, launch, g);
    case Resume(op, answer) =>
      if op in s.running {
        RespondTaint(s, op, answer, g);
      }
    case StorageRetry(persisted) =>
      var t := RetryStorage(s, persisted);
      if t.attempt.None? {
        assert t.commits[|s.commits|].generation == g;
      }
    case _ =>
  }

  /** No new attempt can take the number of one that is gone. */
  predicate Gone(s: State, t: State, g: nat) {
    !Holds(t, g) && s.generations <= t.generations && s.commits <= t.commits
  }

  lemma AfterResponseGone(s: State, e: Execution, session: nat, matches: bool, persisted: bool, g: nat)
    requires !Holds(s, g)
    ensures Gone(s, AfterResponse(s, e, session, matches, persisted), g)
  {
  }

  lemma ExecuteGone(s: State, a: Attempt, launch: Launch, g: nat)
    requires !Holds(s, g)
    ensures Gone(s, Execute(s, a, s.operations, launch), g)
  {
    if (a.kind.SessionCreate? || a.kind.NativeEntry?) && a.retained.Some? {
      var e := Execution(a, s.operations, s.latest, ForResponse);
      AfterResponseGone(s, e, a.retained.value, launch.matches, launch.persisted, g);
    }
  }

  lemma RespondGone(s: State, op: nat, answer: Answer, g: nat)
    requires op in s.running && !Holds(s, g)
    ensures Gone(s, Respond(s, op, answer), g)
  {
    var e := s.running[op];
    if IsCurrent(s, e) && e.wait.ForResponse? && answer.Answered? {
      AfterResponseGone(s, e, answer.session, answer.matches, answer.persisted, g);
    }
  }

  /** No new attempt can take the number of one that is gone. */
  lemma StepGone(s: State, e: Event, g: nat)
    requires Sound(s) && !Holds(s, g) && g <= s.generations
    ensures Gone(s, Step(s, e), g)
  {
    match e
    case Start(kind, key, body, opening, launch) =>
      var a := Attempt(kind, s.generations + 1, key, body, opening, false, true, None, false);
      var begun := Begin(s.(generations := s.generations + 1, attempt := Some(a)));
      if s.foreground.None? && s.attempt.None? && begun.Some? {
        ExecuteGone(begun.value, a, launch, g);
      }
    case Retry(launch) =>
      if s.attempt.Some? && !s.attempt.value.inFlight {
        var a := s.attempt.value.(inFlight := true);
        var begun := Begin(s.(attempt := Some(a)));
        if begun.Some? {
          ExecuteGone(begun.value, a, launch, g);
        }
      }
    case Resume(op, answer) =>
      if op in s.running {
        RespondGone(s, op, answer, g);
      }
    case _ =>
  }

  lemma {:induction false} RunGone(s: State, events: seq<Event>, g: nat)
    requires Sound(s) && !Holds(s, g) && g <= s.generations
    ensures !Holds(Run(s, events), g) && s.commits <= Run(s, events).commits
    decreases |events|
  {
    if events != [] {
      StepSound(s, events[0]);
      StepGone(s, events[0], g);
      RunGone(Step(s, events[0]), events[1..], g);
    }
  }

  /** As long as an attempt is held, its taint stays. */
  lemma {:induction false} TaintMonotone(s: State, events: seq<Event>, g: nat)
    requires Sound(s) && HeldTainted(s, g)
    ensures Holds(Run(s, events), g) ==> HeldTainted(Run(s, events), g)
    decreases |events|
  {
    if events != [] {
      StepSound(s, events[0]);
      StepTaint(s, events[0], g);
      var t := Step(s, events[0]);
      if Holds(t, g) {
        TaintMonotone(t, events[1..], g);
      } else {
        StepNumbers(s, events[0]);
        RunGone(t, events[1..], g);
      }
    }
  }

  lemma StepNumbers(s: State, e: Event)
    requires Sound(s)
    ensures s.generations <= Step(s, e).generations
  {
    if s.attempt.None? || s.attempt.value.generation != s.generations {
      StepGone(s, e, s.generations);
    } else if s.generations > 0 {
      StepGone(s, e, s.generations - 1);
    }
  }

  /** A tainted native entry or session creation goes away only by succeeding, whatever failures are answered. */
  lemma {:induction false} TaintedNeverLost(s: State, events: seq<Event>, g: nat)
    requires Sound(s) && HeldTainted(s, g) && Precious(s)
    ensures Kept(s, Run(s, events), g)
    decreases |events|
  {
    if events != [] {
      StepSound(s, events[0]);
      StepTaint(s, events[0], g);
      StepNumbers(s, events[0]);
      var t := Step(s, events[0]);
      if HeldTainted(t, g) {
        TaintedNeverLost(t, events[1..], g);
        if CommittedSince(t, Run(t, events[1..]), g) {
          var i :| |t.commits| <= i < |Run(t, events[1..]).commits| && Run(t, events[1..]).commits[i].generation == g;
          assert |s.commits| <= i;
        }
      } else {
        RunGone(t, events[1..], g);
        var i :| |s.commits| <= i < |t.commits| && t.commits[i].generation == g;
        assert Run(t, events[1..]).commits[i].generation == g;
      }
    }
  }

  /**
    * Exactly which failed answers take a tainted attempt away: a documented refusal, never a missing character, of a
    * legacy attempt, answered to its own request while its operation is current.
    */
  lemma TaintedEndsIff(s: State, op: nat, f: Failure)
    requires Sound(s) && s.attempt.Some? && s.attempt.value.tainted && op in s.running
    ensures var a, e := s.attempt.value, s.running[op];
      Step(s, Resume(op, Failed(f))).attempt.None? <==>
        && IsCurrent(s, e)
        && e.wait.ForResponse?
        && e.attempt.generation == a.generation
        && (a.kind.CharacterCreate? || a.kind.RunEntry?)
        && IsDocumented(f)
        && !f.code.CharacterNotFound?
        && f.code in Refusals(a.kind)
  {
  }
}
