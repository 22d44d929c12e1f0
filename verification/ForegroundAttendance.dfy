/** Whether an attempt that is in flight still has the operation that will settle it. */
module ForegroundAttendance {
  import opened Options
  import opened ForegroundProtocol
  import opened ForegroundRuns

  // ---- the ordinary case ----

  predicate InFlight(s: State) { s.attempt.Some? && s.attempt.value.inFlight }

  /** The foreground operation is this attempt's own execution, under the present client. */
  predicate Served(s: State, g: nat) {
    && s.foreground.Some?
    && s.foreground.value in s.running
    && s.running[s.foreground.value].attempt.generation == g
    && s.running[s.foreground.value].client == s.latest
  }

  /** An attempt in flight is served, or a changed client is about to be noticed. */
  predicate Attended(s: State) {
    InFlight(s) ==> s.previous != s.latest || Served(s, s.attempt.value.generation)
  }

  /** An execution that reads the view of an entered Run has already let go of its attempt. */
  predicate LetGo(s: State) {
    forall op :: op in s.running && s.running[op].wait.ForView? && !s.running[op].attempt.kind.SessionCreate? ==>
      !Holds(s, s.running[op].attempt.generation)
  }

  /** Every view read in t was already going on in s, or has let go. */
  predicate OnlyOldViews(s: State, t: State) {
    forall op :: op in t.running && t.running[op].wait.ForView? && !t.running[op].attempt.kind.SessionCreate? ==>
      (op in s.running && s.running[op] == t.running[op]) || !Holds(t, t.running[op].attempt.generation)
  }

  lemma StoredViews(s: State, e: Execution, session: nat)
    ensures OnlyOldViews(s, Stored(s, e, session))
  {
  }

  lemma AfterResponseViews(s: State, e: Execution, session: nat, matches: bool, persisted: bool)
    ensures OnlyOldViews(s, AfterResponse(s, e, session, matches, persisted))
  {
    if !e.attempt.kind.CharacterCreate? && (matches || !e.attempt.kind.SessionCreate?) && persisted {
      StoredViews(Remember(s, e, session), e, session);
    }
  }

  lemma ExecuteViews(s: State, a: Attempt, launch: Launch)
    ensures OnlyOldViews(s, Execute(s, a, s.operations, launch))
  {
    if (a.kind.SessionCreate? || a.kind.NativeEntry?) && a.retained.Some? {
      AfterResponseViews(s, Execution(a, s.operations, s.latest, ForResponse), a.retained.value, launch.matches, launch.persisted);
    }
  }

  lemma StepViews(s: State, e: Event)
    ensures OnlyOldViews(s, Step(s, e))
  {
    match e
    case Start(kind, key, body, opening, launch) =>
      var a := Attempt(kind, s.generations + 1, key, body, opening, false, true, None, false);
      var begun := Begin(s.(generations := s.generations + 1, attempt := Some(a)));
      if s.foreground.None? && s.attempt.None? && begun.Some? {
        ExecuteViews(begun.value, a, launch);
      }
    case Retry(launch) =>
      if s.attempt.Some? && !s.attempt.value.inFlight {
        var a := s.attempt.value.(inFlight := true);
        var begun := Begin(s.(attempt := Some(a)));
        if begun.Some? {
          ExecuteViews(begun.value, a, launch);
        }
      }
    case Resume(op, answer) =>
      if op in s.running {
        var x := s.running[op];
        if IsCurrent(s, x) && x.wait.ForResponse? && answer.Answered? {
          AfterResponseViews(s, x, answer.session, answer.matches, answer.persisted);
        }
      }
    case _ =>
  }

  lemma StepLetGo(s: State, e: Event)
    requires Sound(s) && LetGo(s)
    ensures LetGo(Step(s, e))
  {
    var t := Step(s, e);
    StepViews(s, e);
    forall op | op in t.running && t.running[op].wait.ForView? && !t.running[op].attempt.kind.SessionCreate?
      ensures !Holds(t, t.running[op].attempt.generation)
    {
      if op in s.running && s.running[op] == t.running[op] {
        StepGone(s, e, s.running[op].attempt.generation);
      }
    }
  }

  /** Whether an event leaves an attempt in flight attended. */
  predicate Calm(s: State, e: Event) {
    InFlight(s) ==>
      match e
      case Abandon(_) => s.previous != s.latest
      case StorageFails => s.previous != s.latest
      case RecoveryBegins => s.previous != s.latest || s.storageFailed
      case NewClient(client) => client != s.previous || Served(s.(latest := client), s.attempt.value.generation)
      case _ => true
  }

  predicate CalmRun(s: State, events: seq<Event>)
    decreases |events|
  {
    events == [] || (Calm(s, events[0]) && CalmRun(Step(s, events[0]), events[1..]))
  }

  /** The execution in the foreground that an attempt in flight relies on, if it is in flight. */
  predicate Ready(s: State, e: Execution) {
    && s.foreground == Some(e.operation)
    && (InFlight(s) ==> e.attempt.generation == s.attempt.value.generation && e.attempt.kind == s.attempt.value.kind)
    && e.client == s.latest
  }

  lemma StoredAttended(s: State, e: Execution, session: nat)
    requires Ready(s, e)
    ensures Attended(Stored(s, e, session))
  {
  }

  lemma UnstoredAttended(s: State, e: Execution)
    requires Ready(s, e)
    ensures Attended(Unstored(s, e))
  {
  }

  lemma AfterResponseAttended(s: State, e: Execution, session: nat, matches: bool, persisted: bool)
    requires Ready(s, e)
    ensures Attended(AfterResponse(s, e, session, matches, persisted))
  {
    if !e.attempt.kind.CharacterCreate? && (matches || !e.attempt.kind.SessionCreate?) {
      var known := Remember(s, e, session);
      if persisted {
        StoredAttended(known, e, session);
      } else {
        UnstoredAttended(known, e);
      }
    }
  }

  lemma ExecuteAttended(s: State, a: Attempt, launch: Launch)
    requires Begun(s, a)
    ensures Attended(Execute(s, a, s.operations, launch))
  {
    if (a.kind.SessionCreate? || a.kind.NativeEntry?) && a.retained.Some? {
      AfterResponseAttended(s, Execution(a, s.operations, s.latest, ForResponse), a.retained.value, launch.matches, launch.persisted);
    }
  }

  lemma AfterResponseClients(s: State, e: Execution, session: nat, matches: bool, persisted: bool)
    ensures var t := AfterResponse(s, e, session, matches, persisted);
      t.latest == s.latest && t.previous == s.previous
  {
  }

  lemma RespondAttended(s: State, op: nat, answer: Answer)
    requires Sound(s) && LetGo(s) && Attended(s) && op in s.running
    ensures Attended(Respond(s, op, answer))
  {
    var e := s.running[op];
    if !IsCurrent(s, e) {
      return;
    }
    if s.previous != s.latest {
      if e.wait.ForResponse? && answer.Answered? {
        AfterResponseClients(s, e, answer.session, answer.matches, answer.persisted);
      }
    } else if e.wait.ForResponse? && answer.Answered? {
      AfterResponseAttended(s, e, answer.session, answer.matches, answer.persisted);
    }
  }

  /** From an attended state, exactly the calm events lead to one. */
  lemma StepAttended(s: State, e: Event)
    requires Sound(s) && LetGo(s) && Attended(s)
    ensures Attended(Step(s, e)) <==> Calm(s, e)
  {
    match e
    case Start(kind, key, body, opening, launch) =>
      var a := Attempt(kind, s.generations + 1, key, body, opening, false, true, None, false);
      var begun := Begin(s.(generations := s.generations + 1, attempt := Some(a)));
      if s.foreground.None? && s.attempt.None? && begun.Some? {
        ExecuteAttended(begun.value, a, launch);
      }
    case Retry(launch) =>
      if s.attempt.Some? && !s.attempt.value.inFlight {
        var a := s.attempt.value.(inFlight := true);
        var begun := Begin(s.(attempt := Some(a)));
        if begun.Some? {
          ExecuteAttended(begun.value, a, launch);
        }
      }
    case Resume(op, answer) =>
      if op in s.running {
        RespondAttended(s, op, answer);
      }
    case _ =>
  }

  lemma {:induction false} RunAttended(s: State, events: seq<Event>)
    requires Sound(s) && LetGo(s) && Attended(s) && CalmRun(s, events)
    ensures Attended(Run(s, events))
    decreases |events|
  {
    if events != [] {
      StepSound(s, events[0]);
      StepLetGo(s, events[0]);
      StepAttended(s, events[0]);
      RunAttended(Step(s, events[0]), events[1..]);
    }
  }

  /** Unless some event is not calm, an attempt in flight is always attended. */
  lemma AlwaysAttended(client: nat, events: seq<Event>)
    requires CalmRun(Initial(client), events)
    ensures Attended(Run(Initial(client), events))
  {
    RunAttended(Initial(client), events);
  }

  // ---- abandoning a session in flight ----

  /** The attempt is in flight, and whatever still runs for it has lost the foreground. */
  predicate Stranded(s: State, g: nat) {
    && Holds(s, g)
    && s.attempt.value.inFlight
    && forall op :: op in s.running && s.running[op].attempt.generation == g ==> s.foreground != Some(op)
  }

  /** The only events that can still move a stranded attempt. */
  predicate Frees(e: Event) { e.ClientEffect? || e.StorageRetry? }

  lemma AfterResponseStranded(s: State, e: Execution, session: nat, matches: bool, persisted: bool, g: nat)
    requires Stranded(s, g) && e.attempt.generation != g
    ensures var t := AfterResponse(s, e, session, matches, persisted);
      Stranded(t, g) && t.attempt == s.attempt && t.sends == s.sends
  {
  }

  lemma StepStranded(s: State, e: Event, g: nat)
    requires Sound(s) && Stranded(s, g) && !Frees(e)
    ensures Stranded(Step(s, e), g) && Step(s, e).attempt == s.attempt && Step(s, e).sends == s.sends
  {
    match e
    case Resume(op, answer) =>
      if op in s.running {
        var x := s.running[op];
        if IsCurrent(s, x) && x.wait.ForResponse? && answer.Answered? {
          AfterResponseStranded(s, x, answer.session, answer.matches, answer.persisted, g);
        }
      }
    case _ =>
  }

  /** A stranded attempt is neither settled nor sent again, and keeps every other attempt out, until a client change. */
  lemma {:induction false} StrandedStays(s: State, events: seq<Event>, g: nat)
    requires Sound(s) && Stranded(s, g)
    requires forall i :: 0 <= i < |events| ==> !Frees(events[i])
    ensures Run(s, events).attempt == s.attempt && Run(s, events).sends == s.sends && Stranded(Run(s, events), g)
    decreases |events|
  {
    if events != [] {
      StepSound(s, events[0]);
      StepStranded(s, events[0], g);
      StrandedStays(Step(s, events[0]), events[1..], g);
    }
  }

  /**
    * An attempt in flight that its own operation serves under the client last noticed is stranded by abandoning the
    * session, by a failing storage, and by a recovery that takes the foreground over, and by nothing else.
    */
  lemma StrandedIff(s: State, e: Event)
    requires Sound(s) && LetGo(s) && InFlight(s) && s.previous == s.latest && Served(s, s.attempt.value.generation)
    ensures Stranded(Step(s, e), s.attempt.value.generation) <==>
      e.Abandon? || e.StorageFails? || (e.RecoveryBegins? && !s.storageFailed)
  {
    var op := s.foreground.value;
    match e
    case Resume(other, answer) =>
      if other == op {
        RespondAttended(s, op, answer);
        RespondKeepsClients(s, op, answer);
      } else if other in s.running {
        assert !IsCurrent(s, s.running[other]);
      }
    case _ =>
  }

  lemma RespondKeepsClients(s: State, op: nat, answer: Answer)
    requires op in s.running
    ensures Respond(s, op, answer).latest == s.latest && Respond(s, op, answer).previous == s.previous
  {
    var e := s.running[op];
    if IsCurrent(s, e) && e.wait.ForResponse? && answer.Answered? {
      AfterResponseClients(s, e, answer.session, answer.matches, answer.persisted);
    }
  }

  /** Noticing a client change frees it, tainted, so that it can be sent again under the same key. */
  lemma ClientChangeFrees(s: State, g: nat)
    requires Stranded(s, g) && s.previous != s.latest
    ensures HeldTainted(Step(s, ClientEffect), g) && !Step(s, ClientEffect).attempt.value.inFlight
    ensures Step(s, ClientEffect).foreground.None?
  {
  }
}
