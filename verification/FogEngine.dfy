/** Every stream an append-only decision engine produces is accepted by the verifier. */
module FogEngine {
  import opened Options
  import opened FogHistory

  /** The committed stream and the runtime the engine keeps beside it. */
  datatype Engine = Engine(
    records: seq<Record>,
    decisions: seq<string>,
    outcomes: seq<Outcome>,
    applied: set<string>,
    lastEvent: string,
    lastSequence: int)

  datatype Command =
    | Decide(decisionId: string, serverEventType: string, eventId: string, scenarioEventId: string)
    | Note(eventType: string, eventId: string, payload: map<string, Json>)

  function MakeRecord(session: string, eventId: string, sequence: int, kind: string, payload: map<string, Json>): Record {
    map["session_id" := JString(session), "event_id" := JString(eventId), "sequence_no" := JInt(sequence),
        "event_type" := JString(kind), "payload" := JObject(payload)]
  }

  function Begin(session: string, eventId: string): Engine {
    Engine([MakeRecord(session, eventId, 1, STARTED, START_PAYLOAD)], [], [], {}, "", 0)
  }

  predicate Fresh(e: Engine, eventId: string) {
    1 <= |eventId| <= 64
    && forall i :: 0 <= i < |e.records| ==> "event_id" in e.records[i] ==> e.records[i]["event_id"] != JString(eventId)
  }

  predicate Possible(bundle: Bundle, e: Engine, c: Command) {
    Fresh(e, c.eventId) &&
    match c
    case Decide(d, kind, _, s) => d !in e.decisions && s !in e.applied && ActionFor(bundle.actions, d, kind).Some?
    case Note(kind, _, _) => kind != STARTED && kind != DECIDED
  }

  function DecisionPayload(bundle: Bundle, c: Command): map<string, Json>
    requires c.Decide? && ActionFor(bundle.actions, c.decisionId, c.serverEventType).Some?
  {
    map["decision_id" := JString(c.decisionId), "scenario_event_type" := JString(c.serverEventType),
        "selected_action_id" := JString(ActionFor(bundle.actions, c.decisionId, c.serverEventType).value.actionId),
        "selected_action_type" := JString("choose"), "source" := JString("VALIDATED_DECISION_RESPONSE"),
        "scenario_event_id" := JString(c.scenarioEventId)]
  }

  function Perform(bundle: Bundle, session: string, e: Engine, c: Command): Engine
    requires Possible(bundle, e, c)
  {
    var n := |e.records| + 1;
    match c
    case Decide(d, kind, id, s) =>
      Engine(e.records + [MakeRecord(session, id, n, DECIDED, DecisionPayload(bundle, c))],
        e.decisions + [d], e.outcomes + [Outcome(d, kind)], e.applied + {s}, id, n)
    case Note(kind, id, payload) =>
      e.(records := e.records + [MakeRecord(session, id, n, kind, payload)])
  }

  /** The engine refuses a command that is not possible. */
  function Run(bundle: Bundle, session: string, e: Engine, cs: seq<Command>): Engine
    decreases |cs|
  {
    if cs == [] then e
    else Run(bundle, session, if Possible(bundle, e, cs[0]) then Perform(bundle, session, e, cs[0]) else e, cs[1..])
  }

  /** The state that is sealed when the run ends: the runtime, and a memory that points at the last
      decision. `codes` is what the station policy derives from the path. */
  function Sealed(e: Engine, codes: seq<string>, ending: string): State {
    State(Some(codes), e.decisions, e.outcomes, e.applied, Some(ending), true,
      [MemoryRecord(true, ending, SOURCE_SCENARIO, SOURCE_VERSION, e.lastEvent, e.lastSequence)],
      e.lastEvent, e.lastSequence)
  }

  /** What every step of the engine keeps. */
  ghost predicate Consistent(bundle: Bundle, session: string, e: Engine) {
    && Ordered(e.records, session) && Started(e.records, session)
    && DecisionsKept(bundle, session, e)
    && LastKept(session, e)
  }

  ghost predicate DecisionsKept(bundle: Bundle, session: string, e: Engine) {
    var decided := OfType(e.records, DECIDED);
    |decided| == |e.decisions| && DecisionsAgree(bundle, Sealed(e, [], ""), decided, session)
  }

  ghost predicate LastKept(session: string, e: Engine) {
    var decided := OfType(e.records, DECIDED);
    decided != [] ==>
      var last := decided[|decided| - 1];
      WellTyped(last, session) && last["event_id"] == JString(e.lastEvent) && last["sequence_no"] == JInt(e.lastSequence)
  }

  lemma BeginConsistent(bundle: Bundle, session: string, firstId: string)
    requires 1 <= |firstId| <= 64
    ensures Consistent(bundle, session, Begin(session, firstId))
  {
    var e := Begin(session, firstId);
    assert e.records[..0] == [];
    assert OfType(e.records, STARTED) == OfType([], STARTED) + [e.records[0]];
    assert STARTED != DECIDED by { assert STARTED[8] != DECIDED[8]; }
    assert OfType(e.records, DECIDED) == [];
    assert Elements(EventIds([])) == AsJson({});
  }

  lemma Appended(records: seq<Record>, r: Record, kind: string)
    ensures OfType(records + [r], kind) == OfType(records, kind) + (if IsType(r, kind) then [r] else [])
  {
    assert (records + [r])[..|records|] == records;
  }

  lemma OrderedAppend(session: string, e: Engine, eventId: string, kind: string, payload: map<string, Json>)
    requires Ordered(e.records, session) && Fresh(e, eventId)
    ensures Ordered(e.records + [MakeRecord(session, eventId, |e.records| + 1, kind, payload)], session)
  {
  }

  /** Recording one more outcome does not disturb the earlier decisions. */
  lemma {:induction false} OutcomeAppend(outcomes: seq<Outcome>, o: Outcome, d: string)
    ensures OutcomeOf(outcomes + [o], d) == if o.decisionId == d then Some(o) else OutcomeOf(outcomes, d)
  {
    assert (outcomes + [o])[..|outcomes|] == outcomes;
  }

  lemma EarlierDecisionsKept(bundle: Bundle, session: string, e: Engine, c: Command)
    requires Consistent(bundle, session, e) && Possible(bundle, e, c) && c.Decide?
    ensures var after := Perform(bundle, session, e, c); var decided := OfType(e.records, DECIDED);
      forall j :: 0 <= j < |decided| ==> DecisionAt(bundle, Sealed(after, [], ""), decided[j], e.decisions[j], session)
  {
    var decided := OfType(e.records, DECIDED);
    forall j | 0 <= j < |decided|
      ensures DecisionAt(bundle, Sealed(Perform(bundle, session, e, c), [], ""), decided[j], e.decisions[j], session)
    {
      assert DecisionAt(bundle, Sealed(e, [], ""), decided[j], e.decisions[j], session);
      OutcomeAppend(e.outcomes, Outcome(c.decisionId, c.serverEventType), e.decisions[j]);
    }
  }

  lemma NewDecisionMatches(bundle: Bundle, session: string, e: Engine, c: Command)
    requires Possible(bundle, e, c) && c.Decide?
    ensures var after := Perform(bundle, session, e, c);
      DecisionAt(bundle, Sealed(after, [], ""), after.records[|e.records|], c.decisionId, session)
  {
    OutcomeAppend(e.outcomes, Outcome(c.decisionId, c.serverEventType), c.decisionId);
  }

  lemma AppliedAppend(decided: seq<Record>, r: Record, applied: set<string>, s: string)
    requires Distinct(EventIds(decided)) && Elements(EventIds(decided)) == AsJson(applied)
    requires ScenarioEventId(r) == JString(s) && s !in applied
    ensures Distinct(EventIds(decided + [r])) && Elements(EventIds(decided + [r])) == AsJson(applied + {s})
  {
    var ids := EventIds(decided);
    assert EventIds(decided + [r]) == ids + [JString(s)];
    assert JString(s) !in AsJson(applied);
    forall i | 0 <= i < |ids| ensures ids[i] != JString(s) {
      assert ids[i] in Elements(ids);
    }
    assert Elements(ids + [JString(s)]) == Elements(ids) + {JString(s)} by {
      forall x | x in Elements(ids) ensures x in Elements(ids + [JString(s)]) {
        var i :| 0 <= i < |ids| && ids[i] == x;
        assert (ids + [JString(s)])[i] == x;
      }
      assert (ids + [JString(s)])[|ids|] == JString(s);
    }
    assert AsJson(applied + {s}) == AsJson(applied) + {JString(s)};
  }

  lemma StepDecisions(bundle: Bundle, session: string, e: Engine, c: Command)
    requires Consistent(bundle, session, e) && Possible(bundle, e, c)
    ensures DecisionsKept(bundle, session, Perform(bundle, session, e, c))
  {
    var after := Perform(bundle, session, e, c);
    var r := after.records[|e.records|];
    var decided := OfType(e.records, DECIDED);
    assert after.records == e.records + [r];
    Appended(e.records, r, DECIDED);
    if c.Decide? {
      EarlierDecisionsKept(bundle, session, e, c);
      NewDecisionMatches(bundle, session, e, c);
      AppliedAppend(decided, r, e.applied, c.scenarioEventId);
    } else {
      SealedIrrelevant(bundle, session, e, Sealed(e, [], ""), Sealed(after, [], ""), decided);
    }
  }

  /** Agreement depends on the runtime only, not on the codes, the ending or the memory. */
  lemma SealedIrrelevant(bundle: Bundle, session: string, e: Engine, was: State, now: State, decided: seq<Record>)
    requires was.decisions == now.decisions && was.outcomes == now.outcomes && was.applied == now.applied
    requires |decided| <= |was.decisions| && DecisionsAgree(bundle, was, decided, session)
    ensures DecisionsAgree(bundle, now, decided, session)
  {
    forall j | 0 <= j < |decided| ensures DecisionAt(bundle, now, decided[j], now.decisions[j], session) {
      assert DecisionAt(bundle, was, decided[j], was.decisions[j], session);
    }
  }

  lemma StepStream(bundle: Bundle, session: string, e: Engine, c: Command)
    requires Consistent(bundle, session, e) && Possible(bundle, e, c)
    ensures var after := Perform(bundle, session, e, c);
      Ordered(after.records, session) && Started(after.records, session) && LastKept(session, after)
  {
    var after := Perform(bundle, session, e, c);
    var r := after.records[|e.records|];
    assert after.records == e.records + [r];
    NeverStarts(bundle, session, e, c);
    Appended(e.records, r, STARTED);
    OrderedAppend(session, e, c.eventId, r["event_type"].s, r["payload"].members);
    StepLast(bundle, session, e, c);
  }

  lemma NeverStarts(bundle: Bundle, session: string, e: Engine, c: Command)
    requires Possible(bundle, e, c)
    ensures !IsType(Perform(bundle, session, e, c).records[|e.records|], STARTED)
  {
    assert STARTED != DECIDED by { assert STARTED[8] != DECIDED[8]; }
  }

  lemma StepLast(bundle: Bundle, session: string, e: Engine, c: Command)
    requires LastKept(session, e) && Possible(bundle, e, c)
    ensures LastKept(session, Perform(bundle, session, e, c))
  {
    var after := Perform(bundle, session, e, c);
    var r := after.records[|e.records|];
    assert after.records == e.records + [r];
    Appended(e.records, r, DECIDED);
  }

  lemma {:induction false} RunConsistent(bundle: Bundle, session: string, e: Engine, cs: seq<Command>)
    requires Consistent(bundle, session, e)
    ensures Consistent(bundle, session, Run(bundle, session, e, cs))
    decreases |cs|
  {
    if cs != [] {
      if Possible(bundle, e, cs[0]) {
        StepDecisions(bundle, session, e, cs[0]);
        StepStream(bundle, session, e, cs[0]);
        RunConsistent(bundle, session, Perform(bundle, session, e, cs[0]), cs[1..]);
      } else {
        RunConsistent(bundle, session, e, cs[1..]);
      }
    }
  }

  /** Completeness: whatever commands it is given, once a run of the engine with at least one
      decision is sealed, its stream is accepted. */
  lemma EngineStreamsAccepted(bundle: Bundle, session: string, firstId: string, cs: seq<Command>,
                              codes: seq<string>, ending: string)
    requires 1 <= |firstId| <= 64 && ending in ENDINGS
    requires bundle.scenarioId == SOURCE_SCENARIO && bundle.version == SOURCE_VERSION && bundle.sha256 == SOURCE_HASH
    requires |codes| == |Run(bundle, session, Begin(session, firstId), cs).decisions| >= 1
    ensures var e := Run(bundle, session, Begin(session, firstId), cs);
      Accepted(bundle, Sealed(e, codes, ending), session, |codes|, e.records)
  {
    BeginConsistent(bundle, session, firstId);
    RunConsistent(bundle, session, Begin(session, firstId), cs);
    SealedAccepted(bundle, session, Run(bundle, session, Begin(session, firstId), cs), codes, ending);
  }

  lemma SealedAccepted(bundle: Bundle, session: string, e: Engine, codes: seq<string>, ending: string)
    requires Consistent(bundle, session, e) && |codes| == |e.decisions| >= 1 && ending in ENDINGS
    requires bundle.scenarioId == SOURCE_SCENARIO && bundle.version == SOURCE_VERSION && bundle.sha256 == SOURCE_HASH
    ensures Accepted(bundle, Sealed(e, codes, ending), session, |codes|, e.records)
  {
    var decided := OfType(e.records, DECIDED);
    var now := Sealed(e, codes, ending);
    assert |decided| == |e.decisions|;
    SealedIrrelevant(bundle, session, e, Sealed(e, [], ""), now, decided);
    SealedCompleted(session, e, codes, ending);
    assert Zipped(now, decided) == decided;
    assert SourceSealed(bundle, now, |codes|);
  }

  lemma SealedCompleted(session: string, e: Engine, codes: seq<string>, ending: string)
    requires LastKept(session, e) && OfType(e.records, DECIDED) != []
    ensures var decided := OfType(e.records, DECIDED);
      Completed(Sealed(e, codes, ending), decided[|decided| - 1], session)
  {
  }
}
