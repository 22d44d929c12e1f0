/** The verifier of a sealed Fog Station event stream. */
module FogHistory {
  import opened Options

  datatype Json =
    | JNull
    | JBool(b: bool)
    | JInt(n: int)
    | JString(s: string)
    | JList(items: seq<Json>)
    | JObject(members: map<string, Json>)

  /** A record as the repository hands it over, before anything about it is trusted. */
  type Record = map<string, Json>

  const FIELDS := {"session_id", "event_id", "sequence_no", "event_type", "payload"}
  const STARTED := "ScenarioStarted"
  const DECIDED := "ScenarioDecisionSelected"
  const SOURCE_SCENARIO := "fog_station"
  const SOURCE_VERSION := "fog-station-1.0.0"
  const SOURCE_HASH := "898b2557f56d6f41263e1f088358df871453d351f2fce79a8e379416d5873a7b"
  const ENDINGS := {"fog_station.ending.immediate", "fog_station.ending.declined",
    "fog_station.ending.finished", "fog_station.ending.reunited"}
  const START_PAYLOAD: map<string, Json> := map[
    "scenario_id" := JString(SOURCE_SCENARIO),
    "scenario_content_version" := JString(SOURCE_VERSION)]

  /** A suggested action of one decision window. */
  datatype Action = Action(decisionId: string, actionId: string, serverEventType: string)

  datatype Bundle = Bundle(scenarioId: string, version: string, sha256: string, actions: seq<Action>)

  datatype Outcome = Outcome(decisionId: string, scenarioEventType: string)

  datatype MemoryRecord = MemoryRecord(
    completed: bool, endingId: string, scenarioId: string, version: string, lastEvent: string, lastSequence: int)

  /** The parts of the session state that the verifier reads. `codes` is the station policy's
      verdict on the state: the choice codes of its path, or a refusal. */
  datatype State = State(
    codes: Option<seq<string>>,
    decisions: seq<string>,
    outcomes: seq<Outcome>,
    applied: set<string>,
    endingId: Option<string>,
    resolved: bool,
    memory: seq<MemoryRecord>,
    lastEvent: string,
    lastSequence: int)

  // ---- reading a record ----

  predicate WellTyped(e: Record, session: string) {
    && e.Keys == FIELDS
    && e["session_id"] == JString(session)
    && e["event_id"].JString? && 1 <= |e["event_id"].s| <= 64
    && e["event_type"].JString?
    && e["payload"].JObject?
    && e["sequence_no"].JInt? && e["sequence_no"].n >= 1
  }

  predicate IsType(e: Record, kind: string) {
    "event_type" in e && e["event_type"] == JString(kind)
  }

  function Get(members: map<string, Json>, key: string): Json {
    if key in members then members[key] else JNull
  }

  /** The outcome recorded for a decision: the last one wins, as in a dictionary built in order. */
  function OutcomeOf(outcomes: seq<Outcome>, decisionId: string): Option<Outcome> {
    if outcomes == [] then None
    else if outcomes[|outcomes| - 1].decisionId == decisionId then Some(outcomes[|outcomes| - 1])
    else OutcomeOf(outcomes[..|outcomes| - 1], decisionId)
  }

  function ActionFor(actions: seq<Action>, decisionId: string, eventType: string): Option<Action> {
    if actions == [] then None
    else if actions[0].decisionId == decisionId && actions[0].serverEventType == eventType then Some(actions[0])
    else ActionFor(actions[1..], decisionId, eventType)
  }

  /** A decision event says what the runtime recorded for that decision. */
  predicate DecisionMatches(bundle: Bundle, state: State, payload: map<string, Json>, decisionId: string) {
    var outcome := OutcomeOf(state.outcomes, decisionId);
    && outcome.Some?
    && var action := ActionFor(bundle.actions, decisionId, outcome.value.scenarioEventType);
    && action.Some?
    && Get(payload, "decision_id") == JString(decisionId)
    && Get(payload, "scenario_event_type") == JString(outcome.value.scenarioEventType)
    && Get(payload, "selected_action_id") == JString(action.value.actionId)
    && Get(payload, "selected_action_type") == JString("choose")
    && Get(payload, "source") == JString("VALIDATED_DECISION_RESPONSE")
  }

  function OfType(records: seq<Record>, kind: string): seq<Record> {
    if records == [] then []
    else
      var rest := OfType(records[..|records| - 1], kind);
      if IsType(records[|records| - 1], kind) then rest + [records[|records| - 1]] else rest
  }

  function ScenarioEventId(e: Record): Json {
    if "payload" in e && e["payload"].JObject? then Get(e["payload"].members, "scenario_event_id") else JNull
  }

  function Elements<T>(s: seq<T>): set<T> {
    set i | 0 <= i < |s| :: s[i]
  }

  predicate Distinct<T(==)>(s: seq<T>) {
    forall i, j :: 0 <= i < j < |s| ==> s[i] != s[j]
  }

  function EventIds(es: seq<Record>): (r: seq<Json>)
    ensures |r| == |es| && forall i :: 0 <= i < |es| ==> r[i] == ScenarioEventId(es[i])
  {
    seq(|es|, i requires 0 <= i < |es| => ScenarioEventId(es[i]))
  }

  function AsJson(ids: set<string>): set<Json> {
    set id | id in ids :: JString(id)
  }

  // ---- what is accepted ----

  /** Sequence numbers are exactly 1..n and event ids are unique. */
  predicate Ordered(records: seq<Record>, session: string) {
    && (forall i :: 0 <= i < |records| ==> WellTyped(records[i], session) && records[i]["sequence_no"] == JInt(i + 1))
    && (forall i, j :: 0 <= i < j < |records| ==> records[i]["event_id"] != records[j]["event_id"])
  }

  predicate DecisionAt(bundle: Bundle, state: State, e: Record, decisionId: string, session: string) {
    WellTyped(e, session) && DecisionMatches(bundle, state, e["payload"].members, decisionId)
  }

  /** The decision events paired with the runtime's decisions, as far as both go. */
  function Zipped(state: State, decided: seq<Record>): seq<Record> {
    if |decided| <= |state.decisions| then decided else decided[..|state.decisions|]
  }

  /** Each decision event is the runtime's decision at its place; the scenario event ids are distinct
      and are exactly the applied ones. */
  predicate DecisionsAgree(bundle: Bundle, state: State, decided: seq<Record>, session: string)
    requires |decided| <= |state.decisions|
  {
    && (forall j :: 0 <= j < |decided| ==> DecisionAt(bundle, state, decided[j], state.decisions[j], session))
    && Distinct(EventIds(decided))
    && Elements(EventIds(decided)) == AsJson(state.applied)
  }

  predicate Started(records: seq<Record>, session: string) {
    var started := OfType(records, STARTED);
    |started| == 1 && WellTyped(started[0], session) && started[0]["sequence_no"] == JInt(1)
    && started[0]["payload"] == JObject(START_PAYLOAD)
  }

  /** The memory's single record is completed and points at the last decision event. */
  predicate Completed(state: State, last: Record, session: string) {
    && WellTyped(last, session) && |state.memory| == 1
    && var m := state.memory[0];
    && m.completed && state.endingId == Some(m.endingId)
    && m.scenarioId == SOURCE_SCENARIO && m.version == SOURCE_VERSION
    && last["event_id"] == JString(m.lastEvent) && last["sequence_no"] == JInt(m.lastSequence)
    && last["event_id"] == JString(state.lastEvent) && last["sequence_no"] == JInt(state.lastSequence)
  }

  predicate SourceSealed(bundle: Bundle, state: State, version: int) {
    && bundle.scenarioId == SOURCE_SCENARIO && bundle.version == SOURCE_VERSION && bundle.sha256 == SOURCE_HASH
    && state.codes.Some? && version == |state.codes.value|
    && state.endingId.Some? && state.endingId.value in ENDINGS && state.resolved
  }

  predicate Accepted(bundle: Bundle, state: State, session: string, version: int, records: seq<Record>) {
    && SourceSealed(bundle, state, version)
    && Ordered(records, session) && Started(records, session)
    && var decided := OfType(records, DECIDED);
    && |decided| == |state.codes.value| && |decided| >= 1
    && DecisionsAgree(bundle, state, Zipped(state, decided), session)
    && Completed(state, decided[|decided| - 1], session)
  }

  // ---- the verifier ----

  method CheckIdentity(records: seq<Record>, session: string) returns (ok: bool)
    ensures ok <==> Ordered(records, session)
  {
    var ids: set<string>, sequences: set<int> := {}, {};
    for i := 0 to |records|
      invariant forall k :: 0 <= k < i ==> WellTyped(records[k], session)
      invariant forall id :: id in ids <==> exists k :: 0 <= k < i && records[k]["event_id"].s == id
      invariant forall n :: n in sequences <==> exists k :: 0 <= k < i && records[k]["sequence_no"].n == n
      invariant forall j, k :: 0 <= j < k < i ==> records[j]["event_id"] != records[k]["event_id"]
    {
      var e := records[i];
      if !WellTyped(e, session) || e["sequence_no"].n in sequences || e["event_id"].s in ids {
        return false;
      }
      ids := ids + {e["event_id"].s};
      sequences := sequences + {e["sequence_no"].n};
    }
    for i := 0 to |records|
      invariant forall k :: 0 <= k < i ==> records[k]["sequence_no"] == JInt(k + 1)
    {
      if records[i]["sequence_no"] != JInt(i + 1) { return false; }
    }
    ok := true;
  }

  method Select(records: seq<Record>, kind: string) returns (r: seq<Record>)
    ensures r == OfType(records, kind)
  {
    r := [];
    for i := 0 to |records|
      invariant r == OfType(records[..i], kind)
    {
      assert records[..i + 1][..i] == records[..i];
      if IsType(records[i], kind) { r := r + [records[i]]; }
    }
    assert records[..|records|] == records;
  }

  lemma {:induction false} DistinctIffSize<T>(s: seq<T>)
    ensures |Elements(s)| <= |s|
    ensures Distinct(s) <==> |Elements(s)| == |s|
  {
    if s != [] {
      var init, last := s[..|s| - 1], s[|s| - 1];
      DistinctIffSize(init);
      assert Elements(s) == Elements(init) + {last};
      if last in init {
        assert Elements(s) == Elements(init);
      }
    }
  }

  method VerifyDecisions(bundle: Bundle, state: State, decided: seq<Record>, session: string) returns (ok: bool)
    requires forall j :: 0 <= j < |decided| ==> WellTyped(decided[j], session)
    ensures ok <==> DecisionsAgree(bundle, state, Zipped(state, decided), session)
  {
    var zipped := Zipped(state, decided);
    var applied: seq<Json> := [];
    for i := 0 to |zipped|
      invariant applied == EventIds(zipped[..i])
      invariant forall j :: 0 <= j < i ==> DecisionAt(bundle, state, zipped[j], state.decisions[j], session)
    {
      if !DecisionMatches(bundle, state, zipped[i]["payload"].members, state.decisions[i]) { return false; }
      applied := applied + [ScenarioEventId(zipped[i])];
    }
    assert zipped[..|zipped|] == zipped;
    DistinctIffSize(applied);
    ok := |Elements(applied)| == |applied| && Elements(applied) == AsJson(state.applied);
  }

  /** Verifies a stream against the sealed state: the path's codes, or a refusal. */
  method VerifyHistory(bundle: Bundle, state: State, session: string, version: int, records: seq<Record>)
    returns (r: Option<seq<string>>)
    ensures r == if Accepted(bundle, state, session, version, records) then state.codes else None
  {
    if !SourceSealed(bundle, state, version) { return None; }
    var identified := CheckIdentity(records, session);
    if !identified { return None; }
    var started := Select(records, STARTED);
    SelectedWellTyped(records, STARTED, session);
    if |started| != 1 || started[0]["sequence_no"] != JInt(1) || started[0]["payload"] != JObject(START_PAYLOAD) {
      return None;
    }
    var decided := Select(records, DECIDED);
    SelectedWellTyped(records, DECIDED, session);
    if |decided| != |state.codes.value| { return None; }
    var agree := VerifyDecisions(bundle, state, decided, session);
    if !agree || |state.memory| != 1 || |decided| == 0 { return None; }
    r := if Completed(state, decided[|decided| - 1], session) then state.codes else None;
  }

  lemma {:induction false} SelectedWellTyped(records: seq<Record>, kind: string, session: string)
    requires forall i :: 0 <= i < |records| ==> WellTyped(records[i], session)
    ensures var r := OfType(records, kind); forall j :: 0 <= j < |r| ==> WellTyped(r[j], session)
  {
    if records != [] {
      var init, last := records[..|records| - 1], records[|records| - 1];
      SelectedWellTyped(init, kind, session);
      var r := OfType(records, kind);
      assert r == OfType(init, kind) || r == OfType(init, kind) + [last];
    }
  }

  // ---- soundness ----

  /** Where the decision events stand in the stream. */
  lemma {:induction false} SelectedInOrder(records: seq<Record>, kind: string) returns (at: seq<nat>)
    ensures |at| == |OfType(records, kind)|
    ensures forall j :: 0 <= j < |at| ==> at[j] < |records| && records[at[j]] == OfType(records, kind)[j]
    ensures forall i, j :: 0 <= i < j < |at| ==> at[i] < at[j]
    ensures forall k :: 0 <= k < |records| && IsType(records[k], kind) ==> k in at
  {
    at := [];
    if records != [] {
      var n := |records| - 1;
      at := SelectedInOrder(records[..n], kind);
      if IsType(records[n], kind) {
        at := at + [n];
      }
      forall k | 0 <= k < |records| && IsType(records[k], kind) ensures k in at {
        if k < n { assert records[..n][k] == records[k]; }
      }
    }
  }

  /** The scenario event ids of the decision events are pairwise different and exactly the applied ones. */
  lemma AppliedExactly(bundle: Bundle, state: State, decided: seq<Record>, session: string)
    requires |decided| <= |state.decisions| && DecisionsAgree(bundle, state, decided, session)
    ensures forall i, j :: 0 <= i < j < |decided| ==> ScenarioEventId(decided[i]) != ScenarioEventId(decided[j])
    ensures forall id :: id in state.applied <==> exists j :: 0 <= j < |decided| && ScenarioEventId(decided[j]) == JString(id)
  {
    var ids := EventIds(decided);
    forall i, j | 0 <= i < j < |decided| ensures ScenarioEventId(decided[i]) != ScenarioEventId(decided[j]) {
      assert ids[i] != ids[j];
    }
    forall id ensures id in state.applied <==> exists j :: 0 <= j < |decided| && ScenarioEventId(decided[j]) == JString(id) {
      if id in state.applied {
        assert JString(id) in Elements(ids);
        var j :| 0 <= j < |ids| && ids[j] == JString(id);
        assert ScenarioEventId(decided[j]) == JString(id);
      }
      if j :| 0 <= j < |decided| && ScenarioEventId(decided[j]) == JString(id) {
        assert ids[j] in Elements(ids);
        assert JString(id) in AsJson(state.applied);
      }
    }
  }

  lemma OpeningIsFirst(records: seq<Record>, session: string)
    requires Ordered(records, session) && Started(records, session)
    ensures forall k :: 0 <= k < |records| ==> (IsType(records[k], STARTED) <==> k == 0)
  {
    var opening := SelectedInOrder(records, STARTED);
    AllSelectedHaveType(records, STARTED);
    assert records[opening[0]]["sequence_no"] == JInt(opening[0] + 1);
    assert OfType(records, STARTED)[0] == records[opening[0]];
  }

  /** What acceptance means for the stream: numbers 1..n, distinct ids, one opening event, the first. */
  lemma AcceptedStream(bundle: Bundle, state: State, session: string, version: int, records: seq<Record>)
    requires Accepted(bundle, state, session, version, records)
    ensures forall k :: 0 <= k < |records| ==>
      && records[k].Keys == {"session_id", "event_id", "sequence_no", "event_type", "payload"}
      && records[k]["session_id"] == JString(session) && records[k]["sequence_no"] == JInt(k + 1)
      && records[k]["event_id"].JString? && 1 <= |records[k]["event_id"].s| <= 64
      && records[k]["event_type"].JString? && records[k]["payload"].JObject?
    ensures forall i, j :: 0 <= i < j < |records| ==> records[i]["event_id"] != records[j]["event_id"]
    ensures forall k :: 0 <= k < |records| ==> (IsType(records[k], STARTED) <==> k == 0)
  {
    OpeningIsFirst(records, session);
  }

  /** `at` lists the places of all decision events, in order. */
  ghost predicate Enumerates(records: seq<Record>, at: seq<nat>) {
    && (forall j :: 0 <= j < |at| ==> at[j] < |records|)
    && (forall i, j :: 0 <= i < j < |at| ==> at[i] < at[j])
    && (forall k :: 0 <= k < |records| ==> (IsType(records[k], DECIDED) <==> k in at))
  }

  lemma EnumerateDecisions(records: seq<Record>) returns (at: seq<nat>)
    ensures |at| == |OfType(records, DECIDED)| && Enumerates(records, at)
    ensures forall j :: 0 <= j < |at| ==> records[at[j]] == OfType(records, DECIDED)[j]
  {
    at := SelectedInOrder(records, DECIDED);
    AllSelectedHaveType(records, DECIDED);
    forall k | 0 <= k < |records| && k in at ensures IsType(records[k], DECIDED) {
      var j :| 0 <= j < |at| && at[j] == k;
      assert records[k] == OfType(records, DECIDED)[j];
    }
  }

  /** What the station policy guarantees of the codes it returns: one for each decision of the runtime. */
  predicate PolicyCounts(state: State) {
    state.codes.Some? ==> |state.codes.value| == |state.decisions|
  }

  /** What acceptance means for the decisions, without the verifier's own selections: the decision
      events, wherever they stand, are place by place the runtime's decisions; their scenario event
      ids are exactly the applied ones, each once. */
  lemma AcceptedDecisions(bundle: Bundle, state: State, session: string, version: int, records: seq<Record>)
    returns (at: seq<nat>)
    requires Accepted(bundle, state, session, version, records) && PolicyCounts(state)
    ensures |at| == version && Enumerates(records, at)
    ensures forall j :: 0 <= j < |at| ==> DecisionAt(bundle, state, records[at[j]], state.decisions[j], session)
    ensures forall i, j :: 0 <= i < j < |at| ==> ScenarioEventId(records[at[i]]) != ScenarioEventId(records[at[j]])
    ensures forall id :: id in state.applied <==> exists j :: 0 <= j < |at| && ScenarioEventId(records[at[j]]) == JString(id)
  {
    var decided := OfType(records, DECIDED);
    at := EnumerateDecisions(records);
    assert Zipped(state, decided) == decided;
    AppliedExactly(bundle, state, decided, session);
    EventsAt(records, at, decided, state.applied);
    forall j | 0 <= j < |at| ensures DecisionAt(bundle, state, records[at[j]], state.decisions[j], session) {
      assert DecisionAt(bundle, state, decided[j], state.decisions[j], session);
    }
  }

  lemma EventsAt(records: seq<Record>, at: seq<nat>, decided: seq<Record>, applied: set<string>)
    requires |at| == |decided| && forall j :: 0 <= j < |at| ==> at[j] < |records| && records[at[j]] == decided[j]
    requires forall i, j :: 0 <= i < j < |decided| ==> ScenarioEventId(decided[i]) != ScenarioEventId(decided[j])
    requires forall id :: id in applied <==> exists j :: 0 <= j < |decided| && ScenarioEventId(decided[j]) == JString(id)
    ensures forall i, j :: 0 <= i < j < |at| ==> ScenarioEventId(records[at[i]]) != ScenarioEventId(records[at[j]])
    ensures forall id :: id in applied <==> exists j :: 0 <= j < |at| && ScenarioEventId(records[at[j]]) == JString(id)
  {
    forall id ensures id in applied <==> exists j :: 0 <= j < |at| && ScenarioEventId(records[at[j]]) == JString(id) {
      if j :| 0 <= j < |decided| && ScenarioEventId(decided[j]) == JString(id) {
        assert ScenarioEventId(records[at[j]]) == JString(id);
      }
      if j :| 0 <= j < |at| && ScenarioEventId(records[at[j]]) == JString(id) {
        assert ScenarioEventId(decided[j]) == JString(id);
      }
    }
  }

  lemma {:induction false} AllSelectedHaveType(records: seq<Record>, kind: string)
    ensures var r := OfType(records, kind); forall j :: 0 <= j < |r| ==> IsType(r[j], kind)
  {
    if records != [] {
      var init, last := records[..|records| - 1], records[|records| - 1];
      AllSelectedHaveType(init, kind);
      var r := OfType(records, kind);
      assert r == OfType(init, kind) || r == OfType(init, kind) + [last];
    }
  }

  // ---- tampering ----

  function Without(records: seq<Record>, i: nat): seq<Record>
    requires i < |records|
  {
    records[..i] + records[i + 1..]
  }

  /** Removing one event is detected, unless it is a trailing event that is not a decision. */
  lemma RemovalIsDetected(bundle: Bundle, state: State, session: string, version: int, records: seq<Record>, i: nat)
    requires i < |records| && Accepted(bundle, state, session, version, records)
    ensures Accepted(bundle, state, session, version, Without(records, i))
      <==> i == |records| - 1 && !IsType(records[i], DECIDED)
  {
    var less := Without(records, i);
    if i < |records| - 1 {
      assert less[i] == records[i + 1];
      assert less[i]["sequence_no"] != JInt(i + 1);
    } else {
      assert less == records[..i];
      assert OfType(records, DECIDED) == OfType(less, DECIDED) + (if IsType(records[i], DECIDED) then [records[i]] else []);
      if !IsType(records[i], DECIDED) {
        LastIsNotOpening(bundle, state, session, version, records);
      }
    }
  }

  lemma LastIsNotOpening(bundle: Bundle, state: State, session: string, version: int, records: seq<Record>)
    requires Accepted(bundle, state, session, version, records) && !IsType(records[|records| - 1], DECIDED)
    ensures OfType(records[..|records| - 1], STARTED) == OfType(records, STARTED)
  {
    var n := |records| - 1;
    DecisionBeforeEnd(records);
    OpeningIsFirst(records, session);
    assert !IsType(records[n], STARTED);
  }

  /** A stream with a decision event that does not end in one has more than one event. */
  lemma DecisionBeforeEnd(records: seq<Record>)
    requires OfType(records, DECIDED) != [] && !IsType(records[|records| - 1], DECIDED)
    ensures |records| > 1
  {
    var at := SelectedInOrder(records, DECIDED);
    AllSelectedHaveType(records, DECIDED);
    assert IsType(records[at[0]], DECIDED);
  }
}
