/** Acceptance read off the records themselves, and what no accepted stream survives. */
module FogTampering {
  import opened FogHistory

  // ---- the lookups ----

  /** The outcome of a decision is the last one recorded for it. */
  lemma {:induction false} OutcomeIsLast(outcomes: seq<Outcome>, d: string)
    ensures OutcomeOf(outcomes, d).None? <==> forall i :: 0 <= i < |outcomes| ==> outcomes[i].decisionId != d
    ensures OutcomeOf(outcomes, d).Some? ==> exists i ::
      && 0 <= i < |outcomes| && outcomes[i].decisionId == d
      && OutcomeOf(outcomes, d).value == outcomes[i]
      && forall k :: i < k < |outcomes| ==> outcomes[k].decisionId != d
  {
    if outcomes != [] {
      OutcomeIsLast(outcomes[..|outcomes| - 1], d);
    }
  }

  /** The action is the first one offered for the decision and the event type. */
  lemma {:induction false} ActionIsFirst(actions: seq<Action>, d: string, kind: string)
    ensures ActionFor(actions, d, kind).Some? ==> exists i ::
      && 0 <= i < |actions| && actions[i].decisionId == d && actions[i].serverEventType == kind
      && ActionFor(actions, d, kind).value == actions[i]
      && forall k :: 0 <= k < i ==> actions[k].decisionId != d || actions[k].serverEventType != kind
  {
    if actions != [] && !(actions[0].decisionId == d && actions[0].serverEventType == kind) {
      ActionIsFirst(actions[1..], d, kind);
      if ActionFor(actions[1..], d, kind).Some? {
        var i :| 0 <= i < |actions[1..]| && actions[1..][i].decisionId == d && actions[1..][i].serverEventType == kind
          && ActionFor(actions[1..], d, kind).value == actions[1..][i]
          && forall k :: 0 <= k < i ==> actions[1..][k].decisionId != d || actions[1..][k].serverEventType != kind;
        assert actions[i + 1] == actions[1..][i];
        forall k | 0 <= k < i + 1 ensures actions[k].decisionId != d || actions[k].serverEventType != kind {
          if k > 0 {
            assert actions[k] == actions[1..][k - 1];
          }
        }
      }
    }
  }

  // ---- what an accepted decision event says ----

  predicate Says(e: Record, key: string, text: string) {
    "payload" in e && e["payload"].JObject? && key in e["payload"].members && e["payload"].members[key] == JString(text)
  }

  /** The event type of outcome i, which is the last one recorded for d, and the first action a offered for both. */
  predicate Recorded(bundle: Bundle, state: State, d: string, i: nat, a: nat) {
    && i < |state.outcomes| && state.outcomes[i].decisionId == d
    && (forall k :: i < k < |state.outcomes| ==> state.outcomes[k].decisionId != d)
    && a < |bundle.actions| && bundle.actions[a].decisionId == d
    && bundle.actions[a].serverEventType == state.outcomes[i].scenarioEventType
    && forall k :: 0 <= k < a ==>
        bundle.actions[k].decisionId != d || bundle.actions[k].serverEventType != state.outcomes[i].scenarioEventType
  }

  lemma MatchRead(bundle: Bundle, state: State, e: Record, d: string, session: string) returns (i: nat, a: nat)
    requires DecisionAt(bundle, state, e, d, session)
    ensures Recorded(bundle, state, d, i, a)
    ensures Says(e, "decision_id", d)
    ensures Says(e, "scenario_event_type", state.outcomes[i].scenarioEventType)
    ensures Says(e, "selected_action_id", bundle.actions[a].actionId)
    ensures Says(e, "selected_action_type", "choose") && Says(e, "source", "VALIDATED_DECISION_RESPONSE")
  {
    OutcomeIsLast(state.outcomes, d);
    var outcome := OutcomeOf(state.outcomes, d).value;
    i :| i < |state.outcomes| && state.outcomes[i].decisionId == d && outcome == state.outcomes[i]
      && forall k :: i < k < |state.outcomes| ==> state.outcomes[k].decisionId != d;
    ActionIsFirst(bundle.actions, d, outcome.scenarioEventType);
    var action := ActionFor(bundle.actions, d, outcome.scenarioEventType).value;
    a :| a < |bundle.actions| && bundle.actions[a].decisionId == d
      && bundle.actions[a].serverEventType == outcome.scenarioEventType && action == bundle.actions[a]
      && forall k :: 0 <= k < a ==>
          bundle.actions[k].decisionId != d || bundle.actions[k].serverEventType != outcome.scenarioEventType;
  }

  /** The j-th decision event of an accepted stream, member by member. */
  lemma DecisionRead(bundle: Bundle, state: State, session: string, version: int, records: seq<Record>, j: nat)
    returns (k: nat, i: nat, a: nat)
    requires Accepted(bundle, state, session, version, records) && PolicyCounts(state) && j < |state.decisions|
    ensures k < |records| && IsType(records[k], DECIDED) && |OfType(records[..k], DECIDED)| == j
    ensures Recorded(bundle, state, state.decisions[j], i, a)
    ensures Says(records[k], "decision_id", state.decisions[j])
    ensures Says(records[k], "scenario_event_type", state.outcomes[i].scenarioEventType)
    ensures Says(records[k], "selected_action_id", bundle.actions[a].actionId)
    ensures Says(records[k], "selected_action_type", "choose")
    ensures Says(records[k], "source", "VALIDATED_DECISION_RESPONSE")
  {
    k := PlaceOf(records, DECIDED, j);
    var decided := OfType(records, DECIDED);
    assert Zipped(state, decided) == decided;
    assert DecisionAt(bundle, state, decided[j], state.decisions[j], session);
    i, a := MatchRead(bundle, state, records[k], state.decisions[j], session);
  }

  /** Where the j-th event of a type stands. */
  lemma {:induction false} PlaceOf(records: seq<Record>, kind: string, j: nat) returns (k: nat)
    requires j < |OfType(records, kind)|
    ensures k < |records| && IsType(records[k], kind) && |OfType(records[..k], kind)| == j
    ensures records[k] == OfType(records, kind)[j]
  {
    var init, last := records[..|records| - 1], records[|records| - 1];
    if j < |OfType(init, kind)| {
      k := PlaceOf(init, kind, j);
      assert init[..k] == records[..k];
    } else {
      k := |records| - 1;
    }
  }

  // ---- tampering with one event ----

  /** One event replaced by another of the same type: its place among the selected ones stays. */
  lemma {:induction false} OfTypeUpdate(records: seq<Record>, k: nat, r: Record, kind: string)
    requires k < |records| && IsType(records[k], kind) && IsType(r, kind)
    ensures var j := |OfType(records[..k], kind)|;
      && j < |OfType(records, kind)| && OfType(records, kind)[j] == records[k]
      && OfType(records[k := r], kind) == OfType(records, kind)[j := r]
  {
    var n := |records| - 1;
    var longer := records[k := r];
    if k == n {
      assert longer[..n] == records[..n];
    } else {
      OfTypeUpdate(records[..n], k, r, kind);
      assert records[..n][..k] == records[..k];
      assert longer[..n] == records[..n][k := r] && longer[n] == records[n];
    }
  }

  function WithMember(e: Record, key: string, value: Json): Record
    requires "payload" in e && e["payload"].JObject?
  {
    e["payload" := JObject(e["payload"].members[key := value])]
  }

  predicate Read(key: string) {
    key in {"decision_id", "scenario_event_type", "selected_action_id", "selected_action_type", "source",
      "scenario_event_id"}
  }

  /** Any other value in one of the six members of a decision event that the verifier reads, and the stream is rejected. */
  lemma TamperedDecision(bundle: Bundle, state: State, session: string, version: int, records: seq<Record>,
                         k: nat, key: string, value: Json)
    requires Accepted(bundle, state, session, version, records) && PolicyCounts(state)
    requires k < |records| && IsType(records[k], DECIDED) && Read(key)
    requires WellTyped(records[k], session) && value != Get(records[k]["payload"].members, key)
    ensures !Accepted(bundle, state, session, version, records[k := WithMember(records[k], key, value)])
  {
    var r := WithMember(records[k], key, value);
    var j, decided := |OfType(records[..k], DECIDED)|, OfType(records, DECIDED);
    OfTypeUpdate(records, k, r, DECIDED);
    assert Zipped(state, decided) == decided && Zipped(state, decided[j := r]) == decided[j := r];
    TamperedDisagrees(bundle, state, session, decided, j, r, key, value);
  }

  lemma TamperedDisagrees(bundle: Bundle, state: State, session: string, decided: seq<Record>, j: nat, r: Record,
                          key: string, value: Json)
    requires j < |decided| <= |state.decisions| && DecisionsAgree(bundle, state, decided, session)
    requires Read(key) && value != Get(decided[j]["payload"].members, key)
    requires r == WithMember(decided[j], key, value)
    ensures !DecisionsAgree(bundle, state, decided[j := r], session)
  {
    if key == "scenario_event_id" {
      OtherEventId(decided, j, r, state.applied);
    } else {
      OtherMember(bundle, state, decided[j], r, state.decisions[j], session, key);
      assert decided[j := r][j] == r;
    }
  }

  lemma OtherMember(bundle: Bundle, state: State, e: Record, r: Record, d: string, session: string, key: string)
    requires DecisionAt(bundle, state, e, d, session) && "payload" in r && r["payload"].JObject?
    requires Read(key) && key != "scenario_event_id"
    requires Get(e["payload"].members, key) != Get(r["payload"].members, key)
    ensures !DecisionAt(bundle, state, r, d, session)
  {
  }

  lemma OtherEventId(decided: seq<Record>, j: nat, r: Record, applied: set<string>)
    requires j < |decided| && ScenarioEventId(r) != ScenarioEventId(decided[j])
    requires Distinct(EventIds(decided)) && Elements(EventIds(decided)) == AsJson(applied)
    ensures Elements(EventIds(decided[j := r])) != AsJson(applied)
  {
    var was, now := EventIds(decided), EventIds(decided[j := r]);
    assert was[j] in Elements(was);
    forall i | 0 <= i < |now| ensures now[i] != was[j] {
      if i != j {
        assert now[i] == was[i] && (if i < j then was[i] != was[j] else was[j] != was[i]);
      }
    }
  }

  /** A record the verifier can accept at place k. */
  predicate Shaped(e: Record, session: string, k: nat) {
    && e.Keys == {"session_id", "event_id", "sequence_no", "event_type", "payload"}
    && e["session_id"] == JString(session)
    && e["sequence_no"] == JInt(k + 1)
    && e["event_id"].JString? && 1 <= |e["event_id"].s| <= 64
    && e["event_type"].JString?
    && e["payload"].JObject?
  }

  /** One event replaced by a record of another shape, or by one with the id of another event: the stream is rejected. */
  lemma MisshapenRejected(bundle: Bundle, state: State, session: string, version: int, records: seq<Record>, k: nat)
    requires k < |records|
    requires !Shaped(records[k], session, k) || exists i ::
      0 <= i < |records| && i != k && "event_id" in records[i] && "event_id" in records[k] &&
      records[i]["event_id"] == records[k]["event_id"]
    ensures !Accepted(bundle, state, session, version, records)
  {
    if Accepted(bundle, state, session, version, records) {
      AcceptedStream(bundle, state, session, version, records);
    }
  }

  /** What acceptance fixes besides the events: the content, the ending, the opening and the memory. */
  lemma AcceptedSeal(bundle: Bundle, state: State, session: string, version: int, records: seq<Record>)
    returns (last: nat)
    requires Accepted(bundle, state, session, version, records)
    ensures bundle.scenarioId == "fog_station" && bundle.version == "fog-station-1.0.0"
    ensures bundle.sha256 == "898b2557f56d6f41263e1f088358df871453d351f2fce79a8e379416d5873a7b"
    ensures state.codes.Some? && version == |state.codes.value| >= 1 && state.resolved
    ensures state.endingId.Some? && state.endingId.value in {"fog_station.ending.immediate",
      "fog_station.ending.declined", "fog_station.ending.finished", "fog_station.ending.reunited"}
    ensures |records| >= 1 && Shaped(records[0], session, 0) && records[0]["event_type"] == JString("ScenarioStarted")
    ensures records[0]["payload"] == JObject(map["scenario_id" := JString("fog_station"),
      "scenario_content_version" := JString("fog-station-1.0.0")])
    ensures last < |records| && Shaped(records[last], session, last)
    ensures records[last]["event_type"] == JString("ScenarioDecisionSelected")
    ensures forall k :: last < k < |records| ==> !IsType(records[k], DECIDED)
    ensures |state.memory| == 1 && state.memory[0] == MemoryRecord(true, state.endingId.value, "fog_station",
      "fog-station-1.0.0", records[last]["event_id"].s, last + 1)
    ensures state.lastEvent == records[last]["event_id"].s && state.lastSequence == last + 1
  {
    var decided := OfType(records, DECIDED);
    last := PlaceOf(records, DECIDED, |decided| - 1);
    NothingBehind(records, DECIDED, last);
    AcceptedStream(bundle, state, session, version, records);
    assert OfType(records, STARTED) != [];
    var first := PlaceOf(records, STARTED, 0);
    assert Shaped(records[last], session, last) && Shaped(records[first], session, first);
    assert first == 0;
  }

  /** Behind the last event of a type stands none of that type. */
  lemma {:induction false} NothingBehind(records: seq<Record>, kind: string, k: nat)
    requires k < |records| && IsType(records[k], kind) && |OfType(records[..k], kind)| == |OfType(records, kind)| - 1
    ensures forall i :: k < i < |records| ==> !IsType(records[i], kind)
  {
    if k < |records| - 1 {
      var init := records[..|records| - 1];
      assert init[..k] == records[..k];
      SelectedAtLeast(init, kind, k);
      NothingBehind(init, kind, k);
    }
  }

  lemma {:induction false} SelectedAtLeast(records: seq<Record>, kind: string, k: nat)
    requires k < |records| && IsType(records[k], kind)
    ensures |OfType(records, kind)| >= |OfType(records[..k], kind)| + 1
  {
    if k < |records| - 1 {
      var init := records[..|records| - 1];
      assert init[..k] == records[..k];
      SelectedAtLeast(init, kind, k);
    } else {
      assert records[..k] == records[..|records| - 1];
    }
  }
}
