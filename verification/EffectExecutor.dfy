/** The all-or-nothing effect executor, and what its event log is worth. */
module EffectExecutor {

  const MAX_ATTRIBUTE := 0x7fff_ffff_ffff_ffff
  const MAX_MULTIPLIER := 1_000_000
  const BASIS := 10_000

  datatype Resource = Resource(current: int, maximum: int)

  /** The value of a game state: the parts effects touch, and the untouched rest. */
  datatype Snapshot = Snapshot(
    contentVersion: string, attributes: map<string, int>, resources: map<string, Resource>, restValid: bool)

  datatype Effect =
    | AttributeModifier(definitionId: string, attributeId: string, flatDelta: int, multiplierBps: int)
    | ResourceModifier(definitionId: string, resourceId: string, delta: int)
    | UnsupportedEffect(definitionId: string)

  datatype Catalog = Catalog(contentVersion: string, effects: map<string, Effect>)

  datatype SourceType = Skill | Consumable | RewardSettlement | SystemRule | NotASourceType

  datatype Source = Source(kind: SourceType, id: string)

  datatype Event =
    | AttributeChanged(source: Source, definitionId: string, id: string, before: int, after: int)
    | ResourceChanged(source: Source, definitionId: string, id: string, delta: int, before: int, after: int)

  datatype Fact = AttributeFact(id: string, value: int) | ResourceFact(id: string, value: int)

  datatype Code =
    | InvalidEffectSource
    | UnorderedEffectSequence
    | UnknownEffectDefinition
    | UnsupportedEffectCode
    | UntrustedEffectDefinition
    | UnsupportedEffectSemantics
    | SnapshotContentMismatch
    | InvalidSnapshotReference
    | InvalidEffectResult
    | InvalidAttributeModifier
    | UnknownAttribute
    | UnknownResource
    | InsufficientResource

  datatype Step = Done(state: Snapshot, event: Event, fact: Fact) | Violation(code: Code)

  datatype Execution = Applied(state: Snapshot, events: seq<Event>, facts: seq<Fact>) | Failed(code: Code)

  // ---- one effect ----

  function Scaled(before: int, multiplierBps: int, flatDelta: int): int {
    before * multiplierBps / BASIS + flatDelta
  }

  function ModifyAttribute(s: Snapshot, e: Effect, source: Source): Step
    requires e.AttributeModifier?
  {
    if !(0 <= e.multiplierBps <= MAX_MULTIPLIER) then Violation(InvalidAttributeModifier)
    else if e.attributeId !in s.attributes then Violation(UnknownAttribute)
    else
      var before := s.attributes[e.attributeId];
      var after := Scaled(before, e.multiplierBps, e.flatDelta);
      if !(0 <= after <= MAX_ATTRIBUTE) then Violation(InvalidAttributeModifier)
      else Done(s.(attributes := s.attributes[e.attributeId := after]),
        AttributeChanged(source, e.definitionId, e.attributeId, before, after), AttributeFact(e.attributeId, after))
  }

  function Moved(r: Resource, delta: int): int {
    if delta > 0 && r.current + delta > r.maximum then r.maximum else r.current + delta
  }

  function ModifyResource(s: Snapshot, e: Effect, source: Source): Step
    requires e.ResourceModifier?
  {
    if e.resourceId !in s.resources then Violation(UnknownResource)
    else
      var r := s.resources[e.resourceId];
      if e.delta < 0 && r.current < -e.delta then Violation(InsufficientResource)
      else
        var after := Moved(r, e.delta);
        Done(s.(resources := s.resources[e.resourceId := r.(current := after)]),
          ResourceChanged(source, e.definitionId, e.resourceId, e.delta, r.current, after), ResourceFact(e.resourceId, after))
  }

  predicate Permanent(kind: SourceType) {
    kind.RewardSettlement? || kind.SystemRule?
  }

  function ApplyOne(s: Snapshot, catalog: Catalog, e: Effect, source: Source): Step {
    if e.UnsupportedEffect? then Violation(UnsupportedEffectCode)
    else if e.definitionId !in catalog.effects then Violation(UnknownEffectDefinition)
    else if catalog.effects[e.definitionId] != e then Violation(UntrustedEffectDefinition)
    else if e.AttributeModifier? then
      if !Permanent(source.kind) then Violation(UnsupportedEffectSemantics) else ModifyAttribute(s, e, source)
    else ModifyResource(s, e, source)
  }

  // ---- a sequence of effects ----

  /** The first violation in order wins; otherwise all changes, in order. */
  function ApplyAll(s: Snapshot, catalog: Catalog, es: seq<Effect>, source: Source): Execution
    decreases |es|
  {
    if es == [] then Applied(s, [], [])
    else
      match ApplyAll(s, catalog, es[..|es| - 1], source)
      case Failed(code) => Failed(code)
      case Applied(mid, events, facts) =>
        match ApplyOne(mid, catalog, es[|es| - 1], source)
        case Violation(code) => Failed(code)
        case Done(last, event, fact) => Applied(last, events + [event], facts + [fact])
  }

  predicate AlphaNumeric(c: char) {
    'A' <= c <= 'Z' || 'a' <= c <= 'z' || '0' <= c <= '9'
  }

  predicate ValidSource(source: Source) {
    && !source.kind.NotASourceType?
    && 1 <= |source.id| <= 128 && AlphaNumeric(source.id[0])
    && forall i :: 1 <= i < |source.id| ==> AlphaNumeric(source.id[i]) || source.id[i] in {'_', '.', ':', '-'}
  }

  predicate InRange(s: Snapshot) {
    && (forall k :: k in s.attributes ==> 0 <= s.attributes[k] <= MAX_ATTRIBUTE)
    && (forall k :: k in s.resources ==> 0 <= s.resources[k].current <= s.resources[k].maximum)
  }

  function Validate(s: Snapshot, catalog: Catalog): (code: seq<Code>)
    ensures |code| <= 1
  {
    if s.contentVersion != catalog.contentVersion then [SnapshotContentMismatch]
    else if !s.restValid then [InvalidSnapshotReference] else []
  }

  /** What an execution of definitions yields. */
  function Execute(s: Snapshot, catalog: Catalog, ordered: bool, es: seq<Effect>, source: Source): Execution {
    if !ValidSource(source) then Failed(InvalidEffectSource)
    else if !ordered then Failed(UnorderedEffectSequence)
    else if Validate(s, catalog) != [] then Failed(Validate(s, catalog)[0])
    else if !InRange(s) then Failed(InvalidEffectResult)
    else ApplyAll(s, catalog, es, source)
  }

  /** Resolving definition ids comes first: one unknown id fails everything. */
  function Resolve(catalog: Catalog, ids: seq<string>): (r: seq<seq<Effect>>)
    ensures |r| <= 1
    ensures r != [] ==> |r[0]| == |ids| && forall i :: 0 <= i < |ids| ==> ids[i] in catalog.effects && r[0][i] == catalog.effects[ids[i]]
    ensures r == [] ==> exists i :: 0 <= i < |ids| && ids[i] !in catalog.effects
  {
    if forall i :: 0 <= i < |ids| ==> ids[i] in catalog.effects
    then [seq(|ids|, i requires 0 <= i < |ids| && ids[i] in catalog.effects => catalog.effects[ids[i]])]
    else []
  }

  // ---- the executor over mutable states ----

  class GameState {
    var contentVersion: string
    var attributes: map<string, int>
    var resources: map<string, Resource>
    var restValid: bool

    function Value(): Snapshot
      reads this
    {
      Snapshot(contentVersion, attributes, resources, restValid)
    }

    constructor (s: Snapshot)
      ensures Value() == s
    {
      contentVersion, attributes, resources, restValid := s.contentVersion, s.attributes, s.resources, s.restValid;
    }

    method ApplyAttribute(e: Effect, source: Source) returns (step: Step)
      requires e.AttributeModifier?
      modifies this`attributes
      ensures step == ModifyAttribute(old(Value()), e, source)
      ensures Value() == if step.Done? then step.state else old(Value())
    {
      step := ModifyAttribute(Value(), e, source);
      if step.Done? {
        attributes := attributes[e.attributeId := Scaled(attributes[e.attributeId], e.multiplierBps, e.flatDelta)];
      }
    }

    method ApplyResource(e: Effect, source: Source) returns (step: Step)
      requires e.ResourceModifier?
      modifies this`resources
      ensures step == ModifyResource(old(Value()), e, source)
      ensures Value() == if step.Done? then step.state else old(Value())
    {
      step := ModifyResource(Value(), e, source);
      if step.Done? {
        var r := resources[e.resourceId];
        if e.delta != 0 {
          resources := resources[e.resourceId := r.(current := Moved(r, e.delta))];
        } else {
          assert resources[e.resourceId := r] == resources;
        }
      }
    }
  }

  datatype Result = Succeeded(updated: GameState, events: seq<Event>, facts: seq<Fact>) | Refused(code: Code)

  /** Works on a detached copy: the state passed in is not in the frame, so nothing of it changes;
      a refusal carries neither state nor events nor facts. */
  method ExecuteDefinitions(state: GameState, catalog: Catalog, ordered: bool, effects: seq<Effect>, source: Source)
    returns (result: Result)
    ensures result.Succeeded? ==>
      && fresh(result.updated)
      && Execute(state.Value(), catalog, ordered, effects, source) == Applied(result.updated.Value(), result.events, result.facts)
    ensures result.Refused? ==> Execute(state.Value(), catalog, ordered, effects, source) == Failed(result.code)
  {
    if !ValidSource(source) { return Refused(InvalidEffectSource); }
    if !ordered { return Refused(UnorderedEffectSequence); }
    var invalid := Validate(state.Value(), catalog);
    if invalid != [] { return Refused(invalid[0]); }
    if !InRange(state.Value()) { return Refused(InvalidEffectResult); }
    var candidate := new GameState(state.Value());
    var events: seq<Event>, facts: seq<Fact> := [], [];
    for i := 0 to |effects|
      invariant fresh(candidate)
      invariant ApplyAll(state.Value(), catalog, effects[..i], source) == Applied(candidate.Value(), events, facts)
    {
      var e := effects[i];
      assert effects[..i + 1][..i] == effects[..i];
      ghost var step := ApplyOne(candidate.Value(), catalog, e, source);
      PrefixFailure(state.Value(), catalog, effects, i + 1, source);
      if e.UnsupportedEffect? { return Refused(UnsupportedEffectCode); }
      if e.definitionId !in catalog.effects { return Refused(UnknownEffectDefinition); }
      if catalog.effects[e.definitionId] != e { return Refused(UntrustedEffectDefinition); }
      var done;
      if e.AttributeModifier? {
        if !Permanent(source.kind) { return Refused(UnsupportedEffectSemantics); }
        done := candidate.ApplyAttribute(e, source);
      } else {
        done := candidate.ApplyResource(e, source);
      }
      if done.Violation? { return Refused(done.code); }
      events := events + [done.event];
      facts := facts + [done.fact];
    }
    assert effects[..|effects|] == effects;
    KeepsRest(state.Value(), catalog, effects, source);
    // The final validation always passes.
    LogIsLawful(state.Value(), catalog, effects, source);
    assert Validate(candidate.Value(), catalog) == [] && InRange(candidate.Value());
    result := Succeeded(candidate, events, facts);
  }

  /** By definition ids: all of them resolve first, or nothing is executed. */
  method ExecuteIds(state: GameState, catalog: Catalog, ordered: bool, ids: seq<string>, source: Source)
    returns (result: Result)
    ensures result.Succeeded? ==>
      && fresh(result.updated) && Resolve(catalog, ids) != []
      && Execute(state.Value(), catalog, ordered, Resolve(catalog, ids)[0], source)
        == Applied(result.updated.Value(), result.events, result.facts)
    ensures result == Refused(UnknownEffectDefinition) <== ValidSource(source) && ordered && Resolve(catalog, ids) == []
  {
    if !ValidSource(source) { return Refused(InvalidEffectSource); }
    if !ordered { return Refused(UnorderedEffectSequence); }
    var effects: seq<Effect> := [];
    for i := 0 to |ids|
      invariant |effects| == i
      invariant forall k :: 0 <= k < i ==> ids[k] in catalog.effects && effects[k] == catalog.effects[ids[k]]
    {
      if ids[i] !in catalog.effects { return Refused(UnknownEffectDefinition); }
      effects := effects + [catalog.effects[ids[i]]];
    }
    assert Resolve(catalog, ids) != [];
    assert effects == Resolve(catalog, ids)[0];
    result := ExecuteDefinitions(state, catalog, ordered, effects, source);
  }

  /** Executing two lists one after the other is executing their concatenation: all or nothing. */
  lemma {:induction false} Sequential(s: Snapshot, catalog: Catalog, a: seq<Effect>, b: seq<Effect>, source: Source)
    ensures ApplyAll(s, catalog, a + b, source) ==
      match ApplyAll(s, catalog, a, source)
      case Failed(code) => Failed(code)
      case Applied(mid, events, facts) =>
        match ApplyAll(mid, catalog, b, source)
        case Failed(code) => Failed(code)
        case Applied(last, more, moreFacts) => Applied(last, events + more, facts + moreFacts)
    decreases |b|
  {
    if b == [] {
      assert a + b == a;
    } else {
      var shorter := b[..|b| - 1];
      assert (a + b)[..|a + b| - 1] == a + shorter;
      Sequential(s, catalog, a, shorter, source);
    }
  }

  /** A failing prefix fails the whole sequence, with the same code. */
  lemma {:induction false} PrefixFailure(s: Snapshot, catalog: Catalog, es: seq<Effect>, n: nat, source: Source)
    requires n <= |es|
    ensures ApplyAll(s, catalog, es[..n], source).Failed? ==> ApplyAll(s, catalog, es, source) == ApplyAll(s, catalog, es[..n], source)
    decreases |es|
  {
    if n < |es| {
      var shorter := es[..|es| - 1];
      assert shorter[..n] == es[..n];
      PrefixFailure(s, catalog, shorter, n, source);
    } else {
      assert es[..n] == es;
    }
  }

  /** Effects leave the rest of the state alone, so the final validation cannot fail. */
  lemma {:induction false} KeepsRest(s: Snapshot, catalog: Catalog, es: seq<Effect>, source: Source)
    ensures var x := ApplyAll(s, catalog, es, source);
      x.Applied? ==>
        && x.state.contentVersion == s.contentVersion && x.state.restValid == s.restValid
        && x.state.attributes.Keys == s.attributes.Keys && x.state.resources.Keys == s.resources.Keys
        && |x.events| == |x.facts| == |es|
    decreases |es|
  {
    if es != [] {
      KeepsRest(s, catalog, es[..|es| - 1], source);
    }
  }

  // ---- the event log ----

  function ReplayOne(s: Snapshot, e: Event): Snapshot {
    match e
    case AttributeChanged(_, _, id, _, after) => s.(attributes := s.attributes[id := after])
    case ResourceChanged(_, _, id, _, _, after) =>
      if id in s.resources then s.(resources := s.resources[id := s.resources[id].(current := after)]) else s
  }

  /** Writes the logged `after` values over s, in order. */
  function Replay(s: Snapshot, log: seq<Event>): Snapshot
    decreases |log|
  {
    if log == [] then s else ReplayOne(Replay(s, log[..|log| - 1]), log[|log| - 1])
  }

  /** The value an event says it found. */
  predicate FoundBefore(s: Snapshot, e: Event) {
    match e
    case AttributeChanged(_, _, id, before, _) => id in s.attributes && s.attributes[id] == before
    case ResourceChanged(_, _, id, _, before, _) => id in s.resources && s.resources[id].current == before
  }

  lemma StepReplays(s: Snapshot, catalog: Catalog, e: Effect, source: Source)
    requires ApplyOne(s, catalog, e, source).Done?
    ensures var step := ApplyOne(s, catalog, e, source);
      ReplayOne(s, step.event) == step.state && FoundBefore(s, step.event)
  {
  }

  /** On success the log replays to the result, and every event's `before` is what the log so far
      leaves for that attribute or resource: its last `after`, or the input's value. */
  lemma {:induction false} LogReplays(s: Snapshot, catalog: Catalog, es: seq<Effect>, source: Source)
    requires ApplyAll(s, catalog, es, source).Applied?
    ensures var x := ApplyAll(s, catalog, es, source);
      && |x.events| == |es| && Replay(s, x.events) == x.state
      && forall i :: 0 <= i < |x.events| ==> FoundBefore(Replay(s, x.events[..i]), x.events[i])
    decreases |es|
  {
    if es != [] {
      var shorter, e := es[..|es| - 1], es[|es| - 1];
      LogReplays(s, catalog, shorter, source);
      var mid := ApplyAll(s, catalog, shorter, source);
      StepReplays(mid.state, catalog, e, source);
      LogAppend(s, mid.events, ApplyOne(mid.state, catalog, e, source).event);
    }
  }

  lemma LogAppend(s: Snapshot, log: seq<Event>, e: Event)
    requires forall i :: 0 <= i < |log| ==> FoundBefore(Replay(s, log[..i]), log[i])
    requires FoundBefore(Replay(s, log), e)
    ensures Replay(s, log + [e]) == ReplayOne(Replay(s, log), e)
    ensures forall i :: 0 <= i < |log| + 1 ==> FoundBefore(Replay(s, (log + [e])[..i]), (log + [e])[i])
  {
    assert (log + [e])[..|log|] == log;
    forall i | 0 <= i < |log| + 1 ensures FoundBefore(Replay(s, (log + [e])[..i]), (log + [e])[i]) {
      if i < |log| {
        assert (log + [e])[..i] == log[..i];
      }
    }
  }

  /** Every fact states the `after` of the event beside it, and every change is lawful: attributes
      stay in range, a resource loses exactly what is consumed and gains what is restored up to its
      maximum, which never changes. */
  lemma {:induction false} LogIsLawful(s: Snapshot, catalog: Catalog, es: seq<Effect>, source: Source)
    requires InRange(s) && ApplyAll(s, catalog, es, source).Applied?
    ensures var x := ApplyAll(s, catalog, es, source);
      && InRange(x.state) && |x.events| == |x.facts|
      && (forall k :: k in s.resources ==> k in x.state.resources && x.state.resources[k].maximum == s.resources[k].maximum)
      && forall i :: 0 <= i < |x.events| ==> Lawful(s, x.events[i], x.facts[i])
    decreases |es|
  {
    if es != [] {
      LogIsLawful(s, catalog, es[..|es| - 1], source);
      KeepsRest(s, catalog, es[..|es| - 1], source);
    }
  }

  predicate Lawful(s: Snapshot, e: Event, f: Fact) {
    match e
    case AttributeChanged(_, _, id, _, after) => f == AttributeFact(id, after) && 0 <= after <= MAX_ATTRIBUTE
    case ResourceChanged(_, _, id, delta, before, after) =>
      && f == ResourceFact(id, after) && id in s.resources
      && (after - before == delta || (delta > 0 && after == s.resources[id].maximum && after - before < delta))
  }

  // ---- the arithmetic, without the functions that compute it ----

  /**
    * What one effect does, read off its event: an attribute is scaled in basis points, rounded down, and then the flat
    * delta is added; a resource moves by the delta, and stops at its maximum.
    */
  predicate Exact(s: Snapshot, e: Effect, ev: Event, source: Source) {
    match e
    case AttributeModifier(definition, id, flat, multiplier) =>
      && ev.AttributeChanged? && ev.source == source && ev.definitionId == definition && ev.id == id
      && 10_000 * (ev.after - flat) <= ev.before * multiplier < 10_000 * (ev.after - flat) + 10_000
    case ResourceModifier(definition, id, delta) =>
      && ev.ResourceChanged? && ev.source == source && ev.definitionId == definition && ev.id == id
      && ev.delta == delta && id in s.resources
      && 0 <= ev.after <= s.resources[id].maximum
      && (ev.after == ev.before + delta || (ev.after == s.resources[id].maximum && ev.after < ev.before + delta))
    case UnsupportedEffect(_) => false
  }

  lemma Floor(product: int)
    ensures 10_000 * (product / BASIS) <= product < 10_000 * (product / BASIS) + 10_000
  {
  }

  lemma StepExact(s: Snapshot, catalog: Catalog, e: Effect, source: Source)
    requires InRange(s) && ApplyOne(s, catalog, e, source).Done?
    ensures Exact(s, e, ApplyOne(s, catalog, e, source).event, source)
  {
    if e.AttributeModifier? {
      Floor(s.attributes[e.attributeId] * e.multiplierBps);
    }
  }

  /** Every event of the log says exactly what the effect at its place does. */
  lemma {:induction false} LogIsExact(s: Snapshot, catalog: Catalog, es: seq<Effect>, source: Source)
    requires InRange(s) && ApplyAll(s, catalog, es, source).Applied?
    ensures var x := ApplyAll(s, catalog, es, source);
      |x.events| == |es| && forall i :: 0 <= i < |es| ==> Exact(s, es[i], x.events[i], source)
    decreases |es|
  {
    if es != [] {
      var shorter, e := es[..|es| - 1], es[|es| - 1];
      LogIsExact(s, catalog, shorter, source);
      LogIsLawful(s, catalog, shorter, source);
      KeepsRest(s, catalog, shorter, source);
      StepExact(ApplyAll(s, catalog, shorter, source).state, catalog, e, source);
    }
  }

  /** The neutral modifier: ten thousand basis points and no delta keep every value; the delta is not scaled. */
  lemma NeutralScale(s: Snapshot, e: Effect, ev: Event, source: Source)
    requires e.AttributeModifier? && Exact(s, e, ev, source)
    ensures e.multiplierBps == 10_000 ==> ev.after == ev.before + e.flatDelta
    ensures e.multiplierBps == 0 ==> ev.after == e.flatDelta
  {
  }

  /** What an effect needs to be applied; the scaled part of an attribute is given by its bounds. */
  predicate Applicable(s: Snapshot, catalog: Catalog, e: Effect, source: Source, scaled: int) {
    && e.definitionId in catalog.effects && catalog.effects[e.definitionId] == e
    && match e
       case AttributeModifier(_, id, flat, multiplier) =>
         && source.kind in {RewardSettlement, SystemRule}
         && 0 <= multiplier <= 1_000_000 && id in s.attributes
         && 0 <= scaled + flat < 0x8000_0000_0000_0000
       case ResourceModifier(_, id, delta) => id in s.resources && s.resources[id].current + delta >= 0
       case UnsupportedEffect(_) => false
  }

  /** An effect is applied exactly if it is trusted, its target exists and the result is in range. */
  lemma AppliedIff(s: Snapshot, catalog: Catalog, e: Effect, source: Source, scaled: int)
    requires InRange(s)
    requires e.AttributeModifier? && e.attributeId in s.attributes ==>
      var product := s.attributes[e.attributeId] * e.multiplierBps;
      10_000 * scaled <= product < 10_000 * scaled + 10_000
    ensures ApplyOne(s, catalog, e, source).Done? <==> Applicable(s, catalog, e, source, scaled)
  {
    if e.AttributeModifier? && e.attributeId in s.attributes {
      Floor(s.attributes[e.attributeId] * e.multiplierBps);
    }
  }

  /** Nothing outside the log changes. */
  lemma {:induction false} UnloggedUnchanged(s: Snapshot, log: seq<Event>, id: string)
    ensures (forall e :: e in log && e.AttributeChanged? ==> e.id != id) && id in s.attributes
      ==> id in Replay(s, log).attributes && Replay(s, log).attributes[id] == s.attributes[id]
    ensures (forall e :: e in log && e.ResourceChanged? ==> e.id != id) && id in s.resources
      ==> id in Replay(s, log).resources && Replay(s, log).resources[id] == s.resources[id]
    decreases |log|
  {
    if log != [] {
      UnloggedUnchanged(s, log[..|log| - 1], id);
      assert log[|log| - 1] in log;
    }
  }
}
