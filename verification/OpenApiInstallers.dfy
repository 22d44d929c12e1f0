/** The stacked installers of the OpenAPI document, and what they publish. */
module OpenApiInstallers {
  import opened Options
  import opened JsonPointer
  import opened OpenApiReferences

  datatype Error = Environment | Integrity | Collision | Reference

  datatype Result<T> = Ok(value: T) | Err(error: Error)

  /** The one reference the inner installer leaves to the outer one. */
  const RUN_ENTRY: string := "#/components/schemas/RunEntryRequest"

  // ---- dictionaries ----

  function SetMember(ms: seq<Member>, key: string, value: Json): seq<Member> {
    if ms == [] then [Member(key, value)]
    else if ms[0].key == key then [Member(key, value)] + ms[1..]
    else [ms[0]] + SetMember(ms[1..], key, value)
  }

  lemma {:induction false} LookupSet(ms: seq<Member>, key: string, value: Json, other: string)
    ensures Lookup(SetMember(ms, key, value), other) == if other == key then Some(value) else Lookup(ms, other)
  {
    if ms != [] && ms[0].key != key {
      LookupSet(ms[1..], key, value, other);
      assert ([ms[0]] + SetMember(ms[1..], key, value))[1..] == SetMember(ms[1..], key, value);
    }
  }

  /** The definitions put in one after the other. */
  function SetAll(ms: seq<Member>, definitions: seq<Member>): seq<Member> {
    if definitions == [] then ms
    else
      var last := |definitions| - 1;
      SetMember(SetAll(ms, definitions[..last]), definitions[last].key, definitions[last].value)
  }

  predicate DistinctKeys(ms: seq<Member>) {
    forall i, j :: 0 <= i < j < |ms| ==> ms[i].key != ms[j].key
  }

  lemma {:induction false} LookupSetAll(ms: seq<Member>, definitions: seq<Member>, key: string)
    ensures (forall i :: 0 <= i < |definitions| ==> definitions[i].key != key) ==>
      Lookup(SetAll(ms, definitions), key) == Lookup(ms, key)
    ensures DistinctKeys(definitions) ==>
      forall i :: 0 <= i < |definitions| && definitions[i].key == key ==>
        Lookup(SetAll(ms, definitions), key) == Some(definitions[i].value)
    decreases |definitions|
  {
    if definitions != [] {
      var last := |definitions| - 1;
      LookupSetAll(ms, definitions[..last], key);
      LookupSet(SetAll(ms, definitions[..last]), definitions[last].key, definitions[last].value, key);
    }
  }

  // ---- merging ----

  /** dict.get(key, {}), which must be a dictionary. */
  function Dictionary(ms: seq<Member>, key: string): Result<seq<Member>> {
    match Lookup(ms, key)
    case None => Ok([])
    case Some(Object(inner)) => Ok(inner)
    case _ => Err(Integrity)
  }

  function Schemas(base: Json): Result<seq<Member>> {
    if !base.Object? then Err(Integrity)
    else
      match Dictionary(base.members, "components")
      case Err(e) => Err(e)
      case Ok(components) => Dictionary(components, "schemas")
  }

  /** The base document with the definitions among its component schemas. */
  function Merge(base: Json, definitions: seq<Member>): Json
    requires Schemas(base).Ok?
  {
    var components := Dictionary(base.members, "components").value;
    var schemas := SetAll(Schemas(base).value, definitions);
    Object(SetMember(base.members, "components", Object(SetMember(components, "schemas", Object(schemas)))))
  }

  /** Every definition is found under its own pointer, and nothing outside the named schemas has changed. */
  lemma MergeFinds(base: Json, definitions: seq<Member>, key: string)
    requires Schemas(base).Ok?
    ensures DistinctKeys(definitions) ==>
      forall i :: 0 <= i < |definitions| && definitions[i].key == key ==>
        Resolve(Merge(base, definitions), Pointer(["components", "schemas", key])) == Some(definitions[i].value)
    ensures (forall i :: 0 <= i < |definitions| ==> definitions[i].key != key) ==>
      Resolve(Merge(base, definitions), Pointer(["components", "schemas", key])) == Lookup(Schemas(base).value, key)
  {
    PointerResolves(Merge(base, definitions), ["components", "schemas", key]);
    MergeFollow(base, definitions, key);
    LookupSetAll(Schemas(base).value, definitions, key);
  }

  lemma MergeFollow(base: Json, definitions: seq<Member>, key: string)
    requires Schemas(base).Ok?
    ensures Follow(Merge(base, definitions), ["components", "schemas", key])
      == Lookup(SetAll(Schemas(base).value, definitions), key)
  {
    var merged := Merge(base, definitions);
    var components := Dictionary(base.members, "components").value;
    var schemas := Object(SetAll(Schemas(base).value, definitions));
    var inner := Object(SetMember(components, "schemas", schemas));
    LookupSet(base.members, "components", inner, "components");
    LookupSet(components, "schemas", schemas, "schemas");
    assert ["components", "schemas", key][1..] == ["schemas", key];
    assert ["schemas", key][1..] == [key];
    assert [key][1..] == [];
    FollowOne(merged, "components", inner, ["schemas", key]);
    FollowOne(inner, "schemas", schemas, [key]);
  }

  lemma FollowOne(j: Json, part: string, next: Json, rest: seq<string>)
    requires StepInto(j, part) == Some(next)
    ensures Follow(j, [part] + rest) == Follow(next, rest)
  {
    assert ([part] + rest)[1..] == rest;
  }

  lemma MergeKeeps(base: Json, definitions: seq<Member>, key: string)
    requires Schemas(base).Ok?
    requires key != "components"
    ensures Lookup(Merge(base, definitions).members, key) == Lookup(base.members, key)
  {
    var components := Dictionary(base.members, "components").value;
    var schemas := Object(SetAll(Schemas(base).value, definitions));
    LookupSet(base.members, "components", Object(SetMember(components, "schemas", schemas)), key);
  }

  predicate Disagrees(schemas: seq<Member>, definition: Member, matches: (Json, Json) -> bool) {
    var present := Lookup(schemas, definition.key);
    present.Some? && !matches(present.value, definition.value)
  }

  predicate AllObjects(definitions: seq<Member>) {
    forall i :: 0 <= i < |definitions| ==> definitions[i].value.Object?
  }

  predicate NoCollision(schemas: seq<Member>, definitions: seq<Member>, matches: (Json, Json) -> bool) {
    forall i :: 0 <= i < |definitions| ==> !Disagrees(schemas, definitions[i], matches)
  }

  /** What the first faulty definition, in order, is reported as. */
  function FirstFault(schemas: seq<Member>, definitions: seq<Member>, matches: (Json, Json) -> bool): Error {
    if definitions == [] || !definitions[0].value.Object? then Integrity
    else if Disagrees(schemas, definitions[0], matches) then Collision
    else FirstFault(schemas, definitions[1..], matches)
  }

  /** The first faulty definition is at i: it is no object, or it is one that meets a different schema. */
  lemma {:induction false} FirstFaultAt(
    schemas: seq<Member>, definitions: seq<Member>, matches: (Json, Json) -> bool, i: nat)
    requires i < |definitions|
    requires AllObjects(definitions[..i]) && NoCollision(schemas, definitions[..i], matches)
    requires !definitions[i].value.Object? || Disagrees(schemas, definitions[i], matches)
    ensures FirstFault(schemas, definitions, matches) == if definitions[i].value.Object? then Collision else Integrity
  {
    if i > 0 {
      assert definitions[..i][0] == definitions[0] && definitions[1..][..i - 1] == definitions[..i][1..];
      FirstFaultAt(schemas, definitions[1..], matches, i - 1);
    }
  }

  /** What an installer may publish over a base document, whatever it reports otherwise. */
  predicate Publishable(base: Json, definitions: seq<Member>, deferred: set<string>, matches: (Json, Json) -> bool) {
    && Schemas(base).Ok?
    && AllObjects(definitions)
    && NoCollision(Schemas(base).value, definitions, matches)
    && Closed(Merge(base, definitions), Merge(base, definitions), deferred)
  }

  // ---- what is published ----

  /** The document has this schema under this name among its components. */
  predicate HasSchema(document: Json, name: string, schema: Json) {
    && document.Object?
    && var components := Lookup(document.members, "components");
    && components.Some? && components.value.Object?
    && var schemas := Lookup(components.value.members, "schemas");
    && schemas.Some? && schemas.value.Object?
    && Lookup(schemas.value.members, name) == Some(schema)
  }

  /** The value of a member of the document's components. */
  function Component(document: Json, key: string): Option<Json> {
    if !document.Object? then None
    else
      match Lookup(document.members, "components")
      case Some(Object(members)) => Lookup(members, key)
      case _ => None
  }

  lemma HasMerged(base: Json, definitions: seq<Member>, name: string, schema: Json)
    requires Schemas(base).Ok?
    ensures HasSchema(Merge(base, definitions), name, schema) <==>
      Lookup(SetAll(Schemas(base).value, definitions), name) == Some(schema)
  {
    var components := Dictionary(base.members, "components").value;
    var schemas := Object(SetAll(Schemas(base).value, definitions));
    LookupSet(components, "schemas", schemas, "schemas");
    LookupSet(base.members, "components", Object(SetMember(components, "schemas", schemas)), "components");
  }

  lemma HasBase(base: Json, name: string, schema: Json)
    requires Schemas(base).Ok?
    ensures HasSchema(base, name, schema) <==> Lookup(Schemas(base).value, name) == Some(schema)
  {
  }

  lemma {:induction false} SetFrom(ms: seq<Member>, definitions: seq<Member>, key: string)
    ensures var now := Lookup(SetAll(ms, definitions), key);
      now == Lookup(ms, key) || (now.Some? && Member(key, now.value) in definitions)
    decreases |definitions|
  {
    if definitions != [] {
      var last := |definitions| - 1;
      SetFrom(ms, definitions[..last], key);
      LookupSet(SetAll(ms, definitions[..last]), definitions[last].key, definitions[last].value, key);
      assert definitions[last] in definitions;
    }
  }

  /** A published merge never replaces a schema that was there by a different one. */
  lemma PublishedReplacesNothing(
    base: Json, definitions: seq<Member>, deferred: set<string>, matches: (Json, Json) -> bool, name: string, was: Json)
    returns (now: Json)
    requires Publishable(base, definitions, deferred, matches)
    requires HasSchema(base, name, was)
    ensures HasSchema(Merge(base, definitions), name, now)
    ensures now == was || (matches(was, now) && Member(name, now) in definitions)
  {
    var schemas := Schemas(base).value;
    HasBase(base, name, was);
    SetFrom(schemas, definitions, name);
    if Lookup(SetAll(schemas, definitions), name) == Some(was) {
      now := was;
    } else {
      SetAllKeeps(schemas, definitions, name);
      now := Lookup(SetAll(schemas, definitions), name).value;
      var i :| 0 <= i < |definitions| && definitions[i] == Member(name, now);
      assert !Disagrees(schemas, definitions[i], matches);
    }
    HasMerged(base, definitions, name, now);
  }

  lemma {:induction false} SetAllKeeps(ms: seq<Member>, definitions: seq<Member>, key: string)
    requires Lookup(ms, key).Some?
    ensures Lookup(SetAll(ms, definitions), key).Some?
    decreases |definitions|
  {
    if definitions != [] {
      var last := |definitions| - 1;
      SetAllKeeps(ms, definitions[..last], key);
      LookupSet(SetAll(ms, definitions[..last]), definitions[last].key, definitions[last].value, key);
    }
  }

  /** A definition that meets a different schema under its name is never published. */
  lemma DifferentIsRefused(
    base: Json, definitions: seq<Member>, deferred: set<string>, matches: (Json, Json) -> bool, name: string, was: Json,
    i: nat)
    requires HasSchema(base, name, was)
    requires i < |definitions| && definitions[i].key == name && !matches(was, definitions[i].value)
    ensures !Publishable(base, definitions, deferred, matches)
  {
    HasBase(base, name, was);
    assert Disagrees(Schemas(base).value, definitions[i], matches);
  }

  /** Exactly the definitions are added: under every other name the merge has what the base had. */
  lemma MergedSchemas(base: Json, definitions: seq<Member>, name: string, schema: Json)
    requires Schemas(base).Ok?
    requires DistinctKeys(definitions)
    ensures HasSchema(Merge(base, definitions), name, schema) <==>
      Member(name, schema) in definitions ||
      (HasSchema(base, name, schema) && forall i :: 0 <= i < |definitions| ==> definitions[i].key != name)
  {
    HasMerged(base, definitions, name, schema);
    HasBase(base, name, schema);
    LookupSetAll(Schemas(base).value, definitions, name);
  }

  /** The members of the components other than the schemas are kept as they were. */
  lemma ComponentsKept(base: Json, definitions: seq<Member>, key: string)
    requires Schemas(base).Ok? && key != "schemas"
    ensures Component(Merge(base, definitions), key) == Component(base, key)
  {
    var components := Dictionary(base.members, "components").value;
    var schemas := Object(SetAll(Schemas(base).value, definitions));
    LookupSet(components, "schemas", schemas, key);
    LookupSet(base.members, "components", Object(SetMember(components, "schemas", schemas)), "components");
  }

  // ---- the application object ----

  class Application {
    var schema: Option<Json>
    var inner: Option<Json>
    var outer: Option<Json>
    const matches: (Json, Json) -> bool

    constructor (matches: (Json, Json) -> bool)
      ensures schema == None && inner == None && outer == None
      ensures this.matches == matches
    {
      schema, inner, outer := None, None, None;
      this.matches := matches;
    }

    /** What the installers have cached is closed. */
    ghost predicate Valid()
      reads this
    {
      && (inner.Some? ==> Closed(inner.value, inner.value, {RUN_ENTRY}))
      && (outer.Some? ==> Closed(outer.value, outer.value, {}))
    }

    /** The framework's generator: it may raise, return anything, and replace the published schema either way. */
    method Default() returns (r: Result<Json>)
      modifies this`schema
      ensures r.Err? ==> r.error == Environment
    {
      schema := *;
      r := *;
      if r.Err? {
        r := Err(Environment);
      }
    }

    /** Merging and checking the references. */
    method Candidate(base: Json, definitions: seq<Member>, deferred: set<string>) returns (r: Result<Json>)
      requires Schemas(base).Ok?
      ensures r.Ok? <==> Closed(Merge(base, definitions), Merge(base, definitions), deferred)
      ensures r == if r.Ok? then Ok(Merge(base, definitions)) else Err(Reference)
    {
      var candidate := Merge(base, definitions);
      var ok := CheckReferences(candidate, deferred);
      r := if ok then Ok(candidate) else Err(Reference);
    }

    /** The inner installer's checks: the shape of everything first, collisions after. */
    method CheckInner(base: Json, definitions: seq<Member>) returns (r: Result<seq<Member>>)
      ensures r.Ok? ==> r == Schemas(base) && AllObjects(definitions) && NoCollision(r.value, definitions, matches)
      ensures r == Err(Integrity) <==> Schemas(base).Err? || !AllObjects(definitions)
      ensures r == Err(Collision) <==>
        Schemas(base).Ok? && AllObjects(definitions) && !NoCollision(Schemas(base).value, definitions, matches)
    {
      for i := 0 to |definitions|
        invariant AllObjects(definitions[..i])
      {
        if !definitions[i].value.Object? {
          return Err(Integrity);
        }
      }
      assert definitions[..|definitions|] == definitions;
      r := Schemas(base);
      if r.Err? {
        return;
      }
      for i := 0 to |definitions|
        invariant NoCollision(r.value, definitions[..i], matches)
      {
        if Disagrees(r.value, definitions[i], matches) {
          return Err(Collision);
        }
      }
    }

    /** The outer installer's checks: definition by definition, so the first fault decides. */
    method CheckOuter(base: Json, definitions: seq<Member>) returns (r: Result<seq<Member>>)
      ensures r.Ok? <==>
        Schemas(base).Ok? && AllObjects(definitions) && NoCollision(Schemas(base).value, definitions, matches)
      ensures r.Ok? ==> r == Schemas(base)
      ensures r.Err? && Schemas(base).Ok? ==>
        r.error == FirstFault(Schemas(base).value, definitions, matches)
      ensures Schemas(base).Err? ==> r == Err(Integrity)
    {
      r := Schemas(base);
      if r.Err? {
        return;
      }
      for i := 0 to |definitions|
        invariant AllObjects(definitions[..i])
        invariant NoCollision(r.value, definitions[..i], matches)
        invariant FirstFault(r.value, definitions, matches) == FirstFault(r.value, definitions[i..], matches)
      {
        assert definitions[i..][1..] == definitions[i + 1..];
        if !definitions[i].value.Object? {
          return Err(Integrity);
        }
        if Disagrees(r.value, definitions[i], matches) {
          return Err(Collision);
        }
      }
    }

    /** The inner installer. On any failure the published schema is what it was at the call. */
    method InnerOpenApi(definitions: seq<Member>) returns (r: Result<Json>)
      requires Valid()
      modifies this`schema, this`inner
      ensures Valid()
      ensures old(inner.Some?) ==> r == Ok(old(inner).value) && schema == old(schema) && inner == old(inner)
      ensures old(inner.None?) && r.Ok? ==>
        && schema == inner == Some(r.value)
        && exists base: Json :: Publishable(base, definitions, {RUN_ENTRY}, matches) && r.value == Merge(base, definitions)
      ensures r.Err? ==> schema == old(schema) && inner == old(inner)
    {
      if inner.Some? {
        return Ok(inner.value);
      }
      var original := schema;
      r := Default();
      if r.Ok? {
        var base := r.value;
        var checked := CheckInner(base, definitions);
        if checked.Err? {
          r := Err(checked.error);
        } else {
          r := Candidate(base, definitions, {RUN_ENTRY});
          if r.Ok? {
            assert Publishable(base, definitions, {RUN_ENTRY}, matches);
            schema := Some(r.value);
            inner := schema;
            return;
          }
        }
      }
      schema := original;
    }

    /** The outer installer over the inner one. */
    method OpenApi(innerDefinitions: seq<Member>, definitions: seq<Member>) returns (r: Result<Json>)
      requires Valid()
      modifies this
      ensures Valid()
      ensures old(outer.Some?) ==> r == Ok(old(outer).value) && schema == old(schema) && outer == old(outer)
      ensures old(outer.None?) && r.Ok? ==>
        && schema == outer == Some(r.value)
        && inner.Some?
        && Publishable(inner.value, definitions, {}, matches)
        && r.value == Merge(inner.value, definitions)
      ensures r.Ok? ==> Closed(r.value, r.value, {})
      ensures r.Err? ==> schema == old(schema) && outer == old(outer)
    {
      if outer.Some? {
        return Ok(outer.value);
      }
      var original := schema;
      r := InnerOpenApi(innerDefinitions);
      if r.Ok? {
        var base := r.value;
        var checked := CheckOuter(base, definitions);
        if checked.Err? {
          r := Err(checked.error);
        } else {
          r := Candidate(base, definitions, {});
          if r.Ok? {
            schema := Some(r.value);
            outer := schema;
            return;
          }
        }
      }
      schema := original;
    }
  }

  /** After a first success every later request, whatever happens below, is answered with the same document. */
  method Twice(app: Application, a: seq<Member>, b: seq<Member>, c: seq<Member>, d: seq<Member>)
    returns (first: Result<Json>, second: Result<Json>)
    requires app.Valid()
    modifies app
    ensures first.Ok? ==> second == first && (old(app.outer.None?) ==> app.schema == Some(first.value))
    ensures first.Err? && second.Err? ==> app.schema == old(app.schema)
  {
    first := app.OpenApi(a, b);
    second := app.OpenApi(c, d);
  }
}
