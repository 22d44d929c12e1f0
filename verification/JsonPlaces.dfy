/** Every place of a document has a reference that resolves to it, and references resolve to nothing else. */
module JsonPlaces {
  import opened Options
  import opened JsonPointer
  import opened OpenApiReferences

  // ---- array indices ----

  function Digit(n: nat): char
    requires n < 10
  {
    ('0' as int + n) as char
  }

  function Decimal(n: nat): (s: string)
    ensures StrictIndex(s) && (n > 0 ==> s[0] != '0')
  {
    if n < 10 then [Digit(n)] else Decimal(n / 10) + [Digit(n % 10)]
  }

  lemma {:induction false} ToNatDecimal(n: nat)
    ensures ToNat(Decimal(n)) == n
  {
    if n >= 10 {
      var tens := Decimal(n / 10);
      assert (tens + [Digit(n % 10)])[..|tens|] == tens;
      ToNatDecimal(n / 10);
    } else {
      assert [Digit(n)][..0] == [];
    }
  }

  // ---- places ----

  /** Python's dictionaries: no object of the document has a key twice. */
  predicate UniqueKeys(j: Json) {
    match j
    case Object(ms) =>
      && (forall i, k :: 0 <= i < k < |ms| ==> ms[i].key != ms[k].key)
      && forall i :: 0 <= i < |ms| ==> MemberUnique(ms[i])
    case Array(items) => forall i :: 0 <= i < |items| ==> UniqueKeys(items[i])
    case _ => true
  }

  predicate MemberUnique(m: Member) { UniqueKeys(m.value) }

  /** The tokens that name a place: the key of each member, the position of each array item. */
  function Tokens(j: Json, at: seq<nat>): (r: seq<string>)
    requires Part(j, at).Some?
    ensures |r| == |at|
    decreases |at|
  {
    if at == [] then []
    else if j.Object? then [j.members[at[0]].key] + Tokens(j.members[at[0]].value, at[1..])
    else [Decimal(at[0])] + Tokens(j.items[at[0]], at[1..])
  }

  lemma {:induction false} LookupUnique(ms: seq<Member>, i: nat)
    requires i < |ms| && forall i, k :: 0 <= i < k < |ms| ==> ms[i].key != ms[k].key
    ensures Lookup(ms, ms[i].key) == Some(ms[i].value)
  {
    if i > 0 {
      assert ms[0].key != ms[i].key;
      LookupUnique(ms[1..], i - 1);
    }
  }

  lemma {:induction false} LookupPlace(ms: seq<Member>, key: string) returns (i: nat)
    requires Lookup(ms, key).Some?
    ensures i < |ms| && ms[i].key == key && Lookup(ms, key) == Some(ms[i].value)
  {
    if ms[0].key == key {
      i := 0;
    } else {
      i := LookupPlace(ms[1..], key);
      i := i + 1;
    }
  }

  lemma {:induction false} TokensLead(j: Json, at: seq<nat>)
    requires UniqueKeys(j) && Part(j, at).Some?
    ensures Follow(j, Tokens(j, at)) == Part(j, at)
    decreases |at|
  {
    if at != [] {
      if j.Object? {
        var m := j.members[at[0]];
        assert MemberUnique(m);
        LookupUnique(j.members, at[0]);
        TokensLead(m.value, at[1..]);
        assert ([m.key] + Tokens(m.value, at[1..]))[1..] == Tokens(m.value, at[1..]);
      } else {
        var item := j.items[at[0]];
        ToNatDecimal(at[0]);
        TokensLead(item, at[1..]);
        assert ([Decimal(at[0])] + Tokens(item, at[1..]))[1..] == Tokens(item, at[1..]);
      }
    }
  }

  /** The reference of a place resolves to what is there. */
  lemma PlaceResolves(j: Json, at: seq<nat>)
    requires UniqueKeys(j) && Part(j, at).Some? && at != []
    ensures Resolve(j, Pointer(Tokens(j, at))) == Part(j, at)
  {
    TokensLead(j, at);
    PointerResolves(j, Tokens(j, at));
  }

  lemma {:induction false} FollowedIsPart(j: Json, parts: seq<string>) returns (at: seq<nat>)
    requires Follow(j, parts).Some?
    ensures |at| == |parts| && Part(j, at) == Follow(j, parts)
    decreases |parts|
  {
    if parts == [] {
      return [];
    }
    var i: nat, next: Json;
    if j.Object? {
      i := LookupPlace(j.members, parts[0]);
      next := j.members[i].value;
    } else {
      i := ToNat(parts[0]);
      next := j.items[i];
    }
    var rest := FollowedIsPart(next, parts[1..]);
    at := [i] + rest;
    assert at[1..] == rest;
  }

  /** What a reference resolves to is a part of the document, as many levels down as the reference has tokens. */
  lemma ResolvedIsPart(j: Json, reference: string)
    requires IsLocal(reference) && Resolve(j, reference).Some?
    ensures exists at: seq<nat> :: |at| == |SplitSlash(reference[2..])| && Part(j, at) == Resolve(j, reference)
  {
    var at := FollowedIsPart(j, DecodeAll(SplitSlash(reference[2..])));
  }
}
