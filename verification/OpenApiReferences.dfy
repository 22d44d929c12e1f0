/** References in an OpenAPI document: when all of them hold, and the worklist that finds out. */
module OpenApiReferences {
  import opened Options
  import opened JsonPointer

  // ---- references ----

  /** What the walk demands of the value of a "$ref" member. */
  predicate ReferenceHolds(value: Json, root: Json, deferred: set<string>) {
    value.Text? && IsLocal(value.s) && (value.s in deferred || Resolve(root, value.s).Some?)
  }

  predicate MemberHolds(m: Member, root: Json, deferred: set<string>)
    decreases m, 1
  {
    if m.key == "$ref" then ReferenceHolds(m.value, root, deferred) else Closed(m.value, root, deferred)
  }

  /** Every reference in j holds, for a walk that does not look below a "$ref". */
  predicate Closed(j: Json, root: Json, deferred: set<string>)
    decreases j, 0
  {
    match j
    case Object(ms) => forall i :: 0 <= i < |ms| ==> MemberHolds(ms[i], root, deferred)
    case Array(items) => forall i :: 0 <= i < |items| ==> Closed(items[i], root, deferred)
    case _ => true
  }

  /** The part of j that a list of positions leads to, through objects and arrays alike. */
  function Part(j: Json, at: seq<nat>): Option<Json>
    decreases |at|
  {
    if at == [] then Some(j)
    else
      match j
      case Object(ms) => if at[0] < |ms| then Part(ms[at[0]].value, at[1..]) else None
      case Array(items) => if at[0] < |items| then Part(items[at[0]], at[1..]) else None
      case _ => None
  }

  /** Every "$ref" of the object at this place, if there is one there, holds. */
  predicate HoldsAt(j: Json, at: seq<nat>, root: Json, deferred: set<string>) {
    var part := Part(j, at);
    part.Some? && part.value.Object? ==>
      forall i :: 0 <= i < |part.value.members| && part.value.members[i].key == "$ref" ==>
        ReferenceHolds(part.value.members[i].value, root, deferred)
  }

  lemma {:induction false} ClosedEverywhere(j: Json, at: seq<nat>, root: Json, deferred: set<string>)
    requires Closed(j, root, deferred)
    ensures HoldsAt(j, at, root, deferred)
    decreases |at|
  {
    if at == [] || Part(j, at).None? {
      return;
    }
    match j
    case Object(ms) =>
      var m := ms[at[0]];
      assert MemberHolds(m, root, deferred);
      if m.key != "$ref" {
        ClosedEverywhere(m.value, at[1..], root, deferred);
      }
    case Array(items) =>
      ClosedEverywhere(items[at[0]], at[1..], root, deferred);
  }

  lemma {:induction false} HoldsBelow(j: Json, i: nat, child: Json, root: Json, deferred: set<string>)
    requires forall at :: HoldsAt(j, at, root, deferred)
    requires (j.Object? && i < |j.members| && child == j.members[i].value) || (j.Array? && i < |j.items| && child == j.items[i])
    ensures forall at :: HoldsAt(child, at, root, deferred)
  {
    forall at ensures HoldsAt(child, at, root, deferred) {
      assert HoldsAt(j, [i] + at, root, deferred);
      assert ([i] + at)[1..] == at;
    }
  }

  lemma {:induction false} EverywhereClosed(j: Json, root: Json, deferred: set<string>)
    requires forall at :: HoldsAt(j, at, root, deferred)
    ensures Closed(j, root, deferred)
    decreases j
  {
    match j
    case Object(ms) =>
      assert HoldsAt(j, [], root, deferred);
      forall i | 0 <= i < |ms| ensures MemberHolds(ms[i], root, deferred) {
        if ms[i].key != "$ref" {
          HoldsBelow(j, i, ms[i].value, root, deferred);
          EverywhereClosed(ms[i].value, root, deferred);
        }
      }
    case Array(items) =>
      forall i | 0 <= i < |items| ensures Closed(items[i], root, deferred) {
        HoldsBelow(j, i, items[i], root, deferred);
        EverywhereClosed(items[i], root, deferred);
      }
    case _ =>
  }

  /** Not looking below a "$ref" loses nothing: the walk accepts exactly the documents all of whose references hold. */
  lemma ClosedIff(j: Json, root: Json, deferred: set<string>)
    ensures Closed(j, root, deferred) <==> forall at :: HoldsAt(j, at, root, deferred)
  {
    if Closed(j, root, deferred) {
      forall at ensures HoldsAt(j, at, root, deferred) {
        ClosedEverywhere(j, at, root, deferred);
      }
    }
    if forall at :: HoldsAt(j, at, root, deferred) {
      EverywhereClosed(j, root, deferred);
    }
  }

  // ---- the walk ----

  function Size(j: Json): (n: nat)
    ensures n >= 1
    decreases j, 0
  {
    match j
    case Object(ms) => 1 + MembersSize(ms)
    case Array(items) => 1 + ItemsSize(items)
    case _ => 1
  }

  function MembersSize(ms: seq<Member>): nat
    decreases ms, 0
  {
    if ms == [] then 0 else MembersSize(ms[..|ms| - 1]) + Size(ms[|ms| - 1].value)
  }

  function ItemsSize(items: seq<Json>): nat
    decreases items, 0
  {
    if items == [] then 0 else ItemsSize(items[..|items| - 1]) + Size(items[|items| - 1])
  }

  lemma ItemsSizeSnoc(items: seq<Json>, j: Json)
    ensures ItemsSize(items + [j]) == ItemsSize(items) + Size(j)
  {
    assert (items + [j])[..|items|] == items;
  }

  lemma {:induction false} ItemsSizeConcat(a: seq<Json>, b: seq<Json>)
    ensures ItemsSize(a + b) == ItemsSize(a) + ItemsSize(b)
    decreases |b|
  {
    if b == [] {
      assert a + b == a;
    } else {
      assert (a + b)[..|a + b| - 1] == a + b[..|b| - 1];
      ItemsSizeConcat(a, b[..|b| - 1]);
    }
  }

  predicate AllClosed(pending: seq<Json>, root: Json, deferred: set<string>) {
    forall i :: 0 <= i < |pending| ==> Closed(pending[i], root, deferred)
  }

  predicate PrefixHolds(ms: seq<Member>, k: nat, root: Json, deferred: set<string>)
    requires k <= |ms|
  {
    forall i :: 0 <= i < k ==> MemberHolds(ms[i], root, deferred)
  }

  /** Following one reference, token by token. */
  method FollowReference(root: Json, reference: string) returns (ok: bool)
    requires IsLocal(reference)
    ensures ok == Resolve(root, reference).Some?
  {
    var parts := SplitSlash(reference[2..]);
    var target := root;
    var i := 0;
    while i < |parts|
      invariant 0 <= i <= |parts|
      invariant Follow(target, DecodeAll(parts[i..])) == Resolve(root, reference)
    {
      var next := StepInto(target, Decode(parts[i]));
      assert parts[i..][1..] == parts[i + 1..];
      assert DecodeAll(parts[i..]) == [Decode(parts[i])] + DecodeAll(parts[i + 1..]);
      if next.None? {
        return false;
      }
      target := next.value;
      i := i + 1;
    }
    ok := true;
  }

  /** The members of one object: references are followed at once, every other value is put on the stack. */
  method VisitMembers(ms: seq<Member>, below: seq<Json>, root: Json, deferred: set<string>)
    returns (ok: bool, pending: seq<Json>)
    ensures ok ==>
      (AllClosed(pending, root, deferred) <==>
        AllClosed(below, root, deferred) && PrefixHolds(ms, |ms|, root, deferred))
    ensures ok ==> ItemsSize(pending) <= ItemsSize(below) + MembersSize(ms)
    ensures !ok ==> !PrefixHolds(ms, |ms|, root, deferred)
  {
    pending := below;
    assert ms[..0] == [];
    for i := 0 to |ms|
      invariant AllClosed(pending, root, deferred) <==>
        AllClosed(below, root, deferred) && PrefixHolds(ms, i, root, deferred)
      invariant ItemsSize(pending) <= ItemsSize(below) + MembersSize(ms[..i])
    {
      var key, value := ms[i].key, ms[i].value;
      assert ms[..i + 1][..i] == ms[..i];
      if key != "$ref" {
        ItemsSizeSnoc(pending, value);
        AllClosedSnoc(pending, value, root, deferred);
        pending := pending + [value];
      } else {
        if !value.Text? || !IsLocal(value.s) {
          assert !MemberHolds(ms[i], root, deferred);
          return false, pending;
        }
        if value.s !in deferred {
          var found := FollowReference(root, value.s);
          if !found {
            assert !MemberHolds(ms[i], root, deferred);
            return false, pending;
          }
        }
      }
    }
    assert ms[..|ms|] == ms;
    ok := true;
  }

  lemma AllClosedSnoc(pending: seq<Json>, j: Json, root: Json, deferred: set<string>)
    ensures AllClosed(pending + [j], root, deferred) <==> AllClosed(pending, root, deferred) && Closed(j, root, deferred)
  {
    AllClosedConcat(pending, [j], root, deferred);
    assert [j][0] == j;
  }

  lemma AllClosedConcat(a: seq<Json>, b: seq<Json>, root: Json, deferred: set<string>)
    ensures AllClosed(a + b, root, deferred) <==> AllClosed(a, root, deferred) && AllClosed(b, root, deferred)
  {
    if AllClosed(a + b, root, deferred) {
      forall i | 0 <= i < |a| ensures Closed(a[i], root, deferred) {
        assert (a + b)[i] == a[i];
      }
      forall i | 0 <= i < |b| ensures Closed(b[i], root, deferred) {
        assert (a + b)[|a| + i] == b[i];
      }
    }
  }

  /** The worklist ends on every document, and succeeds exactly when all references hold. */
  method CheckReferences(candidate: Json, deferred: set<string>) returns (ok: bool)
    ensures ok <==> Closed(candidate, candidate, deferred)
  {
    var pending := [candidate];
    assert AllClosed(pending, candidate, deferred) <==> Closed(candidate, candidate, deferred) by {
      assert pending[0] == candidate;
    }
    while pending != []
      invariant AllClosed(pending, candidate, deferred) <==> Closed(candidate, candidate, deferred)
      decreases ItemsSize(pending)
    {
      var current, below := pending[|pending| - 1], pending[..|pending| - 1];
      assert pending == below + [current];
      AllClosedSnoc(below, current, candidate, deferred);
      ItemsSizeSnoc(below, current);
      match current
      case Object(ms) =>
        ok, pending := VisitMembers(ms, below, candidate, deferred);
        if !ok {
          return;
        }
      case Array(items) =>
        AllClosedConcat(below, items, candidate, deferred);
        ItemsSizeConcat(below, items);
        pending := below + items;
      case _ =>
        pending := below;
    }
    ok := true;
  }
}
