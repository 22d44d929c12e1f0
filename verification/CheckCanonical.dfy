/** Equal trees mean exactly "equal up to parentheses and association", and trees print and parse back. */
module CheckCanonical {
  import opened CheckExpression
  import opened CheckMeaning

  /** A tree the parser may return: no operator has an operand with the same operator. */
  predicate Canonical(n: Norm)
    decreases n, 1
  {
    match n
    case Atom(ts) => Atomic(ts)
    case Op(sep, kids) => |kids| >= 2 && CanonicalKids(sep, kids)
  }

  predicate CanonicalKids(sep: Separator, kids: seq<Norm>)
    decreases kids, 0
  {
    kids == [] || (Canonical(kids[0]) && !(kids[0].Op? && kids[0].sep == sep) && CanonicalKids(sep, kids[1..]))
  }

  lemma {:induction false} CanonicalKidsConcat(sep: Separator, a: seq<Norm>, b: seq<Norm>)
    requires CanonicalKids(sep, a) && CanonicalKids(sep, b)
    ensures CanonicalKids(sep, a + b)
  {
    if a == [] {
      assert a + b == b;
    } else {
      assert (a + b)[1..] == a[1..] + b;
      CanonicalKidsConcat(sep, a[1..], b);
    }
  }

  lemma KidsOfCanonical(sep: Separator, n: Norm)
    requires Canonical(n)
    ensures CanonicalKids(sep, KidsOf(sep, n)) && |KidsOf(sep, n)| >= 1
  {
    assert [n][1..] == [];
  }

  lemma {:induction false} NormalCanonical(e: Sql)
    requires WellFormed(e)
    ensures Canonical(Normal(e))
  {
    match e
    case Leaf(_) =>
    case Paren(x) => NormalCanonical(x);
    case And(l, r) =>
      NormalCanonical(l);
      NormalCanonical(r);
      KidsOfCanonical(SepAnd, Normal(l));
      KidsOfCanonical(SepAnd, Normal(r));
      CanonicalKidsConcat(SepAnd, KidsOf(SepAnd, Normal(l)), KidsOf(SepAnd, Normal(r)));
    case Or(l, r) =>
      NormalCanonical(l);
      NormalCanonical(r);
      KidsOfCanonical(SepOr, Normal(l));
      KidsOfCanonical(SepOr, Normal(r));
      CanonicalKidsConcat(SepOr, KidsOf(SepOr, Normal(l)), KidsOf(SepOr, Normal(r)));
  }

  // ---- printing a tree ----

  function Join(sep: Separator, l: Sql, r: Sql): Sql {
    if sep.SepOr? then Or(l, r) else And(l, r)
  }

  /** The fully parenthesised print: every operand of every operator is enclosed. */
  function Print(n: Norm): Sql
    requires Canonical(n)
    decreases n, 1
  {
    match n
    case Atom(ts) => Leaf(ts)
    case Op(sep, kids) => Chain(sep, kids)
  }

  function Chain(sep: Separator, kids: seq<Norm>): Sql
    requires kids != [] && CanonicalKids(sep, kids)
    decreases kids, 0
  {
    if |kids| == 1 then Paren(Print(kids[0])) else Join(sep, Paren(Print(kids[0])), Chain(sep, kids[1..]))
  }

  lemma {:induction false} PrintNormal(n: Norm)
    requires Canonical(n)
    ensures WellFormed(Print(n)) && Normal(Print(n)) == n
    decreases n, 1
  {
    if n.Op? {
      ChainNormal(n.sep, n.kids);
    }
  }

  lemma {:induction false} ChainNormal(sep: Separator, kids: seq<Norm>)
    requires kids != [] && CanonicalKids(sep, kids)
    ensures WellFormed(Chain(sep, kids)) && (sep.SepAnd? ==> !Chain(sep, kids).Or?)
    ensures Normal(Chain(sep, kids)) == if |kids| == 1 then kids[0] else Op(sep, kids)
    decreases kids, 0
  {
    PrintNormal(kids[0]);
    if |kids| > 1 {
      ChainNormal(sep, kids[1..]);
      assert KidsOf(sep, Normal(Chain(sep, kids[1..]))) == kids[1..];
      assert [kids[0]] + kids[1..] == kids;
    }
  }

  /** Round trip: parsing the print of any tree gives the tree back. */
  lemma PrintParse(n: Norm)
    requires Canonical(n)
    ensures ParseTokens(Render(Print(n))) == n
  {
    PrintNormal(n);
    ParseRender(Print(n));
  }

  // ---- equality of trees is equality up to grouping ----

  /** One regrouping: add or drop a pair of parentheses, or reassociate, anywhere in a condition. */
  datatype Move =
    | Wrap
    | Unwrap
    | RotateLeft
    | RotateRight
    | InLeft(m: Move)
    | InRight(m: Move)
    | InParen(m: Move)

  function Apply(m: Move, e: Sql): Sql {
    match m
    case Wrap => Paren(e)
    case Unwrap => if e.Paren? then e.inner else e
    case RotateLeft =>
      if e.And? && e.right.And? then And(And(e.left, e.right.left), e.right.right)
      else if e.Or? && e.right.Or? then Or(Or(e.left, e.right.left), e.right.right)
      else e
    case RotateRight =>
      if e.And? && e.left.And? then And(e.left.left, And(e.left.right, e.right))
      else if e.Or? && e.left.Or? then Or(e.left.left, Or(e.left.right, e.right))
      else e
    case InLeft(k) => if e.And? then And(Apply(k, e.left), e.right) else if e.Or? then Or(Apply(k, e.left), e.right) else e
    case InRight(k) => if e.And? then And(e.left, Apply(k, e.right)) else if e.Or? then Or(e.left, Apply(k, e.right)) else e
    case InParen(k) => if e.Paren? then Paren(Apply(k, e.inner)) else e
  }

  function ApplyAll(ms: seq<Move>, e: Sql): Sql {
    if ms == [] then e else ApplyAll(ms[1..], Apply(ms[0], e))
  }

  lemma {:induction false} ApplyNormal(m: Move, e: Sql)
    ensures Normal(Apply(m, e)) == Normal(e)
  {
    match m
    case InLeft(k) => if e.And? || e.Or? { ApplyNormal(k, e.left); }
    case InRight(k) => if e.And? || e.Or? { ApplyNormal(k, e.right); }
    case InParen(k) => if e.Paren? { ApplyNormal(k, e.inner); }
    case _ =>
  }

  lemma {:induction false} ApplyAllNormal(ms: seq<Move>, e: Sql)
    ensures Normal(ApplyAll(ms, e)) == Normal(e)
  {
    if ms != [] {
      ApplyNormal(ms[0], e);
      ApplyAllNormal(ms[1..], Apply(ms[0], e));
    }
  }

  lemma {:induction false} ApplyAllConcat(a: seq<Move>, b: seq<Move>, e: Sql)
    ensures ApplyAll(a + b, e) == ApplyAll(b, ApplyAll(a, e))
  {
    if a == [] {
      assert a + b == b;
    } else {
      assert (a + b)[1..] == a[1..] + b;
      ApplyAllConcat(a[1..], b, Apply(a[0], e));
    }
  }

  /** Every regrouping can be undone by moves. */
  lemma {:induction false} UndoMove(m: Move, e: Sql) returns (ms: seq<Move>)
    ensures ApplyAll(ms, Apply(m, e)) == e
  {
    if Apply(m, e) == e { return []; }
    match m
    case Wrap => ms := [Unwrap];
    case Unwrap => ms := [Wrap];
    case RotateLeft => ms := [RotateRight];
    case RotateRight => ms := [RotateLeft];
    case InLeft(k) =>
      ms := UndoMove(k, e.left);
      ms := LiftLeft(ms, Apply(m, e));
    case InRight(k) =>
      ms := UndoMove(k, e.right);
      ms := LiftRight(ms, Apply(m, e));
    case InParen(k) =>
      ms := UndoMove(k, e.inner);
      ms := LiftParen(ms, Apply(m, e));
  }

  lemma {:induction false} UndoAll(ms: seq<Move>, e: Sql) returns (back: seq<Move>)
    ensures ApplyAll(back, ApplyAll(ms, e)) == e
  {
    if ms == [] { return []; }
    var e1 := Apply(ms[0], e);
    var back1 := UndoAll(ms[1..], e1);
    var first := UndoMove(ms[0], e);
    ApplyAllConcat(back1, first, ApplyAll(ms, e));
    back := back1 + first;
  }

  lemma {:induction false} LiftLeft(ms: seq<Move>, e: Sql) returns (r: seq<Move>)
    requires e.And? || e.Or?
    ensures ApplyAll(r, e) == if e.And? then And(ApplyAll(ms, e.left), e.right) else Or(ApplyAll(ms, e.left), e.right)
  {
    if ms == [] { return []; }
    var rest := LiftLeft(ms[1..], Apply(InLeft(ms[0]), e));
    r := [InLeft(ms[0])] + rest;
  }

  lemma {:induction false} LiftRight(ms: seq<Move>, e: Sql) returns (r: seq<Move>)
    requires e.And? || e.Or?
    ensures ApplyAll(r, e) == if e.And? then And(e.left, ApplyAll(ms, e.right)) else Or(e.left, ApplyAll(ms, e.right))
  {
    if ms == [] { return []; }
    var rest := LiftRight(ms[1..], Apply(InRight(ms[0]), e));
    r := [InRight(ms[0])] + rest;
  }

  lemma {:induction false} LiftParen(ms: seq<Move>, e: Sql) returns (r: seq<Move>)
    requires e.Paren?
    ensures ApplyAll(r, e) == Paren(ApplyAll(ms, e.inner))
  {
    if ms == [] { return []; }
    var rest := LiftParen(ms[1..], Apply(InParen(ms[0]), e));
    r := [InParen(ms[0])] + rest;
  }

  /** Two chains under their own operator regroup into one. */
  lemma {:induction false} MergeChains(sep: Separator, a: seq<Norm>, b: seq<Norm>) returns (ms: seq<Move>)
    requires a != [] && b != [] && CanonicalKids(sep, a) && CanonicalKids(sep, b)
    ensures CanonicalKids(sep, a + b)
    ensures ApplyAll(ms, Join(sep, Chain(sep, a), Chain(sep, b))) == Chain(sep, a + b)
  {
    CanonicalKidsConcat(sep, a, b);
    assert (a + b)[1..] == a[1..] + b;
    if |a| == 1 {
      assert a[1..] + b == b;
      return [];
    }
    var inner := MergeChains(sep, a[1..], b);
    var first := Paren(Print(a[0]));
    var rotated := Join(sep, first, Join(sep, Chain(sep, a[1..]), Chain(sep, b)));
    assert Apply(RotateRight, Join(sep, Chain(sep, a), Chain(sep, b))) == rotated;
    var lifted := LiftRight(inner, rotated);
    ms := [RotateRight] + lifted;
  }

  /** The print of n, as a chain of n's operands under sep. */
  lemma ToChain(sep: Separator, n: Norm) returns (ms: seq<Move>)
    requires Canonical(n)
    ensures CanonicalKids(sep, KidsOf(sep, n)) && KidsOf(sep, n) != []
    ensures ApplyAll(ms, Print(n)) == Chain(sep, KidsOf(sep, n))
  {
    KidsOfCanonical(sep, n);
    if n.Op? && n.sep == sep {
      ms := [];
    } else {
      ms := [Wrap];
      assert ApplyAll([Wrap], Print(n)) == ApplyAll([], Paren(Print(n)));
    }
  }

  /** Every condition regroups into the print of its tree. */
  lemma {:induction false} ToPrint(e: Sql) returns (ms: seq<Move>)
    requires WellFormed(e)
    ensures Canonical(Normal(e)) && ApplyAll(ms, e) == Print(Normal(e))
  {
    NormalCanonical(e);
    match e
    case Leaf(_) => ms := [];
    case Paren(x) =>
      var inner := ToPrint(x);
      var lifted := LiftParen(inner, e);
      ApplyAllConcat(lifted, [Unwrap], e);
      assert ApplyAll([Unwrap], Paren(Print(Normal(x)))) == ApplyAll([], Print(Normal(x)));
      ms := lifted + [Unwrap];
    case And(l, r) =>
      ms := JoinToPrint(SepAnd, l, r);
    case Or(l, r) =>
      ms := JoinToPrint(SepOr, l, r);
  }

  lemma {:induction false} JoinToPrint(sep: Separator, l: Sql, r: Sql) returns (ms: seq<Move>)
    requires WellFormed(Join(sep, l, r))
    ensures Canonical(Normal(Join(sep, l, r)))
    ensures ApplyAll(ms, Join(sep, l, r)) == Print(Normal(Join(sep, l, r)))
    decreases Join(sep, l, r), 0
  {
    NormalCanonical(Join(sep, l, r));
    var l1 := ToPrint(l);
    var l2 := ToChain(sep, Normal(l));
    ApplyAllConcat(l1, l2, l);
    var lefts := LiftLeft(l1 + l2, Join(sep, l, r));
    var a := Chain(sep, KidsOf(sep, Normal(l)));
    var r1 := ToPrint(r);
    var r2 := ToChain(sep, Normal(r));
    ApplyAllConcat(r1, r2, r);
    var rights := LiftRight(r1 + r2, Join(sep, a, r));
    var merged := MergeChains(sep, KidsOf(sep, Normal(l)), KidsOf(sep, Normal(r)));
    ApplyAllConcat(lefts, rights, Join(sep, l, r));
    ApplyAllConcat(lefts + rights, merged, Join(sep, l, r));
    ms := lefts + rights + merged;
  }

  /** The parser identifies two conditions exactly when they differ only in redundant
      parentheses and in how AND and OR associate. */
  lemma SameTreeIffRegrouped(e1: Sql, e2: Sql)
    requires WellFormed(e1) && WellFormed(e2)
    ensures ParseTokens(Render(e1)) == ParseTokens(Render(e2)) <==> exists ms :: ApplyAll(ms, e1) == e2
  {
    ParseRender(e1);
    ParseRender(e2);
    if Normal(e1) == Normal(e2) {
      var m1 := ToPrint(e1);
      var m2 := ToPrint(e2);
      var back := UndoAll(m2, e2);
      ApplyAllConcat(m1, back, e1);
      assert ApplyAll(m1 + back, e1) == e2;
    }
    forall ms | ApplyAll(ms, e1) == e2 ensures Normal(e1) == Normal(e2) {
      ApplyAllNormal(ms, e1);
    }
  }
}
