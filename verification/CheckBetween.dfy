/**
  * BETWEEN among AND and OR, in terms of brackets and keywords alone: the AND that closes a BETWEEN belongs to it, and
  * the next one separates.
  */
module CheckBetween {
  import opened CheckExpression
  import opened CheckMeaning

  /** No keyword of the parser stands outside the brackets, when the list is read from depth d. */
  predicate NoKeyword(ts: seq<Token>, d: int) {
    forall i :: 0 <= i < |ts| && d + Depth(ts[..i]) == 0 ==> !ts[i].KwOr? && !ts[i].KwAnd? && !ts[i].KwBetween?
  }

  /** One operand: nonempty, balanced, no keyword outside its brackets. */
  predicate IsOperand(ts: seq<Token>) { ts != [] && Balanced(ts) && NoKeyword(ts, 0) }

  function Between(v: seq<Token>, lo: seq<Token>, hi: seq<Token>): seq<Token> {
    v + [KwBetween] + lo + [KwAnd] + hi
  }

  lemma NoKeywordTail(t: Token, ts: seq<Token>, d: int)
    requires NoKeyword([t] + ts, d)
    ensures NoKeyword(ts, d + Delta(t))
    ensures d == 0 ==> !t.KwOr? && !t.KwAnd? && !t.KwBetween?
  {
    assert d == 0 ==> ([t] + ts)[0] == t && ([t] + ts)[..0] == [];
    forall i | 0 <= i < |ts| && d + Delta(t) + Depth(ts[..i]) == 0
      ensures !ts[i].KwOr? && !ts[i].KwAnd? && !ts[i].KwBetween?
    {
      var longer := ([t] + ts)[..i + 1];
      assert longer == [t] + ts[..i] && longer[1..] == ts[..i];
      assert ([t] + ts)[i + 1] == ts[i];
    }
  }

  /** Reading an operand changes neither depth nor flag, whatever the flag is. */
  lemma {:induction false} OperandRead(x: seq<Token>, rest: seq<Token>, d: int, b: bool)
    requires NonNegative(x, d) && d >= 0 && NoKeyword(x, d)
    ensures Closed(x + rest, d, b) == Closed(rest, d + Depth(x), b)
    decreases |x|
  {
    if x == [] {
      assert x + rest == rest;
    } else {
      assert (x + rest)[1..] == x[1..] + rest && x == [x[0]] + x[1..];
      NoKeywordTail(x[0], x[1..], d);
      OperandRead(x[1..], rest, d + Delta(x[0]), b);
    }
  }

  /** An operand that is not enclosed as a whole is an atom. */
  lemma OperandIsAtom(v: seq<Token>)
    requires IsOperand(v) && (v[0].Open? ==> FirstZero(v, 0) < |v| - 1)
    ensures Atomic(v)
  {
    OperandRead(v, [], 0, false);
    assert v + [] == v;
  }

  lemma ClosedHead(t: Token, rest: seq<Token>, d: int, b: bool)
    ensures Closed([t] + rest, d, b) ==
      var d' := d + Delta(t);
      (d' == 0 ==> !t.KwOr? && (t.KwAnd? ==> b)) && Closed(rest, d', NextBetween(t, d', b))
  {
    assert ([t] + rest)[1..] == rest;
  }

  lemma BetweenClosed(v: seq<Token>, lo: seq<Token>, hi: seq<Token>)
    requires IsOperand(v) && IsOperand(lo) && IsOperand(hi)
    ensures Closed(Between(v, lo, hi), 0, false)
  {
    var tail := lo + ([KwAnd] + hi);
    assert Between(v, lo, hi) == v + ([KwBetween] + tail);
    OperandRead(v, [KwBetween] + tail, 0, false);
    ClosedHead(KwBetween, tail, 0, false);
    OperandRead(lo, [KwAnd] + hi, 0, true);
    ClosedHead(KwAnd, hi, 0, true);
    OperandRead(hi, [], 0, false);
    assert hi + [] == hi;
  }

  lemma BetweenBalanced(v: seq<Token>, lo: seq<Token>, hi: seq<Token>)
    requires Balanced(v) && Balanced(lo) && Balanced(hi)
    ensures Balanced(Between(v, lo, hi))
  {
    BalancedJoin(v, KwBetween, lo);
    BalancedJoin(v + [KwBetween] + lo, KwAnd, hi);
  }

  /** `v BETWEEN lo AND hi` is one atom, for all operands. */
  lemma BetweenIsAtom(v: seq<Token>, lo: seq<Token>, hi: seq<Token>)
    requires IsOperand(v) && IsOperand(lo) && IsOperand(hi)
    ensures WellFormed(Leaf(Between(v, lo, hi)))
  {
    var ts := Between(v, lo, hi);
    BetweenClosed(v, lo, hi);
    BetweenBalanced(v, lo, hi);
    assert ts == v + ([KwBetween] + lo + [KwAnd] + hi);
    if ts[0].Open? {
      FirstZeroWithin(v, [KwBetween] + lo + [KwAnd] + hi, 0);
    }
  }

  /** By itself, and in any number of parentheses, it parses to that atom. */
  lemma BetweenParses(v: seq<Token>, lo: seq<Token>, hi: seq<Token>)
    requires IsOperand(v) && IsOperand(lo) && IsOperand(hi)
    ensures ParseTokens(Between(v, lo, hi)) == Atom(Between(v, lo, hi))
    ensures ParseTokens([Open] + Between(v, lo, hi) + [Close]) == Atom(Between(v, lo, hi))
  {
    var leaf := Leaf(Between(v, lo, hi));
    BetweenIsAtom(v, lo, hi);
    ParseRender(leaf);
    ParseRender(Paren(leaf));
  }

  /** The AND behind it separates: it is the first operand of the AND, and e gives the others. */
  lemma BetweenThenAnd(v: seq<Token>, lo: seq<Token>, hi: seq<Token>, e: Sql)
    requires IsOperand(v) && IsOperand(lo) && IsOperand(hi) && WellFormed(e) && !e.Or?
    ensures ParseTokens(Between(v, lo, hi) + [KwAnd] + Render(e))
      == Op(SepAnd, [Atom(Between(v, lo, hi))] + KidsOf(SepAnd, Normal(e)))
  {
    BetweenIsAtom(v, lo, hi);
    ParseRender(And(Leaf(Between(v, lo, hi)), e));
  }

  /** So does the AND before it. */
  lemma AndThenBetween(e: Sql, v: seq<Token>, lo: seq<Token>, hi: seq<Token>)
    requires IsOperand(v) && IsOperand(lo) && IsOperand(hi) && WellFormed(e) && !e.Or?
    ensures ParseTokens(Render(e) + [KwAnd] + Between(v, lo, hi))
      == Op(SepAnd, KidsOf(SepAnd, Normal(e)) + [Atom(Between(v, lo, hi))])
  {
    BetweenIsAtom(v, lo, hi);
    ParseRender(And(e, Leaf(Between(v, lo, hi))));
  }

  lemma BetweenThenOr(v: seq<Token>, lo: seq<Token>, hi: seq<Token>, e: Sql)
    requires IsOperand(v) && IsOperand(lo) && IsOperand(hi) && WellFormed(e)
    ensures ParseTokens(Between(v, lo, hi) + [KwOr] + Render(e))
      == Op(SepOr, [Atom(Between(v, lo, hi))] + KidsOf(SepOr, Normal(e)))
  {
    BetweenIsAtom(v, lo, hi);
    ParseRender(Or(Leaf(Between(v, lo, hi)), e));
  }

  /** The mutation matrices' shape: a BETWEEN, an AND, and one more atom give an AND of two atoms. */
  lemma BetweenAndAtom(v: seq<Token>, lo: seq<Token>, hi: seq<Token>, other: seq<Token>)
    requires IsOperand(v) && IsOperand(lo) && IsOperand(hi)
    requires IsOperand(other) && (other[0].Open? ==> FirstZero(other, 0) < |other| - 1)
    ensures ParseTokens(Between(v, lo, hi) + [KwAnd] + other) == Op(SepAnd, [Atom(Between(v, lo, hi)), Atom(other)])
  {
    OperandIsAtom(other);
    BetweenThenAnd(v, lo, hi, Leaf(other));
    assert [Atom(Between(v, lo, hi))] + [Atom(other)] == [Atom(Between(v, lo, hi)), Atom(other)];
  }
}
