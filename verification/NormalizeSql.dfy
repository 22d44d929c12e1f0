/**
  * The normaliser against the token-level evaluation of atoms: safe shifts keep every row's truth value under every
  * dialect, and unsafe ones do not.
  */
module NormalizeSql {
  import opened CheckExpression
  import opened CheckMeaning
  import opened CheckEvaluation
  import opened ShiftCollapse
  import opened NormalizeMeaning

  // ---- where a term opens ----

  /** Whether the next operand counts negatively. */
  predicate Negative(f: Frame) { if f.sum.NoSum? then f.minus else f.subtract != f.minus }

  /** An operand is wanted, not as a factor, and counts with the given sign. */
  predicate Opens(q: State, minus: bool) {
    q.Going? ==> q.top.slot.Want? && q.top.factor.NoFactor? && Negative(q.top) == minus
  }

  /** After a token that ends an operand, an operand has been read. */
  lemma OperandRead(sem: Semantics, ts: seq<Token>, k: nat)
    requires k <= |ts| && EndsOperand(ts, k)
    ensures var q := Run(sem, START, ts[..k]); q.Going? ==> q.top.slot.Have?
  {
    assert ts[..k] == ts[..k - 1] + [ts[k - 1]];
    RunSnoc(sem, START, ts[..k - 1], ts[k - 1]);
  }

  lemma {:induction false} OpensTermReads(sem: Semantics, ts: seq<Token>, k: nat, minus: bool)
    requires k <= |ts| && OpensTerm(ts, k, minus)
    ensures Opens(Run(sem, START, ts[..k]), minus)
  {
    if k > 0 {
      assert ts[..k] == ts[..k - 1] + [ts[k - 1]];
      RunSnoc(sem, START, ts[..k - 1], ts[k - 1]);
      if RoleOf(ts[k - 1]).Additive? {
        if EndsOperand(ts, k - 1) {
          OperandRead(sem, ts, k - 1);
        } else {
          OpensTermReads(sem, ts, k - 1, minus != RoleOf(ts[k - 1]).minus);
        }
      }
    }
  }

  // ---- one dropped pair ----

  /** The two readings differ in form only: the same level, the same total, complete. */
  predicate Alike(sem: Semantics, p: State, q: State) {
    p == q ||
    (p.Going? && q.Going? && p.below == q.below && p.top.callee == q.top.callee && p.top.items == q.top.items
      && p.top.slot.Have? && q.top.slot.Have? && Total(sem, p.top) == Total(sem, q.top))
  }

  /** The readings of a shift, step by step. */
  function Opened(sem: Semantics, f: Frame, x: Token, sign: Token, n: Token): Frame
    requires f.slot.Want? && sign.Sign?
  {
    var here := f.(slot := Have(CellOf(sem, x), NoCallee));
    Frame(f.callee, f.items, Sum(Total(sem, here)), sign.minus, NoFactor, false, Have(CellOf(sem, n), NoCallee))
  }

  function ShiftCell(sem: Semantics, x: Token, sign: Token, n: Token): Cell
    requires sign.Sign?
  {
    if sign.minus then Minus(CellOf(sem, x), CellOf(sem, n)) else Plus(CellOf(sem, x), CellOf(sem, n))
  }

  lemma ReadOpened(sem: Semantics, f: Frame, below: seq<Frame>, x: Token, sign: Token, n: Token)
    requires f.slot.Want? && IsColumn(x) && sign.Sign? && n.Digits?
    ensures Run(sem, Going(f, below), [x, sign, n]) == Going(Opened(sem, f, x, sign, n), below)
  {
    RunThree(sem, Going(f, below), x, sign, n);
  }

  lemma ReadEnclosed(sem: Semantics, f: Frame, below: seq<Frame>, x: Token, sign: Token, n: Token)
    requires f.slot.Want? && IsColumn(x) && sign.Sign? && n.Digits?
    ensures Run(sem, Going(f, below), [Open, x, sign, n, Close])
      == Going(f.(slot := Have(ShiftCell(sem, x, sign, n), NoCallee)), below)
  {
    var inner := Empty(NoCallee, []);
    var q := Going(f, below);
    assert [Open, x, sign, n, Close] == [Open] + ([x, sign, n] + [Close]);
    RunConcat(sem, q, [Open], [x, sign, n] + [Close]);
    RunSnoc(sem, q, [], Open);
    assert [] + [Open] == [Open];
    assert Run(sem, q, [Open]) == Going(inner, [f] + below);
    ReadOpened(sem, inner, [f] + below, x, sign, n);
    RunSnoc(sem, Going(inner, [f] + below), [x, sign, n], Close);
    var done := Opened(sem, inner, x, sign, n);
    assert Total(sem, done) == ShiftCell(sem, x, sign, n);
    assert ([f] + below)[1..] == below;
  }

  /** A safe shift reads alike with and without its parentheses. */
  lemma ShiftAlike(sem: Semantics, q: State, x: Token, sign: Token, n: Token)
    requires Opens(q, false) && IsColumn(x) && sign.Sign? && n.Digits?
    ensures Alike(sem, Run(sem, q, [Open, x, sign, n, Close]), Run(sem, q, [x, sign, n]))
  {
    if q.Broken? {
      BrokenStays(sem, [Open, x, sign, n, Close]);
      BrokenStays(sem, [x, sign, n]);
    } else {
      ReadOpened(sem, q.top, q.below, x, sign, n);
      ReadEnclosed(sem, q.top, q.below, x, sign, n);
    }
  }

  /** What ends a term forgets how its total came about. */
  lemma AlikeMeets(sem: Semantics, p: State, q: State, t: Token)
    requires Alike(sem, p, q) && EndsTerm(t)
    ensures Step(sem, p, t) == Step(sem, q, t)
  {
  }

  lemma AlikeEnds(sem: Semantics, p: State, q: State, post: seq<Token>)
    requires Alike(sem, p, q) && (post != [] ==> EndsTerm(post[0]))
    ensures Verdict(sem, Run(sem, p, post)) == Verdict(sem, Run(sem, q, post))
  {
    if post != [] {
      AlikeMeets(sem, p, q, post[0]);
    }
  }

  /** Every dialect's evaluation of every row ignores the parentheses of a safe shift. */
  lemma EvaluateDropped(sem: Semantics, ts: seq<Token>, i: nat)
    requires ProbeAt(ts, i).Hit? && IsColumn(ts[i + 1]) && SafeAround(ts, i, i + 5)
    ensures Evaluate(sem, DropParens(ts, i)) == Evaluate(sem, ts)
  {
    var pre, post := ts[..i], ts[i + 5..];
    var x, sign, n := ts[i + 1], ts[i + 2], ts[i + 3];
    assert ts == pre + ([Open, x, sign, n, Close] + post);
    assert DropParens(ts, i) == pre + ([x, sign, n] + post);
    var q := Run(sem, START, pre);
    RunConcat(sem, START, pre, [Open, x, sign, n, Close] + post);
    RunConcat(sem, START, pre, [x, sign, n] + post);
    RunConcat(sem, q, [Open, x, sign, n, Close], post);
    RunConcat(sem, q, [x, sign, n], post);
    OpensTermReads(sem, ts, i, false);
    ShiftAlike(sem, q, x, sign, n);
    AlikeEnds(sem, Run(sem, q, [Open, x, sign, n, Close]), Run(sem, q, [x, sign, n]), post);
  }

  lemma SqlRespects(sem: Semantics)
    ensures Respects(Valuation(sem))
  {
    forall ts: seq<Token>, i: nat | ProbeAt(ts, i).Hit? && IsColumn(ts[i + 1]) && SafeAround(ts, i, i + 5)
      ensures Valuation(sem)(DropParens(ts, i)) == Valuation(sem)(ts)
    {
      EvaluateDropped(sem, ts, i);
    }
  }

  /** On a condition whose shifts are safe the normaliser keeps the truth value of every row. */
  lemma NormalizeKeepsRows(e: Sql, sem: Semantics)
    requires WellFormed(e) && ShiftsSafe(Render(e))
    ensures Normalize(Render(e)).Some?
    ensures NormValue(Normalize(Render(e)).value, Valuation(sem)) == Value(e, Valuation(sem))
  {
    SqlRespects(sem);
    NormalizeMeaning.NormalizeMeaning(e, Valuation(sem));
  }

  /** Conditions with safe shifts and equal normal forms agree on every row under every dialect. */
  lemma EqualFormsAgree(e1: Sql, e2: Sql, sem: Semantics)
    requires WellFormed(e1) && WellFormed(e2) && ShiftsSafe(Render(e1)) && ShiftsSafe(Render(e2))
    requires Normalize(Render(e1)) == Normalize(Render(e2))
    ensures Value(e1, Valuation(sem)) == Value(e2, Valuation(sem))
  {
    SqlRespects(sem);
    EqualNormalForms(e1, e2, Valuation(sem));
  }
}
