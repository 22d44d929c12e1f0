/** The contexts in which a shift may lose its parentheses, exactly: signs in any number, factors, terms behind. */
module UnsafeShifts {
  import opened Kleene
  import opened CheckExpression
  import opened CheckMeaning
  import opened CheckEvaluation
  import opened ShiftCollapse
  import opened NormalizeMeaning
  import opened NormalizeSql

  /** Four columns, and the tokens for multiplication and equality. */
  datatype Words = Words(a: string, b: string, c: string, x: string, times: Token, equals: Token)

  predicate Usable(w: Words) {
    && IsColumn(Word(w.a)) && IsColumn(Word(w.b)) && IsColumn(Word(w.c)) && IsColumn(Word(w.x))
    && RoleOf(w.times).Multiplicative?
    && RoleOf(w.equals).Separating?
  }

  /** What stands before the signs: nothing, the operand a, or the factor a *. */
  datatype Lead = Alone | AfterOperand | AsFactor

  /** What stands behind: nothing, a term c, or a factor * c. */
  datatype Behind = Last | Joined(minus: bool) | Multiplied

  /** The place of a shift x +/- n in a comparison with b. A lone operand is joined by at least one sign. */
  datatype Context = Context(lead: Lead, signs: seq<bool>, behind: Behind, minus: bool, n: string)

  predicate IsContext(c: Context) { c.lead.AfterOperand? ==> c.signs != [] }

  function SignTokens(signs: seq<bool>): seq<Token> {
    if signs == [] then [] else [Sign(signs[0])] + SignTokens(signs[1..])
  }

  function LeadTokens(w: Words, lead: Lead): seq<Token> {
    match lead
    case Alone => []
    case AfterOperand => [Word(w.a)]
    case AsFactor => [Word(w.a), w.times]
  }

  function Before(w: Words, lead: Lead, signs: seq<bool>): seq<Token> { LeadTokens(w, lead) + SignTokens(signs) }

  function BehindTokens(w: Words, behind: Behind): seq<Token> {
    match behind
    case Last => []
    case Joined(minus) => [Sign(minus), Word(w.c)]
    case Multiplied => [w.times, Word(w.c)]
  }

  function Rest(w: Words, behind: Behind): seq<Token> { BehindTokens(w, behind) + [w.equals, Word(w.b)] }

  function Shift(w: Words, c: Context): seq<Token> { [Word(w.x), Sign(c.minus), Digits(c.n)] }

  function Enclosed(w: Words, c: Context): seq<Token> { [Open, Word(w.x), Sign(c.minus), Digits(c.n), Close] }

  /** The comparison, with and without the parentheses. */
  function WithParens(w: Words, c: Context): seq<Token> {
    Before(w, c.lead, c.signs) + Enclosed(w, c) + Rest(w, c.behind)
  }

  function WithoutParens(w: Words, c: Context): seq<Token> {
    Before(w, c.lead, c.signs) + Shift(w, c) + Rest(w, c.behind)
  }

  function Odd(signs: seq<bool>): bool {
    if signs == [] then false else signs[0] != Odd(signs[1..])
  }

  // ---- the guard on these contexts ----

  predicate SafeContext(c: Context) {
    !c.lead.AsFactor? && !Odd(c.signs) && !c.behind.Multiplied?
  }

  lemma {:induction false} SignsAt(signs: seq<bool>, k: nat)
    requires k < |signs|
    ensures |SignTokens(signs)| == |signs| && SignTokens(signs)[k] == Sign(signs[k])
  {
    if k > 0 {
      SignsAt(signs[1..], k - 1);
    } else if |signs| > 1 {
      SignsAt(signs[1..], 0);
    }
  }

  lemma SignsLength(signs: seq<bool>)
    ensures |SignTokens(signs)| == |signs|
  {
    if signs != [] {
      SignsAt(signs, 0);
    }
  }

  lemma {:induction false} OddSnoc(signs: seq<bool>, s: bool)
    ensures Odd(signs + [s]) == (Odd(signs) != s)
  {
    if signs != [] {
      assert (signs + [s])[1..] == signs[1..] + [s];
      OddSnoc(signs[1..], s);
    } else {
      assert signs + [s] == [s];
    }
  }

  /** Reading back over the last of the signs. */
  lemma {:induction false} SignsOpen(w: Words, lead: Lead, signs: seq<bool>, k: nat, minus: bool)
    requires Usable(w) && k <= |signs| && (lead.AfterOperand? ==> 1 <= k)
    ensures |Before(w, lead, signs)| == |LeadTokens(w, lead)| + |signs|
    ensures OpensTerm(Before(w, lead, signs), |LeadTokens(w, lead)| + k, minus) <==>
      !lead.AsFactor? && Odd(signs[..k]) == minus
  {
    SignsLength(signs);
    var ts, at := Before(w, lead, signs), |LeadTokens(w, lead)| + k;
    if k > 0 {
      SignsAt(signs, k - 1);
      assert ts[at - 1] == Sign(signs[k - 1]);
      assert signs[..k] == signs[..k - 1] + [signs[k - 1]];
      OddSnoc(signs[..k - 1], signs[k - 1]);
      if k > 1 {
        SignsAt(signs, k - 2);
        assert ts[at - 2] == Sign(signs[k - 2]);
      }
      if !lead.AfterOperand? || k > 1 {
        SignsOpen(w, lead, signs, k - 1, minus != signs[k - 1]);
      } else {
        assert signs[..0] == [];
      }
    } else {
      assert signs[..0] == [];
    }
  }

  /** The group is one the pass opens. */
  lemma ContextHit(w: Words, c: Context)
    requires Usable(w) && IsContext(c)
    ensures var ts, i := WithParens(w, c), |Before(w, c.lead, c.signs)|;
      && ProbeAt(ts, i).Hit?
      && IsColumn(ts[i + 1])
      && DropParens(ts, i) == WithoutParens(w, c)
      && ts[i + 5..] == Rest(w, c.behind)
  {
    var ts, pre, post := WithParens(w, c), Before(w, c.lead, c.signs), Rest(w, c.behind);
    var i := |pre|;
    assert ts == pre + (Enclosed(w, c) + post);
    assert ts[i..] == Enclosed(w, c) + post;
    assert ts[i..][1] == Word(w.x);
    assert ts[..i] == pre && ts[i + 5..] == post && ts[i + 1..i + 4] == Shift(w, c);
  }

  lemma RestEnds(w: Words, behind: Behind)
    requires Usable(w)
    ensures EndsTerm(Rest(w, behind)[0]) <==> !behind.Multiplied?
  {
  }

  /** The guard allows it exactly in the safe contexts. */
  lemma GuardIff(w: Words, c: Context)
    requires Usable(w) && IsContext(c)
    ensures var ts, i := WithParens(w, c), |Before(w, c.lead, c.signs)|;
      SafeAround(ts, i, i + 5) <==> SafeContext(c)
  {
    var ts, pre := WithParens(w, c), Before(w, c.lead, c.signs);
    var i := |pre|;
    ContextHit(w, c);
    assert ts[i + 5] == ts[i + 5..][0];
    RestEnds(w, c.behind);
    assert ts[..i] == pre[..i];
    OpensPrefix(ts, pre, i, false);
    SignsOpen(w, c.lead, c.signs, |c.signs|, false);
    assert c.signs[..|c.signs|] == c.signs;
  }

  // ---- what the contexts read ----

  lemma {:induction false} SignsRead(sem: Semantics, f: Frame, signs: seq<bool>)
    requires f.slot.Want?
    ensures Run(sem, Going(f, []), SignTokens(signs)) == Going(f.(minus := f.minus != Odd(signs)), [])
    decreases |signs|
  {
    if signs != [] {
      SignsRead(sem, f.(minus := f.minus != signs[0]), signs[1..]);
    }
  }

  /** The level in which the group's operand is wanted. */
  function Opening(sem: Semantics, w: Words, lead: Lead, signs: seq<bool>): Frame
    requires lead.AfterOperand? ==> signs != []
  {
    var a := sem.column(w.a);
    match lead
    case Alone => Frame(NoCallee, [], NoSum, false, NoFactor, Odd(signs), Want)
    case AfterOperand => Frame(NoCallee, [], Sum(a), signs[0], NoFactor, Odd(signs[1..]), Want)
    case AsFactor => Frame(NoCallee, [], NoSum, false, By(w.times, a), Odd(signs), Want)
  }

  lemma JoinedReads(sem: Semantics, w: Words, signs: seq<bool>)
    requires Usable(w) && signs != []
    ensures Run(sem, START, [Word(w.a)] + SignTokens(signs)) == Going(Opening(sem, w, AfterOperand, signs), [])
  {
    var a := sem.column(w.a);
    var joined := Frame(NoCallee, [], Sum(a), signs[0], NoFactor, false, Want);
    assert [Word(w.a)] + SignTokens(signs) == [Word(w.a), Sign(signs[0])] + SignTokens(signs[1..]);
    RunConcat(sem, START, [Word(w.a), Sign(signs[0])], SignTokens(signs[1..]));
    RunTwo(sem, START, Word(w.a), Sign(signs[0]));
    assert Run(sem, START, [Word(w.a), Sign(signs[0])]) == Going(joined, []);
    SignsRead(sem, joined, signs[1..]);
  }

  lemma FactorReads(sem: Semantics, w: Words, signs: seq<bool>)
    requires Usable(w)
    ensures Run(sem, START, [Word(w.a), w.times] + SignTokens(signs)) == Going(Opening(sem, w, AsFactor, signs), [])
  {
    var factored := Frame(NoCallee, [], NoSum, false, By(w.times, sem.column(w.a)), false, Want);
    RunConcat(sem, START, [Word(w.a), w.times], SignTokens(signs));
    RunTwo(sem, START, Word(w.a), w.times);
    assert Run(sem, START, [Word(w.a), w.times]) == Going(factored, []);
    SignsRead(sem, factored, signs);
  }

  lemma BeforeReads(sem: Semantics, w: Words, lead: Lead, signs: seq<bool>)
    requires Usable(w) && (lead.AfterOperand? ==> signs != [])
    ensures Run(sem, START, Before(w, lead, signs)) == Going(Opening(sem, w, lead, signs), [])
  {
    match lead
    case Alone =>
      assert Before(w, lead, signs) == SignTokens(signs);
      SignsRead(sem, Empty(NoCallee, []), signs);
    case AfterOperand =>
      JoinedReads(sem, w, signs);
    case AsFactor =>
      FactorReads(sem, w, signs);
  }

  /** The level once the tokens behind the group have been read. */
  function Finished(sem: Semantics, w: Words, f: Frame, behind: Behind): Frame
    requires f.slot.Have?
  {
    var last := Have(sem.column(w.c), Callee(w.c));
    match behind
    case Last => f
    case Joined(minus) => Frame(f.callee, f.items, Sum(Total(sem, f)), minus, NoFactor, false, last)
    case Multiplied => f.(factor := By(w.times, Term(sem, f)), minus := false, slot := last)
  }

  lemma BehindReads(sem: Semantics, w: Words, f: Frame, behind: Behind)
    requires Usable(w) && f.slot.Have?
    ensures Run(sem, Going(f, []), BehindTokens(w, behind)) == Going(Finished(sem, w, f, behind), [])
  {
    match behind
    case Last =>
    case Joined(minus) =>
      RunTwo(sem, Going(f, []), Sign(minus), Word(w.c));
    case Multiplied =>
      RunTwo(sem, Going(f, []), w.times, Word(w.c));
  }

  /** The outcome of comparing a value with b. */
  function Compared(sem: Semantics, w: Words, value: Cell): Truth {
    Truthful(sem.level(NoCallee, [Val(value), Tok(w.equals), Val(sem.column(w.b))]))
  }

  lemma ComparisonReads(sem: Semantics, w: Words, f: Frame)
    requires Usable(w) && f.slot.Have? && f.items == [] && f.callee.NoCallee?
    ensures Verdict(sem, Run(sem, Going(f, []), [w.equals, Word(w.b)])) == Compared(sem, w, Total(sem, f))
  {
    RunTwo(sem, Going(f, []), w.equals, Word(w.b));
    var items := [Val(Total(sem, f)), Tok(w.equals)];
    assert Completed(sem, f).items + [Tok(w.equals)] == items;
    var b := Empty(NoCallee, items).(slot := Have(sem.column(w.b), Callee(w.b)));
    assert Run(sem, Going(f, []), [w.equals, Word(w.b)]) == Going(b, []);
    assert items + [Val(sem.column(w.b))] == [Val(Total(sem, f)), Tok(w.equals), Val(sem.column(w.b))];
  }

  lemma RestReads(sem: Semantics, w: Words, f: Frame, behind: Behind)
    requires Usable(w) && f.slot.Have? && f.items == [] && f.callee.NoCallee?
    ensures Verdict(sem, Run(sem, Going(f, []), Rest(w, behind))) == Compared(sem, w, Total(sem, Finished(sem, w, f, behind)))
  {
    RunConcat(sem, Going(f, []), BehindTokens(w, behind), [w.equals, Word(w.b)]);
    BehindReads(sem, w, f, behind);
    ComparisonReads(sem, w, Finished(sem, w, f, behind));
  }

  function Grouped(sem: Semantics, w: Words, c: Context): Frame
    requires IsContext(c)
  {
    Opening(sem, w, c.lead, c.signs).(slot := Have(ShiftCell(sem, Word(w.x), Sign(c.minus), Digits(c.n)), NoCallee))
  }

  function Ungrouped(sem: Semantics, w: Words, c: Context): Frame
    requires IsContext(c)
  {
    Opened(sem, Opening(sem, w, c.lead, c.signs), Word(w.x), Sign(c.minus), Digits(c.n))
  }

  lemma GroupedReads(sem: Semantics, w: Words, c: Context)
    requires Usable(w) && IsContext(c)
    ensures Evaluate(sem, WithParens(w, c)) == Compared(sem, w, Total(sem, Finished(sem, w, Grouped(sem, w, c), c.behind)))
  {
    var pre, post, f := Before(w, c.lead, c.signs), Rest(w, c.behind), Opening(sem, w, c.lead, c.signs);
    BeforeReads(sem, w, c.lead, c.signs);
    RunConcat(sem, START, pre, Enclosed(w, c));
    RunConcat(sem, START, pre + Enclosed(w, c), post);
    ReadEnclosed(sem, f, [], Word(w.x), Sign(c.minus), Digits(c.n));
    RestReads(sem, w, Grouped(sem, w, c), c.behind);
  }

  lemma UngroupedReads(sem: Semantics, w: Words, c: Context)
    requires Usable(w) && IsContext(c)
    ensures Evaluate(sem, WithoutParens(w, c)) == Compared(sem, w, Total(sem, Finished(sem, w, Ungrouped(sem, w, c), c.behind)))
  {
    var pre, post, f := Before(w, c.lead, c.signs), Rest(w, c.behind), Opening(sem, w, c.lead, c.signs);
    BeforeReads(sem, w, c.lead, c.signs);
    RunConcat(sem, START, pre, Shift(w, c));
    RunConcat(sem, START, pre + Shift(w, c), post);
    ReadOpened(sem, f, [], Word(w.x), Sign(c.minus), Digits(c.n));
    RestReads(sem, w, Ungrouped(sem, w, c), c.behind);
  }

  // ---- rows of numbers ----

  /** A row that holds these numbers, in a dialect where * multiplies and = compares. */
  predicate Holds(sem: Semantics, w: Words, a: int, b: int, c: int, x: int) {
    && sem.column(w.a) == Number(a) && sem.column(w.b) == Number(b)
    && sem.column(w.c) == Number(c) && sem.column(w.x) == Number(x)
  }

  ghost predicate Multiplies(sem: Semantics, w: Words) {
    forall p, q :: sem.product(w.times, Number(p), Number(q)) == Number(p * q)
  }

  ghost predicate Compares(sem: Semantics, w: Words) {
    forall p, q :: sem.level(NoCallee, [Val(Number(p)), Tok(w.equals), Val(Number(q))]) == FromTruth(Is(p == q))
  }

  ghost predicate Arithmetic(sem: Semantics, w: Words) {
    Multiplies(sem, w) && Compares(sem, w) && forall t :: sem.digits(t) == Number(DigitsValue(t))
  }

  function Signed(minus: bool, v: int): int { if minus then -v else v }

  /** The sign and factor in front of the group, as one number. */
  function Coefficient(c: Context, a: int): int { Signed(Odd(c.signs), if c.lead.AsFactor? then a else 1) }

  /** What stands in front of the group and is only added, and likewise behind it. */
  function Offset(c: Context, a: int, d: int): int {
    (if c.lead.AfterOperand? then a else 0) + (if c.behind.Joined? then Signed(c.behind.minus, d) else 0)
  }

  function Multiplier(c: Context, d: int): int { if c.behind.Multiplied? then d else 1 }

  lemma TotalNumber(sem: Semantics, f: Frame, s: int, t: int)
    requires f.slot.Have? && Term(sem, f) == Number(t)
    requires if f.sum.NoSum? then s == 0 && !f.subtract else f.sum.cell == Number(s)
    ensures Total(sem, f) == Number(s + Signed(f.subtract, t))
  {
  }

  lemma MultipliedTerm(sem: Semantics, w: Words, f: Frame, t: int, d: int)
    requires Multiplies(sem, w) && sem.column(w.c) == Number(d)
    requires f.slot.Have? && Term(sem, f) == Number(t)
    ensures Term(sem, Finished(sem, w, f, Multiplied)) == Number(t * d)
  {
  }

  function FinishedValue(behind: Behind, subtract: bool, s: int, t: int, d: int): int {
    match behind
    case Last => s + Signed(subtract, t)
    case Joined(minus) => s + Signed(subtract, t) + Signed(minus, d)
    case Multiplied => s + Signed(subtract, t * d)
  }

  /** A level whose operand is a number: its term, and what the tokens behind make of it. */
  lemma FinishedNumber(sem: Semantics, w: Words, f: Frame, behind: Behind, s: int, t: int, d: int)
    requires Multiplies(sem, w) && sem.column(w.c) == Number(d)
    requires f.slot.Have? && Term(sem, f) == Number(t)
    requires if f.sum.NoSum? then s == 0 && !f.subtract else f.sum.cell == Number(s)
    ensures Total(sem, Finished(sem, w, f, behind)) == Number(FinishedValue(behind, f.subtract, s, t, d))
  {
    TotalNumber(sem, f, s, t);
    match behind
    case Last =>
    case Joined(minus) =>
      JoinedNumber(sem, w, f, minus, s + Signed(f.subtract, t), d);
    case Multiplied =>
      MultipliedTerm(sem, w, f, t, d);
      TotalNumber(sem, Finished(sem, w, f, behind), s, t * d);
  }

  lemma JoinedNumber(sem: Semantics, w: Words, f: Frame, minus: bool, s: int, d: int)
    requires sem.column(w.c) == Number(d) && f.slot.Have? && Total(sem, f) == Number(s)
    ensures Total(sem, Finished(sem, w, f, Joined(minus))) == Number(s + Signed(minus, d))
  {
  }

  /** The sign in front of the operand itself; a joining sign belongs to the sum. */
  function OwnSign(c: Context): bool
    requires IsContext(c)
  {
    if c.lead.AfterOperand? then Odd(c.signs[1..]) else Odd(c.signs)
  }

  function OwnTerm(c: Context, a: int, v: int): int
    requires IsContext(c)
  {
    if c.lead.AsFactor? then a * Signed(OwnSign(c), v) else Signed(OwnSign(c), v)
  }

  lemma TermNumber(sem: Semantics, w: Words, c: Context, slot: Slot, a: int, v: int)
    requires Multiplies(sem, w) && IsContext(c) && sem.column(w.a) == Number(a)
    requires slot.Have? && slot.cell == Number(v)
    ensures Term(sem, Opening(sem, w, c.lead, c.signs).(slot := slot)) == Number(OwnTerm(c, a, v))
  {
  }

  /** The joining sign, the own sign and the factor together are the coefficient. */
  lemma CoefficientOf(c: Context, a: int, v: int)
    requires IsContext(c)
    ensures Signed(c.lead.AfterOperand? && c.signs[0], OwnTerm(c, a, v)) == Coefficient(c, a) * v
  {
    if c.lead.AfterOperand? {
      assert Odd(c.signs) == (c.signs[0] != Odd(c.signs[1..]));
    }
  }

  lemma SignedTimes(minus: bool, t: int, d: int)
    ensures Signed(minus, t * d) == Signed(minus, t) * d
  {
  }

  /** Both readings as numbers. */
  function GroupedValue(c: Context, a: int, d: int, x: int): int {
    Offset(c, a, d) + Coefficient(c, a) * (x + Signed(c.minus, DigitsValue(c.n))) * Multiplier(c, d)
  }

  function UngroupedValue(c: Context, a: int, d: int, x: int): int {
    Offset(c, a, d) + Coefficient(c, a) * x + Signed(c.minus, DigitsValue(c.n)) * Multiplier(c, d)
  }

  function Joining(c: Context): bool { c.lead.AfterOperand? && c.signs != [] && c.signs[0] }

  function InFront(c: Context, a: int): int { if c.lead.AfterOperand? then a else 0 }

  /** What stands in front of the term, and how the term is joined to it. */
  predicate SumsTo(f: Frame, subtract: bool, s: int) {
    f.subtract == subtract && if f.sum.NoSum? then s == 0 && !subtract else f.sum.cell == Number(s)
  }

  lemma OpeningSum(sem: Semantics, w: Words, c: Context, a: int)
    requires IsContext(c) && sem.column(w.a) == Number(a)
    ensures SumsTo(Opening(sem, w, c.lead, c.signs), Joining(c), InFront(c, a))
  {
  }

  lemma ShiftNumber(sem: Semantics, x: Token, minus: bool, n: Token, p: int, k: int)
    requires CellOf(sem, x) == Number(p) && CellOf(sem, n) == Number(k)
    ensures ShiftCell(sem, x, Sign(minus), n) == Number(p + Signed(minus, k))
  {
  }

  lemma GroupedSum(sem: Semantics, w: Words, c: Context, a: int)
    requires IsContext(c) && sem.column(w.a) == Number(a)
    ensures SumsTo(Grouped(sem, w, c), Joining(c), InFront(c, a))
  {
    OpeningSum(sem, w, c, a);
  }

  lemma GroupedTerm(sem: Semantics, w: Words, c: Context, a: int, x: int, v: int)
    requires Multiplies(sem, w) && IsContext(c) && sem.column(w.a) == Number(a) && sem.column(w.x) == Number(x)
    requires sem.digits(c.n) == Number(DigitsValue(c.n)) && v == x + Signed(c.minus, DigitsValue(c.n))
    ensures Term(sem, Grouped(sem, w, c)) == Number(OwnTerm(c, a, v))
  {
    var slot := Have(ShiftCell(sem, Word(w.x), Sign(c.minus), Digits(c.n)), NoCallee);
    ShiftNumber(sem, Word(w.x), c.minus, Digits(c.n), x, DigitsValue(c.n));
    TermNumber(sem, w, c, slot, a, v);
  }

  lemma LoneTerm(sem: Semantics, f: Frame, k: int)
    requires f.slot.Have? && f.slot.cell == Number(k) && f.factor.NoFactor? && !f.minus
    ensures Term(sem, f) == Number(k)
  {
  }

  lemma UngroupedSum(sem: Semantics, w: Words, c: Context, a: int, x: int, s: int)
    requires Multiplies(sem, w) && IsContext(c) && sem.column(w.a) == Number(a) && sem.column(w.x) == Number(x)
    requires s == InFront(c, a) + Signed(Joining(c), OwnTerm(c, a, x))
    ensures SumsTo(Ungrouped(sem, w, c), c.minus, s)
  {
    var slot := Have(sem.column(w.x), NoCallee);
    var here := Opening(sem, w, c.lead, c.signs).(slot := slot);
    OpeningSum(sem, w, c, a);
    TermNumber(sem, w, c, slot, a, x);
    TotalNumber(sem, here, InFront(c, a), OwnTerm(c, a, x));
  }

  lemma UngroupedTerm(sem: Semantics, w: Words, c: Context)
    requires IsContext(c) && sem.digits(c.n) == Number(DigitsValue(c.n))
    ensures Term(sem, Ungrouped(sem, w, c)) == Number(DigitsValue(c.n))
  {
    LoneTerm(sem, Ungrouped(sem, w, c), DigitsValue(c.n));
  }

  lemma GroupedAlgebra(c: Context, a: int, d: int, x: int, v: int)
    requires IsContext(c) && v == x + Signed(c.minus, DigitsValue(c.n))
    ensures FinishedValue(c.behind, Joining(c), InFront(c, a), OwnTerm(c, a, v), d) == GroupedValue(c, a, d, x)
  {
    CoefficientOf(c, a, v);
    SignedTimes(Joining(c), OwnTerm(c, a, v), d);
  }

  lemma UngroupedAlgebra(c: Context, a: int, d: int, x: int, s: int)
    requires IsContext(c) && s == InFront(c, a) + Signed(Joining(c), OwnTerm(c, a, x))
    ensures FinishedValue(c.behind, c.minus, s, DigitsValue(c.n), d) == UngroupedValue(c, a, d, x)
  {
    CoefficientOf(c, a, x);
    SignedTimes(c.minus, DigitsValue(c.n), d);
  }

  lemma TotalIs(sem: Semantics, w: Words, f: Frame, behind: Behind, subtract: bool, s: int, t: int, d: int)
    requires Multiplies(sem, w) && sem.column(w.c) == Number(d)
    requires f.slot.Have? && Term(sem, f) == Number(t) && SumsTo(f, subtract, s)
    ensures Total(sem, Finished(sem, w, f, behind)) == Number(FinishedValue(behind, subtract, s, t, d))
  {
    FinishedNumber(sem, w, f, behind, s, t, d);
  }

  lemma UngroupedNumber(sem: Semantics, w: Words, c: Context, a: int, b: int, d: int, x: int, s: int)
    requires Arithmetic(sem, w) && Holds(sem, w, a, b, d, x) && IsContext(c)
    requires s == InFront(c, a) + Signed(Joining(c), OwnTerm(c, a, x))
    ensures Total(sem, Finished(sem, w, Ungrouped(sem, w, c), c.behind))
      == Number(FinishedValue(c.behind, c.minus, s, DigitsValue(c.n), d))
  {
    UngroupedSum(sem, w, c, a, x, s);
    UngroupedTerm(sem, w, c);
    TotalIs(sem, w, Ungrouped(sem, w, c), c.behind, c.minus, s, DigitsValue(c.n), d);
  }

  // ---- the contexts, exactly ----

  /** The safe contexts, and those in which nothing is shifted and no factor follows. */
  predicate Harmless(c: Context) {
    SafeContext(c) || (DigitsValue(c.n) == 0 && !c.behind.Multiplied?)
  }

  lemma HarmlessNumbers(c: Context, a: int, d: int, x: int)
    requires Harmless(c)
    ensures GroupedValue(c, a, d, x) == UngroupedValue(c, a, d, x)
  {
  }

  function Witness(c: Context): int { if Coefficient(c, 2) == 1 || DigitsValue(c.n) == 0 then 1 else 0 }

  lemma HarmfulNumbers(c: Context)
    requires !Harmless(c)
    ensures GroupedValue(c, 2, 2, Witness(c)) != UngroupedValue(c, 2, 2, Witness(c))
  {
    var m, g, k, x := Coefficient(c, 2), Multiplier(c, 2), Signed(c.minus, DigitsValue(c.n)), Witness(c);
    assert m == 1 || m == -1 || m == 2 || m == -2;
    assert g == 1 || g == 2;
    assert m * (x + k) * g == m * x * g + m * k * g;
  }

  /** A dialect and a row, for columns spelled as in w. */
  function RowOf(w: Words, a: int, b: int, d: int, x: int): Semantics {
    CheckRow(
      name => Number(if name == w.a then a else if name == w.b then b else if name == w.c then d else x),
      _ => Missing,
      (_, _) => Missing)
  }

  /** Different columns, none called NULL, and the migrations' own * and =. */
  predicate Distinct(w: Words) {
    && w.a != w.b && w.a != w.c && w.a != w.x && w.b != w.c && w.b != w.x && w.c != w.x
    && "NULL" !in {w.a, w.b, w.c, w.x}
    && w.times == Other("*") && w.equals == Other("=")
  }

  lemma RowHolds(w: Words, a: int, b: int, d: int, x: int)
    requires Distinct(w)
    ensures Holds(RowOf(w, a, b, d, x), w, a, b, d, x)
  {
  }

  lemma EqualsCompares(calls: (string, seq<Cell>) -> Cell, p: int, q: int)
    ensures AtomLevel(calls, NoCallee, [Val(Number(p)), Tok(Other("=")), Val(Number(q))]) == FromTruth(Is(p == q))
  {
    assert "="[0] != ","[0];
  }

  lemma RowMultiplies(w: Words, a: int, b: int, d: int, x: int, p: int, q: int)
    requires w.times == Other("*")
    ensures RowOf(w, a, b, d, x).product(w.times, Number(p), Number(q)) == Number(p * q)
  {
  }

  lemma RowArithmetic(w: Words, a: int, b: int, d: int, x: int)
    requires Distinct(w)
    ensures Arithmetic(RowOf(w, a, b, d, x), w)
  {
    forall p, q ensures RowOf(w, a, b, d, x).product(w.times, Number(p), Number(q)) == Number(p * q) {
      RowMultiplies(w, a, b, d, x, p, q);
    }
    forall p, q ensures
      RowOf(w, a, b, d, x).level(NoCallee, [Val(Number(p)), Tok(w.equals), Val(Number(q))]) == FromTruth(Is(p == q))
    {
      EqualsCompares((_, _) => Missing, p, q);
    }
  }

  lemma ContextValues(w: Words, c: Context, a: int, b: int, d: int, x: int)
    requires Usable(w) && Distinct(w) && IsContext(c)
    ensures Evaluate(RowOf(w, a, b, d, x), WithParens(w, c)) == Is(GroupedValue(c, a, d, x) == b)
    ensures Evaluate(RowOf(w, a, b, d, x), WithoutParens(w, c)) == Is(UngroupedValue(c, a, d, x) == b)
  {
    RowHolds(w, a, b, d, x);
    RowArithmetic(w, a, b, d, x);
    WithParensValue(RowOf(w, a, b, d, x), w, c, a, b, d, x);
    WithoutParensValue(RowOf(w, a, b, d, x), w, c, a, b, d, x);
  }

  lemma ComparedNumber(sem: Semantics, w: Words, value: int, b: int)
    requires Compares(sem, w) && sem.column(w.b) == Number(b)
    ensures Compared(sem, w, Number(value)) == Is(value == b)
  {
  }

  lemma GroupedTotal(sem: Semantics, w: Words, c: Context, a: int, b: int, d: int, x: int)
    requires Arithmetic(sem, w) && Holds(sem, w, a, b, d, x) && IsContext(c)
    ensures Total(sem, Finished(sem, w, Grouped(sem, w, c), c.behind)) == Number(GroupedValue(c, a, d, x))
  {
    var v := x + Signed(c.minus, DigitsValue(c.n));
    GroupedSum(sem, w, c, a);
    GroupedTerm(sem, w, c, a, x, v);
    TotalIs(sem, w, Grouped(sem, w, c), c.behind, Joining(c), InFront(c, a), OwnTerm(c, a, v), d);
    GroupedAlgebra(c, a, d, x, v);
  }

  lemma UngroupedTotal(sem: Semantics, w: Words, c: Context, a: int, b: int, d: int, x: int)
    requires Arithmetic(sem, w) && Holds(sem, w, a, b, d, x) && IsContext(c)
    ensures Total(sem, Finished(sem, w, Ungrouped(sem, w, c), c.behind)) == Number(UngroupedValue(c, a, d, x))
  {
    var s := InFront(c, a) + Signed(Joining(c), OwnTerm(c, a, x));
    UngroupedNumber(sem, w, c, a, b, d, x, s);
    UngroupedAlgebra(c, a, d, x, s);
  }

  lemma WithParensValue(sem: Semantics, w: Words, c: Context, a: int, b: int, d: int, x: int)
    requires Usable(w) && IsContext(c) && Arithmetic(sem, w) && Holds(sem, w, a, b, d, x)
    ensures Evaluate(sem, WithParens(w, c)) == Is(GroupedValue(c, a, d, x) == b)
  {
    GroupedReads(sem, w, c);
    GroupedTotal(sem, w, c, a, b, d, x);
    ComparedNumber(sem, w, GroupedValue(c, a, d, x), b);
  }

  lemma WithoutParensValue(sem: Semantics, w: Words, c: Context, a: int, b: int, d: int, x: int)
    requires Usable(w) && IsContext(c) && Arithmetic(sem, w) && Holds(sem, w, a, b, d, x)
    ensures Evaluate(sem, WithoutParens(w, c)) == Is(UngroupedValue(c, a, d, x) == b)
  {
    UngroupedReads(sem, w, c);
    UngroupedTotal(sem, w, c, a, b, d, x);
    ComparedNumber(sem, w, UngroupedValue(c, a, d, x), b);
  }

  /** Dropping the parentheses keeps the comparison's value on every row of numbers exactly in the harmless contexts. */
  lemma ContextIff(w: Words, c: Context)
    requires Usable(w) && Distinct(w) && IsContext(c)
    ensures Harmless(c) <==>
      forall a, b, d, x ::
        Evaluate(RowOf(w, a, b, d, x), WithParens(w, c)) == Evaluate(RowOf(w, a, b, d, x), WithoutParens(w, c))
  {
    forall a, b, d, x ensures Harmless(c) ==>
      Evaluate(RowOf(w, a, b, d, x), WithParens(w, c)) == Evaluate(RowOf(w, a, b, d, x), WithoutParens(w, c))
    {
      ContextValues(w, c, a, b, d, x);
      if Harmless(c) {
        HarmlessNumbers(c, a, d, x);
      }
    }
    if !Harmless(c) {
      HarmfulNumbers(c);
      var b, x := GroupedValue(c, 2, 2, Witness(c)), Witness(c);
      ContextValues(w, c, 2, b, 2, x);
      assert Evaluate(RowOf(w, 2, b, 2, x), WithParens(w, c)) != Evaluate(RowOf(w, 2, b, 2, x), WithoutParens(w, c));
    }
  }

  // ---- whole conditions ----

  /** Tokens that neither bracket nor separate. */
  predicate Plain(ts: seq<Token>) {
    forall i :: 0 <= i < |ts| ==> ts[i].Word? || ts[i].Sign? || ts[i].Digits? || ts[i].Other?
  }

  lemma {:induction false} PlainReads(p: seq<Token>, s: seq<Token>, d: nat, b: bool)
    requires Plain(p)
    ensures Depth(p + s) == Depth(s)
    ensures NonNegative(p + s, d) == NonNegative(s, d)
    ensures Closed(p + s, d, b) == Closed(s, d, b)
  {
    if p == [] {
      assert p + s == s;
    } else {
      assert (p + s)[1..] == p[1..] + s;
      PlainReads(p[1..], s, d, b);
    }
  }

  lemma PlainParts(w: Words, c: Context)
    requires Distinct(w)
    ensures Plain(Before(w, c.lead, c.signs)) && Plain(Shift(w, c)) && Plain(Rest(w, c.behind))
  {
    forall i | 0 <= i < |SignTokens(c.signs)| ensures SignTokens(c.signs)[i].Sign? {
      SignsLength(c.signs);
      SignsAt(c.signs, i);
    }
  }

  lemma PlainAlone(p: seq<Token>)
    requires Plain(p)
    ensures Depth(p) == 0 && NonNegative(p, 0) && Closed(p, 0, false)
  {
    PlainReads(p, [], 0, false);
    assert p + [] == p;
  }

  lemma WithoutIsAtom(w: Words, c: Context)
    requires Distinct(w)
    ensures WellFormed(Leaf(WithoutParens(w, c)))
  {
    PlainParts(w, c);
    PlainAlone(WithoutParens(w, c));
  }

  lemma EnclosedReads(g: seq<Token>, rest: seq<Token>)
    requires Plain(g) && Plain(rest)
    ensures var ts := [Open] + g + [Close] + rest;
      Depth(ts) == 0 && NonNegative(ts, 0) && Closed(ts, 0, false)
  {
    var inner := [Close] + rest;
    assert ([Open] + (g + inner))[1..] == g + inner && inner[1..] == rest;
    PlainReads(g, inner, 1, false);
    PlainAlone(rest);
    assert [Open] + g + [Close] + rest == [Open] + (g + inner);
  }

  lemma WithIsAtom(w: Words, c: Context)
    requires Distinct(w)
    ensures WellFormed(Leaf(WithParens(w, c)))
  {
    var pre, g, rest := Before(w, c.lead, c.signs), Shift(w, c), Rest(w, c.behind);
    var ts, body := WithParens(w, c), [Open] + g + [Close] + rest;
    PlainParts(w, c);
    EnclosedReads(g, rest);
    PlainReads(pre, body, 0, false);
    SplitAtGroup(w, c);
    if ts[0].Open? {
      assert pre == [];
      assert ts == Enclosed(w, c) + rest;
      NotAllEnclosed(w, c, rest);
    }
  }

  lemma SplitAtGroup(w: Words, c: Context)
    ensures WithParens(w, c) == Before(w, c.lead, c.signs) + ([Open] + Shift(w, c) + [Close] + Rest(w, c.behind))
  {
  }

  lemma NotAllEnclosed(w: Words, c: Context, rest: seq<Token>)
    requires Distinct(w) && |rest| >= 2
    ensures FirstZero(Enclosed(w, c) + rest, 0) < |Enclosed(w, c) + rest| - 1
  {
    PlainParts(w, c);
    EnclosedReads(Shift(w, c), []);
    assert [Open] + Shift(w, c) + [Close] + [] == Enclosed(w, c);
    FirstZeroWithin(Enclosed(w, c), rest, 0);
  }

  lemma SameForm(w: Words, c: Context)
    ensures Normalize(WithParens(w, c)) == Normalize(WithoutParens(w, c))
  {
    ContextIgnored(Before(w, c.lead, c.signs), Shift(w, c), Rest(w, c.behind));
    assert [Open] + Shift(w, c) + [Close] == Enclosed(w, c);
  }

  /**
    * The failing family: in every context that is not harmless, two conditions that the normaliser identifies, and a
    * row on which one holds and the other does not.
    */
  lemma UnsafePairs(w: Words, c: Context)
    requires Usable(w) && Distinct(w) && IsContext(c) && !Harmless(c)
    ensures var e1, e2 := Leaf(WithParens(w, c)), Leaf(WithoutParens(w, c));
      var row := Valuation(RowOf(w, 2, GroupedValue(c, 2, 2, Witness(c)), 2, Witness(c)));
      && WellFormed(e1) && WellFormed(e2)
      && Normalize(Render(e1)) == Normalize(Render(e2))
      && Value(e1, row) == True && Value(e2, row) == False
  {
    WithIsAtom(w, c);
    WithoutIsAtom(w, c);
    SameForm(w, c);
    HarmfulNumbers(c);
    ContextValues(w, c, 2, GroupedValue(c, 2, 2, Witness(c)), 2, Witness(c));
  }
}
