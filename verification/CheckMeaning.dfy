/** What the parser means: it reads OR below AND, and its tree has the source's truth value. */
module CheckMeaning {
  import opened Kleene
  import opened CheckExpression

  /** A CHECK condition as written: And and Or associate either way, Paren may be redundant. */
  datatype Sql =
    | Leaf(tokens: seq<Token>)
    | Paren(inner: Sql)
    | And(left: Sql, right: Sql)
    | Or(left: Sql, right: Sql)

  function Render(e: Sql): seq<Token> {
    match e
    case Leaf(ts) => ts
    case Paren(x) => [Open] + Render(x) + [Close]
    case And(l, r) => Render(l) + [KwAnd] + Render(r)
    case Or(l, r) => Render(l) + [KwOr] + Render(r)
  }

  function Depth(ts: seq<Token>): int {
    if ts == [] then 0 else Delta(ts[0]) + Depth(ts[1..])
  }

  /** Reading ts from depth d never closes a bracket that was not opened. */
  predicate NonNegative(ts: seq<Token>, d: int) {
    ts == [] || (d + Delta(ts[0]) >= 0 && NonNegative(ts[1..], d + Delta(ts[0])))
  }

  predicate Balanced(ts: seq<Token>) {
    NonNegative(ts, 0) && Depth(ts) == 0
  }

  /** No separator at depth zero: no OR, and every AND there closes a BETWEEN, none left open. */
  predicate Closed(ts: seq<Token>, d: int, b: bool) {
    if ts == [] then d == 0 && !b
    else
      var d' := d + Delta(ts[0]);
      (d' == 0 ==> !ts[0].KwOr? && (ts[0].KwAnd? ==> b)) && Closed(ts[1..], d', NextBetween(ts[0], d', b))
  }

  /** An admissible atom: nonempty, balanced, without a top-level separator, not itself enclosed. */
  predicate Atomic(ts: seq<Token>) {
    && ts != [] && Balanced(ts) && Closed(ts, 0, false)
    && (ts[0].Open? ==> FirstZero(ts, 0) < |ts| - 1)
  }

  /** Precedence: an OR under an AND is parenthesised. */
  predicate WellFormed(e: Sql) {
    match e
    case Leaf(ts) => Atomic(ts)
    case Paren(x) => WellFormed(x)
    case And(l, r) => WellFormed(l) && WellFormed(r) && !l.Or? && !r.Or?
    case Or(l, r) => WellFormed(l) && WellFormed(r)
  }

  /** The flattened tree a condition stands for, by structure alone. */
  function Normal(e: Sql): Norm {
    match e
    case Leaf(ts) => Atom(ts)
    case Paren(x) => Normal(x)
    case And(l, r) => Op(SepAnd, KidsOf(SepAnd, Normal(l)) + KidsOf(SepAnd, Normal(r)))
    case Or(l, r) => Op(SepOr, KidsOf(SepOr, Normal(l)) + KidsOf(SepOr, Normal(r)))
  }

  // ---- depth and between-flag of a rendering ----

  lemma {:induction false} DepthConcat(a: seq<Token>, b: seq<Token>)
    ensures Depth(a + b) == Depth(a) + Depth(b)
  {
    if a == [] {
      assert a + b == b;
    } else {
      assert (a + b)[1..] == a[1..] + b;
      DepthConcat(a[1..], b);
    }
  }

  lemma {:induction false} NonNegativeConcat(a: seq<Token>, b: seq<Token>, d: int)
    ensures NonNegative(a + b, d) <==> NonNegative(a, d) && NonNegative(b, d + Depth(a))
  {
    if a == [] {
      assert a + b == b;
    } else {
      assert (a + b)[1..] == a[1..] + b;
      NonNegativeConcat(a[1..], b, d + Delta(a[0]));
    }
  }

  lemma {:induction false} NonNegativeRaise(ts: seq<Token>, d: int, k: nat)
    requires NonNegative(ts, d)
    ensures NonNegative(ts, d + k)
  {
    if ts != [] {
      NonNegativeRaise(ts[1..], d + Delta(ts[0]), k);
    }
  }

  lemma {:induction false} RenderBalanced(e: Sql)
    requires WellFormed(e)
    ensures Render(e) != [] && Balanced(Render(e))
  {
    match e
    case Leaf(ts) =>
    case Paren(x) =>
      RenderBalanced(x);
      BalancedParen(Render(x));
    case And(l, r) =>
      RenderBalanced(l);
      RenderBalanced(r);
      BalancedJoin(Render(l), KwAnd, Render(r));
    case Or(l, r) =>
      RenderBalanced(l);
      RenderBalanced(r);
      BalancedJoin(Render(l), KwOr, Render(r));
  }

  lemma BalancedParen(x: seq<Token>)
    requires Balanced(x)
    ensures Balanced([Open] + x + [Close])
  {
    NonNegativeRaise(x, 0, 1);
    NonNegativeConcat(x, [Close], 1);
    DepthConcat(x, [Close]);
    var all := [Open] + x + [Close];
    assert all[1..] == x + [Close];
    assert [Close][1..] == [];
    assert Depth([Close]) == -1;
  }

  lemma BalancedJoin(a: seq<Token>, kw: Token, b: seq<Token>)
    requires Balanced(a) && Balanced(b) && Delta(kw) == 0
    ensures Balanced(a + [kw] + b)
  {
    assert ([kw] + b)[1..] == b;
    assert a + [kw] + b == a + ([kw] + b);
    NonNegativeConcat(a, [kw] + b, 0);
    DepthConcat(a, [kw] + b);
  }

  // ---- how Split sees a rendering ----

  /** Depth and flag after reading ts. */
  function Scan(ts: seq<Token>, d: int, b: bool): (int, bool) {
    if ts == [] then (d, b)
    else var d' := d + Delta(ts[0]); Scan(ts[1..], d', NextBetween(ts[0], d', b))
  }

  /** No separator is met while reading ts from depth d and flag b. */
  predicate Quiet(ts: seq<Token>, sep: Separator, d: int, b: bool) {
    ts == [] ||
    var d' := d + Delta(ts[0]);
    !Separates(ts[0], sep, d', b) && Quiet(ts[1..], sep, d', NextBetween(ts[0], d', b))
  }

  lemma {:induction false} ScanConcat(a: seq<Token>, c: seq<Token>, d: int, b: bool)
    ensures Scan(a + c, d, b) == Scan(c, Scan(a, d, b).0, Scan(a, d, b).1)
  {
    if a == [] {
      assert a + c == c;
    } else {
      assert (a + c)[1..] == a[1..] + c;
      var d' := d + Delta(a[0]);
      ScanConcat(a[1..], c, d', NextBetween(a[0], d', b));
    }
  }

  lemma {:induction false} QuietConcat(a: seq<Token>, c: seq<Token>, sep: Separator, d: int, b: bool)
    ensures Quiet(a + c, sep, d, b) <==> Quiet(a, sep, d, b) && Quiet(c, sep, Scan(a, d, b).0, Scan(a, d, b).1)
  {
    if a == [] {
      assert a + c == c;
    } else {
      assert (a + c)[1..] == a[1..] + c;
      var d' := d + Delta(a[0]);
      QuietConcat(a[1..], c, sep, d', NextBetween(a[0], d', b));
    }
  }

  /** Inside brackets nothing separates and the flag is kept. */
  lemma {:induction false} InsideBrackets(ts: seq<Token>, sep: Separator, d: int, b: bool)
    requires d >= 1 && NonNegative(ts, d - 1)
    ensures Quiet(ts, sep, d, b)
    ensures Scan(ts, d, b) == (d + Depth(ts), b)
  {
    if ts != [] {
      InsideBrackets(ts[1..], sep, d + Delta(ts[0]), b);
    }
  }

  lemma {:induction false} ClosedQuiet(ts: seq<Token>, sep: Separator, d: int, b: bool)
    requires Closed(ts, d, b)
    ensures Quiet(ts, sep, d, b)
    ensures Scan(ts, d, b) == (0, false)
  {
    if ts != [] {
      var d' := d + Delta(ts[0]);
      ClosedQuiet(ts[1..], sep, d', NextBetween(ts[0], d', b));
    }
  }

  lemma {:induction false} QuietSplit(ts: seq<Token>, sep: Separator, d: int, b: bool)
    requires Quiet(ts, sep, d, b)
    ensures Split(ts, sep, d, b) == [ts]
  {
    if ts != [] {
      var d' := d + Delta(ts[0]);
      QuietSplit(ts[1..], sep, d', NextBetween(ts[0], d', b));
      assert [ts[0]] + ts[1..] == ts;
    }
  }

  lemma PrefixConcat(ts: seq<Token>, g: seq<seq<Token>>, h: seq<seq<Token>>)
    requires |g| > 0
    ensures Prefix(ts, g + h) == Prefix(ts, g) + h
  {
    assert (g + h)[1..] == g[1..] + h;
  }

  /** What one more token does to the groups that follow it. */
  function StartGroup(separates: bool, t: Token, groups: seq<seq<Token>>): seq<seq<Token>>
    requires |groups| > 0
  {
    if separates then [[]] + groups else Prefix([t], groups)
  }

  lemma StartGroupConcat(separates: bool, t: Token, g: seq<seq<Token>>, h: seq<seq<Token>>)
    requires |g| > 0
    ensures StartGroup(separates, t, g + h) == StartGroup(separates, t, g) + h
  {
    if separates {
      assert [[]] + (g + h) == [[]] + g + h;
    } else {
      PrefixConcat([t], g, h);
    }
  }

  lemma SplitFirst(t: Token, rest: seq<Token>, sep: Separator, d: int, b: bool)
    ensures
      var d' := d + Delta(t);
      var groups := Split(rest, sep, d', NextBetween(t, d', b));
      Split([t] + rest, sep, d, b) == StartGroup(Separates(t, sep, d', b), t, groups)
  {
    assert ([t] + rest)[1..] == rest;
  }

  lemma SplitConcatStep(t: Token, a: seq<Token>, more: seq<Token>, h: seq<seq<Token>>,
                        sep: Separator, d: int, b: bool)
    requires
      var d' := d + Delta(t);
      var b' := NextBetween(t, d', b);
      Split(more, sep, d', b') == Split(a, sep, d', b') + h
    ensures Split([t] + more, sep, d, b) == Split([t] + a, sep, d, b) + h
  {
    var d' := d + Delta(t);
    var g := Split(a, sep, d', NextBetween(t, d', b));
    SplitFirst(t, more, sep, d, b);
    SplitFirst(t, a, sep, d, b);
    StartGroupConcat(Separates(t, sep, d', b), t, g, h);
  }

  lemma {:induction false} SplitConcat(a: seq<Token>, c: seq<Token>, sep: Separator, d: int, b: bool)
    requires Scan(a, d, b) == (0, false)
    ensures Split(a + [sep.Keyword()] + c, sep, d, b) == Split(a, sep, d, b) + Split(c, sep, 0, false)
  {
    if a == [] {
      SplitAtKeyword(c, sep);
      assert a + [sep.Keyword()] + c == [sep.Keyword()] + c;
    } else {
      var d' := d + Delta(a[0]);
      SplitConcat(a[1..], c, sep, d', NextBetween(a[0], d', b));
      SplitConcatCons(a[0], a[1..], c, sep, d, b);
      assert [a[0]] + a[1..] == a;
    }
  }

  lemma SplitAtKeyword(c: seq<Token>, sep: Separator)
    ensures Split([sep.Keyword()] + c, sep, 0, false) == Split([], sep, 0, false) + Split(c, sep, 0, false)
  {
    SplitFirst(sep.Keyword(), c, sep, 0, false);
  }

  lemma SplitConcatCons(t: Token, a: seq<Token>, c: seq<Token>, sep: Separator, d: int, b: bool)
    requires
      var d' := d + Delta(t);
      var b' := NextBetween(t, d', b);
      Split(a + [sep.Keyword()] + c, sep, d', b') == Split(a, sep, d', b') + Split(c, sep, 0, false)
    ensures Split([t] + a + [sep.Keyword()] + c, sep, d, b) == Split([t] + a, sep, d, b) + Split(c, sep, 0, false)
  {
    SplitConcatStep(t, a, a + [sep.Keyword()] + c, Split(c, sep, 0, false), sep, d, b);
    assert [t] + (a + [sep.Keyword()] + c) == [t] + a + [sep.Keyword()] + c;
  }

  /** A rendering ends where it began: depth zero, no BETWEEN open. */
  lemma {:induction false} RenderScan(e: Sql)
    requires WellFormed(e)
    ensures Scan(Render(e), 0, false) == (0, false)
  {
    match e
    case Leaf(ts) =>
      ClosedQuiet(ts, SepOr, 0, false);
    case Paren(x) =>
      ParenQuiet(x, SepOr);
    case And(l, r) =>
      RenderScan(l);
      RenderScan(r);
      JoinScan(Render(l), KwAnd, Render(r));
    case Or(l, r) =>
      RenderScan(l);
      RenderScan(r);
      JoinScan(Render(l), KwOr, Render(r));
  }

  lemma JoinScan(a: seq<Token>, kw: Token, c: seq<Token>)
    requires Scan(a, 0, false) == (0, false) && (kw.KwAnd? || kw.KwOr?)
    ensures Scan(a + [kw] + c, 0, false) == Scan(c, 0, false)
  {
    assert a + [kw] + c == a + ([kw] + c);
    assert ([kw] + c)[1..] == c;
    ScanConcat(a, [kw] + c, 0, false);
  }

  lemma ParenQuiet(x: Sql, sep: Separator)
    requires WellFormed(x)
    ensures Quiet(Render(Paren(x)), sep, 0, false)
    ensures Scan(Render(Paren(x)), 0, false) == (0, false)
  {
    var ts := Render(x);
    RenderBalanced(x);
    InsideBrackets(ts, sep, 1, false);
    QuietConcat(ts, [Close], sep, 1, false);
    ScanConcat(ts, [Close], 1, false);
    assert Render(Paren(x))[1..] == ts + [Close];
    assert [Close][1..] == [];
  }

  /** Only an OR shows an OR, and only an OR or AND shows an AND, at depth zero. */
  lemma {:induction false} RenderQuiet(e: Sql, sep: Separator)
    requires WellFormed(e) && !e.Or? && (sep.SepAnd? ==> !e.And?)
    ensures Quiet(Render(e), sep, 0, false)
  {
    match e
    case Leaf(ts) =>
      ClosedQuiet(ts, sep, 0, false);
    case Paren(x) =>
      ParenQuiet(x, sep);
    case And(l, r) =>
      RenderQuiet(l, sep);
      RenderQuiet(r, sep);
      RenderScan(l);
      var tail := [KwAnd] + Render(r);
      assert tail[1..] == Render(r);
      QuietConcat(Render(l), tail, sep, 0, false);
      assert Render(e) == Render(l) + tail;
  }

  predicate Joins(e: Sql, sep: Separator) {
    if sep.SepOr? then e.Or? else e.And?
  }

  /** The operands of e's topmost, unparenthesised sep. */
  function Operands(e: Sql, sep: Separator): seq<Sql> {
    if Joins(e, sep) then Operands(e.left, sep) + Operands(e.right, sep) else [e]
  }

  function RenderAll(es: seq<Sql>): seq<seq<Token>> {
    seq(|es|, i requires 0 <= i < |es| => Render(es[i]))
  }

  function NormalAll(es: seq<Sql>): seq<Norm> {
    seq(|es|, i requires 0 <= i < |es| => Normal(es[i]))
  }

  lemma RenderAllConcat(a: seq<Sql>, b: seq<Sql>)
    ensures RenderAll(a + b) == RenderAll(a) + RenderAll(b)
  {
  }

  lemma SplitJoin(e: Sql, sep: Separator)
    requires WellFormed(e) && Joins(e, sep)
    ensures Split(Render(e), sep, 0, false) == Split(Render(e.left), sep, 0, false) + Split(Render(e.right), sep, 0, false)
  {
    RenderScan(e.left);
    SplitConcat(Render(e.left), Render(e.right), sep, 0, false);
  }

  lemma {:induction false} SplitRender(e: Sql, sep: Separator)
    requires WellFormed(e) && (sep.SepAnd? ==> !e.Or?)
    ensures Split(Render(e), sep, 0, false) == RenderAll(Operands(e, sep))
  {
    if Joins(e, sep) {
      SplitRender(e.left, sep);
      SplitRender(e.right, sep);
      SplitJoin(e, sep);
      RenderAllConcat(Operands(e.left, sep), Operands(e.right, sep));
    } else {
      RenderQuiet(e, sep);
      QuietSplit(Render(e), sep, 0, false);
    }
  }

  lemma {:induction false} FlattenConcat(sep: Separator, a: seq<Norm>, b: seq<Norm>)
    ensures Flatten(sep, a + b) == Flatten(sep, a) + Flatten(sep, b)
  {
    if a == [] {
      assert a + b == b;
    } else {
      assert (a + b)[1..] == a[1..] + b;
      FlattenConcat(sep, a[1..], b);
    }
  }

  lemma FlattenAllConcat(sep: Separator, l: seq<Sql>, r: seq<Sql>)
    ensures Flatten(sep, NormalAll(l + r)) == Flatten(sep, NormalAll(l)) + Flatten(sep, NormalAll(r))
  {
    assert NormalAll(l + r) == NormalAll(l) + NormalAll(r);
    FlattenConcat(sep, NormalAll(l), NormalAll(r));
  }

  lemma {:induction false} FlattenOperands(e: Sql, sep: Separator)
    ensures Flatten(sep, NormalAll(Operands(e, sep))) == KidsOf(sep, Normal(e))
  {
    if Joins(e, sep) {
      var l, r := Operands(e.left, sep), Operands(e.right, sep);
      FlattenOperands(e.left, sep);
      FlattenOperands(e.right, sep);
      FlattenAllConcat(sep, l, r);
    } else {
      assert Flatten(sep, [Normal(e)]) == KidsOf(sep, Normal(e)) + Flatten(sep, []);
    }
  }

  // ---- stripping ----

  lemma {:induction false} FirstZeroWithin(a: seq<Token>, rest: seq<Token>, d: int)
    requires a != [] && d + Depth(a) == 0
    ensures FirstZero(a + rest, d) < |a|
  {
    assert (a + rest)[1..] == a[1..] + rest;
    if d + Delta(a[0]) != 0 {
      FirstZeroWithin(a[1..], rest, d + Delta(a[0]));
    }
  }

  lemma {:induction false} FirstZeroAtEnd(x: seq<Token>, d: int)
    requires d >= 1 && NonNegative(x, d - 1) && d + Depth(x) == 1
    ensures FirstZero(x + [Close], d) == |x|
  {
    if x != [] {
      assert (x + [Close])[1..] == x[1..] + [Close];
      FirstZeroAtEnd(x[1..], d + Delta(x[0]));
    } else {
      assert x + [Close] == [Close];
    }
  }

  lemma StripParen(x: Sql)
    requires WellFormed(x)
    ensures Strip(Render(Paren(x))) == Strip(Render(x))
  {
    var ts := Render(x);
    RenderBalanced(x);
    FirstZeroAtEnd(ts, 1);
    var all := Render(Paren(x));
    assert all[1..] == ts + [Close];
    assert Inner(all) == ts;
  }

  lemma StripJoin(e: Sql)
    requires WellFormed(e) && (e.And? || e.Or?)
    ensures Strip(Render(e)) == Render(e)
  {
    RenderBalanced(e.left);
    RenderBalanced(e.right);
    var kw := if e.And? then KwAnd else KwOr;
    var rest := [kw] + Render(e.right);
    assert Render(e) == Render(e.left) + rest;
    FirstZeroWithin(Render(e.left), rest, 0);
  }

  // ---- the parser's result ----

  predicate AllParse(es: seq<Sql>) {
    forall i :: 0 <= i < |es| ==> ParseTokens(Render(es[i])) == Normal(es[i])
  }

  lemma {:induction false} OperandsParse(e: Sql, sep: Separator)
    requires WellFormed(e) && (sep.SepAnd? ==> !e.Or?)
    ensures !Joins(e, sep) || AllParse(Operands(e, sep))
    decreases e, 0, 0
  {
    if Joins(e, sep) {
      forall x | x in [e.left, e.right] ensures AllParse(Operands(x, sep)) {
        if Joins(x, sep) {
          OperandsParse(x, sep);
        } else {
          ParseRender(x);
        }
      }
      assert e.left in [e.left, e.right] && e.right in [e.left, e.right];
    }
  }

  /** The parser reads OR below AND, whatever the redundant parentheses and association. */
  lemma {:induction false} ParseRender(e: Sql)
    requires WellFormed(e)
    ensures ParseTokens(Render(e)) == Normal(e)
    decreases e, 1
  {
    match e
    case Leaf(ts) =>
      ClosedQuiet(ts, SepOr, 0, false);
      ClosedQuiet(ts, SepAnd, 0, false);
      QuietSplit(ts, SepOr, 0, false);
      QuietSplit(ts, SepAnd, 0, false);
    case Paren(x) =>
      StripParen(x);
      ParseRender(x);
    case Or(l, r) =>
      ParseJoin(e, SepOr);
    case And(l, r) =>
      RenderQuiet(e, SepOr);
      QuietSplit(Render(e), SepOr, 0, false);
      ParseJoin(e, SepAnd);
  }

  lemma {:induction false} ParseJoin(e: Sql, sep: Separator)
    requires WellFormed(e) && Joins(e, sep)
    requires sep.SepAnd? ==> |Split(Render(e), SepOr, 0, false)| == 1
    ensures ParseTokens(Render(e)) == Normal(e)
    decreases e, 0, 1
  {
    StripJoin(e);
    SplitRender(e, sep);
    OperandsParse(e, sep);
    FlattenOperands(e, sep);
    OperandsNonempty(e.left, sep);
    OperandsNonempty(e.right, sep);
    var es := Operands(e, sep);
    assert ParseEach(RenderAll(es)) == NormalAll(es);
  }

  lemma OperandsNonempty(e: Sql, sep: Separator)
    ensures |Operands(e, sep)| >= 1
  {
  }

  // ---- truth values ----

  function Combine(sep: Separator, a: Truth, b: Truth): Truth {
    if sep.SepOr? then a.Or(b) else a.And(b)
  }

  function Unit(sep: Separator): Truth {
    if sep.SepOr? then False else True
  }

  /** SQL's value of a condition, given the value of every atom. */
  function Value(e: Sql, atoms: seq<Token> -> Truth): Truth {
    match e
    case Leaf(ts) => atoms(ts)
    case Paren(x) => Value(x, atoms)
    case And(l, r) => Value(l, atoms).And(Value(r, atoms))
    case Or(l, r) => Value(l, atoms).Or(Value(r, atoms))
  }

  function NormValue(n: Norm, atoms: seq<Token> -> Truth): Truth
    decreases n, 1
  {
    match n
    case Atom(ts) => atoms(ts)
    case Op(sep, kids) => KidsValue(sep, kids, atoms)
  }

  function KidsValue(sep: Separator, kids: seq<Norm>, atoms: seq<Token> -> Truth): Truth
    decreases kids, 0
  {
    if kids == [] then Unit(sep) else Combine(sep, NormValue(kids[0], atoms), KidsValue(sep, kids[1..], atoms))
  }

  lemma {:induction false} KidsValueConcat(sep: Separator, a: seq<Norm>, b: seq<Norm>, atoms: seq<Token> -> Truth)
    ensures KidsValue(sep, a + b, atoms) == Combine(sep, KidsValue(sep, a, atoms), KidsValue(sep, b, atoms))
  {
    if a == [] {
      assert a + b == b;
    } else {
      assert (a + b)[1..] == a[1..] + b;
      KidsValueConcat(sep, a[1..], b, atoms);
    }
  }

  lemma KidsOfValue(sep: Separator, n: Norm, atoms: seq<Token> -> Truth)
    ensures KidsValue(sep, KidsOf(sep, n), atoms) == NormValue(n, atoms)
  {
    if !(n.Op? && n.sep == sep) {
      assert KidsValue(sep, [n], atoms) == Combine(sep, NormValue(n, atoms), KidsValue(sep, [], atoms));
    }
  }

  /** Flattening and dropping parentheses keeps the three-valued truth value. */
  lemma {:induction false} NormalValue(e: Sql, atoms: seq<Token> -> Truth)
    ensures NormValue(Normal(e), atoms) == Value(e, atoms)
  {
    match e
    case Leaf(_) =>
    case Paren(x) => NormalValue(x, atoms);
    case And(l, r) =>
      NormalValue(l, atoms);
      NormalValue(r, atoms);
      JoinValue(SepAnd, Normal(l), Normal(r), atoms);
    case Or(l, r) =>
      NormalValue(l, atoms);
      NormalValue(r, atoms);
      JoinValue(SepOr, Normal(l), Normal(r), atoms);
  }

  lemma JoinValue(sep: Separator, l: Norm, r: Norm, atoms: seq<Token> -> Truth)
    ensures KidsValue(sep, KidsOf(sep, l) + KidsOf(sep, r), atoms)
      == Combine(sep, NormValue(l, atoms), NormValue(r, atoms))
  {
    KidsOfValue(sep, l, atoms);
    KidsOfValue(sep, r, atoms);
    KidsValueConcat(sep, KidsOf(sep, l), KidsOf(sep, r), atoms);
  }

  /** Equal trees: the two conditions agree on every row, UNKNOWN included. */
  lemma EqualTreesAgree(e1: Sql, e2: Sql, atoms: seq<Token> -> Truth)
    requires WellFormed(e1) && WellFormed(e2)
    requires ParseTokens(Render(e1)) == ParseTokens(Render(e2))
    ensures Value(e1, atoms) == Value(e2, atoms)
  {
    ParseRender(e1);
    ParseRender(e2);
    NormalValue(e1, atoms);
    NormalValue(e2, atoms);
  }
}
