/**
  * What an atom of a CHECK condition evaluates to, token by token: signs, factors, parentheses and calls, with
  * everything that binds weaker than + and - left to the dialect.
  */
module CheckEvaluation {
  import opened Kleene
  import opened CheckExpression

  // ---- what a token does ----

  datatype Role = Opening | Closing | Operand | Additive(minus: bool) | Multiplicative | Separating | Foreign

  datatype Entry = Entry(text: string, role: Role)

  /** Words that are no operands. Those that separate bind weaker than + and -. */
  const WORDS := [
    Entry("IS", Separating), Entry("NOT", Separating), Entry("IN", Separating), Entry("LIKE", Separating),
    Entry("REGEXP", Separating), Entry("RLIKE", Separating), Entry("XOR", Separating),
    Entry("DIV", Multiplicative), Entry("MOD", Multiplicative)]

  const SYMBOLS := [
    Entry("=", Separating), Entry("<", Separating), Entry(">", Separating), Entry(">=", Separating),
    Entry("<=", Separating), Entry("<>", Separating), Entry("!=", Separating), Entry(",", Separating),
    Entry("*", Multiplicative), Entry("/", Multiplicative), Entry("%", Multiplicative)]

  function Find(table: seq<Entry>, text: string, otherwise: Role): Role {
    if table == [] then otherwise
    else if table[0].text == text then table[0].role else Find(table[1..], text, otherwise)
  }

  function RoleOf(t: Token): Role {
    match t
    case Open => Opening
    case Close => Closing
    case KwOr | KwAnd | KwBetween => Separating
    case Word(name) => Find(WORDS, name, Operand)
    case Sign(minus) => Additive(minus)
    case Digits(_) => Operand
    case Other(text) => Find(SYMBOLS, text, if text != "" && text[0] == '\'' then Operand else Foreign)
  }

  // ---- values ----

  /** A value: NULL, a number (a text is its place in the collation), or a list in parentheses. */
  datatype Cell = Missing | Number(n: int) | Listed(cells: seq<Cell>)

  function Plus(a: Cell, b: Cell): Cell {
    if a.Number? && b.Number? then Number(a.n + b.n) else Missing
  }

  function Negate(a: Cell): Cell {
    if a.Number? then Number(-a.n) else Missing
  }

  function Minus(a: Cell, b: Cell): Cell { Plus(a, Negate(b)) }

  datatype Callee = NoCallee | Callee(name: string)

  /** One parenthesis level, with every additive expression in it replaced by its value. */
  datatype Item = Val(cell: Cell) | Tok(token: Token)

  /** A row and a dialect: operands, factors, and whatever binds weaker than + and -. */
  datatype Semantics = Semantics(
    column: string -> Cell,
    digits: string -> Cell,
    text: string -> Cell,
    product: (Token, Cell, Cell) -> Cell,
    level: (Callee, seq<Item>) -> Cell)

  function CellOf(sem: Semantics, t: Token): Cell {
    match t
    case Word(name) => sem.column(name)
    case Digits(text) => sem.digits(text)
    case Other(text) => sem.text(text)
    case _ => Missing
  }

  /** Parentheses around a single value do nothing. */
  function LevelValue(sem: Semantics, callee: Callee, items: seq<Item>): Cell {
    if callee.NoCallee? && |items| == 1 && items[0].Val? then items[0].cell else sem.level(callee, items)
  }

  // ---- reading from left to right ----

  datatype Slot = Want | Have(cell: Cell, word: Callee)

  datatype Factor = NoFactor | By(op: Token, left: Cell)

  datatype Sum = NoSum | Sum(cell: Cell)

  /**
    * An open parenthesis level: what is finished, the sum so far, whether the next term is subtracted, the factor
    * and the sign in front of the next operand, and that operand.
    */
  datatype Frame = Frame(
    callee: Callee, items: seq<Item>, sum: Sum, subtract: bool, factor: Factor, minus: bool, slot: Slot)

  datatype State = Broken | Going(top: Frame, below: seq<Frame>)

  function Empty(callee: Callee, items: seq<Item>): Frame {
    Frame(callee, items, NoSum, false, NoFactor, false, Want)
  }

  const START := Going(Empty(NoCallee, []), [])

  function Term(sem: Semantics, f: Frame): Cell
    requires f.slot.Have?
  {
    var signed := if f.minus then Negate(f.slot.cell) else f.slot.cell;
    if f.factor.NoFactor? then signed else sem.product(f.factor.op, f.factor.left, signed)
  }

  function Total(sem: Semantics, f: Frame): Cell
    requires f.slot.Have?
  {
    if f.sum.NoSum? then Term(sem, f)
    else if f.subtract then Minus(f.sum.cell, Term(sem, f)) else Plus(f.sum.cell, Term(sem, f))
  }

  /** A term begins here, added and unsigned. */
  predicate Fresh(f: Frame) {
    f.slot.Want? && !f.subtract && f.factor.NoFactor? && !f.minus
  }

  datatype Completion = Incomplete | Complete(items: seq<Item>)

  /** The level's items, once the additive expression being read is complete. */
  function Completed(sem: Semantics, f: Frame): Completion {
    if f.slot.Have? then Complete(f.items + [Val(Total(sem, f))])
    else if Fresh(f) && f.sum.NoSum? then Complete(f.items)
    else Incomplete
  }

  function Step(sem: Semantics, q: State, t: Token): State {
    if q.Broken? then Broken
    else
      var f := q.top;
      match RoleOf(t)
      case Opening =>
        if f.slot.Want? then Going(Empty(NoCallee, []), [f] + q.below)
        else if f.slot.word.Callee? then Going(Empty(f.slot.word, []), [f.(slot := Want)] + q.below)
        else Broken
      case Closing =>
        var c := Completed(sem, f);
        if c.Incomplete? || q.below == [] then Broken
        else Going(q.below[0].(slot := Have(LevelValue(sem, f.callee, c.items), NoCallee)), q.below[1..])
      case Operand =>
        if f.slot.Have? then Broken
        else Going(f.(slot := Have(CellOf(sem, t), if t.Word? then Callee(t.name) else NoCallee)), q.below)
      case Additive(minus) =>
        if f.slot.Want? then Going(f.(minus := f.minus != minus), q.below)
        else Going(Frame(f.callee, f.items, Sum(Total(sem, f)), minus, NoFactor, false, Want), q.below)
      case Multiplicative =>
        if f.slot.Want? then Broken
        else Going(f.(factor := By(t, Term(sem, f)), minus := false, slot := Want), q.below)
      case Separating =>
        var c := Completed(sem, f);
        if c.Incomplete? then Broken else Going(Empty(f.callee, c.items + [Tok(t)]), q.below)
      case Foreign => Broken
  }

  function Run(sem: Semantics, q: State, ts: seq<Token>): State
    decreases |ts|
  {
    if ts == [] then q else Run(sem, Step(sem, q, ts[0]), ts[1..])
  }

  function Truthful(c: Cell): Truth {
    if !c.Number? then Unknown else Is(c.n != 0)
  }

  function Verdict(sem: Semantics, q: State): Truth {
    if q.Broken? || q.below != [] then Unknown
    else
      match Completed(sem, q.top)
      case Incomplete => Unknown
      case Complete(items) => Truthful(LevelValue(sem, NoCallee, items))
  }

  /** The truth value of an atom; token lists that are no expression are Unknown. */
  function Evaluate(sem: Semantics, ts: seq<Token>): Truth {
    Verdict(sem, Run(sem, START, ts))
  }

  function Valuation(sem: Semantics): seq<Token> -> Truth { ts => Evaluate(sem, ts) }

  lemma {:induction false} RunConcat(sem: Semantics, q: State, a: seq<Token>, b: seq<Token>)
    ensures Run(sem, q, a + b) == Run(sem, Run(sem, q, a), b)
    decreases |a|
  {
    if a == [] {
      assert a + b == b;
    } else {
      assert (a + b)[1..] == a[1..] + b;
      RunConcat(sem, Step(sem, q, a[0]), a[1..], b);
    }
  }

  lemma RunSnoc(sem: Semantics, q: State, a: seq<Token>, t: Token)
    ensures Run(sem, q, a + [t]) == Step(sem, Run(sem, q, a), t)
  {
    RunConcat(sem, q, a, [t]);
    assert [t][1..] == [];
  }

  lemma RunOne(sem: Semantics, q: State, t: Token)
    ensures Run(sem, q, [t]) == Step(sem, q, t)
  {
    RunSnoc(sem, q, [], t);
    assert [] + [t] == [t];
  }

  lemma RunTwo(sem: Semantics, q: State, a: Token, b: Token)
    ensures Run(sem, q, [a, b]) == Step(sem, Step(sem, q, a), b)
  {
    RunOne(sem, q, a);
    RunSnoc(sem, q, [a], b);
    assert [a] + [b] == [a, b];
  }

  lemma RunThree(sem: Semantics, q: State, a: Token, b: Token, c: Token)
    ensures Run(sem, q, [a, b, c]) == Step(sem, Step(sem, Step(sem, q, a), b), c)
  {
    RunTwo(sem, q, a, b);
    RunSnoc(sem, q, [a, b], c);
    assert [a, b] + [c] == [a, b, c];
  }

  lemma {:induction false} BrokenStays(sem: Semantics, ts: seq<Token>)
    ensures Run(sem, Broken, ts) == Broken
  {
    if ts != [] {
      BrokenStays(sem, ts[1..]);
    }
  }

  // ---- what atoms mean ----

  function ListOf(items: seq<Item>): seq<Cell> {
    if items == [] then []
    else (if items[0].Val? then [items[0].cell] else []) + ListOf(items[1..])
  }

  function FromTruth(t: Truth): Cell {
    match t
    case True => Number(1)
    case False => Number(0)
    case Unknown => Missing
  }

  /** A comparison with NULL is Unknown. */
  function Compare(op: string, a: Cell, b: Cell): Truth {
    if !a.Number? || !b.Number? then Unknown
    else if op == "=" then Is(a.n == b.n)
    else if op == "<" then Is(a.n < b.n)
    else if op == ">" then Is(a.n > b.n)
    else if op == "<=" then Is(a.n <= b.n)
    else if op == ">=" then Is(a.n >= b.n)
    else if op == "<>" || op == "!=" then Is(a.n != b.n)
    else Unknown
  }

  function AnyEqual(a: Cell, cells: seq<Cell>): Truth {
    if cells == [] then False else Compare("=", a, cells[0]).Or(AnyEqual(a, cells[1..]))
  }

  /** The atoms the migrations write: comparisons, BETWEEN, IS NULL, IS NOT NULL and IN. Lists keep their cells. */
  function AtomLevel(calls: (string, seq<Cell>) -> Cell, callee: Callee, items: seq<Item>): Cell {
    if callee.Callee? then calls(callee.name, ListOf(items))
    else if |items| == 3 && items[0].Val? && items[1].Tok? && items[2].Val? then
      var a, t, b := items[0].cell, items[1].token, items[2].cell;
      match t
      case Other(",") => Listed([a, b])
      case Other(op) => FromTruth(Compare(op, a, b))
      case Word("IS") => if b.Missing? then FromTruth(Is(a.Missing?)) else Missing
      case Word("IN") => FromTruth(AnyEqual(a, if b.Listed? then b.cells else [b]))
      case _ => Missing
    else if |items| == 4 && items[0].Val? && items[1] == Tok(Word("IS")) && items[2] == Tok(Word("NOT")) then
      FromTruth(Is(!items[0].cell.Missing?))
    else if |items| == 5 && items[0].Val? && items[1] == Tok(KwBetween) && items[2].Val? && items[3] == Tok(KwAnd)
      && items[4].Val?
    then
      FromTruth(Compare(">=", items[0].cell, items[2].cell).And(Compare("<=", items[0].cell, items[4].cell)))
    else Listed(ListOf(items))
  }

  function DigitsValue(text: string): int {
    if text == "" then 0 else 10 * DigitsValue(text[..|text| - 1]) + (text[|text| - 1] as int - '0' as int)
  }

  function Multiply(a: Cell, b: Cell): Cell {
    if a.Number? && b.Number? then Number(a.n * b.n) else Missing
  }

  /** One row of the migrations' tables; factors other than * are not part of their CHECKs. */
  function CheckRow(column: string -> Cell, text: string -> Cell, calls: (string, seq<Cell>) -> Cell): Semantics {
    Semantics(
      name => if name == "NULL" then Missing else column(name),
      t => Number(DigitsValue(t)),
      text,
      (op, a, b) => if op == Other("*") then Multiply(a, b) else Missing,
      (callee, items) => AtomLevel(calls, callee, items))
  }
}
