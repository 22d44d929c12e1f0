/** The token-level evaluation gives the migrations' atoms the meaning their CHECK matrices are modelled with. */
module CheckAtoms {
  import opened Kleene
  import opened CheckExpression
  import opened CheckEvaluation

  function AsColumn(c: Cell): Column<int> {
    if c.Number? then Of(c.n) else Null
  }

  /** A row of numeric columns, some of them NULL. */
  function NumericRow(columns: string -> Column<int>): Semantics {
    CheckRow(
      name => if columns(name).Of? then Number(columns(name).value) else Missing,
      _ => Missing,
      (_, _) => Missing)
  }

  predicate IsName(name: string) { name != "NULL" && RoleOf(Word(name)).Operand? }

  /** One operand and the separator behind it. */
  lemma OperandRead(sem: Semantics, items: seq<Item>, t: Token, separator: Token)
    requires RoleOf(t).Operand? && RoleOf(separator).Separating?
    ensures Run(sem, Going(Empty(NoCallee, items), []), [t, separator])
      == Going(Empty(NoCallee, items + [Val(CellOf(sem, t)), Tok(separator)]), [])
  {
    RunTwo(sem, Going(Empty(NoCallee, items), []), t, separator);
    assert items + [Val(CellOf(sem, t))] + [Tok(separator)] == items + [Val(CellOf(sem, t)), Tok(separator)];
  }

  /** The last operand of an atom. */
  lemma LastRead(sem: Semantics, items: seq<Item>, t: Token)
    requires RoleOf(t).Operand? && items != []
    ensures Verdict(sem, Run(sem, Going(Empty(NoCallee, items), []), [t]))
      == Truthful(sem.level(NoCallee, items + [Val(CellOf(sem, t))]))
  {
    RunSnoc(sem, Going(Empty(NoCallee, items), []), [], t);
    assert [] + [t] == [t];
  }

  lemma LastTotal(sem: Semantics, f: Frame, items: seq<Item>)
    requires f.slot.Have? && f.items == items && items != []
    ensures Verdict(sem, Going(f, [])) == Truthful(sem.level(NoCallee, items + [Val(Total(sem, f))]))
  {
  }

  /** The last operand with a shift. */
  lemma LastShiftRead(sem: Semantics, items: seq<Item>, t: Token, minus: bool, n: Token)
    requires RoleOf(t).Operand? && RoleOf(n).Operand? && items != []
    ensures Verdict(sem, Run(sem, Going(Empty(NoCallee, items), []), [t, Sign(minus), n])) == Truthful(sem.level(NoCallee,
      items + [Val(if minus then Minus(CellOf(sem, t), CellOf(sem, n)) else Plus(CellOf(sem, t), CellOf(sem, n)))]))
  {
    var q := Going(Empty(NoCallee, items), []);
    RunTwo(sem, q, t, Sign(minus));
    var signed := Frame(NoCallee, items, Sum(CellOf(sem, t)), minus, NoFactor, false, Want);
    assert Run(sem, q, [t, Sign(minus)]) == Going(signed, []);
    RunSnoc(sem, q, [t, Sign(minus)], n);
    assert [t, Sign(minus)] + [n] == [t, Sign(minus), n];
    LastTotal(sem, signed.(slot := Have(CellOf(sem, n), if n.Word? then Callee(n.name) else NoCallee)), items);
  }

  lemma ThreeRead(sem: Semantics, a: Token, op: Token, b: Token)
    requires RoleOf(a).Operand? && RoleOf(op).Separating? && RoleOf(b).Operand?
    ensures Evaluate(sem, [a, op, b]) == Truthful(sem.level(NoCallee, [Val(CellOf(sem, a)), Tok(op), Val(CellOf(sem, b))]))
  {
    var items := [Val(CellOf(sem, a)), Tok(op)];
    assert [a, op, b] == [a, op] + [b] && [] + items == items;
    RunConcat(sem, START, [a, op], [b]);
    OperandRead(sem, [], a, op);
    LastRead(sem, items, b);
    assert items + [Val(CellOf(sem, b))] == [Val(CellOf(sem, a)), Tok(op), Val(CellOf(sem, b))];
  }

  lemma ShiftedRead(sem: Semantics, a: Token, op: Token, b: Token, n: Token)
    requires RoleOf(a).Operand? && RoleOf(op).Separating? && RoleOf(b).Operand? && RoleOf(n).Operand?
    ensures Evaluate(sem, [a, op, b, Sign(true), n])
      == Truthful(sem.level(NoCallee, [Val(CellOf(sem, a)), Tok(op), Val(Minus(CellOf(sem, b), CellOf(sem, n)))]))
  {
    var items := [Val(CellOf(sem, a)), Tok(op)];
    assert [a, op, b, Sign(true), n] == [a, op] + [b, Sign(true), n] && [] + items == items;
    RunConcat(sem, START, [a, op], [b, Sign(true), n]);
    OperandRead(sem, [], a, op);
    LastShiftRead(sem, items, b, true, n);
    var c := Minus(CellOf(sem, b), CellOf(sem, n));
    assert items + [Val(c)] == [Val(CellOf(sem, a)), Tok(op), Val(c)];
  }

  lemma FiveRead(sem: Semantics, a: Token, t: Token, b: Token, u: Token, c: Token)
    requires RoleOf(a).Operand? && RoleOf(t).Separating? && RoleOf(b).Operand?
    requires RoleOf(u).Separating? && RoleOf(c).Operand?
    ensures Evaluate(sem, [a, t, b, u, c]) == Truthful(sem.level(NoCallee,
      [Val(CellOf(sem, a)), Tok(t), Val(CellOf(sem, b)), Tok(u), Val(CellOf(sem, c))]))
  {
    var one := [Val(CellOf(sem, a)), Tok(t)];
    var two := one + [Val(CellOf(sem, b)), Tok(u)];
    assert [a, t, b, u, c] == [a, t] + ([b, u] + [c]) && [] + one == one;
    RunConcat(sem, START, [a, t], [b, u] + [c]);
    OperandRead(sem, [], a, t);
    RunConcat(sem, Going(Empty(NoCallee, one), []), [b, u], [c]);
    OperandRead(sem, one, b, u);
    LastRead(sem, two, c);
    assert two + [Val(CellOf(sem, c))] == [Val(CellOf(sem, a)), Tok(t), Val(CellOf(sem, b)), Tok(u), Val(CellOf(sem, c))];
  }

  lemma FourRead(sem: Semantics, a: Token, t: Token, u: Token, b: Token)
    requires RoleOf(a).Operand? && RoleOf(t).Separating? && RoleOf(u).Separating? && RoleOf(b).Operand?
    ensures Evaluate(sem, [a, t, u, b])
      == Truthful(sem.level(NoCallee, [Val(CellOf(sem, a)), Tok(t), Tok(u), Val(CellOf(sem, b))]))
  {
    var one := [Val(CellOf(sem, a)), Tok(t)];
    assert [a, t, u, b] == [a, t] + ([u] + [b]) && [] + one == one;
    RunConcat(sem, START, [a, t], [u] + [b]);
    OperandRead(sem, [], a, t);
    RunConcat(sem, Going(Empty(NoCallee, one), []), [u], [b]);
    RunSnoc(sem, Going(Empty(NoCallee, one), []), [], u);
    assert [] + [u] == [u];
    LastRead(sem, one + [Tok(u)], b);
    assert one + [Tok(u)] + [Val(CellOf(sem, b))] == [Val(CellOf(sem, a)), Tok(t), Tok(u), Val(CellOf(sem, b))];
  }

  // ---- the tokens of the migrations ----

  lemma EqualsRole()
    ensures RoleOf(Other("=")).Separating?
  {
  }

  lemma IsRole()
    ensures RoleOf(Word("IS")).Separating?
  {
  }

  lemma NotRole()
    ensures RoleOf(Word("NOT")).Separating?
  {
  }

  lemma NullRole()
    ensures RoleOf(Word("NULL")).Operand?
  {
  }

  lemma EqualLevel(a: Cell, b: Cell)
    requires !a.Listed? && !b.Listed?
    ensures Truthful(AtomLevel((_, _) => Missing, NoCallee, [Val(a), Tok(Other("=")), Val(b)])) == Equal(AsColumn(a), AsColumn(b))
  {
    assert "="[0] != ","[0];
  }

  lemma IsLevel(a: Cell)
    ensures Truthful(AtomLevel((_, _) => Missing, NoCallee, [Val(a), Tok(Word("IS")), Val(Missing)])) == Is(a.Missing?)
  {
  }

  lemma IsNotLevel(a: Cell)
    ensures Truthful(AtomLevel((_, _) => Missing, NoCallee, [Val(a), Tok(Word("IS")), Tok(Word("NOT")), Val(Missing)]))
      == Is(!a.Missing?)
  {
  }

  lemma BetweenLevel(a: Cell, lo: int, hi: int)
    requires !a.Listed?
    ensures Truthful(AtomLevel((_, _) => Missing, NoCallee,
        [Val(a), Tok(KwBetween), Val(Number(lo)), Tok(KwAnd), Val(Number(hi))]))
      == AtLeast(AsColumn(a), Of(lo)).And(AtLeast(Of(hi), AsColumn(a)))
  {
  }

  // ---- the atoms ----

  /** p = s - n */
  lemma PriorAtom(columns: string -> Column<int>, p: string, s: string, n: string)
    requires IsName(p) && IsName(s)
    ensures Evaluate(NumericRow(columns), [Word(p), Other("="), Word(s), Sign(true), Digits(n)])
      == Equal(columns(p), if columns(s).Of? then Of(columns(s).value - DigitsValue(n)) else Null)
  {
    var sem := NumericRow(columns);
    EqualsRole();
    ShiftedRead(sem, Word(p), Other("="), Word(s), Digits(n));
    EqualLevel(CellOf(sem, Word(p)), Minus(CellOf(sem, Word(s)), CellOf(sem, Digits(n))));
  }

  /** v BETWEEN lo AND hi */
  lemma BetweenAtom(columns: string -> Column<int>, v: string, lo: string, hi: string)
    requires IsName(v)
    ensures Evaluate(NumericRow(columns), [Word(v), KwBetween, Digits(lo), KwAnd, Digits(hi)])
      == AtLeast(columns(v), Of(DigitsValue(lo))).And(AtLeast(Of(DigitsValue(hi)), columns(v)))
  {
    var sem := NumericRow(columns);
    FiveRead(sem, Word(v), KwBetween, Digits(lo), KwAnd, Digits(hi));
    BetweenLevel(CellOf(sem, Word(v)), DigitsValue(lo), DigitsValue(hi));
  }

  /** c IS NULL */
  lemma IsNullAtom(columns: string -> Column<int>, c: string)
    requires IsName(c)
    ensures Evaluate(NumericRow(columns), [Word(c), Word("IS"), Word("NULL")]) == IsNull(columns(c))
  {
    var sem := NumericRow(columns);
    IsRole();
    NullRole();
    ThreeRead(sem, Word(c), Word("IS"), Word("NULL"));
    IsLevel(CellOf(sem, Word(c)));
  }

  /** c IS NOT NULL */
  lemma IsNotNullAtom(columns: string -> Column<int>, c: string)
    requires IsName(c)
    ensures Evaluate(NumericRow(columns), [Word(c), Word("IS"), Word("NOT"), Word("NULL")]) == NotNull(columns(c))
  {
    var sem := NumericRow(columns);
    IsRole();
    NotRole();
    NullRole();
    FourRead(sem, Word(c), Word("IS"), Word("NOT"), Word("NULL"));
    IsNotLevel(CellOf(sem, Word(c)));
  }
}
