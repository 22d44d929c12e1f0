/** The whole normaliser: when dropping the parentheses of a shift is safe, its result has the
    condition's truth value on every row, so equal results mean equivalent conditions. */
module NormalizeMeaning {
  import opened Options
  import opened Kleene
  import opened CheckExpression
  import opened CheckMeaning
  import opened CheckEvaluation
  import opened ShiftCollapse

  /** The token before k ends an operand, so that a sign at k joins two terms. */
  predicate EndsOperand(ts: seq<Token>, k: nat) {
    0 < k <= |ts| && (RoleOf(ts[k - 1]).Operand? || RoleOf(ts[k - 1]).Closing?)
  }

  /**
    * The term at k is added as it is: reading backwards, an even number of minus signs (`minus` is the parity of those
    * already read), and then the start of an expression or a sign that joins it to the operand before.
    */
  predicate OpensTerm(ts: seq<Token>, k: nat, minus: bool)
    requires k <= |ts|
  {
    if k == 0 then !minus
    else
      match RoleOf(ts[k - 1])
      case Opening => !minus
      case Separating => !minus && ts[k - 1] != Word("IN")
      case Additive(m) => if EndsOperand(ts, k - 1) then minus == m else OpensTerm(ts, k - 1, minus != m)
      case _ => false
  }

  /** No factor follows: t ends the level, joins the next term or binds weaker. */
  predicate EndsTerm(t: Token) {
    RoleOf(t).Closing? || RoleOf(t).Additive? || RoleOf(t).Separating?
  }

  predicate SafeAround(ts: seq<Token>, from: nat, to: nat)
    requires from <= |ts|
  {
    OpensTerm(ts, from, false) && (to < |ts| ==> EndsTerm(ts[to]))
  }

  predicate IsColumn(t: Token) { t.Word? && RoleOf(t).Operand? }

  /** A shift inside k pairs of parentheses, the outermost at i. */
  predicate GroupAt(ts: seq<Token>, i: nat, k: nat) {
    && i + 2 * k + 3 <= |ts|
    && (forall x :: i <= x < i + k ==> ts[x] == Open)
    && IsName(ts[i + k]) && ts[i + k + 1].Sign? && ts[i + k + 2].Digits?
    && (forall x :: i + k + 3 <= x < i + 2 * k + 3 ==> ts[x] == Close)
  }

  /** Every parenthesised shift is of a column, and stands as an additive operand of its own. */
  ghost predicate ShiftsSafe(ts: seq<Token>) {
    forall i: nat, k: nat :: k >= 1 && GroupAt(ts, i, k) ==> IsColumn(ts[i + k]) && SafeAround(ts, i, i + 2 * k + 3)
  }

  lemma HitIsGroup(ts: seq<Token>, j: nat)
    requires ProbeAt(ts, j).Hit?
    ensures GroupAt(ts, j, 1)
  {
  }

  lemma DropAt(ts: seq<Token>, j: nat, x: nat)
    requires j + 4 < |ts| && x < |ts| - 2
    ensures DropParens(ts, j)[x] == ts[if x < j then x else if x < j + 3 then x + 1 else x + 2]
  {
  }

  /** A group of the shorter list was there before: around, before or after the dropped pair. */
  lemma GroupWasAround(ts: seq<Token>, j: nat, i: nat, k: nat)
    requires ProbeAt(ts, j).Hit? && i + k == j && GroupAt(DropParens(ts, j), i, k)
    ensures GroupAt(ts, i, k + 1)
  {
    var out := DropParens(ts, j);
    forall x | i <= x < j ensures ts[x] == Open { DropAt(ts, j, x); assert out[x] == Open; }
    forall x | j + 5 <= x < i + 2 * k + 5 ensures ts[x] == Close { DropAt(ts, j, x - 2); assert out[x - 2] == Close; }
  }

  lemma GroupWasBefore(ts: seq<Token>, j: nat, i: nat, k: nat)
    requires ProbeAt(ts, j).Hit? && i + 2 * k + 3 <= j && GroupAt(DropParens(ts, j), i, k)
    ensures GroupAt(ts, i, k)
  {
    var out := DropParens(ts, j);
    forall x | i <= x < i + 2 * k + 3 ensures ts[x] == out[x] { DropAt(ts, j, x); }
  }

  lemma GroupWasAfter(ts: seq<Token>, j: nat, i: nat, k: nat)
    requires ProbeAt(ts, j).Hit? && i >= j + 3 && GroupAt(DropParens(ts, j), i, k)
    ensures GroupAt(ts, i + 2, k)
  {
    var out := DropParens(ts, j);
    forall x | i + 2 <= x < i + 2 * k + 5 ensures ts[x] == out[x - 2] { DropAt(ts, j, x - 2); }
    forall x | i + 2 <= x < i + 2 + k ensures ts[x] == Open { assert out[x - 2] == Open; }
    forall x | i + k + 5 <= x < i + 2 * k + 5 ensures ts[x] == Close { assert out[x - 2] == Close; }
  }

  /** No group overlaps the three opened tokens other than as their own enclosure. */
  lemma GroupOverlap(out: seq<Token>, j: nat, i: nat, k: nat)
    requires j + 3 <= |out| && IsShift(out[j..j + 3]) && k >= 1 && GroupAt(out, i, k)
    ensures i + k == j || i + 2 * k + 3 <= j || i >= j + 3
  {
    assert IsName(out[j]) && out[j + 1].Sign? && out[j + 2].Digits?;
    assert out[i] == Open;
  }

  lemma {:induction false} OpensPrefix(a: seq<Token>, b: seq<Token>, k: nat, minus: bool)
    requires k <= |a| && k <= |b| && a[..k] == b[..k]
    ensures OpensTerm(a, k, minus) == OpensTerm(b, k, minus)
  {
    if k > 0 {
      assert a[k - 1] == a[..k][k - 1] == b[k - 1];
      assert a[..k - 1] == a[..k][..k - 1] == b[..k - 1];
      if k > 1 {
        assert a[k - 2] == a[..k - 1][k - 2] == b[k - 2];
      }
      if RoleOf(a[k - 1]).Additive? {
        OpensPrefix(a, b, k - 1, minus != RoleOf(a[k - 1]).minus);
      }
    }
  }

  /** What opens a term in a list still does if what stands before the list ends no operand and is no sign. */
  lemma {:induction false} OpensSuffix(p: seq<Token>, s: seq<Token>, k: nat, minus: bool)
    requires p != [] && (RoleOf(p[|p| - 1]).Opening? || RoleOf(p[|p| - 1]).Separating?)
    requires k <= |s| && OpensTerm(p + s, |p| + k, minus)
    ensures OpensTerm(s, k, minus)
  {
    if k > 0 {
      assert (p + s)[|p| + k - 1] == s[k - 1];
      assert (p + s)[|p| + k - 2] == if k > 1 then s[k - 2] else p[|p| - 1];
      if RoleOf(s[k - 1]).Additive? && !EndsOperand(s, k - 1) {
        OpensSuffix(p, s, k - 1, minus != RoleOf(s[k - 1]).minus);
      }
    } else {
      assert (p + s)[|p| - 1] == p[|p| - 1];
    }
  }

  /** What opens a term behind a dropped pair opened one before. */
  lemma {:induction false} OpensBehind(ts: seq<Token>, j: nat, i: nat, minus: bool)
    requires ProbeAt(ts, j).Hit? && j + 3 <= i <= |ts| - 2 && OpensTerm(ts, i + 2, minus)
    ensures OpensTerm(DropParens(ts, j), i, minus)
  {
    if i > j + 3 {
      DropAt(ts, j, i - 1);
      DropAt(ts, j, i - 2);
      if RoleOf(ts[i + 1]).Additive? && !EndsOperand(ts, i + 1) {
        OpensBehind(ts, j, i - 1, minus != RoleOf(ts[i + 1]).minus);
      }
    }
  }

  lemma DropKeepsSafe(ts: seq<Token>, j: nat)
    requires ShiftsSafe(ts) && ProbeAt(ts, j).Hit?
    ensures ShiftsSafe(DropParens(ts, j))
  {
    var out := DropParens(ts, j);
    assert out[j..j + 3] == ts[j + 1..j + 4];
    forall i: nat, k: nat | k >= 1 && GroupAt(out, i, k)
      ensures IsColumn(out[i + k]) && SafeAround(out, i, i + 2 * k + 3)
    {
      DropSafeAt(ts, j, i, k);
    }
  }

  lemma DropSafeAt(ts: seq<Token>, j: nat, i: nat, k: nat)
    requires ShiftsSafe(ts) && ProbeAt(ts, j).Hit? && k >= 1 && GroupAt(DropParens(ts, j), i, k)
    ensures IsColumn(DropParens(ts, j)[i + k]) && SafeAround(DropParens(ts, j), i, i + 2 * k + 3)
  {
    var out := DropParens(ts, j);
    assert out[j..j + 3] == ts[j + 1..j + 4];
    GroupOverlap(out, j, i, k);
    if i + k == j {
      DropSafeAround(ts, j, i, k);
    } else {
      DropSafeBeside(ts, j, i, k);
    }
  }

  lemma DropSafeAround(ts: seq<Token>, j: nat, i: nat, k: nat)
    requires ShiftsSafe(ts) && ProbeAt(ts, j).Hit? && k >= 1 && GroupAt(DropParens(ts, j), i, k) && i + k == j
    ensures IsColumn(DropParens(ts, j)[i + k]) && SafeAround(DropParens(ts, j), i, i + 2 * k + 3)
  {
    var out, to := DropParens(ts, j), i + 2 * k + 3;
    DropAt(ts, j, i + k);
    if to < |out| { DropAt(ts, j, to); }
    GroupWasAround(ts, j, i, k);
    assert ts[..i] == out[..i];
    OpensPrefix(ts, out, i, false);
  }

  lemma DropSafeBeside(ts: seq<Token>, j: nat, i: nat, k: nat)
    requires ShiftsSafe(ts) && ProbeAt(ts, j).Hit? && k >= 1 && GroupAt(DropParens(ts, j), i, k)
    requires i + 2 * k + 3 <= j || i >= j + 3
    ensures IsColumn(DropParens(ts, j)[i + k]) && SafeAround(DropParens(ts, j), i, i + 2 * k + 3)
  {
    var out, to := DropParens(ts, j), i + 2 * k + 3;
    DropAt(ts, j, i + k);
    if to < |out| { DropAt(ts, j, to); }
    assert !EndsTerm(ts[j]);
    if to <= j {
      GroupWasBefore(ts, j, i, k);
      assert ts[..i] == out[..i];
      OpensPrefix(ts, out, i, false);
    } else {
      GroupWasAfter(ts, j, i, k);
      OpensBehind(ts, j, i, false);
    }
  }

  /** Atom values that ignore the parentheses of a safe shift, as every row does under every dialect (NormalizeSql). */
  ghost predicate Respects(atoms: seq<Token> -> Truth) {
    forall ts: seq<Token>, i: nat ::
      ProbeAt(ts, i).Hit? && IsColumn(ts[i + 1]) && SafeAround(ts, i, i + 5) ==> atoms(DropParens(ts, i)) == atoms(ts)
  }

  // ---- dropping one pair of parentheses inside an atom ----

  lemma {:induction false} DropClosed(ts: seq<Token>, i: nat, d: int, b: bool)
    requires ProbeAt(ts, i).Hit? && ts[i + 1].Word? && d >= 0 && NonNegative(ts, d) && Closed(ts, d, b)
    ensures NonNegative(DropParens(ts, i), d) && Closed(DropParens(ts, i), d, b)
    ensures Depth(DropParens(ts, i)) == Depth(ts)
  {
    if i > 0 {
      var rest := ts[1..];
      var d' := d + Delta(ts[0]);
      ProbeShift([ts[0]], rest, i - 1);
      assert [ts[0]] + rest == ts;
      DropClosed(rest, i - 1, d', NextBetween(ts[0], d', b));
      DropShift([ts[0]], rest, i - 1);
      assert DropParens(ts, i)[1..] == DropParens(rest, i - 1);
    } else {
      DropClosedHead(ts, d, b);
    }
  }

  lemma DropClosedHead(ts: seq<Token>, d: int, b: bool)
    requires ProbeAt(ts, 0).Hit? && ts[1].Word? && d >= 0 && NonNegative(ts, d) && Closed(ts, d, b)
    ensures NonNegative(DropParens(ts, 0), d) && Closed(DropParens(ts, 0), d, b)
    ensures Depth(DropParens(ts, 0)) == Depth(ts)
  {
    var rest := ts[5..];
    var g := ts[1..4];
    assert ts == [Open] + g + [Close] + rest;
    assert DropParens(ts, 0) == g + rest;
    ShiftSteps(g, [Close] + rest, d + 1, b);
    assert ts[1..] == g + ([Close] + rest);
    assert ([Close] + rest)[1..] == rest;
    ShiftSteps(g, rest, d, b);
  }

  /** A shift of a column reads as three neutral tokens. */
  lemma ShiftSteps(g: seq<Token>, rest: seq<Token>, d: int, b: bool)
    requires IsShift(g) && g[0].Word?
    ensures NonNegative(g + rest, d) <==> (d >= 0 && NonNegative(rest, d))
    ensures Closed(g + rest, d, b) <==> Closed(rest, d, b)
    ensures Depth(g + rest) == Depth(rest)
  {
    var a := g + rest;
    assert a[1..][0] == g[1] && a[1..][1..][0] == g[2] && a[1..][1..][1..] == rest;
    Neutral(a, d, b);
    Neutral(a[1..], d, b);
    Neutral(a[1..][1..], d, b);
  }

  lemma Neutral(a: seq<Token>, d: int, b: bool)
    requires a != [] && (a[0].Word? || a[0].Sign? || a[0].Digits?)
    ensures NonNegative(a, d) <==> (d >= 0 && NonNegative(a[1..], d))
    ensures Closed(a, d, b) <==> Closed(a[1..], d, b)
    ensures Depth(a) == Depth(a[1..])
    ensures |a| > 1 && d != 0 ==> FirstZero(a, d) == 1 + FirstZero(a[1..], d)
  {
  }

  /** An atom not enclosed by one pair of parentheses does not become so. */
  lemma DropTail(ts: seq<Token>, i: nat)
    requires i > 0 && ProbeAt(ts, i).Hit?
    ensures ProbeAt(ts[1..], i - 1) == ProbeAt(ts, i)
    ensures DropParens(ts, i)[0] == ts[0] && DropParens(ts, i)[1..] == DropParens(ts[1..], i - 1)
  {
    assert [ts[0]] + ts[1..] == ts;
    ProbeShift([ts[0]], ts[1..], i - 1);
    DropShift([ts[0]], ts[1..], i - 1);
  }

  lemma {:induction false} DropFirstZero(ts: seq<Token>, i: nat, d: int)
    requires ProbeAt(ts, i).Hit? && ts[i + 1].Word? && d >= 1
    requires NonNegative(ts, d) && FirstZero(ts, d) < |ts| - 1
    ensures FirstZero(DropParens(ts, i), d) < |ts| - 3
  {
    if i > 0 {
      var rest := ts[1..];
      DropTail(ts, i);
      if d + Delta(ts[0]) != 0 {
        DropFirstZero(rest, i - 1, d + Delta(ts[0]));
      }
    } else {
      DropHeadFirstZero(ts, d);
    }
  }

  lemma DropHeadFirstZero(ts: seq<Token>, d: int)
    requires ProbeAt(ts, 0).Hit? && ts[1].Word? && d >= 1
    requires NonNegative(ts, d) && FirstZero(ts, d) < |ts| - 1
    ensures FirstZero(DropParens(ts, 0), d) < |ts| - 3
  {
    var out, rest := DropParens(ts, 0), ts[5..];
    assert out == ts[1..4] + rest;
    assert out[1..][1..][1..] == rest;
    Neutral(out, d, false);
    Neutral(out[1..], d, false);
    OpenedFirstZero(ts, d);
    if rest != [] {
      Neutral(out[1..][1..], d, false);
    }
  }

  lemma OpenedFirstZero(ts: seq<Token>, d: int)
    requires ProbeAt(ts, 0).Hit? && ts[1].Word? && d >= 1
    ensures FirstZero(ts, d) == if ts[5..] == [] then 4 else 5 + FirstZero(ts[5..], d)
  {
    assert ts[1..][1..][1..][1..][1..] == ts[5..] && ts[1..][1..][1..][1..][0] == Close;
    Neutral(ts[1..], d + 1, false);
    Neutral(ts[1..][1..], d + 1, false);
    Neutral(ts[1..][1..][1..], d + 1, false);
  }

  lemma DropAtomic(ts: seq<Token>, i: nat)
    requires Atomic(ts) && ProbeAt(ts, i).Hit? && ts[i + 1].Word?
    ensures Atomic(DropParens(ts, i))
  {
    DropClosed(ts, i, 0, false);
    var out := DropParens(ts, i);
    DropAt(ts, i, 0);
    if out[0].Open? {
      var rest := ts[1..];
      ProbeShift([ts[0]], rest, i - 1);
      assert [ts[0]] + rest == ts;
      DropShift([ts[0]], rest, i - 1);
      assert out[1..] == DropParens(rest, i - 1);
      DropFirstZero(rest, i - 1, 1);
    }
  }

  // ---- dropping one pair of parentheses inside a condition ----

  lemma DropEnclosed(body: seq<Token>, i: nat)
    requires 1 <= i && i + 3 < |body|
    ensures DropParens([Open] + body + [Close], i) == [Open] + DropParens(body, i - 1) + [Close]
  {
    assert [Open] + body + [Close] == [Open] + (body + [Close]);
    DropShift([Open], body + [Close], i - 1);
    DropPrefix(body, [Close], i - 1);
    assert [Open] + (DropParens(body, i - 1) + [Close]) == [Open] + DropParens(body, i - 1) + [Close];
  }

  lemma DropUnderParen(x: Sql, inner: Sql, i: nat)
    requires 1 <= i && i + 3 < |Render(x)| && Render(inner) == DropParens(Render(x), i - 1)
    ensures Render(Paren(inner)) == DropParens(Render(Paren(x)), i)
  {
    DropEnclosed(Render(x), i);
  }

  lemma {:induction false} DropInSql(e: Sql, i: nat, atoms: seq<Token> -> Truth) returns (r: Sql)
    requires WellFormed(e) && Respects(atoms)
    requires ProbeAt(Render(e), i).Hit? && IsColumn(Render(e)[i + 1]) && SafeAround(Render(e), i, i + 5)
    ensures WellFormed(r) && Render(r) == DropParens(Render(e), i) && Value(r, atoms) == Value(e, atoms)
    ensures r.Or? ==> e.Or?
    decreases e, 1
  {
    match e
    case Leaf(ts) =>
      DropAtomic(ts, i);
      r := Leaf(DropParens(ts, i));
    case Paren(x) =>
      RenderBalanced(x);
      if i == 0 {
        WholeGroup(x);
        r := x;
      } else {
        InsideParen(x, i);
        var inner := DropInSql(x, i - 1, atoms);
        r := Paren(inner);
        DropUnderParen(x, inner, i);
      }
    case _ =>
      r := DropInJoin(e, i, atoms);
  }

  function JoinAs(e: Sql, left: Sql, right: Sql): Sql
    requires e.And? || e.Or?
  {
    if e.And? then And(left, right) else Or(left, right)
  }

  /** One operand replaced by one of the same value. */
  lemma ReplaceOperand(e: Sql, left: Sql, right: Sql, atoms: seq<Token> -> Truth)
    requires WellFormed(e) && (e.And? || e.Or?)
    requires WellFormed(left) && WellFormed(right) && (left.Or? ==> e.left.Or?) && (right.Or? ==> e.right.Or?)
    requires Value(left, atoms) == Value(e.left, atoms) && Value(right, atoms) == Value(e.right, atoms)
    ensures WellFormed(JoinAs(e, left, right)) && Value(JoinAs(e, left, right), atoms) == Value(e, atoms)
  {
  }

  /** Under AND or OR the pair lies in one operand. */
  lemma {:induction false} DropInJoin(e: Sql, i: nat, atoms: seq<Token> -> Truth) returns (r: Sql)
    requires WellFormed(e) && Respects(atoms) && (e.And? || e.Or?)
    requires ProbeAt(Render(e), i).Hit? && IsColumn(Render(e)[i + 1]) && SafeAround(Render(e), i, i + 5)
    ensures WellFormed(r) && Render(r) == DropParens(Render(e), i) && Value(r, atoms) == Value(e, atoms)
    ensures r.Or? ==> e.Or?
    decreases e, 0
  {
    RenderBalanced(e.left);
    var inLeft := DropSide(Render(e.left), if e.And? then KwAnd else KwOr, Render(e.right), i);
    var left, right := e.left, e.right;
    if inLeft {
      left := DropInSql(left, i, atoms);
    } else {
      right := DropInSql(right, i - |Render(left)| - 1, atoms);
    }
    ReplaceOperand(e, left, right, atoms);
    r := JoinAs(e, left, right);
  }

  lemma DropPrefix(s: seq<Token>, post: seq<Token>, i: nat)
    requires i + 4 < |s|
    ensures DropParens(s + post, i) == DropParens(s, i) + post
  {
  }

  lemma SafeInFront(a: seq<Token>, rest: seq<Token>, i: nat, to: nat)
    requires i <= to <= |a| && SafeAround(a + rest, i, to)
    ensures SafeAround(a, i, to)
  {
    assert (a + rest)[..i] == a[..i];
    OpensPrefix(a + rest, a, i, false);
  }

  lemma SafeBehind(p: seq<Token>, c: seq<Token>, j: nat, to: nat)
    requires p != [] && (RoleOf(p[|p| - 1]).Opening? || RoleOf(p[|p| - 1]).Separating?)
    requires j <= to <= |c| && SafeAround(p + c, |p| + j, |p| + to)
    ensures SafeAround(c, j, to)
  {
    OpensSuffix(p, c, j, false);
    assert to < |c| ==> (p + c)[|p| + to] == c[to];
  }

  lemma DropInFront(a: seq<Token>, rest: seq<Token>, i: nat)
    requires ProbeAt(a + rest, i).Hit? && i + 4 < |a| && IsColumn((a + rest)[i + 1]) && SafeAround(a + rest, i, i + 5)
    ensures ProbeAt(a, i).Hit? && IsColumn(a[i + 1]) && SafeAround(a, i, i + 5)
    ensures DropParens(a + rest, i) == DropParens(a, i) + rest
  {
    DropPrefix(a, rest, i);
    SafeInFront(a, rest, i, i + 5);
  }

  lemma DropBehind(p: seq<Token>, c: seq<Token>, j: nat)
    requires p != [] && (RoleOf(p[|p| - 1]).Opening? || RoleOf(p[|p| - 1]).Separating?)
    requires ProbeAt(p + c, |p| + j).Hit? && IsColumn((p + c)[|p| + j + 1]) && SafeAround(p + c, |p| + j, |p| + j + 5)
    ensures ProbeAt(c, j).Hit? && IsColumn(c[j + 1]) && SafeAround(c, j, j + 5)
    ensures DropParens(p + c, |p| + j) == p + DropParens(c, j)
  {
    ProbeShift(p, c, j);
    DropShift(p, c, j);
    SafeBehind(p, c, j, j + 5);
  }

  /** A group never straddles AND or OR: it lies on one side. */
  lemma DropSide(a: seq<Token>, kw: Token, c: seq<Token>, i: nat) returns (left: bool)
    requires kw.KwAnd? || kw.KwOr?
    requires ProbeAt(a + [kw] + c, i).Hit? && IsColumn((a + [kw] + c)[i + 1]) && SafeAround(a + [kw] + c, i, i + 5)
    ensures left ==>
      && ProbeAt(a, i).Hit? && IsColumn(a[i + 1]) && SafeAround(a, i, i + 5)
      && DropParens(a + [kw] + c, i) == DropParens(a, i) + [kw] + c
    ensures !left ==> i > |a| && var j := i - |a| - 1;
      && ProbeAt(c, j).Hit? && IsColumn(c[j + 1]) && SafeAround(c, j, j + 5)
      && DropParens(a + [kw] + c, i) == a + [kw] + DropParens(c, j)
  {
    assert (a + [kw] + c)[|a|] == kw;
    left := i + 4 < |a|;
    if left {
      assert a + [kw] + c == a + ([kw] + c);
      DropInFront(a, [kw] + c, i);
      assert DropParens(a, i) + ([kw] + c) == DropParens(a, i) + [kw] + c;
    } else {
      assert i > |a|;
      DropBehind(a + [kw], c, i - |a| - 1);
    }
  }

  /** A group that starts where a parenthesised condition starts is all of it. */
  lemma WholeGroup(x: Sql)
    requires WellFormed(x) && Balanced(Render(x))
    requires ProbeAt(Render(Paren(x)), 0).Hit? && Render(Paren(x))[1].Word?
    ensures Render(x) == DropParens(Render(Paren(x)), 0) && !x.Or?
  {
    var s, ts := Render(x), Render(Paren(x));
    if |s| > 3 {
      var g := s[..3];
      assert g == ts[1..4] && s[3] == ts[4];
      assert s == g + s[3..];
      ShiftSteps(g, s[3..], 0, false);
    }
    assert s == ts[1..4];
  }

  lemma InsideParen(x: Sql, i: nat)
    requires Balanced(Render(x)) && 0 < i
    requires ProbeAt(Render(Paren(x)), i).Hit?
      && IsColumn(Render(Paren(x))[i + 1]) && SafeAround(Render(Paren(x)), i, i + 5)
    ensures ProbeAt(Render(x), i - 1).Hit? && IsColumn(Render(x)[i]) && SafeAround(Render(x), i - 1, i + 4)
  {
    var s, ts := Render(x), Render(Paren(x));
    if i + 4 == |ts| - 1 {
      NotAtTheEnd(s, i);
      assert false;
    }
    assert ts == [Open] + s + [Close];
    SafeInFront([Open] + s, [Close], i, i + 5);
    SafeBehind([Open], s, i - 1, i + 4);
  }

  /** The last close of a parenthesised balanced list closes its first open. */
  lemma NotAtTheEnd(s: seq<Token>, i: nat)
    requires Balanced(s) && 0 < i && ProbeAt([Open] + s + [Close], i).Hit?
    ensures i + 4 != |s| + 1
  {
    if i + 4 == |s| + 1 {
      var ts, p, g := [Open] + s + [Close], s[..i - 1], s[i..];
      assert s == p + ([Open] + g);
      assert g == ts[i + 1..i + 4];
      NonNegativeConcat(p, [Open] + g, 0);
      DepthConcat(p, [Open] + g);
      NonNegativeEnd(p, 0);
      assert ([Open] + g)[1..] == g;
      ShiftDepth(g);
      assert false;
    }
  }

  // ---- the whole pass ----

  lemma {:induction false} PassInSql(e: Sql, pre: seq<Token>, s: seq<Token>, atoms: seq<Token> -> Truth) returns (r: Sql)
    requires WellFormed(e) && Render(e) == pre + s && ShiftsSafe(Render(e)) && Respects(atoms)
    requires Pass(s).Collapsed?
    ensures WellFormed(r) && Render(r) == pre + Pass(s).tokens && ShiftsSafe(Render(r))
    ensures Value(r, atoms) == Value(e, atoms)
    decreases |s|
  {
    if |s| < 5 { return e; }
    assert pre + s == pre + [s[0]] + s[1..];
    r := PassInSql(e, pre + [s[0]], s[1..], atoms);
    var cur := [s[0]] + Pass(s[1..]).tokens;
    assert Render(r) == pre + cur;
    SettleShift(pre, cur);
    if ProbeAt(cur, 0).Hit? {
      r := SafeDrop(r, |pre|, atoms);
    }
  }

  /** One step of the pass on a condition whose shifts are safe. */
  lemma SafeDrop(e: Sql, i: nat, atoms: seq<Token> -> Truth) returns (r: Sql)
    requires WellFormed(e) && ShiftsSafe(Render(e)) && Respects(atoms) && ProbeAt(Render(e), i).Hit?
    ensures WellFormed(r) && Render(r) == DropParens(Render(e), i) && ShiftsSafe(Render(r))
    ensures Value(r, atoms) == Value(e, atoms)
  {
    HitIsGroup(Render(e), i);
    DropKeepsSafe(Render(e), i);
    r := DropInSql(e, i, atoms);
  }

  /** The source's normaliser from the token list on: collapse, then parse. */
  function Normalize(ts: seq<Token>): Option<Norm> {
    match Pass(ts)
    case IndexError => None
    case Collapsed(c) => Some(ParseTokens(c))
  }

  method NormalizeTokens(ts: seq<Token>) returns (o: Option<Norm>)
    ensures o == Normalize(ts)
  {
    var c := Collapse(ts);
    if c.IndexError? { return None; }
    var n := Parse(c.tokens);
    o := Some(n);
  }

  /** On a condition whose shifts are safe, the normaliser succeeds and keeps the truth value. */
  lemma NormalizeMeaning(e: Sql, atoms: seq<Token> -> Truth)
    requires WellFormed(e) && ShiftsSafe(Render(e)) && Respects(atoms)
    ensures Normalize(Render(e)).Some?
    ensures NormValue(Normalize(Render(e)).value, atoms) == Value(e, atoms)
  {
    RenderBalanced(e);
    BalancedNoError(Render(e));
    assert [] + Render(e) == Render(e);
    var r := PassInSql(e, [], Render(e), atoms);
    assert [] + Pass(Render(e)).tokens == Pass(Render(e)).tokens;
    ParseRender(r);
    NormalValue(r, atoms);
  }

  /** The migrations' equality test is sound: equal normal forms, equivalent CHECKs. */
  lemma EqualNormalForms(e1: Sql, e2: Sql, atoms: seq<Token> -> Truth)
    requires WellFormed(e1) && WellFormed(e2) && ShiftsSafe(Render(e1)) && ShiftsSafe(Render(e2))
    requires Respects(atoms)
    requires Normalize(Render(e1)) == Normalize(Render(e2))
    ensures Value(e1, atoms) == Value(e2, atoms)
  {
    NormalizeMeaning(e1, atoms);
    NormalizeMeaning(e2, atoms);
  }

  // ---- what the pass does not look at ----

  lemma {:induction false} ShiftsUntouched(g: seq<Token>, post: seq<Token>)
    requires IsShift(g)
    ensures Pass(g + post) == match Pass(post) case IndexError => IndexError case Collapsed(r) => Collapsed(g + r)
  {
    NoOpenPrefix(g, post);
  }

  /** Tokens that open nothing are passed over. */
  lemma {:induction false} NoOpenPrefix(p: seq<Token>, s: seq<Token>)
    requires forall i :: 0 <= i < |p| ==> !p[i].Open?
    ensures Pass(p + s) == match Pass(s) case IndexError => IndexError case Collapsed(r) => Collapsed(p + r)
  {
    if p == [] {
      assert p + s == s;
    } else {
      NoOpenPrefix(p[1..], s);
      NoOpenHead(p[0], p[1..] + s);
      assert [p[0]] + (p[1..] + s) == p + s;
      if Pass(s).Collapsed? {
        assert [p[0]] + (p[1..] + Pass(s).tokens) == p + Pass(s).tokens;
      }
    }
  }

  lemma NoOpenHead(t: Token, s: seq<Token>)
    requires !t.Open?
    ensures Pass([t] + s) == match Pass(s) case IndexError => IndexError case Collapsed(r) => Collapsed([t] + r)
  {
    assert ([t] + s)[1..] == s;
  }

  lemma EnclosedPass(g: seq<Token>, post: seq<Token>)
    requires IsShift(g)
    ensures Pass([Open] + g + [Close] + post) == Pass(g + post)
  {
    var tail := g + [Close] + post;
    assert tail == g + ([Close] + post);
    NoOpenHead(Close, post);
    ShiftsUntouched(g, [Close] + post);
    ShiftsUntouched(g, post);
    assert [Open] + g + [Close] + post == [Open] + tail;
    assert ([Open] + tail)[1..] == tail;
    if Pass(post).Collapsed? {
      var r := Pass(post).tokens;
      var cur := [Open] + (g + ([Close] + r));
      assert Pass([Open] + tail) == Settle(cur);
      assert cur[..0] == [] && cur[1..4] == g && cur[5..] == r;
      assert DropParens(cur, 0) == g + r;
    }
  }

  /** Tails of at least four tokens that are treated alike may be exchanged. */
  lemma {:induction false} SameTail(pre: seq<Token>, s: seq<Token>, t: seq<Token>)
    requires |s| >= 4 && |t| >= 4 && Pass(s) == Pass(t)
    ensures Pass(pre + s) == Pass(pre + t)
  {
    if pre == [] {
      assert pre + s == s && pre + t == t;
    } else {
      SameTail(pre[1..], s, t);
      SameFirst(pre[0], pre[1..] + s, pre[1..] + t);
      assert [pre[0]] + (pre[1..] + s) == pre + s && [pre[0]] + (pre[1..] + t) == pre + t;
    }
  }

  lemma SameFirst(x: Token, s: seq<Token>, t: seq<Token>)
    requires |s| >= 4 && |t| >= 4 && Pass(s) == Pass(t)
    ensures Pass([x] + s) == Pass([x] + t)
  {
    assert ([x] + s)[1..] == s && ([x] + t)[1..] == t;
  }

  /**
    * Why ShiftsSafe is needed: whatever stands around the group, the pass treats the list as if its parentheses were
    * not there. (An unclosed parenthesis right before a group that ends the list is the family of IndexErrorIff.)
    */
  lemma ContextIgnored(pre: seq<Token>, g: seq<Token>, post: seq<Token>)
    requires IsShift(g)
    requires post == [] ==> pre == [] || !pre[|pre| - 1].Open?
    ensures Normalize(pre + ([Open] + g + [Close]) + post) == Normalize(pre + g + post)
  {
    var enclosed := [Open] + g + [Close] + post;
    EnclosedPass(g, post);
    assert pre + ([Open] + g + [Close]) + post == pre + enclosed;
    assert pre + g + post == pre + (g + post);
    if post != [] {
      SameTail(pre, enclosed, g + post);
    } else if pre != [] {
      SameTailAfter(pre, enclosed, g + post);
    } else {
      assert pre + enclosed == enclosed && pre + (g + post) == g + post;
    }
  }

  lemma SameHead(t: Token, a: seq<Token>, b: seq<Token>)
    requires !t.Open? && Pass(a) == Pass(b)
    ensures Pass([t] + a) == Pass([t] + b)
  {
    NoOpenHead(t, a);
    NoOpenHead(t, b);
  }

  /** A token before the tails that opens nothing makes up for a tail of three. */
  lemma SameTailAfter(pre: seq<Token>, a: seq<Token>, b: seq<Token>)
    requires pre != [] && !pre[|pre| - 1].Open?
    requires |a| >= 3 && |b| >= 3 && Pass(a) == Pass(b)
    ensures Pass(pre + a) == Pass(pre + b)
  {
    var init, last := pre[..|pre| - 1], pre[|pre| - 1];
    SameHead(last, a, b);
    var la, lb := [last] + a, [last] + b;
    SameTail(init, la, lb);
    MoveLast(pre, a);
    MoveLast(pre, b);
  }

  lemma MoveLast(pre: seq<Token>, a: seq<Token>)
    requires pre != []
    ensures pre + a == pre[..|pre| - 1] + ([pre[|pre| - 1]] + a)
  {
  }
}
