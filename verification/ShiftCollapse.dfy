/** The normaliser's first pass: ( NAME +/- DIGITS ) loses its parentheses, right to left, in place. */
module ShiftCollapse {
  import opened CheckExpression
  import opened CheckMeaning

  /** The identifier test of the pass is spelling only, so the keywords pass it too. */
  predicate IsName(t: Token) {
    t.Word? || t.KwOr? || t.KwAnd? || t.KwBetween?
  }

  datatype Probe = Hit | Miss | OutOfRange

  /** The pass's condition at index i, read left to right, each test only if the last one held. */
  function ProbeAt(ts: seq<Token>, i: nat): Probe {
    if i >= |ts| then OutOfRange
    else if !ts[i].Open? then Miss
    else if i + 1 >= |ts| then OutOfRange
    else if !IsName(ts[i + 1]) then Miss
    else if i + 2 >= |ts| then OutOfRange
    else if !ts[i + 2].Sign? then Miss
    else if i + 3 >= |ts| then OutOfRange
    else if !ts[i + 3].Digits? then Miss
    else if i + 4 >= |ts| then OutOfRange
    else if ts[i + 4].Close? then Hit else Miss
  }

  function DropParens(ts: seq<Token>, i: nat): (r: seq<Token>)
    requires i + 4 < |ts|
    ensures |r| == |ts| - 2
  {
    ts[..i] + ts[i + 1..i + 4] + ts[i + 5..]
  }

  lemma DropHead(t: Token, r: seq<Token>)
    requires |r| >= 4
    ensures DropParens([t] + r, 0) == r[..3] + r[4..]
    ensures DropParens([t] + r, 0)[0] == r[0]
  {
    var cur := [t] + r;
    assert cur[..0] == [] && cur[1..4] == r[..3] && cur[5..] == r[4..];
  }

  datatype Outcome = Collapsed(tokens: seq<Token>) | IndexError

  /** The pass seen from the right: a list shorter than five is left alone; otherwise the tail
      is treated first, then the group that may now start at the head. */
  function Pass(s: seq<Token>): Outcome {
    if |s| < 5 then Collapsed(s)
    else
      match Pass(s[1..])
      case IndexError => IndexError
      case Collapsed(r) =>
        Settle([s[0]] + r)
  }

  /** Treats the group that may start at the head. */
  function Settle(cur: seq<Token>): Outcome {
    match ProbeAt(cur, 0)
    case OutOfRange => IndexError
    case Miss => Collapsed(cur)
    case Hit => Collapsed(DropParens(cur, 0))
  }

  lemma SettleShift(pre: seq<Token>, cur: seq<Token>)
    ensures ProbeAt(pre + cur, |pre|) == ProbeAt(cur, 0)
    ensures ProbeAt(cur, 0).Hit? ==> DropParens(pre + cur, |pre|) == pre + Settle(cur).tokens
  {
    ProbeShift(pre, cur, 0);
    if ProbeAt(cur, 0).Hit? {
      DropShift(pre, cur, 0);
    }
  }

  lemma ProbeShift(pre: seq<Token>, s: seq<Token>, i: nat)
    ensures ProbeAt(pre + s, |pre| + i) == ProbeAt(s, i)
  {
  }

  lemma DropShift(pre: seq<Token>, s: seq<Token>, i: nat)
    requires i + 4 < |s|
    ensures DropParens(pre + s, |pre| + i) == pre + DropParens(s, i)
  {
  }

  lemma {:induction false} PassError(pre: seq<Token>, s: seq<Token>)
    requires Pass(s).IndexError?
    ensures Pass(pre + s).IndexError?
  {
    if pre == [] {
      assert pre + s == s;
    } else {
      assert (pre + s)[1..] == pre[1..] + s;
      PassError(pre[1..], s);
    }
  }

  /** The list after the tail from `index` on has been treated. */
  ghost predicate Treated(original: seq<Token>, index: nat, tokens: seq<Token>) {
    && index <= |original|
    && Pass(original[index..]).Collapsed?
    && tokens == original[..index] + Pass(original[index..]).tokens
  }

  lemma PassOfTail(tail: seq<Token>, r: seq<Token>)
    requires |tail| >= 5 && Pass(tail[1..]) == Collapsed(r)
    ensures Pass(tail) == Settle([tail[0]] + r)
  {
  }

  lemma TreatedStep(original: seq<Token>, index: nat, tokens: seq<Token>)
    requires index + 5 <= |original| && Treated(original, index + 1, tokens)
    ensures match ProbeAt(tokens, index)
      case OutOfRange => Pass(original).IndexError?
      case Hit => Treated(original, index, DropParens(tokens, index))
      case Miss => Treated(original, index, tokens)
  {
    var pre, tail := original[..index], original[index..];
    var r := Pass(original[index + 1..]).tokens;
    var cur := [tail[0]] + r;
    assert tail[1..] == original[index + 1..];
    PassOfTail(tail, r);
    assert pre + cur == tokens;
    SettleShift(pre, cur);
    if ProbeAt(cur, 0).OutOfRange? {
      PassError(pre, tail);
      assert pre + tail == original;
    }
  }

  method Collapse(original: seq<Token>) returns (o: Outcome)
    ensures o == Pass(original)
  {
    var tokens := original;
    var index := |original| - 5;
    if index < 0 {
      return Collapsed(tokens);
    }
    assert original[..index + 1] + original[index + 1..] == original;
    while index >= 0
      invariant -1 <= index <= |original| - 5
      invariant Treated(original, index + 1, tokens)
    {
      TreatedStep(original, index, tokens);
      match ProbeAt(tokens, index) {
        case OutOfRange =>
          return IndexError;
        case Hit =>
          tokens := DropParens(tokens, index);
        case Miss =>
      }
      index := index - 1;
    }
    assert original[0..] == original;
    o := Collapsed(tokens);
  }

  /** Of five tokens the pass changes exactly "(", an identifier or keyword, either sign, digits, ")". */
  lemma FiveTokens(a: Token, b: Token, c: Token, d: Token, e: Token)
    ensures Pass([a, b, c, d, e]) == Collapsed(
      if a == Open && (b.Word? || b in {KwOr, KwAnd, KwBetween}) && c.Sign? && d.Digits? && e == Close then [b, c, d]
      else [a, b, c, d, e])
  {
    var s := [a, b, c, d, e];
    assert s[1..] == [b, c, d, e];
    assert [a] + [b, c, d, e] == s;
    if ProbeAt(s, 0).Hit? {
      DropHead(a, [b, c, d, e]);
      assert DropParens(s, 0) == [b, c, d];
    }
  }

  // ---- exactly when the pass reads past the end ----

  function Opens(k: nat): (r: seq<Token>) ensures |r| == k {
    seq(k, _ => Open)
  }

  function Closes(k: nat): (r: seq<Token>) ensures |r| == k {
    seq(k, _ => Close)
  }

  /** NAME +/- DIGITS. */
  predicate IsShift(g: seq<Token>) {
    |g| == 3 && IsName(g[0]) && g[1].Sign? && g[2].Digits?
  }

  lemma {:induction false} PassKeepsThree(s: seq<Token>)
    requires |s| >= 3 && Pass(s).Collapsed?
    ensures |Pass(s).tokens| >= 3
  {
    if |s| >= 5 {
      PassKeepsThree(s[1..]);
    }
  }

  /** What comes out without a name went in unchanged. */
  lemma {:induction false} PassNameless(x: seq<Token>, y: seq<Token>)
    requires Pass(x) == Collapsed(y)
    requires forall i :: 0 <= i < |y| ==> !IsName(y[i])
    ensures x == y
  {
    if |x| >= 5 {
      var r := Pass(x[1..]).tokens;
      var cur := [x[0]] + r;
      if ProbeAt(cur, 0).Hit? {
        DropHead(x[0], r);
        assert false;
      }
      assert y[1..] == r;
      PassNameless(x[1..], r);
    }
  }

  /** A tail that collapses to a shift and m closes was that shift in some number of parentheses. */
  lemma {:induction false} PassToShift(v: seq<Token>, g: seq<Token>, m: nat) returns (k: nat)
    requires IsShift(g) && Pass(v) == Collapsed(g + Closes(m))
    ensures v == Opens(k) + g + Closes(k + m)
  {
    if |v| < 5 {
      k := 0;
      return;
    }
    var r := Pass(v[1..]).tokens;
    assert v == [v[0]] + v[1..];
    if ProbeAt([v[0]] + r, 0).Hit? {
      HitToShift(v[0], r, g, m);
      var j := PassToShift(v[1..], g, m + 1);
      k := j + 1;
      assert [Open] + (Opens(j) + g + Closes(j + (m + 1))) == Opens(k) + g + Closes(k + m);
    } else {
      assert r == (g + Closes(m))[1..];
      PassNameless(v[1..], r);
      k := 0;
      assert Opens(0) + g + Closes(0 + m) == g + Closes(m);
    }
  }

  lemma HitToShift(t: Token, r: seq<Token>, g: seq<Token>, m: nat)
    requires IsShift(g) && ProbeAt([t] + r, 0).Hit? && DropParens([t] + r, 0) == g + Closes(m)
    ensures t == Open && r == g + Closes(m + 1)
  {
    var out := g + Closes(m);
    DropHead(t, r);
    assert out[..3] == g && out[3..] == Closes(m);
    assert [Close] + Closes(m) == Closes(m + 1);
    assert r == r[..3] + [r[3]] + r[4..];
    assert r[3] == ([t] + r)[4];
    assert r == g + ([Close] + Closes(m));
  }

  lemma {:induction false} PassOpenless(s: seq<Token>)
    requires forall i :: 0 <= i < |s| ==> !s[i].Open?
    ensures Pass(s) == Collapsed(s)
  {
    if |s| >= 5 {
      PassOpenless(s[1..]);
    }
  }

  lemma {:induction false} PassOfShift(g: seq<Token>, k: nat, m: nat)
    requires IsShift(g)
    ensures Pass(Opens(k) + g + Closes(k + m)) == Collapsed(g + Closes(m))
  {
    var s := Opens(k) + g + Closes(k + m);
    if k == 0 {
      assert s == g + Closes(m);
      PassOpenless(s);
    } else {
      assert s[1..] == Opens(k - 1) + g + Closes(k - 1 + (m + 1));
      PassOfShift(g, k - 1, m + 1);
      var cur := [s[0]] + (g + Closes(m + 1));
      assert cur == [Open] + g + [Close] + Closes(m);
      assert DropParens(cur, 0) == g + Closes(m);
    }
  }

  /** The pass raises IndexError exactly on lists that end in a shift inside at least one closed
      pair of parentheses and one unclosed one. */
  ghost predicate UnclosedShift(s: seq<Token>) {
    exists p: seq<Token>, g: seq<Token>, k: nat :: EndsUnclosed(s, p, g, k)
  }

  predicate EndsUnclosed(s: seq<Token>, p: seq<Token>, g: seq<Token>, k: nat) {
    k >= 1 && IsShift(g) && s == p + (Opens(k + 1) + g + Closes(k))
  }

  lemma {:induction false} ErrorTail(s: seq<Token>)
    requires Pass(s).IndexError?
    ensures UnclosedShift(s)
  {
    match Pass(s[1..])
    case IndexError =>
      ErrorTail(s[1..]);
      var p, g, k: nat :| EndsUnclosed(s[1..], p, g, k);
      assert s == [s[0]] + p + (Opens(k + 1) + g + Closes(k));
      assert EndsUnclosed(s, [s[0]] + p, g, k);
    case Collapsed(r) =>
      PassKeepsThree(s[1..]);
      assert |r| == 3;
      assert r + Closes(0) == r;
      var k := PassToShift(s[1..], r, 0);
      assert s == [s[0]] + s[1..];
      assert [] + (Opens(k + 1) + r + Closes(k)) == s;
      assert EndsUnclosed(s, [], r, k);
  }

  lemma IndexErrorIff(s: seq<Token>)
    ensures Pass(s).IndexError? <==> UnclosedShift(s)
  {
    if Pass(s).IndexError? {
      ErrorTail(s);
    }
    if UnclosedShift(s) {
      var p, g, k: nat :| EndsUnclosed(s, p, g, k);
      var u := Opens(k + 1) + g + Closes(k);
      assert u[1..] == Opens(k) + g + Closes(k + 0);
      PassOfShift(g, k, 0);
      assert g + Closes(0) == g;
      PassError(p, u);
    }
  }

  lemma {:induction false} BracketDepth(k: nat)
    ensures Depth(Opens(k)) == k && Depth(Closes(k)) == 0 - k
  {
    if k > 0 {
      assert Opens(k)[1..] == Opens(k - 1);
      assert Closes(k)[1..] == Closes(k - 1);
      BracketDepth(k - 1);
    }
  }

  lemma ShiftDepth(g: seq<Token>)
    requires IsShift(g)
    ensures Depth(g) == 0
  {
    assert g[1..] == [g[1], g[2]];
    assert [g[1], g[2]][1..] == [g[2]];
    assert [g[2]][1..] == [];
    assert Depth([g[2]]) == 0;
    assert Depth([g[1], g[2]]) == 0;
  }

  /** On a balanced list the pass never reads past the end. */
  lemma BalancedNoError(s: seq<Token>)
    requires Balanced(s)
    ensures Pass(s).Collapsed?
  {
    if Pass(s).IndexError? {
      ErrorTail(s);
      var p, g, k: nat :| EndsUnclosed(s, p, g, k);
      var u := Opens(k + 1) + g + Closes(k);
      BracketDepth(k + 1);
      BracketDepth(k);
      DepthConcat(Opens(k + 1) + g, Closes(k));
      DepthConcat(Opens(k + 1), g);
      ShiftDepth(g);
      DepthConcat(p, u);
      NonNegativeConcat(p, u, 0);
      NonNegativeEnd(p, 0);
    }
  }

  lemma {:induction false} NonNegativeEnd(ts: seq<Token>, d: int)
    requires NonNegative(ts, d) && d >= 0
    ensures d + Depth(ts) >= 0
  {
    if ts != [] {
      NonNegativeEnd(ts[1..], d + Delta(ts[0]));
    }
  }

  // ---- one pass reaches the fixpoint ----

  predicate NoShift(ts: seq<Token>) {
    forall i :: 0 <= i < |ts| ==> !ProbeAt(ts, i).Hit?
  }

  lemma DropLeavesNoShift(t: Token, r: seq<Token>)
    requires NoShift(r) && ProbeAt([t] + r, 0).Hit?
    ensures NoShift(DropParens([t] + r, 0))
  {
    DropHead(t, r);
    var out := r[..3] + r[4..];
    assert r == r[..4] + r[4..];
    forall i | 0 <= i < |out| ensures !ProbeAt(out, i).Hit? {
      if i < 3 {
        assert out[i] == ([t] + r)[i + 1];
      } else {
        ProbeShift(r[..3], r[4..], i - 3);
        ProbeShift(r[..4], r[4..], i - 3);
      }
    }
  }

  lemma {:induction false} PassLeavesNoShift(s: seq<Token>)
    requires Pass(s).Collapsed?
    ensures NoShift(Pass(s).tokens)
  {
    if |s| >= 5 {
      PassLeavesNoShift(s[1..]);
      var r := Pass(s[1..]).tokens;
      if ProbeAt([s[0]] + r, 0).Hit? {
        DropLeavesNoShift(s[0], r);
      } else {
        forall i | 1 <= i < 1 + |r| ensures !ProbeAt([s[0]] + r, i).Hit? {
          ProbeShift([s[0]], r, i - 1);
        }
      }
    }
  }

  lemma {:induction false} PassFixpoint(s: seq<Token>)
    requires NoShift(s)
    ensures Pass(s) == Collapsed(s)
  {
    if |s| >= 5 {
      forall i | 0 <= i < |s[1..]| ensures !ProbeAt(s[1..], i).Hit? {
        ProbeShift([s[0]], s[1..], i);
        assert s == [s[0]] + s[1..];
      }
      PassFixpoint(s[1..]);
      assert [s[0]] + s[1..] == s;
    }
  }

  /** A second pass changes nothing. */
  lemma PassIdempotent(s: seq<Token>)
    requires Pass(s).Collapsed?
    ensures Pass(Pass(s).tokens) == Pass(s)
  {
    PassLeavesNoShift(s);
    PassFixpoint(Pass(s).tokens);
  }
}
