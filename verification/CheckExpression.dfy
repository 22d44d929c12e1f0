/** The boolean parser inside the migrations' CHECK normaliser, from its token list onward. */
module CheckExpression {

  /** A lexed, upper-cased token. Word is an identifier-shaped token other than the three
      keywords the parser looks at; Sign is + or -; Other is any literal or remaining symbol. */
  datatype Token =
    | Open
    | Close
    | KwOr
    | KwAnd
    | KwBetween
    | Word(name: string)
    | Sign(minus: bool)
    | Digits(text: string)
    | Other(text: string)

  datatype Separator = SepOr | SepAnd {
    function Keyword(): Token {
      if SepOr? then KwOr else KwAnd
    }
  }

  /** The normaliser's result: an opaque atom, or a flattened OR / AND. */
  datatype Norm = Atom(tokens: seq<Token>) | Op(sep: Separator, kids: seq<Norm>)

  function Delta(t: Token): int {
    if t.Open? then 1 else if t.Close? then -1 else 0
  }

  /** The `between` flag after reading t, at bracket depth d. */
  function NextBetween(t: Token, d: int, b: bool): bool {
    if d != 0 then b else if t.KwBetween? then true else if t.KwAnd? then false else b
  }

  /** t separates groups at depth d: the AND that closes a BETWEEN does not. */
  predicate Separates(t: Token, sep: Separator, d: int, b: bool) {
    d == 0 && t == sep.Keyword() && !(t.KwAnd? && b)
  }

  /** Puts `ts` in front of the first group. */
  function Prefix(ts: seq<Token>, groups: seq<seq<Token>>): (r: seq<seq<Token>>)
    requires |groups| > 0
    ensures |r| == |groups|
  {
    [ts + groups[0]] + groups[1..]
  }

  lemma PrefixNothing(groups: seq<seq<Token>>)
    requires |groups| > 0
    ensures Prefix([], groups) == groups
  {
    assert [] + groups[0] == groups[0];
  }

  /** The token groups between separators, scanning from depth d and flag b. */
  function Split(ts: seq<Token>, sep: Separator, d: int, b: bool): (r: seq<seq<Token>>)
    ensures |r| >= 1
    ensures forall i :: 0 <= i < |r| ==> |r[i]| <= |ts| - (if |r| > 1 then 1 else 0)
  {
    if ts == [] then [[]]
    else
      var d' := d + Delta(ts[0]);
      var rest := Split(ts[1..], sep, d', NextBetween(ts[0], d', b));
      if Separates(ts[0], sep, d', b) then [[]] + rest else Prefix([ts[0]], rest)
  }

  /** The index at which the depth first returns to zero; the last index if it never does. */
  function FirstZero(ts: seq<Token>, d: int): (i: nat)
    requires ts != []
    ensures i < |ts|
  {
    if d + Delta(ts[0]) == 0 || |ts| == 1 then 0 else 1 + FirstZero(ts[1..], d + Delta(ts[0]))
  }

  /** items[1:-1]: one token list shorter by its first and last token. */
  function Inner(ts: seq<Token>): (r: seq<Token>)
    requires ts != []
    ensures |r| < |ts|
  {
    if |ts| == 1 then [] else ts[1..|ts| - 1]
  }

  /** Removes enclosing parentheses, as long as the first one is closed by the last token. */
  function Strip(ts: seq<Token>): (r: seq<Token>)
    ensures |r| <= |ts|
  {
    if ts != [] && ts[0].Open? && FirstZero(ts, 0) == |ts| - 1 then Strip(Inner(ts)) else ts
  }

  /** An operand's contribution to an enclosing `sep`: its own operands if it is one itself. */
  function KidsOf(sep: Separator, n: Norm): seq<Norm> {
    if n.Op? && n.sep == sep then n.kids else [n]
  }

  function Flatten(sep: Separator, groups: seq<Norm>): seq<Norm> {
    if groups == [] then [] else KidsOf(sep, groups[0]) + Flatten(sep, groups[1..])
  }

  /** What the parser computes, on every token list, balanced or not. */
  function ParseTokens(items: seq<Token>): Norm
    decreases |items|, 1
  {
    ParseStripped(Strip(items))
  }

  /** A list without enclosing parentheses: an OR if it has one at depth zero, else an AND, else an atom. */
  function ParseStripped(s: seq<Token>): Norm
    decreases |s|, 0
  {
    var ors := Split(s, SepOr, 0, false);
    if |ors| > 1 then
      Op(SepOr, Flatten(SepOr, seq(|ors|, i requires 0 <= i < |ors| => ParseTokens(ors[i]))))
    else
      var ands := Split(s, SepAnd, 0, false);
      if |ands| > 1 then
        Op(SepAnd, Flatten(SepAnd, seq(|ands|, i requires 0 <= i < |ands| => ParseTokens(ands[i]))))
      else Atom(s)
  }

  function ParseEach(groups: seq<seq<Token>>): (r: seq<Norm>)
    ensures |r| == |groups|
    ensures forall i :: 0 <= i < |r| ==> r[i] == ParseTokens(groups[i])
  {
    seq(|groups|, i requires 0 <= i < |groups| => ParseTokens(groups[i]))
  }

  lemma ParseEachAppend(groups: seq<seq<Token>>, g: seq<Token>)
    ensures ParseEach(groups + [g]) == ParseEach(groups) + [ParseTokens(g)]
  {
  }

  /** The scan for the matching close: depth first back at zero, or the end of the list. */
  method ScanToZero(items: seq<Token>) returns (index: nat)
    requires items != []
    ensures index == FirstZero(items, 0)
  {
    index := 0;
    var depth := Delta(items[0]);
    while depth != 0 && index < |items| - 1
      invariant index < |items|
      invariant depth == 0 || index == |items| - 1 ==> FirstZero(items, 0) == index
      invariant depth != 0 && index < |items| - 1 ==>
        FirstZero(items, 0) == index + 1 + FirstZero(items[index + 1..], depth)
      decreases |items| - index
    {
      assert items[index + 1..][1..] == items[index + 2..];
      index := index + 1;
      depth := depth + Delta(items[index]);
    }
  }

  /** The groups still to come: the one begun at `start`, and those of the unread tokens. */
  ghost function Pending(items: seq<Token>, sep: Separator, start: nat, index: nat, d: int, b: bool): seq<seq<Token>>
    requires start <= index <= |items|
  {
    Prefix(items[start..index], Split(items[index..], sep, d, b))
  }

  /** Reading one more token either closes the group begun at `start` or extends it. */
  lemma SplitStep(items: seq<Token>, sep: Separator, start: nat, index: nat, d: int, b: bool)
    requires start <= index < |items|
    ensures
      var d' := d + Delta(items[index]);
      var b' := NextBetween(items[index], d', b);
      Pending(items, sep, start, index, d, b) ==
        if Separates(items[index], sep, d', b)
        then [items[start..index]] + Pending(items, sep, index + 1, index + 1, d', b')
        else Pending(items, sep, start, index + 1, d', b')
  {
    var d' := d + Delta(items[index]);
    var after := Split(items[index + 1..], sep, d', NextBetween(items[index], d', b));
    assert items[index..][1..] == items[index + 1..];
    var cur := items[start..index];
    var whole := Split(items[index..], sep, d, b);
    if Separates(items[index], sep, d', b) {
      assert whole == [[]] + after;
      PrefixNothing(after);
      assert items[index + 1..index + 1] == [];
      assert cur + whole[0] == cur;
      assert whole[1..] == after;
    } else {
      assert whole == Prefix([items[index]], after);
      assert items[start..index] + ([items[index]] + after[0]) == items[start..index + 1] + after[0];
    }
  }

  /** The separator loop from `index` on, when a group has begun at `start`: the groups it still finds. */
  function Remaining(items: seq<Token>, sep: Separator, start: nat, index: nat, d: int, b: bool): (r: seq<seq<Token>>)
    requires start <= index <= |items|
    ensures |r| >= 1
    decreases |items| - index
  {
    if index == |items| then [items[start..]]
    else
      var d' := d + Delta(items[index]);
      var b' := NextBetween(items[index], d', b);
      if Separates(items[index], sep, d', b) then
        [items[start..index]] + Remaining(items, sep, index + 1, index + 1, d', b')
      else Remaining(items, sep, start, index + 1, d', b')
  }

  lemma {:induction false} RemainingIsPending(items: seq<Token>, sep: Separator, start: nat, index: nat, d: int, b: bool)
    requires start <= index <= |items|
    ensures Remaining(items, sep, start, index, d, b) == Pending(items, sep, start, index, d, b)
    decreases |items| - index
  {
    if index == |items| {
      assert items[start..index] + [] == items[start..];
    } else {
      var d' := d + Delta(items[index]);
      var b' := NextBetween(items[index], d', b);
      SplitStep(items, sep, start, index, d, b);
      if Separates(items[index], sep, d', b) {
        RemainingIsPending(items, sep, index + 1, index + 1, d', b');
      } else {
        RemainingIsPending(items, sep, start, index + 1, d', b');
      }
    }
  }

  /** The whole loop finds the groups of the list. */
  lemma RemainingAtStart(items: seq<Token>, sep: Separator)
    ensures Remaining(items, sep, 0, 0, 0, false) == Split(items, sep, 0, false)
  {
    RemainingIsPending(items, sep, 0, 0, 0, false);
    assert items[0..] == items && items[0..0] == [];
    PrefixNothing(Split(items, sep, 0, false));
  }

  /** One pass of the separator loop: parses each group as soon as its separator is met. */
  method ParseGroups(items: seq<Token>, sep: Separator) returns (groups: seq<Norm>)
    ensures var parts := Split(items, sep, 0, false);
      groups == if |parts| > 1 then ParseEach(parts) else []
    decreases |items|, 0
  {
    groups := [];
    var depth, between, start := 0, false, 0;
    ghost var done: seq<seq<Token>> := [];
    for index := 0 to |items|
      invariant start <= index && (done != [] ==> 0 < start)
      invariant groups == ParseEach(done)
      invariant done + Remaining(items, sep, start, index, depth, between) == Remaining(items, sep, 0, 0, 0, false)
    {
      var token := items[index];
      depth := depth + Delta(token);
      if Separates(token, sep, depth, between) {
        var group := Parse(items[start..index]);
        ParseEachAppend(done, items[start..index]);
        groups := groups + [group];
        done := done + [items[start..index]];
        start := index + 1;
      }
      between := NextBetween(token, depth, between);
    }
    RemainingAtStart(items, sep);
    if groups != [] {
      var last := Parse(items[start..]);
      ParseEachAppend(done, items[start..]);
      groups := groups + [last];
    }
  }

  method Parse(tokens: seq<Token>) returns (n: Norm)
    ensures n == ParseTokens(tokens)
    decreases |tokens|, 1
  {
    var items := tokens;
    while items != [] && items[0].Open?
      invariant Strip(items) == Strip(tokens)
      invariant |items| <= |tokens|
      decreases |items|
    {
      var index := ScanToZero(items);
      if index != |items| - 1 { break; }
      items := Inner(items);
    }
    assert Strip(items) == items;
    n := Atom(items);
    var groups := ParseGroups(items, SepOr);
    if groups != [] {
      return Op(SepOr, Flatten(SepOr, groups));
    }
    groups := ParseGroups(items, SepAnd);
    if groups != [] {
      return Op(SepAnd, Flatten(SepAnd, groups));
    }
  }
}
