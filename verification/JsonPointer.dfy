/** JSON documents, and the references the schema installers follow (RFC 6901, sections 3 and 4). */
module JsonPointer {
  import opened Options

  /** A document. Objects keep the insertion order of their members. */
  datatype Json = Object(members: seq<Member>) | Array(items: seq<Json>) | Text(s: string) | Scalar

  datatype Member = Member(key: string, value: Json)

  function Lookup(ms: seq<Member>, key: string): Option<Json> {
    if ms == [] then None else if ms[0].key == key then Some(ms[0].value) else Lookup(ms[1..], key)
  }

  // ---- tokens ----

  /** str.replace of a two-character pattern: leftmost matches first, without overlap. */
  function ReplacePair(s: string, a: char, b: char, c: char): (r: string)
    ensures |r| <= |s|
  {
    if |s| < 2 then s
    else if s[0] == a && s[1] == b then [c] + ReplacePair(s[2..], a, b, c)
    else [s[0]] + ReplacePair(s[1..], a, b, c)
  }

  function Unslash(s: string): string { ReplacePair(s, '~', '1', '/') }

  function Untilde(s: string): string { ReplacePair(s, '~', '0', '~') }

  /** The installers' decoding of one token: ~1 first, then ~0. */
  function Decode(s: string): string { Untilde(Unslash(s)) }

  function EncodeChar(c: char): string {
    if c == '~' then "~0" else if c == '/' then "~1" else [c]
  }

  /** RFC 6901, section 3. */
  function Encode(s: string): string {
    if s == [] then [] else EncodeChar(s[0]) + Encode(s[1..])
  }

  /** Only the tilde, or only the slash, escaped. */
  function EscapeOnly(s: string, tilde: bool): string {
    if s == [] then []
    else (if s[0] == (if tilde then '~' else '/') then EncodeChar(s[0]) else [s[0]]) + EscapeOnly(s[1..], tilde)
  }

  lemma ReplaceSkip(c: char, s: string, a: char, b: char, r: char)
    requires s == [] || c != a || s[0] != b
    ensures ReplacePair([c] + s, a, b, r) == [c] + ReplacePair(s, a, b, r)
  {
    assert ([c] + s)[1..] == s;
  }

  lemma ReplaceHit(s: string, a: char, b: char, r: char)
    ensures ReplacePair([a, b] + s, a, b, r) == [r] + ReplacePair(s, a, b, r)
  {
    assert ([a, b] + s)[2..] == s;
  }

  lemma {:induction false} UnslashEncode(s: string)
    ensures Unslash(Encode(s)) == EscapeOnly(s, true)
  {
    if s != [] {
      var rest := Encode(s[1..]);
      UnslashEncode(s[1..]);
      if s[0] == '/' {
        ReplaceHit(rest, '~', '1', '/');
      } else if s[0] == '~' {
        assert "~0" + rest == ['~'] + (['0'] + rest);
        ReplaceSkip('~', ['0'] + rest, '~', '1', '/');
        ReplaceSkip('0', rest, '~', '1', '/');
      } else {
        ReplaceSkip(s[0], rest, '~', '1', '/');
      }
    }
  }

  lemma {:induction false} UntildeEscaped(s: string)
    ensures Untilde(EscapeOnly(s, true)) == s
  {
    if s != [] {
      var rest := EscapeOnly(s[1..], true);
      UntildeEscaped(s[1..]);
      if s[0] == '~' {
        ReplaceHit(rest, '~', '0', '~');
      } else {
        ReplaceSkip(s[0], rest, '~', '0', '~');
      }
    }
  }

  /** The decoding inverts the escaping of every string. */
  lemma DecodeEncode(s: string)
    ensures Decode(Encode(s)) == s
  {
    UnslashEncode(s);
    UntildeEscaped(s);
  }

  // ---- why the order matters ----

  /** The two replacements in the other order. */
  function DecodeReversed(s: string): string { Unslash(Untilde(s)) }

  predicate HasTildeOne(s: string) {
    exists i :: 0 <= i < |s| - 1 && s[i] == '~' && s[i + 1] == '1'
  }

  lemma {:induction false} UntildeEncode(s: string)
    ensures Untilde(Encode(s)) == EscapeOnly(s, false)
  {
    if s != [] {
      var rest := Encode(s[1..]);
      UntildeEncode(s[1..]);
      if s[0] == '~' {
        ReplaceHit(rest, '~', '0', '~');
      } else if s[0] == '/' {
        assert "~1" + rest == ['~'] + (['1'] + rest);
        ReplaceSkip('~', ['1'] + rest, '~', '0', '~');
        ReplaceSkip('1', rest, '~', '0', '~');
      } else {
        ReplaceSkip(s[0], rest, '~', '0', '~');
      }
    }
  }

  lemma {:induction false} UnslashEscaped(s: string)
    ensures Unslash(EscapeOnly(s, false)) == Unslash(s)
    decreases |s|
  {
    if s == [] { return; }
    var rest := EscapeOnly(s[1..], false);
    UnslashEscaped(s[1..]);
    assert [s[0]] + s[1..] == s;
    if s[0] == '/' {
      ReplaceHit(rest, '~', '1', '/');
      ReplaceSkip('/', s[1..], '~', '1', '/');
    } else if s[0] == '~' && |s| > 1 && s[1] == '1' {
      UnslashEscaped(s[2..]);
      assert s[1..][1..] == s[2..];
      assert ['~'] + rest == ['~', '1'] + EscapeOnly(s[2..], false);
      ReplaceHit(EscapeOnly(s[2..], false), '~', '1', '/');
      assert ['~', '1'] + s[2..] == s;
      ReplaceHit(s[2..], '~', '1', '/');
    } else {
      assert |s| > 1 ==> rest[0] == (if s[1] == '/' then '~' else s[1]);
      ReplaceSkip(s[0], rest, '~', '1', '/');
      ReplaceSkip(s[0], s[1..], '~', '1', '/');
    }
  }

  lemma {:induction false} UnslashIdentity(s: string)
    ensures Unslash(s) == s <==> !HasTildeOne(s)
    ensures HasTildeOne(s) ==> |Unslash(s)| < |s|
    decreases |s|
  {
    if |s| >= 2 {
      if s[0] == '~' && s[1] == '1' {
        assert HasTildeOne(s);
      } else {
        UnslashIdentity(s[1..]);
        assert HasTildeOne(s) <==> HasTildeOne(s[1..]) by {
          if i :| 0 <= i < |s| - 1 && s[i] == '~' && s[i + 1] == '1' {
            assert s[1..][i - 1] == '~' && s[1..][i] == '1';
          }
          if i :| 0 <= i < |s[1..]| - 1 && s[1..][i] == '~' && s[1..][i + 1] == '1' {
            assert s[i + 1] == '~' && s[i + 2] == '1';
          }
        }
      }
    }
  }

  /** Decoding ~0 first is right exactly for the strings that do not contain "~1". */
  lemma ReversedOrderIff(s: string)
    ensures DecodeReversed(Encode(s)) == s <==> !HasTildeOne(s)
  {
    UntildeEncode(s);
    UnslashEscaped(s);
    UnslashIdentity(s);
  }

  // ---- pointers ----

  /** str.split("/"). */
  function SplitSlash(s: string): (r: seq<string>)
    ensures |r| >= 1
  {
    if s == [] then [[]]
    else
      var rest := SplitSlash(s[1..]);
      if s[0] == '/' then [[]] + rest else [[s[0]] + rest[0]] + rest[1..]
  }

  function IsDigit(c: char): bool { '0' <= c <= '9' }

  predicate AllDigits(s: string) {
    s != [] && forall i :: 0 <= i < |s| ==> IsDigit(s[i])
  }

  function ToNat(s: string): nat
    requires forall i :: 0 <= i < |s| ==> IsDigit(s[i])
  {
    if s == [] then 0
    else
      assert IsDigit(s[|s| - 1]);
      10 * ToNat(s[..|s| - 1]) + (s[|s| - 1] as int - '0' as int)
  }

  function StepInto(target: Json, part: string): Option<Json> {
    match target
    case Object(ms) => Lookup(ms, part)
    case Array(items) => if AllDigits(part) && ToNat(part) < |items| then Some(items[ToNat(part)]) else None
    case _ => None
  }

  function Follow(target: Json, parts: seq<string>): Option<Json>
    decreases |parts|
  {
    if parts == [] then Some(target)
    else
      match StepInto(target, parts[0])
      case None => None
      case Some(next) => Follow(next, parts[1..])
  }

  function DecodeAll(parts: seq<string>): (r: seq<string>)
    ensures |r| == |parts|
  {
    if parts == [] then [] else [Decode(parts[0])] + DecodeAll(parts[1..])
  }

  predicate IsLocal(reference: string) {
    |reference| >= 2 && reference[0] == '#' && reference[1] == '/'
  }

  /** What a local reference resolves to. */
  function Resolve(root: Json, reference: string): Option<Json>
    requires IsLocal(reference)
  {
    Follow(root, DecodeAll(SplitSlash(reference[2..])))
  }

  /** The reference that names a path of members. */
  function Pointer(path: seq<string>): string
    requires path != []
  {
    "#/" + JoinEncoded(path)
  }

  function JoinEncoded(path: seq<string>): string
    requires path != []
  {
    if |path| == 1 then Encode(path[0]) else Encode(path[0]) + "/" + JoinEncoded(path[1..])
  }

  lemma {:induction false} EncodeHasNoSlash(s: string)
    ensures '/' !in Encode(s)
  {
    if s != [] {
      EncodeHasNoSlash(s[1..]);
    }
  }

  lemma {:induction false} SplitNoSlash(s: string)
    requires '/' !in s
    ensures SplitSlash(s) == [s]
  {
    if s != [] {
      SplitNoSlash(s[1..]);
      assert [s[0]] + s[1..] == s;
    }
  }

  lemma {:induction false} SplitFirst(s: string, rest: string)
    requires '/' !in s
    ensures SplitSlash(s + "/" + rest) == [s] + SplitSlash(rest)
  {
    var all := s + "/" + rest;
    if s == [] {
      assert all[1..] == rest;
    } else {
      assert all[1..] == s[1..] + "/" + rest;
      SplitFirst(s[1..], rest);
      assert [s[0]] + s[1..] == s;
    }
  }

  lemma {:induction false} DecodeJoined(path: seq<string>)
    requires path != []
    ensures DecodeAll(SplitSlash(JoinEncoded(path))) == path
  {
    EncodeHasNoSlash(path[0]);
    DecodeEncode(path[0]);
    if |path| == 1 {
      SplitNoSlash(Encode(path[0]));
      assert DecodeAll([Encode(path[0])]) == [path[0]] + DecodeAll([]);
    } else {
      SplitFirst(Encode(path[0]), JoinEncoded(path[1..]));
      DecodeJoined(path[1..]);
      assert [path[0]] + path[1..] == path;
    }
  }

  /** Every place in a document can be named: the pointer of a path resolves to what the path leads to. */
  lemma PointerResolves(root: Json, path: seq<string>)
    requires path != []
    ensures Resolve(root, Pointer(path)) == Follow(root, path)
  {
    DecodeJoined(path);
    assert Pointer(path)[2..] == JoinEncoded(path);
  }

  // ---- array indices ----

  /** RFC 6901, section 4: an index has no leading zero. */
  predicate StrictIndex(part: string) {
    AllDigits(part) && (|part| > 1 ==> part[0] != '0')
  }

  function StrictStepInto(target: Json, part: string): Option<Json> {
    if target.Array? && !StrictIndex(part) then None else StepInto(target, part)
  }

  /** The installers are laxer than the standard exactly on in-range indices with leading zeros. */
  lemma LaxIndexIff(target: Json, part: string)
    ensures StepInto(target, part) != StrictStepInto(target, part) <==>
      target.Array? && AllDigits(part) && |part| > 1 && part[0] == '0' && ToNat(part) < |target.items|
  {
  }
}
