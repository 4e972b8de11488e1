/** What reading a JSON Lines file back yields, for every list of objects.

    Reading is not always the inverse of writing: a Python string may hold a lone high
    surrogate followed by a lone low one, both are escaped separately, and the reader joins
    them into one code point. `RoundTrip` says exactly when a list survives. */
module JsonRoundTrip {
  import opened Wrappers
  import opened Ordering
  import opened JsonLines
  import Decimal

  /* ---- what a reader makes of a printed value ---- */

  /** Adjacent surrogate halves joined, from the left. */
  function Merge(s: Text): (r: Text) {
    if s == [] then []
    else if |s| >= 2 && High(s[0]) && Low(s[1]) then [Join(s[0], s[1])] + Merge(s[2..])
    else [s[0]] + Merge(s[1..])
  }

  predicate PairAt(s: Text, i: nat) { i + 1 < |s| && High(s[i]) && Low(s[i + 1]) }

  predicate PairFree(s: Text) { forall i :: 0 <= i < |s| ==> !PairAt(s, i) }

  function Reading(v: Json): Json
    decreases v, 1
  {
    match v
    case Str(s) => Str(Merge(s))
    case Arr(a) => Arr(seq(|a|, i requires 0 <= i < |a| => Reading(a[i])))
    case Obj(m) => Obj(ReadMembers(v, SortedKeys(m), map[]))
    case _ => v
  }

  function ReadMembers(v: Json, keys: seq<Text>, acc: map<Text, Json>): map<Text, Json>
    requires v.Obj? && forall k :: k in keys ==> k in v.members
    decreases v, 0, |keys|
  {
    if keys == [] then acc
    else ReadMembers(v, keys[1..], acc[Merge(keys[0]) := Reading(v.members[keys[0]])])
  }

  /** No string inside the value, keys included, holds a split surrogate pair. */
  ghost predicate Faithful(v: Json) {
    match v
    case Str(s) => PairFree(s)
    case Arr(a) => forall i :: 0 <= i < |a| ==> Faithful(a[i])
    case Obj(m) => forall k :: k in m ==> PairFree(k) && Faithful(m[k])
    case _ => true
  }

  lemma PairFreeTail(s: Text)
    requires s != []
    ensures PairFree(s) <==> !PairAt(s, 0) && PairFree(s[1..])
  {
    var t := s[1..];
    assert forall i :: 0 < i < |s| ==> PairAt(s, i) == PairAt(t, i - 1);
    if PairFree(s) {
      forall i | 0 <= i < |t| ensures !PairAt(t, i) { assert !PairAt(s, i + 1); }
    }
    if !PairAt(s, 0) && PairFree(t) {
      forall i | 0 <= i < |s| ensures !PairAt(s, i) {
        if i > 0 { assert !PairAt(t, i - 1); }
      }
    }
  }

  lemma {:induction false} MergeShape(s: Text)
    ensures PairFree(s) ==> Merge(s) == s
    ensures !PairFree(s) ==> |Merge(s)| < |s|
    ensures PairFree(Merge(s)) && |Merge(s)| <= |s|
    ensures s != [] ==> Merge(s) != [] && (Low(Merge(s)[0]) ==> Merge(s)[0] == s[0])
  {
    if s == [] {
    } else if PairAt(s, 0) {
      var r := Merge(s[2..]);
      MergeShape(s[2..]);
      assert Merge(s) == [Join(s[0], s[1])] + r && Merge(s)[1..] == r;
      PairFreeTail(Merge(s));
    } else {
      var r := Merge(s[1..]);
      MergeShape(s[1..]);
      PairFreeTail(s);
      assert s == [s[0]] + s[1..];
      assert Merge(s) == [s[0]] + r && Merge(s)[1..] == r;
      PairFreeTail(Merge(s));
    }
  }

  /* ---- strings ---- */

  lemma HexDigitValue(d: int)
    requires 0 <= d < 16
    ensures IsHex(HexDigit(d)) && HexValue(HexDigit(d)) == d
  {
  }

  lemma HexRoundTrip(n: int, tail: string)
    requires 0 <= n < 0x1_0000
    ensures StartsHex4(Hex4(n) + tail) && UnHex4(Hex4(n) + tail) == n
    ensures (Hex4(n) + tail)[4..] == tail
  {
    HexDigitValue(n / 16 / 16 / 16);
    HexDigitValue(n / 16 / 16 % 16);
    HexDigitValue(n / 16 % 16);
    HexDigitValue(n % 16);
    assert (Hex4(n) + tail)[..4] == Hex4(n);
  }

  /** Escapes other than `\u`, and what each denotes. */
  predicate Plain(e: string, c: Code) {
    || (|e| == 1 && 0x20 <= c <= 0x7E && e[0] == c as char && e[0] != '\\' && e[0] != '\"')
    || (|e| == 2 && e[0] == '\\' && e[1] != 'u' && ShortEscape(e[1]) == Some(c))
  }

  /** The reader turns the letter of a short escape back into its code point. */
  lemma ShortLetters(c: Code)
    ensures ShortLetter(c).Some? ==>
              ShortLetter(c).value != 'u' && ShortEscape(ShortLetter(c).value) == Some(c) && c <= 0x7E
  {
  }

  function Astral(c: Code): string
    requires c >= 0x1_0000
  {
    "\\u" + Hex4(0xD800 + (c - 0x1_0000) / 0x400) + "\\u" + Hex4(0xDC00 + (c - 0x1_0000) % 0x400)
  }

  lemma EscapeKinds(c: Code)
    ensures
      var e := EscapeCode(c);
      || (Plain(e, c) && c <= 0x7E)
      || (c < 0x1_0000 && e == "\\u" + Hex4(c))
      || (c >= 0x1_0000 && e == Astral(c))
  {
    ShortLetters(c);
  }

  /** Whether the reader, after a high half, finds another `\u` escape. */
  predicate EscapeAhead(tail: string) {
    |tail| >= 2 && tail[0] == '\\' && tail[1] == 'u'
  }

  /** A tail on which the reader's lookahead finds the low half `lo`, and what follows it. */
  predicate FindsLow(tail: string, lo: Code, more: string) {
    EscapeAhead(tail) && StartsHex4(tail[2..]) && UnHex4(tail[2..]) == lo && tail[6..] == more
  }

  lemma LookaheadHex(n: Code, more: string)
    requires n < 0x1_0000
    ensures StartsHex4(("\\u" + Hex4(n) + more)[2..])
    ensures FindsLow("\\u" + Hex4(n) + more, n, more)
  {
    var tail := "\\u" + Hex4(n) + more;
    assert tail[2..] == Hex4(n) + more;
    HexRoundTrip(n, more);
    assert tail[6..] == tail[2..][4..];
  }

  lemma LookaheadOne(c: Code, e: string, more: string)
    requires Plain(e, c) || (c < 0x1_0000 && e == "\\u" + Hex4(c)) || (c >= 0x1_0000 && e == Astral(c))
    ensures Low(c) && !Plain(e, c) ==> FindsLow(e + more, c, more)
    ensures !Low(c) && EscapeAhead(e + more) ==>
              StartsHex4((e + more)[2..]) && !Low(UnHex4((e + more)[2..]))
  {
    if Plain(e, c) {
    } else if c < 0x1_0000 {
      LookaheadHex(c, more);
    } else {
      var hi := 0xD800 + (c - 0x1_0000) / 0x400;
      var others := "\\u" + Hex4(0xDC00 + (c - 0x1_0000) % 0x400) + more;
      LookaheadHex(hi, others);
      assert e + more == "\\u" + Hex4(hi) + others;
    }
  }

  /** The escapes that follow a code point decide whether the reader joins it with the next. */
  lemma Lookahead(s: Text, rest: string)
    ensures
      var tail := Escape(s) + "\"" + rest;
      && (s != [] && Low(s[0]) ==> FindsLow(tail, s[0], Escape(s[1..]) + "\"" + rest))
      && ((s == [] || !Low(s[0])) && EscapeAhead(tail) ==>
            StartsHex4(tail[2..]) && !Low(UnHex4(tail[2..])))
  {
    var tail := Escape(s) + "\"" + rest;
    if s == [] {
      assert tail == "\"" + rest && tail[0] == '\"';
    } else {
      var more := Escape(s[1..]) + "\"" + rest;
      assert tail == EscapeCode(s[0]) + more;
      EscapeKinds(s[0]);
      LookaheadOne(s[0], EscapeCode(s[0]), more);
    }
  }

  lemma ParsePlain(c: Code, e: string, tail: string)
    requires Plain(e, c)
    ensures ParseString(e + tail) == Cons(c, ParseString(tail))
  {
    assert (e + tail)[|e|..] == tail;
  }

  /** A `\uXXXX` escape that the reader does not join with what follows. */
  lemma ParseAlone(c: Code, tail: string)
    requires c < 0x1_0000
    requires High(c) && EscapeAhead(tail) ==> StartsHex4(tail[2..]) && !Low(UnHex4(tail[2..]))
    ensures ParseString("\\u" + Hex4(c) + tail) == Cons(c, ParseString(tail))
  {
    var input := "\\u" + Hex4(c) + tail;
    assert input[2..] == Hex4(c) + tail;
    HexRoundTrip(c, tail);
    assert input[6..] == tail;
    if |tail| >= 2 {
      assert input[6] == tail[0] && input[7] == tail[1] && input[8..] == tail[2..];
    }
  }

  /** A `\uXXXX` escape of a high half, joined with the low half that follows. */
  lemma ParsePair(hi: Code, tail: string, lo: Code, more: string)
    requires High(hi) && Low(lo) && FindsLow(tail, lo, more)
    ensures ParseString("\\u" + Hex4(hi) + tail) == Cons(Join(hi, lo), ParseString(more))
  {
    var input := "\\u" + Hex4(hi) + tail;
    assert input[2..] == Hex4(hi) + tail;
    HexRoundTrip(hi, tail);
    assert input[6] == tail[0] && input[7] == tail[1] && input[8..] == tail[2..];
    assert input[12..] == tail[6..];
  }

  lemma AstralText(hi: string, lo: string, tail: string)
    ensures "\\u" + hi + "\\u" + lo + tail == "\\u" + hi + ("\\u" + lo + tail)
  {
  }

  lemma ParseAstral(c: Code, tail: string)
    requires c >= 0x1_0000
    ensures ParseString(Astral(c) + tail) == Cons(c, ParseString(tail))
  {
    var hi := 0xD800 + (c - 0x1_0000) / 0x400;
    var lo := 0xDC00 + (c - 0x1_0000) % 0x400;
    var second := "\\u" + Hex4(lo) + tail;
    AstralText(Hex4(hi), Hex4(lo), tail);
    LookaheadHex(lo, tail);
    ParsePair(hi, second, lo, tail);
    assert Join(hi, lo) == c;
  }

  lemma {:induction false} ParseEscape(s: Text, rest: string)
    ensures ParseString(Escape(s) + "\"" + rest) == Done(Merge(s), rest)
    decreases |s|
  {
    if s != [] {
      var c := s[0];
      var tail := Escape(s[1..]) + "\"" + rest;
      assert Escape(s) + "\"" + rest == EscapeCode(c) + tail;
      EscapeKinds(c);
      ParseEscape(s[1..], rest);
      if Plain(EscapeCode(c), c) {
        ParsePlain(c, EscapeCode(c), tail);
      } else if c >= 0x1_0000 {
        ParseAstral(c, tail);
      } else {
        Lookahead(s[1..], rest);
        if High(c) && |s| >= 2 && Low(s[1]) {
          assert s[1..][1..] == s[2..];
          ParseEscape(s[2..], rest);
          ParsePair(c, tail, s[1], Escape(s[2..]) + "\"" + rest);
        } else {
          ParseAlone(c, tail);
        }
      }
    }
  }

  /* ---- numbers ---- */

  /** What may follow a printed value: nothing, or a separator. */
  predicate Stops(rest: string) {
    rest == "" || rest[0] == ',' || rest[0] == ']' || rest[0] == '}'
  }

  lemma {:induction false} RunStops(t: string, rest: string)
    requires Stops(rest)
    ensures Run(t + rest) == Run(t)
  {
    if t == "" {
      assert t + rest == rest;
    } else {
      assert (t + rest)[1..] == t[1..] + rest;
      RunStops(t[1..], rest);
    }
  }

  lemma IntStops(t: string, rest: string)
    requires Stops(rest)
    ensures IntLength(t + rest) == IntLength(t)
  {
    if t == "" {
      assert t + rest == rest;
    } else {
      var sign := SignLength(t);
      assert (t + rest)[sign..] == t[sign..] + rest;
      RunStops(t[sign..], rest);
    }
  }

  lemma FractionStops(t: string, rest: string)
    requires Stops(rest)
    ensures FractionLength(t + rest) == FractionLength(t)
  {
    if t == "" {
      assert t + rest == rest;
    } else {
      assert (t + rest)[1..] == t[1..] + rest;
      RunStops(t[1..], rest);
    }
  }

  lemma ExponentStops(t: string, rest: string)
    requires Stops(rest)
    ensures ExponentLength(t + rest) == ExponentLength(t)
  {
    if t == "" {
      assert t + rest == rest;
    } else if t[0] == 'e' || t[0] == 'E' {
      var from := 1 + ExponentSign(t);
      assert ExponentSign(t + rest) == ExponentSign(t);
      assert (t + rest)[from..] == t[from..] + rest;
      RunStops(t[from..], rest);
    }
  }

  lemma TailStops(t: string, rest: string)
    requires Stops(rest)
    ensures TailLength(t + rest) == TailLength(t)
  {
    var f := FractionLength(t);
    FractionStops(t, rest);
    assert (t + rest)[f..] == t[f..] + rest;
    ExponentStops(t[f..], rest);
  }

  lemma NumberStops(t: string, rest: string)
    requires Stops(rest)
    ensures NumberLength(t + rest) == NumberLength(t)
  {
    var i := IntLength(t);
    IntStops(t, rest);
    assert (t + rest)[i..] == t[i..] + rest;
    TailStops(t[i..], rest);
  }

  lemma {:induction false} RunAll(t: string)
    requires Decimal.AllDigits(t)
    ensures Run(t) == |t|
  {
    if t != "" { RunAll(t[1..]); }
  }

  lemma SignedLength(i: int)
    ensures
      var t := Decimal.Signed(i);
      t != "" && IntLength(t) == NumberLength(t) == |t|
  {
    var n := if i < 0 then -i else i;
    var digits := Decimal.Digits(n);
    var t := Decimal.Signed(i);
    Decimal.ValueOfDigits(n);
    RunAll(digits);
    assert t[SignLength(t)..] == digits;
    assert n == 0 ==> digits == "0";
  }

  lemma ParseInt(i: int, rest: string)
    requires Stops(rest)
    ensures ParseNumber(Decimal.Signed(i) + rest) == Done(Int(i), rest)
  {
    var t := Decimal.Signed(i);
    var digits := Decimal.Digits(if i < 0 then -i else i);
    Decimal.ValueOfDigits(if i < 0 then -i else i);
    SignedLength(i);
    NumberStops(t, rest);
    IntStops(t, rest);
    assert SignLength(t + rest) == SignLength(t) == if i < 0 then 1 else 0;
    assert (t + rest)[SignLength(t)..|t|] == digits;
    assert (t + rest)[|t|..] == rest;
  }

  lemma ParseFloat(t: string, rest: string)
    requires IsFloat(t) && Stops(rest)
    ensures ParseNumber(t + rest) == Done(Float(t), rest)
  {
    NumberStops(t, rest);
    IntStops(t, rest);
    assert (t + rest)[..|t|] == t && (t + rest)[|t|..] == rest;
  }

  predicate NumberStart(t: string) {
    t != "" && (t[0] == '-' || Decimal.IsDigit(t[0]))
  }

  lemma NumbersStart(i: int, t: string)
    ensures NumberStart(Decimal.Signed(i))
    ensures IsFloat(t) ==> NumberStart(t)
  {
    Decimal.ValueOfDigits(if i < 0 then -i else i);
  }

  lemma NotWord(s: string, word: string)
    requires s != "" && word != "" && s[0] != word[0]
    ensures !StartsWith(s, word)
  {
    assert |word| <= |s| ==> s[..|word|][0] == s[0];
  }

  lemma NumberIsValue(s: string)
    requires NumberStart(s)
    ensures ParseValue(s) == ParseNumber(s)
  {
    NotWord(s, "null");
    NotWord(s, "true");
    NotWord(s, "false");
    assert ParseValue(s) == ParseScalar(s);
  }

  /* ---- values ---- */

  /** No space where the reader would skip it: printed values start with a token. */
  predicate Tight(s: string) { s != "" && !IsSpace(s[0]) }

  lemma PrintHead(v: Json)
    requires WellFormed(v)
    ensures Tight(Print(v)) && Print(v)[0] != ']' && Print(v)[0] != '}'
  {
    match v
    case Int(i) => NumbersStart(i, "");
    case Float(t) => NumbersStart(0, t);
    case _ =>
  }

  lemma ItemsText(v: Json, i: nat, rest: string)
    requires v.Arr? && WellFormed(v) && i < |v.items|
    ensures Tight(PrintItems(v, i)) && PrintItems(v, i)[0] != ']'
    ensures
      PrintItems(v, i) + "]" + rest ==
      Print(v.items[i]) + (if i + 1 == |v.items| then "]" + rest else "," + (PrintItems(v, i + 1) + "]" + rest))
  {
    PrintHead(v.items[i]);
    assert PrintItems(v, i)[0] == Print(v.items[i])[0];
  }

  lemma MembersText(v: Json, keys: seq<Text>, rest: string)
    requires v.Obj? && keys != [] && forall k :: k in keys ==> k in v.members
    ensures PrintMembers(v, keys) != "" && PrintMembers(v, keys)[0] == '\"'
    ensures
      PrintMembers(v, keys) + "}" + rest ==
      Quote(keys[0]) + ":" + Print(v.members[keys[0]]) +
      (if |keys| == 1 then "}" + rest else "," + (PrintMembers(v, keys[1..]) + "}" + rest))
  {
    var head := Quote(keys[0]) + ":" + Print(v.members[keys[0]]);
    if |keys| == 1 {
      assert PrintMembers(v, keys) == head;
    } else {
      assert PrintMembers(v, keys) == head + ("," + PrintMembers(v, keys[1..]));
    }
    assert head[0] == Quote(keys[0])[0];
  }

  /** Words and numbers. */
  lemma ParsePrintScalar(v: Json, rest: string)
    requires WellFormed(v) && Stops(rest) && !v.Str? && !v.Arr? && !v.Obj?
    ensures ParseValue(Print(v) + rest) == Done(v, rest)
  {
    var input := Print(v) + rest;
    match v
    case Null =>
      assert input[..4] == "null" && input[4..] == rest;
    case Bool(b) =>
      if b {
        NotWord(input, "null");
        assert input[..4] == "true" && input[4..] == rest;
      } else {
        NotWord(input, "null");
        NotWord(input, "true");
        assert input[..5] == "false" && input[5..] == rest;
      }
    case Int(i) =>
      ParseInt(i, rest);
      NumbersStart(i, "");
      NumberIsValue(input);
    case Float(t) =>
      ParseFloat(t, rest);
      NumbersStart(0, t);
      NumberIsValue(input);
  }

  lemma ParseBracket(body: string)
    requires Tight(body)
    ensures body[0] == ']' ==> ParseValue("[" + body) == Done(Arr([]), body[1..])
    ensures body[0] != ']' ==> ParseValue("[" + body) == ParseItems(body, [])
  {
    assert ("[" + body)[1..] == body;
  }

  lemma ParseBrace(body: string)
    requires Tight(body)
    ensures body[0] == '}' ==> ParseValue("{" + body) == Done(Obj(map[]), body[1..])
    ensures body[0] != '}' ==> ParseValue("{" + body) == ParseMembers(body, map[])
  {
    assert ("{" + body)[1..] == body;
  }

  /** The readings of the elements from index `i` on. */
  function ReadItems(v: Json, i: nat): seq<Json>
    requires v.Arr? && i <= |v.items|
    decreases |v.items| - i
  {
    if i == |v.items| then [] else [Reading(v.items[i])] + ReadItems(v, i + 1)
  }

  lemma {:induction false} ReadItemsAll(v: Json, i: nat)
    requires v.Arr? && i <= |v.items|
    ensures |ReadItems(v, i)| == |v.items| - i
    ensures forall j :: i <= j < |v.items| ==> ReadItems(v, i)[j - i] == Reading(v.items[j])
    decreases |v.items| - i
  {
    if i < |v.items| { ReadItemsAll(v, i + 1); }
  }

  lemma ReadingArray(v: Json)
    requires v.Arr?
    ensures Reading(v) == Arr(ReadItems(v, 0))
  {
    ReadItemsAll(v, 0);
  }

  lemma ParsePrintString(s: Text, rest: string)
    ensures ParseValue(Quote(s) + rest) == Done(Str(Merge(s)), rest)
  {
    var input := Quote(s) + rest;
    assert input[1..] == Escape(s) + "\"" + rest;
    ParseEscape(s, rest);
  }

  /** Every printed value parses to its reading, wherever it stands. */
  lemma {:induction false} ParsePrint(v: Json, rest: string)
    requires WellFormed(v) && Stops(rest)
    ensures ParseValue(Print(v) + rest) == Done(Reading(v), rest)
    decreases v, 1
  {
    match v
    case Str(s) => ParsePrintString(s, rest);
    case Arr(a) => ParsePrintArray(v, rest);
    case Obj(m) => ParsePrintObject(v, rest);
    case _ => ParsePrintScalar(v, rest);
  }

  lemma {:induction false} ParsePrintArray(v: Json, rest: string)
    requires v.Arr? && WellFormed(v) && Stops(rest)
    ensures ParseValue(Print(v) + rest) == Done(Reading(v), rest)
    decreases v, 0, |v.items| + 1
  {
    var body := PrintItems(v, 0) + "]" + rest;
    assert Print(v) + rest == "[" + body;
    ReadingArray(v);
    if v.items == [] {
      ParseBracket(body);
      assert body[1..] == rest;
    } else {
      ItemsText(v, 0, rest);
      ParseBracket(body);
      ParsePrintItems(v, 0, [], rest);
      assert [] + ReadItems(v, 0) == ReadItems(v, 0);
    }
  }

  lemma {:induction false} ParsePrintObject(v: Json, rest: string)
    requires v.Obj? && WellFormed(v) && Stops(rest)
    ensures ParseValue(Print(v) + rest) == Done(Reading(v), rest)
    decreases v, 0, |SortedKeys(v.members)| + 2
  {
    var keys := SortedKeys(v.members);
    var body := PrintMembers(v, keys) + "}" + rest;
    assert Print(v) + rest == "{" + body;
    if keys == [] {
      assert Reading(v) == Obj(map[]);
      ParseBrace(body);
      assert body[1..] == rest;
    } else {
      assert Reading(v) == Obj(ReadMembers(v, keys, map[]));
      ParseObjectBody(v, keys, rest);
    }
  }

  lemma {:induction false} ParseObjectBody(v: Json, keys: seq<Text>, rest: string)
    requires v.Obj? && WellFormed(v) && keys != [] && Stops(rest)
    requires forall k :: k in keys ==> k in v.members
    ensures
      ParseValue("{" + (PrintMembers(v, keys) + "}" + rest)) ==
      Done(Obj(ReadMembers(v, keys, map[])), rest)
    decreases v, 0, |keys| + 1
  {
    MembersText(v, keys, rest);
    ParseBrace(PrintMembers(v, keys) + "}" + rest);
    ParsePrintMembers(v, keys, map[], rest);
  }

  lemma ItemsLast(e: string, x: Json, acc: seq<Json>, rest: string)
    requires ParseValue(e + ("]" + rest)) == Done(x, "]" + rest)
    ensures ParseItems(e + ("]" + rest), acc) == Done(Arr(acc + [x]), rest)
  {
    assert ("]" + rest)[1..] == rest;
  }

  lemma ItemsNext(e: string, x: Json, acc: seq<Json>, tail: string)
    requires ParseValue(e + ("," + tail)) == Done(x, "," + tail) && Tight(tail)
    ensures ParseItems(e + ("," + tail), acc) == ParseItems(tail, acc + [x])
  {
    assert ("," + tail)[1..] == tail;
  }

  /** What is left to read after one member and the value `x`. */
  function AfterMember(acc: map<Text, Json>, after: string): Parse<Json>
    requires after != ""
  {
    if after[0] == '}' then Done(Obj(acc), after[1..])
    else if after[0] == ',' then ParseMembers(SkipSpace(after[1..]), acc)
    else Fail
  }

  lemma AfterBrace(acc: map<Text, Json>, rest: string)
    ensures AfterMember(acc, "}" + rest) == Done(Obj(acc), rest)
  {
    assert ("}" + rest)[1..] == rest;
  }

  lemma AfterComma(acc: map<Text, Json>, tail: string)
    requires Tight(tail)
    ensures AfterMember(acc, "," + tail) == ParseMembers(tail, acc)
  {
    assert ("," + tail)[1..] == tail;
  }

  lemma MemberStep(s: string, k: Text, x: Json, value: string, after: string, acc: map<Text, Json>)
    requires ParseString(s) == Done(k, ":" + value) && Tight(value)
    requires ParseValue(value) == Done(x, after) && Tight(after)
    ensures ParseMembers("\"" + s, acc) == AfterMember(acc[k := x], after)
  {
    assert ("\"" + s)[1..] == s;
    assert (":" + value)[1..] == value;
  }

  lemma KeyText(escaped: string, e: string, after: string)
    ensures "\"" + escaped + "\"" + ":" + e + after == "\"" + (escaped + "\"" + (":" + (e + after)))
  {
    assert "\"" + escaped + "\"" + ":" + e + after == "\"" + escaped + "\"" + ":" + (e + after);
    assert "\"" + escaped + "\"" + ":" + (e + after) == "\"" + escaped + "\"" + (":" + (e + after));
    assert "\"" + escaped + "\"" + (":" + (e + after)) == "\"" + (escaped + "\"" + (":" + (e + after)));
  }

  lemma MemberKey(k: Text, e: string, x: Json, after: string, acc: map<Text, Json>)
    requires ParseValue(e + after) == Done(x, after) && Tight(e) && Tight(after)
    ensures ParseMembers(Quote(k) + ":" + e + after, acc) == AfterMember(acc[Merge(k) := x], after)
  {
    var colon := ":" + (e + after);
    KeyText(Escape(k), e, after);
    ParseEscape(k, colon);
    MemberStep(Escape(k) + "\"" + colon, Merge(k), x, e + after, after, acc);
  }

  lemma {:induction false} ParsePrintItems(v: Json, i: nat, acc: seq<Json>, rest: string)
    requires v.Arr? && WellFormed(v) && i < |v.items|
    requires Stops(rest)
    ensures ParseItems(PrintItems(v, i) + "]" + rest, acc) == Done(Arr(acc + ReadItems(v, i)), rest)
    decreases v, 0, |v.items| - i
  {
    var x := v.items[i];
    ItemsText(v, i, rest);
    if i + 1 == |v.items| {
      ParsePrint(x, "]" + rest);
      ItemsLast(Print(x), Reading(x), acc, rest);
      assert ReadItems(v, i) == [Reading(x)];
    } else {
      var tail := PrintItems(v, i + 1) + "]" + rest;
      ItemsText(v, i + 1, rest);
      ParsePrint(x, "," + tail);
      ParsePrintItems(v, i + 1, acc + [Reading(x)], rest);
      ItemsNext(Print(x), Reading(x), acc, tail);
      assert acc + [Reading(x)] + ReadItems(v, i + 1) == acc + ReadItems(v, i);
    }
  }

  lemma {:induction false} ParsePrintMembers(v: Json, keys: seq<Text>, acc: map<Text, Json>, rest: string)
    requires v.Obj? && WellFormed(v) && keys != []
    requires forall k :: k in keys ==> k in v.members
    requires Stops(rest)
    ensures ParseMembers(PrintMembers(v, keys) + "}" + rest, acc) == Done(Obj(ReadMembers(v, keys, acc)), rest)
    decreases v, 0, |keys|
  {
    var next := OneMember(v, keys, acc, rest);
    if |keys| == 1 {
      AfterBrace(next, rest);
    } else {
      var tail := PrintMembers(v, keys[1..]) + "}" + rest;
      MembersText(v, keys[1..], rest);
      AfterComma(next, tail);
      ParsePrintMembers(v, keys[1..], next, rest);
    }
  }

  lemma {:induction false} OneMember(v: Json, keys: seq<Text>, acc: map<Text, Json>, rest: string)
    returns (next: map<Text, Json>)
    requires v.Obj? && WellFormed(v) && keys != []
    requires forall k :: k in keys ==> k in v.members
    ensures ReadMembers(v, keys, acc) == ReadMembers(v, keys[1..], next)
    ensures |keys| == 1 ==> ReadMembers(v, keys, acc) == next
    ensures
      ParseMembers(PrintMembers(v, keys) + "}" + rest, acc) ==
      AfterMember(next, if |keys| == 1 then "}" + rest else "," + (PrintMembers(v, keys[1..]) + "}" + rest))
    decreases v, 0, 0
  {
    var x := v.members[keys[0]];
    var after := if |keys| == 1 then "}" + rest else "," + (PrintMembers(v, keys[1..]) + "}" + rest);
    next := acc[Merge(keys[0]) := Reading(x)];
    PrintHead(x);
    MembersText(v, keys, rest);
    ParsePrint(x, after);
    MemberKey(keys[0], Print(x), Reading(x), after, acc);
  }

  /* ---- exactly when a value survives ---- */

  lemma {:induction false} ReadKeys(v: Json, keys: seq<Text>, acc: map<Text, Json>)
    requires v.Obj? && forall k :: k in keys ==> k in v.members
    requires forall k :: k in acc ==> PairFree(k)
    ensures forall k :: k in ReadMembers(v, keys, acc) ==> PairFree(k)
    decreases |keys|
  {
    if keys != [] {
      MergeShape(keys[0]);
      ReadKeys(v, keys[1..], acc[Merge(keys[0]) := Reading(v.members[keys[0]])]);
    }
  }

  lemma {:induction false} ReadPairFree(v: Json, keys: seq<Text>, acc: map<Text, Json>)
    requires v.Obj? && forall k :: k in keys ==> k in v.members && PairFree(k)
    requires Ascending(keys)
    ensures ReadMembers(v, keys, acc).Keys == acc.Keys + set k | k in keys
    ensures forall k :: k in keys ==> ReadMembers(v, keys, acc)[k] == Reading(v.members[k])
    ensures forall k :: k in acc && k !in keys ==> ReadMembers(v, keys, acc)[k] == acc[k]
    decreases |keys|
  {
    if keys != [] {
      MergeShape(keys[0]);
      assert forall k :: k in keys <==> k == keys[0] || k in keys[1..] by { assert keys == [keys[0]] + keys[1..]; }
      assert keys[0] !in keys[1..] by { LessTotal(keys[0], keys[0]); }
      ReadPairFree(v, keys[1..], acc[keys[0] := Reading(v.members[keys[0]])]);
    }
  }

  lemma {:induction false} ReadingFaithful(v: Json)
    ensures Reading(v) == v <==> Faithful(v)
    decreases v
  {
    match v
    case Str(s) => MergeShape(s);
    case Arr(a) =>
      forall i | 0 <= i < |a| ensures Reading(a[i]) == a[i] <==> Faithful(a[i]) { ReadingFaithful(a[i]); }
      ReadItemsAll(v, 0);
      assert Reading(v) == v <==> forall i :: 0 <= i < |a| ==> Reading(a[i]) == a[i];
    case Obj(m) => ReadingFaithfulObject(v);
    case _ =>
  }

  lemma {:induction false} ReadingFaithfulObject(v: Json)
    requires v.Obj?
    ensures Reading(v) == v <==> Faithful(v)
    decreases v, 0
  {
    var m, keys := v.members, SortedKeys(v.members);
    var r := ReadMembers(v, keys, map[]);
    assert Reading(v) == Obj(r);
    ReadKeys(v, keys, map[]);
    if forall k :: k in m ==> PairFree(k) {
      ReadPairFree(v, keys, map[]);
      assert r.Keys == m.Keys;
      forall k | k in m ensures r[k] == m[k] <==> Faithful(m[k]) { ReadingFaithful(m[k]); }
      assert (forall k :: k in m ==> r[k] == m[k]) ==> r == m;
    }
  }

  /* ---- lines ---- */

  predicate Printable(s: string) {
    forall i :: 0 <= i < |s| ==> ' ' <= s[i] <= '~'
  }

  lemma HexPrintable(n: int)
    requires 0 <= n < 0x1_0000
    ensures Printable(Hex4(n))
  {
    assert forall d :: 0 <= d < 16 ==> ' ' <= HexDigit(d) <= '~';
  }

  /** `\uXXXX` for a code below 0x1_0000. */
  lemma UnicodePrintable(n: int)
    requires 0 <= n < 0x1_0000
    ensures Printable("\\u" + Hex4(n))
  {
    HexPrintable(n);
  }

  lemma AstralPrintable(c: Code)
    requires c >= 0x1_0000
    ensures Printable(Astral(c))
  {
    var hi, lo := 0xD800 + (c - 0x1_0000) / 0x400, 0xDC00 + (c - 0x1_0000) % 0x400;
    UnicodePrintable(hi);
    UnicodePrintable(lo);
    assert Astral(c) == ("\\u" + Hex4(hi)) + ("\\u" + Hex4(lo));
  }

  lemma CodePrintable(c: Code)
    ensures Printable(EscapeCode(c))
  {
    EscapeKinds(c);
    if c >= 0x1_0000 {
      AstralPrintable(c);
    } else if !Plain(EscapeCode(c), c) {
      UnicodePrintable(c);
    } else {
      ShortLetters(c);
    }
  }

  lemma {:induction false} EscapePrintable(s: Text)
    ensures Printable(Escape(s))
  {
    if s != [] {
      CodePrintable(s[0]);
      EscapePrintable(s[1..]);
    }
  }

  lemma DigitsPrintable(head: string, digits: string)
    requires Printable(head) && Decimal.AllDigits(digits)
    ensures Printable(head + digits)
  {
  }

  lemma IntPrintable(t: string)
    ensures Printable(t[..IntLength(t)])
  {
    var sign, i := SignLength(t), IntLength(t);
    if i > 0 {
      IntDigits(t);
      DigitsPrintable(t[..sign], t[sign..i]);
      assert t[..i] == t[..sign] + t[sign..i];
    }
  }

  lemma FractionPrintable(t: string)
    ensures Printable(t[..FractionLength(t)])
  {
    var f := FractionLength(t);
    if f > 0 {
      RunDigits(t[1..]);
      DigitsPrintable(t[..1], t[1..][..f - 1]);
      assert t[..f] == t[..1] + t[1..][..f - 1];
    }
  }

  lemma ExponentPrintable(e: string)
    requires ExponentLength(e) == |e|
    ensures Printable(e)
  {
    if e != "" {
      var from := 1 + ExponentSign(e);
      var digits := e[from..];
      RunDigits(digits);
      assert digits[..Run(digits)] == digits;
      DigitsPrintable(e[..from], digits);
      assert e == e[..from] + digits;
    }
  }

  lemma PrintableThree(a: string, b: string, c: string)
    requires Printable(a) && Printable(b) && Printable(c)
    ensures Printable(a + b + c)
  {
  }

  lemma QuotePrintable(s: Text)
    ensures Printable(Quote(s))
  {
    EscapePrintable(s);
    PrintableThree("\"", Escape(s), "\"");
  }

  lemma TailPrintable(t: string)
    requires TailLength(t) == |t|
    ensures Printable(t)
  {
    var f := FractionLength(t);
    FractionPrintable(t);
    ExponentPrintable(t[f..]);
    assert t == t[..f] + t[f..];
  }

  lemma FloatPrintable(t: string)
    requires IsFloat(t)
    ensures Printable(t)
  {
    var i := IntLength(t);
    IntPrintable(t);
    TailPrintable(t[i..]);
    assert t == t[..i] + t[i..];
  }

  lemma {:induction false} PrintPrintable(v: Json)
    requires WellFormed(v)
    ensures Printable(Print(v))
    decreases v, 1
  {
    match v
    case Int(i) => Decimal.ValueOfDigits(if i < 0 then -i else i);
    case Float(t) => FloatPrintable(t);
    case Str(s) => QuotePrintable(s);
    case Arr(a) =>
      ItemsPrintable(v, 0);
      PrintableThree("[", PrintItems(v, 0), "]");
    case Obj(m) =>
      MembersPrintable(v, SortedKeys(m));
      PrintableThree("{", PrintMembers(v, SortedKeys(m)), "}");
    case _ =>
  }

  lemma {:induction false} ItemsPrintable(v: Json, i: nat)
    requires v.Arr? && WellFormed(v) && i <= |v.items|
    ensures Printable(PrintItems(v, i))
    decreases v, 0, |v.items| - i
  {
    if i < |v.items| {
      PrintPrintable(v.items[i]);
      ItemsPrintable(v, i + 1);
    }
  }

  lemma {:induction false} MembersPrintable(v: Json, keys: seq<Text>)
    requires v.Obj? && WellFormed(v) && forall k :: k in keys ==> k in v.members
    ensures Printable(PrintMembers(v, keys))
    decreases v, 0, |keys|
  {
    if keys != [] {
      QuotePrintable(keys[0]);
      PrintPrintable(v.members[keys[0]]);
      PrintableThree(Quote(keys[0]), ":", Print(v.members[keys[0]]));
      MembersPrintable(v, keys[1..]);
    }
  }

  function Prints(records: seq<Json>): seq<string> {
    seq(|records|, i requires 0 <= i < |records| => Print(records[i]))
  }

  lemma {:induction false} LineEnds(line: string, more: string)
    requires Printable(line)
    ensures LineLength(line + "\n" + more) == |line|
  {
    if line == "" {
      assert line + "\n" + more == "\n" + more;
    } else {
      assert (line + "\n" + more)[1..] == line[1..] + "\n" + more;
      LineEnds(line[1..], more);
    }
  }

  lemma SplitLine(line: string, more: string)
    requires Printable(line)
    ensures SplitLines(line + "\n" + more) == [line] + SplitLines(more)
  {
    var text := line + "\n" + more;
    LineEnds(line, more);
    assert text[..|line|] == line && text[|line| + 1..] == more;
  }

  lemma DumpCons(r: Json, rs: seq<Json>)
    ensures Dump([r] + rs) == Print(r) + "\n" + Dump(rs) && Prints([r] + rs) == [Print(r)] + Prints(rs)
  {
    assert ([r] + rs)[1..] == rs;
  }

  /** No printed record holds a character at which `splitlines` would cut it. */
  lemma {:induction false} SplitDump(records: seq<Json>)
    requires forall i :: 0 <= i < |records| ==> WellFormed(records[i])
    ensures SplitLines(Dump(records)) == Prints(records)
  {
    if records != [] {
      var r, rs := records[0], records[1..];
      assert records == [r] + rs;
      PrintPrintable(r);
      DumpCons(r, rs);
      SplitLine(Print(r), Dump(rs));
      SplitDump(rs);
    }
  }

  lemma LoadsPrint(v: Json)
    requires WellFormed(v)
    ensures Loads(Print(v)) == Some(Reading(v))
  {
    PrintHead(v);
    ParsePrint(v, "");
    assert Print(v) + "" == Print(v);
  }

  ghost predicate Records(rs: seq<Json>) {
    forall i :: 0 <= i < |rs| ==> rs[i].Obj? && WellFormed(rs[i])
  }

  function Readings(rs: seq<Json>): seq<Json> {
    if rs == [] then [] else [Reading(rs[0])] + Readings(rs[1..])
  }

  lemma ReadLine(line: string, v: Json, lines: seq<string>, vs: seq<Json>)
    requires Loads(line) == Some(v) && v.Obj? && ReadLines(lines) == Some(vs)
    ensures ReadLines([line] + lines) == Some([v] + vs)
  {
    assert ([line] + lines)[1..] == lines;
  }

  lemma ReadingKind(v: Json)
    ensures v.Obj? ==> Reading(v).Obj?
  {
  }

  lemma {:induction false} ReadPrints(rs: seq<Json>)
    requires Records(rs)
    ensures ReadLines(Prints(rs)) == Some(Readings(rs))
  {
    if rs == [] {
      assert Prints(rs) == [];
    } else {
      LoadsPrint(rs[0]);
      ReadingKind(rs[0]);
      ReadPrints(rs[1..]);
      ReadLine(Print(rs[0]), Reading(rs[0]), Prints(rs[1..]), Readings(rs[1..]));
      assert Prints(rs) == [Print(rs[0])] + Prints(rs[1..]);
    }
  }

  lemma {:induction false} ReadingsFaithful(rs: seq<Json>)
    ensures |Readings(rs)| == |rs|
    ensures Readings(rs) == rs <==> forall r :: r in rs ==> Faithful(r)
  {
    if rs != [] {
      ReadingFaithful(rs[0]);
      ReadingsFaithful(rs[1..]);
      assert rs == [rs[0]] + rs[1..];
    }
  }

  /** Loading a written file always succeeds, and returns the written objects exactly when
      none of their strings splits a surrogate pair. */
  lemma RoundTrip(rs: seq<Json>)
    requires Records(rs)
    ensures Load(Dump(rs)) == Some(Readings(rs)) && |Readings(rs)| == |rs|
    ensures Load(Dump(rs)) == Some(rs) <==> forall r :: r in rs ==> Faithful(r)
  {
    SplitDump(rs);
    ReadPrints(rs);
    ReadingsFaithful(rs);
  }

  lemma ReadingOne(k: Text, s: Text)
    ensures Reading(Obj(map[k := Str(s)])) == Obj(map[Merge(k) := Str(Merge(s))])
  {
    var v := Obj(map[k := Str(s)]);
    var keys := SortedKeys(v.members);
    assert keys == [k] by {
      assert forall x :: x in keys <==> x == k;
      AscendingUnique(keys, [k]);
    }
    assert ReadMembers(v, keys, map[]) == ReadMembers(v, keys[1..], map[Merge(k) := Reading(Str(s))]);
  }

  lemma MergeTwo(hi: Code, lo: Code)
    requires High(hi) && Low(lo)
    ensures Merge([hi, lo]) == [Join(hi, lo)] && PairFree([lo]) && !PairFree([hi, lo])
  {
    assert [hi, lo][2..] == [];
    assert PairAt([hi, lo], 0);
  }

  /** Records that do not survive: two halves held apart come back as one code point. */
  lemma SplitPairLost(k: Text, hi: Code, lo: Code)
    requires PairFree(k) && High(hi) && Low(lo)
    ensures
      var written := Obj(map[k := Str([hi, lo])]);
      Load(Dump([written])) == Some([Obj(map[k := Str([Join(hi, lo)])])]) &&
      Load(Dump([written])) != Some([written])
  {
    var written := Obj(map[k := Str([hi, lo])]);
    MergeTwo(hi, lo);
    MergeShape(k);
    ReadingOne(k, [hi, lo]);
    RoundTrip([written]);
    assert [written][1..] == [];
    assert Readings([written]) == [Reading(written)];
    assert Reading(written) == Obj(map[k := Str([Join(hi, lo)])]);
    assert !Faithful(written) by { assert k in written.members; }
    assert written in [written];
  }
}
