/** JSON Lines as the campaign writes and reads them: one object a line, keys sorted,
    compact separators, every character outside printable ASCII escaped (section 7 of
    RFC 8259), read back with Python's `splitlines` and `json.loads`. */
module JsonLines {
  import opened Wrappers
  import opened Ordering
  import Decimal

  /** Python strings hold code points, lone surrogates included. */
  type Code = c: int | 0 <= c < 0x11_0000
  type Text = seq<Code>

  /** A float is identified with the text `repr` gives it. */
  datatype Json =
    | Null
    | Bool(b: bool)
    | Int(i: int)
    | Float(lexeme: string)
    | Str(s: Text)
    | Arr(items: seq<Json>)
    | Obj(members: map<Text, Json>)

  /* ---- the form of numbers ---- */

  /** Length of the leading run of digits. */
  function Run(s: string): (n: nat)
    ensures n <= |s|
  {
    if s != "" && Decimal.IsDigit(s[0]) then 1 + Run(s[1..]) else 0
  }

  function SignLength(s: string): (n: nat)
    ensures n <= |s|
  {
    if s != "" && s[0] == '-' then 1 else 0
  }

  function IntLength(s: string): (n: nat)
    ensures n <= |s|
    ensures n > 0 ==> SignLength(s) < n
  {
    var sign := SignLength(s);
    var body := s[sign..];
    if body != "" && body[0] == '0' then sign + 1
    else if Run(body) > 0 then sign + Run(body)
    else 0
  }

  function FractionLength(s: string): (n: nat)
    ensures n <= |s|
  {
    if s != "" && s[0] == '.' && Run(s[1..]) > 0 then 1 + Run(s[1..]) else 0
  }

  function ExponentSign(s: string): (n: nat)
    ensures n <= 1
    ensures s != "" ==> 1 + n <= |s|
  {
    if |s| > 1 && (s[1] == '+' || s[1] == '-') then 1 else 0
  }

  function ExponentLength(s: string): (n: nat)
    ensures n <= |s|
  {
    if s == "" || (s[0] != 'e' && s[0] != 'E') then 0
    else
      var from := 1 + ExponentSign(s);
      if Run(s[from..]) > 0 then from + Run(s[from..]) else 0
  }

  /** Length of the fraction and exponent that begin a text. */
  function TailLength(s: string): (n: nat)
    ensures n <= |s|
  {
    var f := FractionLength(s);
    f + ExponentLength(s[f..])
  }

  function NumberLength(s: string): (n: nat)
    ensures IntLength(s) <= n <= |s|
  {
    var i := IntLength(s);
    if i == 0 then 0 else i + TailLength(s[i..])
  }

  /** The texts a float can print as: a number with a fraction or an exponent. */
  predicate IsFloat(t: string) {
    0 < IntLength(t) < NumberLength(t) == |t|
  }

  /** Every float in a value prints as a float does. */
  ghost predicate WellFormed(v: Json) {
    match v
    case Float(t) => IsFloat(t)
    case Arr(a) => forall i :: 0 <= i < |a| ==> WellFormed(a[i])
    case Obj(m) => forall k :: k in m ==> WellFormed(m[k])
    case _ => true
  }

  /* ---- printing ---- */

  function HexDigit(d: int): char
    requires 0 <= d < 16
  {
    if d < 10 then ('0' as int + d) as char else ('a' as int + d - 10) as char
  }

  function Hex4(n: int): string
    requires 0 <= n < 0x1_0000
  {
    [HexDigit(n / 16 / 16 / 16), HexDigit(n / 16 / 16 % 16), HexDigit(n / 16 % 16), HexDigit(n % 16)]
  }

  predicate High(c: Code) { 0xD800 <= c < 0xDC00 }

  predicate Low(c: Code) { 0xDC00 <= c < 0xE000 }

  function Join(hi: Code, lo: Code): Code
    requires High(hi) && Low(lo)
  {
    0x1_0000 + (hi - 0xD800) * 0x400 + (lo - 0xDC00)
  }

  /** The letter of a short escape. */
  function ShortLetter(c: Code): Option<char> {
    if c == 0x22 then Some('\"')
    else if c == 0x5C then Some('\\')
    else if c == 0x0A then Some('n')
    else if c == 0x0D then Some('r')
    else if c == 0x09 then Some('t')
    else if c == 0x0C then Some('f')
    else if c == 0x08 then Some('b')
    else None
  }

  function EscapeCode(c: Code): string {
    if ShortLetter(c).Some? then ['\\', ShortLetter(c).value]
    else if 0x20 <= c <= 0x7E then [c as char]
    else if c < 0x1_0000 then "\\u" + Hex4(c)
    else "\\u" + Hex4(0xD800 + (c - 0x1_0000) / 0x400) + "\\u" + Hex4(0xDC00 + (c - 0x1_0000) % 0x400)
  }

  function Escape(s: Text): string {
    if s == [] then "" else EscapeCode(s[0]) + Escape(s[1..])
  }

  function Quote(s: Text): string { "\"" + Escape(s) + "\"" }

  function SortedKeys(m: map<Text, Json>): (keys: seq<Text>)
    ensures Ascending(keys)
    ensures forall k :: k in keys <==> k in m
  {
    var keys := Sorted(m.Keys);
    assert forall i :: 0 <= i < |keys| ==> keys[i] in keys && keys[i] in m;
    keys
  }

  /** `json.dumps(v, sort_keys=True, separators=(",", ":"))`. */
  function Print(v: Json): string
    decreases v, 1
  {
    match v
    case Null => "null"
    case Bool(b) => if b then "true" else "false"
    case Int(i) => Decimal.Signed(i)
    case Float(t) => t
    case Str(s) => Quote(s)
    case Arr(a) => "[" + PrintItems(v, 0) + "]"
    case Obj(m) => "{" + PrintMembers(v, SortedKeys(m)) + "}"
  }

  /** The elements from index `i` on, separated by commas. */
  function PrintItems(v: Json, i: nat): string
    requires v.Arr? && i <= |v.items|
    decreases v, 0, |v.items| - i
  {
    if i == |v.items| then ""
    else Print(v.items[i]) + (if i + 1 == |v.items| then "" else "," + PrintItems(v, i + 1))
  }

  /** The members under the given keys, in that order. */
  function PrintMembers(v: Json, keys: seq<Text>): string
    requires v.Obj? && forall k :: k in keys ==> k in v.members
    decreases v, 0, |keys|
  {
    if keys == [] then ""
    else
      Quote(keys[0]) + ":" + Print(v.members[keys[0]]) +
      (if |keys| == 1 then "" else "," + PrintMembers(v, keys[1..]))
  }

  /** The text of a JSON Lines file. */
  function Dump(records: seq<Json>): string {
    if records == [] then "" else Print(records[0]) + "\n" + Dump(records[1..])
  }

  /* ---- parsing ---- */

  datatype Parse<+T> = Fail | Done(value: T, rest: string)

  predicate IsSpace(c: char) { c == ' ' || c == '\t' || c == '\n' || c == '\r' }

  function SkipSpace(s: string): (r: string)
    ensures |r| <= |s|
  {
    if s != "" && IsSpace(s[0]) then SkipSpace(s[1..]) else s
  }

  predicate IsHex(c: char) { '0' <= c <= '9' || 'a' <= c <= 'f' || 'A' <= c <= 'F' }

  function HexValue(c: char): (d: int)
    requires IsHex(c)
    ensures 0 <= d < 16
  {
    if c <= '9' then c as int - '0' as int
    else if c <= 'F' then c as int - 'A' as int + 10
    else c as int - 'a' as int + 10
  }

  predicate StartsHex4(s: string) {
    |s| >= 4 && IsHex(s[0]) && IsHex(s[1]) && IsHex(s[2]) && IsHex(s[3])
  }

  function UnHex4(s: string): (c: Code)
    requires StartsHex4(s)
    ensures c < 0x1_0000
  {
    HexValue(s[0]) * 4096 + HexValue(s[1]) * 256 + HexValue(s[2]) * 16 + HexValue(s[3])
  }

  function ShortEscape(c: char): Option<Code> {
    match c
    case '\"' => Some(0x22)
    case '\\' => Some(0x5C)
    case '/' => Some(0x2F)
    case 'b' => Some(0x08)
    case 'f' => Some(0x0C)
    case 'n' => Some(0x0A)
    case 'r' => Some(0x0D)
    case 't' => Some(0x09)
    case _ => None
  }

  function Cons(c: Code, p: Parse<Text>): (r: Parse<Text>) {
    match p
    case Fail => Fail
    case Done(t, rest) => Done([c] + t, rest)
  }

  /** What follows an opening quote. */
  function ParseString(s: string): (r: Parse<Text>)
    ensures r.Done? ==> |r.rest| < |s|
    decreases |s|
  {
    if s == "" then Fail
    else if s[0] == '\"' then Done([], s[1..])
    else if s[0] != '\\' then
      if s[0] as int <= 0x1F then Fail else Cons(s[0] as int, ParseString(s[1..]))
    else if |s| < 2 then Fail
    else if s[1] != 'u' then
      match ShortEscape(s[1])
      case None => Fail
      case Some(c) => Cons(c, ParseString(s[2..]))
    else if !StartsHex4(s[2..]) then Fail
    else
      var c := UnHex4(s[2..]);
      if High(c) && |s| >= 8 && s[6] == '\\' && s[7] == 'u' then
        if !StartsHex4(s[8..]) then Fail
        else
          var d := UnHex4(s[8..]);
          if Low(d) then Cons(Join(c, d), ParseString(s[12..])) else Cons(c, ParseString(s[6..]))
      else Cons(c, ParseString(s[6..]))
  }

  lemma {:induction false} RunDigits(s: string)
    ensures Decimal.AllDigits(s[..Run(s)])
  {
    if Run(s) > 0 {
      RunDigits(s[1..]);
      assert s[..Run(s)] == [s[0]] + s[1..][..Run(s) - 1];
    }
  }

  lemma IntDigits(s: string)
    ensures IntLength(s) > 0 ==> Decimal.AllDigits(s[SignLength(s)..IntLength(s)])
  {
    var sign := SignLength(s);
    var body := s[sign..];
    RunDigits(body);
    assert s[sign..sign + Run(body)] == body[..Run(body)];
  }

  function ParseNumber(s: string): (r: Parse<Json>)
    ensures r.Done? ==> |r.rest| < |s|
  {
    var i := IntLength(s);
    var n := NumberLength(s);
    if i == 0 then Fail
    else if i < n then Done(Float(s[..n]), s[n..])
    else
      IntDigits(s);
      var magnitude: int := Decimal.Value(s[SignLength(s)..i]);
      Done(Int(if SignLength(s) == 1 then -magnitude else magnitude), s[i..])
  }

  predicate StartsWith(s: string, word: string) { |word| <= |s| && s[..|word|] == word }

  /** The three words, or a number. */
  function ParseScalar(s: string): (r: Parse<Json>)
    ensures r.Done? ==> |r.rest| < |s|
  {
    if StartsWith(s, "null") then Done(Null, s[4..])
    else if StartsWith(s, "true") then Done(Bool(true), s[4..])
    else if StartsWith(s, "false") then Done(Bool(false), s[5..])
    else ParseNumber(s)
  }

  function ParseValue(s: string): (r: Parse<Json>)
    ensures r.Done? ==> |r.rest| < |s|
    decreases |s|, 1
  {
    if s == "" then Fail
    else if s[0] == '\"' then
      match ParseString(s[1..])
      case Fail => Fail
      case Done(t, rest) => Done(Str(t), rest)
    else if s[0] == '{' then
      var body := SkipSpace(s[1..]);
      if body != "" && body[0] == '}' then Done(Obj(map[]), body[1..]) else ParseMembers(body, map[])
    else if s[0] == '[' then
      var body := SkipSpace(s[1..]);
      if body != "" && body[0] == ']' then Done(Arr([]), body[1..]) else ParseItems(body, [])
    else ParseScalar(s)
  }

  function ParseItems(s: string, acc: seq<Json>): (r: Parse<Json>)
    ensures r.Done? ==> |r.rest| < |s|
    decreases |s|, 2
  {
    match ParseValue(s)
    case Fail => Fail
    case Done(v, after) =>
      var next := SkipSpace(after);
      if next == "" then Fail
      else if next[0] == ']' then Done(Arr(acc + [v]), next[1..])
      else if next[0] == ',' then ParseItems(SkipSpace(next[1..]), acc + [v])
      else Fail
  }

  function ParseMembers(s: string, acc: map<Text, Json>): (r: Parse<Json>)
    ensures r.Done? ==> |r.rest| < |s|
    decreases |s|, 2
  {
    if s == "" || s[0] != '\"' then Fail
    else
      match ParseString(s[1..])
      case Fail => Fail
      case Done(key, afterKey) =>
        var colon := SkipSpace(afterKey);
        if colon == "" || colon[0] != ':' then Fail
        else
          match ParseValue(SkipSpace(colon[1..]))
          case Fail => Fail
          case Done(v, after) =>
            var next := SkipSpace(after);
            if next == "" then Fail
            else if next[0] == '}' then Done(Obj(acc[key := v]), next[1..])
            else if next[0] == ',' then ParseMembers(SkipSpace(next[1..]), acc[key := v])
            else Fail
  }

  /** `json.loads`: one value, nothing but space around it. */
  function Loads(s: string): Option<Json> {
    match ParseValue(SkipSpace(s))
    case Fail => None
    case Done(v, rest) => if SkipSpace(rest) == "" then Some(v) else None
  }

  /* ---- lines ---- */

  /** Every line boundary `str.splitlines` knows. */
  predicate IsBoundary(c: char) {
    || '\n' <= c <= '\r'
    || '\U{1C}' <= c <= '\U{1E}'
    || c == '\U{85}' || c == '\U{2028}' || c == '\U{2029}'
  }

  function LineLength(s: string): (n: nat)
    ensures n <= |s|
    ensures n < |s| ==> IsBoundary(s[n])
    ensures forall i :: 0 <= i < n ==> !IsBoundary(s[i])
  {
    if s == "" || IsBoundary(s[0]) then 0 else 1 + LineLength(s[1..])
  }

  function SplitLines(s: string): seq<string>
    decreases |s|
  {
    var n := LineLength(s);
    if s == "" then []
    else if n == |s| then [s]
    else if s[n] == '\r' && n + 1 < |s| && s[n + 1] == '\n' then [s[..n]] + SplitLines(s[n + 2..])
    else [s[..n]] + SplitLines(s[n + 1..])
  }

  /** The reader's loop body over the lines: each must parse, and to an object. */
  function ReadLines(lines: seq<string>): Option<seq<Json>> {
    if lines == [] then Some([])
    else
      match Loads(lines[0])
      case None => None
      case Some(v) =>
        if !v.Obj? then None
        else
          match ReadLines(lines[1..])
          case None => None
          case Some(vs) => Some([v] + vs)
  }

  function Load(text: string): Option<seq<Json>> { ReadLines(SplitLines(text)) }
}
