/**
 * JSON as encoding/json reads and writes it into untyped values: a strict recursive-descent reader, the
 * compact writer with its escapes, and the round trip between them. A number is its text; norm is what
 * reading it as a float64 and writing it back makes of it, nothing if it is out of range.
 */
module Json {
  import opened Prelude

  datatype Json =
    | Null
    | Bool(value: bool)
    | Number(digits: string)
    | Str(text: string)
    | Arr(items: seq<Json>)
    | Obj(fields: seq<Field>)

  /** One member of an object, in the order the text gave them; a key may come more than once. */
  datatype Field = Field(key: string, value: Json)

  type Norm = string -> Option<string>

  datatype Parsed<+T> = Bad | Ok(value: T, rest: string)

  /** The deepest nesting the reader accepts. */
  const MAX_DEPTH: nat := 10000

  // ---- Space and numbers

  predicate IsWhite(c: char) {
    c == ' ' || c == '\t' || c == '\r' || c == '\n'
  }

  function SkipWhite(s: string): (r: string)
    ensures |r| <= |s|
  {
    if s != "" && IsWhite(s[0]) then SkipWhite(s[1..]) else s
  }

  predicate IsDigit(c: char) {
    '0' <= c <= '9'
  }

  predicate NumberChar(c: char) {
    IsDigit(c) || c == '-' || c == '+' || c == '.' || c == 'e' || c == 'E'
  }

  predicate NumberChars(s: string) {
    forall i :: 0 <= i < |s| ==> NumberChar(s[i])
  }

  /** How many digits a text starts with. */
  function Digits(s: string): (n: nat)
    ensures n <= |s| && forall i :: 0 <= i < n ==> IsDigit(s[i])
  {
    if s == "" || !IsDigit(s[0]) then 0 else 1 + Digits(s[1..])
  }

  predicate Exponent(s: string) {
    s == "" ||
    (&& |s| >= 2 && (s[0] == 'e' || s[0] == 'E')
     && var power := if s[1] == '+' || s[1] == '-' then s[2..] else s[1..];
        power != "" && Digits(power) == |power|)
  }

  predicate Fraction(s: string) {
    if s != "" && s[0] == '.' then Digits(s[1..]) > 0 && Exponent(s[1..][Digits(s[1..])..]) else Exponent(s)
  }

  predicate Unsigned(s: string) {
    && s != ""
    && if s[0] == '0' then Fraction(s[1..]) else Digits(s) > 0 && Fraction(s[Digits(s)..])
  }

  predicate NumberLiteral(s: string) {
    if s != "" && s[0] == '-' then Unsigned(s[1..]) else Unsigned(s)
  }

  function NumberRun(s: string): (n: nat)
    ensures n <= |s|
  {
    if s == "" || !NumberChar(s[0]) then 0 else 1 + NumberRun(s[1..])
  }

  // ---- Strings

  function HexDigit(n: nat): char
    requires n < 16
  {
    if n < 10 then ('0' as int + n) as char else ('a' as int + n - 10) as char
  }

  function HexValue(c: char): Option<nat> {
    if '0' <= c <= '9' then Some(c as int - '0' as int)
    else if 'a' <= c <= 'f' then Some(c as int - 'a' as int + 10)
    else if 'A' <= c <= 'F' then Some(c as int - 'A' as int + 10)
    else None
  }

  function Hex4(n: nat): string
    requires n < 0x10000
  {
    [HexDigit(n / 4096), HexDigit(n / 256 % 16), HexDigit(n / 16 % 16), HexDigit(n % 16)]
  }

  /** The UTF-16 unit a text spells as a backslash, a u and four hex digits. */
  function Unit(s: string): (u: Option<nat>)
    ensures u.Some? ==> |s| >= 6 && u.value < 0x10000
  {
    if |s| < 6 || s[0] != '\\' || s[1] != 'u' then None
    else
      match (HexValue(s[2]), HexValue(s[3]), HexValue(s[4]), HexValue(s[5]))
      case (Some(a), Some(b), Some(c), Some(d)) =>
        if a < 16 && b < 16 && c < 16 && d < 16 then Some(4096 * a + 256 * b + 16 * c + d) else None
      case _ => None
  }

  const REPLACEMENT := '\U{FFFD}'

  /** The character some units stand for, and how much of the text they take: half a pair is replaced. */
  function Units(s: string): (char, nat)
    requires Unit(s).Some?
    ensures 6 <= Units(s).1 <= |s|
  {
    var u := Unit(s).value;
    if 0xD800 <= u < 0xDC00 then
      var low := Unit(s[6..]);
      if low.Some? && 0xDC00 <= low.value < 0xE000 then
        ((0x10000 + (u - 0xD800) * 0x400 + (low.value - 0xDC00)) as char, 12)
      else (REPLACEMENT, 6)
    else if 0xDC00 <= u < 0xE000 then (REPLACEMENT, 6)
    else (u as char, 6)
  }

  function Unescape(c: char): Option<char> {
    match c
    case '"' => Some('"')
    case '\\' => Some('\\')
    case '/' => Some('/')
    case 'b' => Some('\U{0008}')
    case 'f' => Some('\U{000C}')
    case 'n' => Some('\n')
    case 'r' => Some('\r')
    case 't' => Some('\t')
    case _ => None
  }

  function Prepend(c: char, p: Parsed<string>): (r: Parsed<string>)
    ensures r.Ok? ==> p.Ok? && r.rest == p.rest
  {
    if p.Bad? then Bad else Ok([c] + p.value, p.rest)
  }

  /** A string's text, from just after its opening quote. */
  function ParseString(s: string): (p: Parsed<string>)
    ensures p.Ok? ==> |p.rest| < |s|
  {
    if s == "" then Bad
    else if s[0] == '"' then Ok("", s[1..])
    else if s[0] < ' ' then Bad
    else if s[0] != '\\' then Prepend(s[0], ParseString(s[1..]))
    else if Unit(s).Some? then Prepend(Units(s).0, ParseString(s[Units(s).1..]))
    else if |s| >= 2 && Unescape(s[1]).Some? then Prepend(Unescape(s[1]).value, ParseString(s[2..]))
    else Bad
  }

  function Escape(c: char): string {
    if c == '"' || c == '\\' then ['\\', c]
    else if c == '\U{0008}' then "\\b"
    else if c == '\U{000C}' then "\\f"
    else if c == '\n' then "\\n"
    else if c == '\r' then "\\r"
    else if c == '\t' then "\\t"
    else if c < ' ' || c == '<' || c == '>' || c == '&' || c == '\U{2028}' || c == '\U{2029}' then
      ['\\', 'u'] + Hex4(c as int)
    else [c]
  }

  function Escaped(s: string): string {
    if s == "" then "" else Escape(s[0]) + Escaped(s[1..])
  }

  // ---- Values

  function Literal(s: string, word: string, v: Json): Parsed<Json> {
    if word <= s then Ok(v, s[|word|..]) else Bad
  }

  function ParseNumber(s: string, norm: Norm): Parsed<Json> {
    var n := NumberRun(s);
    if !NumberLiteral(s[..n]) || norm(s[..n]).None? then Bad else Ok(Number(norm(s[..n]).value), s[n..])
  }

  function ParseValue(s: string, depth: nat, norm: Norm): (p: Parsed<Json>)
    ensures p.Ok? ==> |p.rest| < |s|
    decreases |s|, 0
  {
    if s == "" then Bad
    else if s[0] == '"' then
      var p := ParseString(s[1..]);
      if p.Bad? then Bad else Ok(Str(p.value), p.rest)
    else if s[0] == '[' then
      if depth == 0 then Bad
      else
        var inner := SkipWhite(s[1..]);
        if inner != "" && inner[0] == ']' then Ok(Arr([]), inner[1..])
        else
          var p := ParseItems(inner, depth - 1, norm);
          if p.Bad? then Bad else Ok(Arr(p.value), p.rest)
    else if s[0] == '{' then
      if depth == 0 then Bad
      else
        var inner := SkipWhite(s[1..]);
        if inner != "" && inner[0] == '}' then Ok(Obj([]), inner[1..])
        else
          var p := ParseFields(inner, depth - 1, norm);
          if p.Bad? then Bad else Ok(Obj(p.value), p.rest)
    else if s[0] == 't' then Literal(s, "true", Bool(true))
    else if s[0] == 'f' then Literal(s, "false", Bool(false))
    else if s[0] == 'n' then Literal(s, "null", Null)
    else ParseNumber(s, norm)
  }

  /** One or more values separated by commas, up to and including the closing bracket. */
  function ParseItems(s: string, depth: nat, norm: Norm): (p: Parsed<seq<Json>>)
    ensures p.Ok? ==> |p.rest| < |s|
    decreases |s|, 1
  {
    var first := ParseValue(s, depth, norm);
    if first.Bad? then Bad
    else
      var after := SkipWhite(first.rest);
      if after == "" then Bad
      else if after[0] == ']' then Ok([first.value], after[1..])
      else if after[0] != ',' then Bad
      else
        var others := ParseItems(SkipWhite(after[1..]), depth, norm);
        if others.Bad? then Bad else Ok([first.value] + others.value, others.rest)
  }

  /** A key, a colon and a value. */
  function ParseField(s: string, depth: nat, norm: Norm): (p: Parsed<Field>)
    ensures p.Ok? ==> |p.rest| < |s|
    decreases |s|, 1
  {
    if s == "" || s[0] != '"' then Bad
    else
      var key := ParseString(s[1..]);
      if key.Bad? then Bad
      else
        var colon := SkipWhite(key.rest);
        if colon == "" || colon[0] != ':' then Bad
        else
          var v := ParseValue(SkipWhite(colon[1..]), depth, norm);
          if v.Bad? then Bad else Ok(Field(key.value, v.value), v.rest)
  }

  function ParseFields(s: string, depth: nat, norm: Norm): (p: Parsed<seq<Field>>)
    ensures p.Ok? ==> |p.rest| < |s|
    decreases |s|, 2
  {
    var first := ParseField(s, depth, norm);
    if first.Bad? then Bad
    else
      var after := SkipWhite(first.rest);
      if after == "" then Bad
      else if after[0] == '}' then Ok([first.value], after[1..])
      else if after[0] != ',' then Bad
      else
        var others := ParseFields(SkipWhite(after[1..]), depth, norm);
        if others.Bad? then Bad else Ok([first.value] + others.value, others.rest)
  }

  /** A whole text: one value, with white space around it and nothing else. */
  function Parse(s: string, norm: Norm): Option<Json> {
    var p := ParseValue(SkipWhite(s), MAX_DEPTH, norm);
    if p.Ok? && SkipWhite(p.rest) == "" then Some(p.value) else None
  }

  function Encode(v: Json): string {
    match v
    case Null => "null"
    case Bool(b) => if b then "true" else "false"
    case Number(digits) => digits
    case Str(t) => "\"" + Escaped(t) + "\""
    case Arr(items) => "[" + EncodeItems(items) + "]"
    case Obj(fields) => "{" + EncodeFields(fields) + "}"
  }

  function EncodeItems(items: seq<Json>): string {
    if items == [] then ""
    else if |items| == 1 then Encode(items[0])
    else Encode(items[0]) + "," + EncodeItems(items[1..])
  }

  function EncodeField(f: Field): string {
    "\"" + Escaped(f.key) + "\":" + Encode(f.value)
  }

  function EncodeFields(fields: seq<Field>): string {
    if fields == [] then ""
    else if |fields| == 1 then EncodeField(fields[0])
    else EncodeField(fields[0]) + "," + EncodeFields(fields[1..])
  }

  // ---- The round trip

  /** What strconv promises: what it writes is a literal that reads back as the same number. */
  ghost predicate Reformats(norm: Norm) {
    forall s :: NumberLiteral(s) && norm(s).Some? ==>
      NumberLiteral(norm(s).value) && norm(norm(s).value) == norm(s)
  }

  /** Nested no deeper than the reader accepts, with every number in the form the writer gives it. */
  ghost predicate Readable(v: Json, depth: nat, norm: Norm) {
    match v
    case Number(digits) => NumberLiteral(digits) && norm(digits) == Some(digits)
    case Arr(items) => depth > 0 && forall i :: 0 <= i < |items| ==> Readable(items[i], depth - 1, norm)
    case Obj(fields) => depth > 0 && forall i :: 0 <= i < |fields| ==> Readable(fields[i].value, depth - 1, norm)
    case _ => true
  }

  lemma HexReadsBack(n: nat)
    requires n < 16
    ensures HexValue(HexDigit(n)) == Some(n)
  {
  }

  lemma FourDigits(n: nat)
    requires n < 0x10000
    ensures n / 4096 < 16
    ensures 4096 * (n / 4096) + 256 * (n / 256 % 16) + 16 * (n / 16 % 16) + n % 16 == n
  {
    var a, b, c := n / 16, n / 256, n / 4096;
    assert n == 16 * a + n % 16;
    assert a == 16 * b + a % 16 by { assert b == a / 16; }
    assert b == 16 * c + b % 16 by { assert c == b / 16; }
  }

  lemma UnitOf(a: nat, b: nat, c: nat, d: nat, x: string)
    requires a < 16 && b < 16 && c < 16 && d < 16
    ensures Unit(['\\', 'u'] + [HexDigit(a), HexDigit(b), HexDigit(c), HexDigit(d)] + x)
         == Some(4096 * a + 256 * b + 16 * c + d)
  {
    HexReadsBack(a);
    HexReadsBack(b);
    HexReadsBack(c);
    HexReadsBack(d);
    hide HexDigit, HexValue;
  }

  lemma Hex4ReadsBack(n: nat, x: string)
    requires n < 0x10000
    ensures Unit(['\\', 'u'] + Hex4(n) + x) == Some(n)
  {
    FourDigits(n);
    UnitOf(n / 4096, n / 256 % 16, n / 16 % 16, n % 16, x);
    hide Unit, HexDigit;
  }

  lemma HexEscapeReadsBack(c: char, x: string)
    requires c < ' ' || c == '<' || c == '>' || c == '&' || c == '\U{2028}' || c == '\U{2029}'
    ensures ParseString(['\\', 'u'] + Hex4(c as int) + x) == Prepend(c, ParseString(x))
  {
    var s := ['\\', 'u'] + Hex4(c as int) + x;
    Hex4ReadsBack(c as int, x);
    assert s[0] == '\\' && s[6..] == x;
    hide Unit, Hex4;
    assert Units(s) == (c, 6);
  }

  lemma EscapeReadsBack(c: char, x: string)
    ensures ParseString(Escape(c) + x) == Prepend(c, ParseString(x))
  {
    var s := Escape(c) + x;
    if |Escape(c)| == 1 {
      assert s[1..] == x;
    } else if |Escape(c)| == 2 {
      hide Unit;
      assert s[2..] == x;
      assert s[0] == '\\' && Unescape(s[1]) == Some(c);
      NotAUnit(s);
    } else {
      HexEscapeReadsBack(c, x);
    }
  }

  lemma NotAUnit(s: string)
    requires |s| >= 2 && s[1] != 'u'
    ensures Unit(s).None?
  {
  }

  lemma {:induction false} StringReadsBack(t: string, rest: string)
    ensures ParseString(Escaped(t) + "\"" + rest) == Ok(t, rest)
  {
    if t == "" {
      assert (Escaped(t) + "\"" + rest)[1..] == rest;
    } else {
      var tail := Escaped(t[1..]) + "\"" + rest;
      assert Escaped(t) + "\"" + rest == Escape(t[0]) + tail;
      EscapeReadsBack(t[0], tail);
      StringReadsBack(t[1..], rest);
      assert [t[0]] + t[1..] == t;
    }
  }

  lemma ExponentIsNumberChars(s: string)
    requires Exponent(s)
    ensures NumberChars(s)
  {
  }

  lemma DigitsThen(s: string)
    requires NumberChars(s[Digits(s)..])
    ensures NumberChars(s)
  {
    forall i | 0 <= i < |s| ensures NumberChar(s[i]) {
      if i >= Digits(s) {
        assert s[i] == s[Digits(s)..][i - Digits(s)];
      }
    }
  }

  lemma OneThen(s: string)
    requires s != "" && NumberChar(s[0]) && NumberChars(s[1..])
    ensures NumberChars(s)
  {
    forall i | 0 <= i < |s| ensures NumberChar(s[i]) {
      if i > 0 {
        assert s[i] == s[1..][i - 1];
      }
    }
  }

  lemma FractionIsNumberChars(s: string)
    requires Fraction(s)
    ensures NumberChars(s)
  {
    if s != "" && s[0] == '.' {
      ExponentIsNumberChars(s[1..][Digits(s[1..])..]);
      DigitsThen(s[1..]);
      OneThen(s);
    } else {
      ExponentIsNumberChars(s);
    }
  }

  lemma LiteralIsNumberChars(s: string)
    requires NumberLiteral(s)
    ensures s != "" && NumberChars(s) && (s[0] == '-' || IsDigit(s[0]))
  {
    var a := if s[0] == '-' then s[1..] else s;
    if a[0] == '0' {
      FractionIsNumberChars(a[1..]);
      OneThen(a);
    } else {
      FractionIsNumberChars(a[Digits(a)..]);
      DigitsThen(a);
    }
    if s[0] == '-' {
      OneThen(s);
    }
  }

  lemma {:induction false} RunStopsAfterDigits(digits: string, rest: string)
    requires NumberChars(digits) && (rest == "" || !NumberChar(rest[0]))
    ensures NumberRun(digits + rest) == |digits|
  {
    if digits == "" {
      assert digits + rest == rest;
    } else {
      assert (digits + rest)[1..] == digits[1..] + rest;
      RunStopsAfterDigits(digits[1..], rest);
    }
  }

  predicate Delimited(rest: string) {
    rest == "" || !NumberChar(rest[0])
  }

  lemma NumbersAreParsed(s: string, depth: nat, norm: Norm)
    requires s != "" && (s[0] == '-' || IsDigit(s[0]))
    ensures ParseValue(s, depth, norm) == ParseNumber(s, norm)
  {
    hide ParseNumber, ParseItems, ParseFields, ParseString, Literal;
  }

  lemma NumberReadsBack(digits: string, rest: string, depth: nat, norm: Norm)
    requires NumberLiteral(digits) && norm(digits) == Some(digits) && Delimited(rest)
    ensures ParseValue(digits + rest, depth, norm) == Ok(Number(digits), rest)
  {
    LiteralIsNumberChars(digits);
    RunStopsAfterDigits(digits, rest);
    var s := digits + rest;
    assert s[..|digits|] == digits && s[|digits|..] == rest;
    NumbersAreParsed(s, depth, norm);
    hide NumberLiteral, NumberRun, NumberChars, ParseValue;
  }

  /** Encodings start with something other than white space or a closing bracket. */
  lemma EncodingStarts(v: Json, depth: nat, norm: Norm)
    requires Readable(v, depth, norm)
    ensures Encode(v) != "" && !IsWhite(Encode(v)[0]) && Encode(v)[0] != ']'
  {
    if v.Number? {
      LiteralIsNumberChars(v.digits);
    }
  }

  lemma WordReadsBack(v: Json, rest: string, depth: nat, norm: Norm)
    requires v.Null? || v.Bool?
    ensures ParseValue(Encode(v) + rest, depth, norm) == Ok(v, rest)
  {
    var s := Encode(v) + rest;
    assert s[|Encode(v)|..] == rest && s[..|Encode(v)|] == Encode(v);
  }

  lemma {:induction false} ValueReadsBack(v: Json, rest: string, depth: nat, norm: Norm)
    requires Readable(v, depth, norm) && Delimited(rest)
    ensures ParseValue(Encode(v) + rest, depth, norm) == Ok(v, rest)
    decreases v, 0
  {
    hide NumberLiteral, NumberRun, Escaped, ParseString, ParseNumber, Literal;
    var s := Encode(v) + rest;
    match v
    case Null => WordReadsBack(v, rest, depth, norm);
    case Bool(_) => WordReadsBack(v, rest, depth, norm);
    case Number(digits) => NumberReadsBack(digits, rest, depth, norm);
    case Str(t) =>
      hide ParseItems, ParseFields;
      StringReadsBack(t, rest);
      assert s[1..] == Escaped(t) + "\"" + rest;
    case Arr(items) => ArrayReadsBack(items, rest, depth, norm);
    case Obj(fields) => ObjectReadsBack(fields, rest, depth, norm);
  }

  lemma EmptyArrayReadsBack(rest: string, depth: nat, norm: Norm)
    requires depth > 0
    ensures ParseValue(Encode(Arr([])) + rest, depth, norm) == Ok(Arr([]), rest)
  {
    hide ParseItems, ParseFields, ParseString;
    var close := [']'] + rest;
    var s := Encode(Arr([])) + rest;
    assert s == ['['] + close;
    assert s[0] == '[' && s[1..] == close && close[1..] == rest;
    assert SkipWhite(close) == close;
  }

  lemma {:induction false} ArrayReadsBack(items: seq<Json>, rest: string, depth: nat, norm: Norm)
    requires depth > 0 && forall i :: 0 <= i < |items| ==> Readable(items[i], depth - 1, norm)
    ensures ParseValue(Encode(Arr(items)) + rest, depth, norm) == Ok(Arr(items), rest)
    decreases items, 2
  {
    var t := EncodeItems(items);
    var inner := t + "]" + rest;
    assert Encode(Arr(items)) + rest == "[" + inner;
    BehindOne("[", inner);
    if items == [] {
      EmptyArrayReadsBack(rest, depth, norm);
    } else {
      ItemsReadBack(items, rest, depth - 1, norm);
    }
    hide ParseItems, ParseFields, ParseString, EncodeItems;
  }

  lemma EmptyObjectReadsBack(rest: string, depth: nat, norm: Norm)
    requires depth > 0
    ensures ParseValue(Encode(Obj([])) + rest, depth, norm) == Ok(Obj([]), rest)
  {
    hide ParseItems, ParseFields, ParseString;
    var close := ['}'] + rest;
    var s := Encode(Obj([])) + rest;
    assert s == ['{'] + close;
    assert s[0] == '{' && s[1..] == close && close[1..] == rest;
    assert SkipWhite(close) == close;
  }

  lemma {:induction false} ObjectReadsBack(fields: seq<Field>, rest: string, depth: nat, norm: Norm)
    requires depth > 0 && forall i :: 0 <= i < |fields| ==> Readable(fields[i].value, depth - 1, norm)
    ensures ParseValue(Encode(Obj(fields)) + rest, depth, norm) == Ok(Obj(fields), rest)
    decreases fields, 3
  {
    var t := EncodeFields(fields);
    var inner := t + "}" + rest;
    assert Encode(Obj(fields)) + rest == "{" + inner;
    BehindOne("{", inner);
    if fields == [] {
      EmptyObjectReadsBack(rest, depth, norm);
    } else {
      FieldsReadBack(fields, rest, depth - 1, norm);
    }
    hide ParseItems, ParseFields, ParseString, EncodeFields;
  }

  /** From one parsed value to the list it starts. */
  lemma ItemsFrom(s: string, v: Json, after: string, depth: nat, norm: Norm)
    requires ParseValue(s, depth, norm) == Ok(v, after) && after != ""
    ensures after[0] == ']' ==> ParseItems(s, depth, norm) == Ok([v], after[1..])
    ensures after[0] == ',' ==>
      var others := ParseItems(SkipWhite(after[1..]), depth, norm);
      ParseItems(s, depth, norm) == if others.Bad? then Bad else Ok([v] + others.value, others.rest)
  {
    hide ParseValue;
  }

  lemma Regroup(e: string, separator: string, others: string, close: string, rest: string)
    ensures (e + separator + others) + close + rest == e + (separator + (others + close + rest))
    ensures e + close + rest == e + (close + rest)
  {
  }

  lemma BehindOne(separator: string, t: string)
    requires |separator| == 1
    ensures (separator + t)[0] == separator[0] && (separator + t)[1..] == t
  {
  }

  lemma NothingToSkip(s: string, t: string)
    requires s != "" && !IsWhite(s[0])
    ensures SkipWhite(s + t) == s + t && (s + t)[0] == s[0]
  {
  }

  lemma {:induction false} ItemsReadBack(items: seq<Json>, rest: string, depth: nat, norm: Norm)
    requires items != [] && forall i :: 0 <= i < |items| ==> Readable(items[i], depth, norm)
    ensures var inner := EncodeItems(items) + "]" + rest;
            && SkipWhite(inner) == inner && inner[0] != ']'
            && ParseItems(inner, depth, norm) == Ok(items, rest)
    decreases items, 1
  {
    hide Encode, ParseValue, ParseItems, Readable, SkipWhite;
    var first := items[0];
    var e := Encode(first);
    EncodingStarts(first, depth, norm);
    if |items| == 1 {
      var close := "]" + rest;
      assert EncodeItems(items) == e;
      Regroup(e, ",", "", "]", rest);
      BehindOne("]", rest);
      NothingToSkip(e, close);
      ValueReadsBack(first, close, depth, norm);
      ItemsFrom(e + close, first, close, depth, norm);
      assert items == [first];
    } else {
      var tail := EncodeItems(items[1..]);
      var others := tail + "]" + rest;
      var comma := "," + others;
      assert EncodeItems(items) == e + "," + tail;
      hide EncodeItems;
      Regroup(e, ",", tail, "]", rest);
      BehindOne(",", others);
      NothingToSkip(e, comma);
      ValueReadsBack(first, comma, depth, norm);
      ItemsFrom(e + comma, first, comma, depth, norm);
      ItemsReadBack(items[1..], rest, depth, norm);
      assert items == [first] + items[1..];
    }
  }

  lemma FieldsFrom(s: string, f: Field, after: string, depth: nat, norm: Norm)
    requires ParseField(s, depth, norm) == Ok(f, after) && after != ""
    ensures after[0] == '}' ==> ParseFields(s, depth, norm) == Ok([f], after[1..])
    ensures after[0] == ',' ==>
      var others := ParseFields(SkipWhite(after[1..]), depth, norm);
      ParseFields(s, depth, norm) == if others.Bad? then Bad else Ok([f] + others.value, others.rest)
  {
    hide ParseField;
  }

  lemma {:induction false} FieldReadsBack(f: Field, rest: string, depth: nat, norm: Norm)
    requires Readable(f.value, depth, norm) && Delimited(rest)
    ensures ParseField(EncodeField(f) + rest, depth, norm) == Ok(f, rest)
    decreases f, 1
  {
    hide Encode, Escaped, ParseString, ParseValue, Readable, Delimited;
    var text := Encode(f.value) + rest;
    var colon := ":" + text;
    var s := EncodeField(f) + rest;
    assert s[1..] == Escaped(f.key) + "\"" + colon;
    StringReadsBack(f.key, colon);
    EncodingStarts(f.value, depth, norm);
    assert colon[1..] == text;
    ValueReadsBack(f.value, rest, depth, norm);
  }

  lemma FieldStarts(f: Field)
    ensures EncodeField(f) != "" && EncodeField(f)[0] == '"'
  {
  }

  lemma {:induction false} FieldsReadBack(fields: seq<Field>, rest: string, depth: nat, norm: Norm)
    requires fields != [] && forall i :: 0 <= i < |fields| ==> Readable(fields[i].value, depth, norm)
    ensures var inner := EncodeFields(fields) + "}" + rest;
            && SkipWhite(inner) == inner && inner[0] != '}'
            && ParseFields(inner, depth, norm) == Ok(fields, rest)
    decreases fields, 2
  {
    hide EncodeField, ParseField, ParseFields, Readable, SkipWhite;
    var first := fields[0];
    var e := EncodeField(first);
    FieldStarts(first);
    if |fields| == 1 {
      var close := "}" + rest;
      assert EncodeFields(fields) == e;
      Regroup(e, ",", "", "}", rest);
      BehindOne("}", rest);
      NothingToSkip(e, close);
      FieldReadsBack(first, close, depth, norm);
      FieldsFrom(e + close, first, close, depth, norm);
      assert fields == [first];
    } else {
      var tail := EncodeFields(fields[1..]);
      var others := tail + "}" + rest;
      var comma := "," + others;
      assert EncodeFields(fields) == e + "," + tail;
      hide EncodeFields;
      Regroup(e, ",", tail, "}", rest);
      BehindOne(",", others);
      NothingToSkip(e, comma);
      FieldReadsBack(first, comma, depth, norm);
      FieldsFrom(e + comma, first, comma, depth, norm);
      FieldsReadBack(fields[1..], rest, depth, norm);
      assert fields == [first] + fields[1..];
    }
  }

  /** Writing and reading back is the identity on every readable value. */
  lemma RoundTrip(v: Json, norm: Norm)
    requires Readable(v, MAX_DEPTH, norm)
    ensures Parse(Encode(v), norm) == Some(v)
  {
    EncodingStarts(v, MAX_DEPTH, norm);
    assert Encode(v) + "" == Encode(v);
    ValueReadsBack(v, "", MAX_DEPTH, norm);
  }

  // ---- Whatever is read is readable

  lemma {:induction false} ReadIsReadable(s: string, depth: nat, norm: Norm)
    requires Reformats(norm) && ParseValue(s, depth, norm).Ok?
    ensures Readable(ParseValue(s, depth, norm).value, depth, norm)
    decreases |s|, 0
  {
    if s[0] == '[' {
      var inner := SkipWhite(s[1..]);
      if inner[0] != ']' {
        ItemsReadAreReadable(inner, depth - 1, norm);
      }
    } else if s[0] == '{' {
      var inner := SkipWhite(s[1..]);
      if inner[0] != '}' {
        FieldsReadAreReadable(inner, depth - 1, norm);
      }
    }
  }

  lemma {:induction false} ItemsReadAreReadable(s: string, depth: nat, norm: Norm)
    requires Reformats(norm) && ParseItems(s, depth, norm).Ok?
    ensures forall i :: 0 <= i < |ParseItems(s, depth, norm).value| ==>
      Readable(ParseItems(s, depth, norm).value[i], depth, norm)
    decreases |s|, 1
  {
    ReadIsReadable(s, depth, norm);
    var after := SkipWhite(ParseValue(s, depth, norm).rest);
    if after[0] == ',' {
      ItemsReadAreReadable(SkipWhite(after[1..]), depth, norm);
    }
  }

  lemma {:induction false} FieldsReadAreReadable(s: string, depth: nat, norm: Norm)
    requires Reformats(norm) && ParseFields(s, depth, norm).Ok?
    ensures forall i :: 0 <= i < |ParseFields(s, depth, norm).value| ==>
      Readable(ParseFields(s, depth, norm).value[i].value, depth, norm)
    decreases |s|, 1
  {
    var colon := SkipWhite(ParseString(s[1..]).rest);
    ReadIsReadable(SkipWhite(colon[1..]), depth, norm);
    var after := SkipWhite(ParseField(s, depth, norm).rest);
    if after[0] == ',' {
      FieldsReadAreReadable(SkipWhite(after[1..]), depth, norm);
    }
  }
}
