/**
 * Go structs as encoding/json writes and reads them: objects whose zero fields may be left out, and typed
 * reading, to which a field that is missing or null is zero. How floats and instants are spelled is a parameter.
 */
module JsonStructs {
  import opened Prelude
  import opened LoopVocabulary
  import opened Json

  /** The floats among the reals, and the spelling of floats and instants. */
  datatype Formats = Formats(
    exact: real -> bool,
    float: real -> string,
    readFloat: string -> Option<real>,
    time: Time -> string,
    readTime: string -> Option<Time>)

  /** What strconv and time promise: a literal that reads back as the same float, a text that reads back as the instant. */
  ghost predicate Faithful(f: Formats) {
    && f.exact(0.0)
    && (forall x :: f.exact(x) ==> NumberLiteral(f.float(x)) && f.readFloat(f.float(x)) == Some(x))
    && (forall t: Time :: f.readTime(f.time(t)) == Some(t))
  }

  /** Adding floats gives a float; rounding is not modelled. */
  ghost predicate SumsAreExact(f: Formats) {
    forall x, y :: f.exact(x) && f.exact(y) ==> f.exact(x + y)
  }

  /** Reading into typed fields keeps a number's text as it is. */
  const AS_WRITTEN: Norm := (digits: string) => Some(digits)

  // ---- Structs as objects, with fields left out

  /** The fields of a struct that omitempty does not leave out, under their names. */
  function Present(names: seq<string>, values: seq<Option<Json>>): seq<Field>
    requires |names| == |values|
  {
    if names == [] then []
    else
      (if values[0].Some? then [Field(names[0], values[0].value)] else []) + Present(names[1..], values[1..])
  }

  function Struct(names: seq<string>, values: seq<Option<Json>>): Json
    requires |names| == |values|
  {
    Obj(Present(names, values))
  }

  /** What a name is given, the last one counting. */
  function Lookup(fields: seq<Field>, name: string): Option<Json> {
    if fields == [] then None
    else
      var later := Lookup(fields[1..], name);
      if later.Some? then later
      else if fields[0].key == name then Some(fields[0].value)
      else None
  }

  predicate Missing(v: Option<Json>) {
    v.None? || v.value.Null?
  }

  /** What a struct's fields are given, name by name: nothing in a missing struct, an error in anything else. */
  function Values(v: Option<Json>, names: seq<string>): (r: Option<seq<Option<Json>>>)
    ensures r.Some? ==> |r.value| == |names|
  {
    if Missing(v) then Some(seq(|names|, i => None))
    else if !v.value.Obj? then None
    else Some(seq(|names|, i requires 0 <= i < |names| => Lookup(v.value.fields, names[i])))
  }

  ghost predicate Distinct(names: seq<string>) {
    forall i, j :: 0 <= i < j < |names| ==> names[i] != names[j]
  }

  lemma LookupPast(names: seq<string>, values: seq<Option<Json>>, name: string)
    requires |names| == |values| && names != []
    ensures Lookup(Present(names, values), name) ==
            var later := Lookup(Present(names[1..], values[1..]), name);
            if later.Some? then later else if names[0] == name then values[0] else None
  {
    if values[0].Some? {
      assert Present(names, values)[1..] == Present(names[1..], values[1..]);
    } else {
      assert Present(names, values) == Present(names[1..], values[1..]);
    }
  }

  lemma {:induction false} NotNamed(names: seq<string>, values: seq<Option<Json>>, name: string)
    requires |names| == |values| && forall i :: 0 <= i < |names| ==> names[i] != name
    ensures Lookup(Present(names, values), name).None?
  {
    if names != [] {
      NotNamed(names[1..], values[1..], name);
      LookupPast(names, values, name);
    }
  }

  lemma {:induction false} FieldIsFound(names: seq<string>, values: seq<Option<Json>>, i: nat)
    requires |names| == |values| && Distinct(names) && i < |names|
    ensures Lookup(Present(names, values), names[i]) == values[i]
  {
    LookupPast(names, values, names[i]);
    if i == 0 {
      NotNamed(names[1..], values[1..], names[0]);
    } else {
      FieldIsFound(names[1..], values[1..], i - 1);
    }
  }

  ghost predicate ReadableIfAny(v: Option<Json>, depth: nat) {
    v.Some? ==> Readable(v.value, depth, AS_WRITTEN)
  }

  lemma {:induction false} StructIsReadable(names: seq<string>, values: seq<Option<Json>>, depth: nat)
    requires |names| == |values| && forall i :: 0 <= i < |values| ==> ReadableIfAny(values[i], depth)
    ensures Readable(Struct(names, values), depth + 1, AS_WRITTEN)
  {
    if names != [] {
      StructIsReadable(names[1..], values[1..], depth);
    }
  }

  /** Every field is found again under its name, or found missing. */
  lemma StructReadsBack(names: seq<string>, values: seq<Option<Json>>)
    requires |names| == |values| && Distinct(names)
    ensures Values(Some(Struct(names, values)), names) == Some(values)
  {
    hide Lookup, Present, Distinct;
    var r := Values(Some(Struct(names, values)), names).value;
    forall i | 0 <= i < |names| ensures r[i] == values[i] {
      FieldIsFound(names, values, i);
    }
    assert r == values;
  }

  // ---- Typed reading; a missing member and a null leave the zero value

  function ReadText(v: Option<Json>): Option<string> {
    if Missing(v) then Some("") else if v.value.Str? then Some(v.value.text) else None
  }

  function ReadBool(v: Option<Json>): Option<bool> {
    if Missing(v) then Some(false) else if v.value.Bool? then Some(v.value.value) else None
  }

  function ReadFloat(v: Option<Json>, f: Formats): Option<real> {
    if Missing(v) then Some(0.0) else if v.value.Number? then f.readFloat(v.value.digits) else None
  }

  function ReadTime(v: Option<Json>, f: Formats): Option<Time> {
    if Missing(v) then Some(ZERO_TIME) else if v.value.Str? then f.readTime(v.value.text) else None
  }

  function Decimal(n: nat): string
    decreases n
  {
    if n < 10 then [('0' as int + n) as char] else Decimal(n / 10) + [('0' as int + n % 10) as char]
  }

  function DecimalValue(s: string): Option<nat> {
    if s == "" || !IsDigit(s[|s| - 1]) then None
    else
      var unit := s[|s| - 1] as int - '0' as int;
      if |s| == 1 then Some(unit)
      else
        var tens := DecimalValue(s[..|s| - 1]);
        if tens.Some? then Some(10 * tens.value + unit) else None
  }

  function ReadNat(v: Option<Json>): Option<nat> {
    if Missing(v) then Some(0) else if v.value.Number? then DecimalValue(v.value.digits) else None
  }

  function ReadItems(v: Option<Json>): Option<seq<Json>> {
    if Missing(v) then Some([]) else if v.value.Arr? then Some(v.value.items) else None
  }

  /** A slice, element by element; one that cannot be read spoils it. */
  function ReadAll<T>(items: seq<Json>, read: Option<Json> -> Option<T>): Option<seq<T>> {
    if items == [] then Some([])
    else
      var first, others := read(Some(items[0])), ReadAll(items[1..], read);
      if first.Some? && others.Some? then Some([first.value] + others.value) else None
  }

  function ReadSlice<T>(v: Option<Json>, read: Option<Json> -> Option<T>): Option<seq<T>> {
    var items := ReadItems(v);
    if items.Some? then ReadAll(items.value, read) else None
  }

  /** A pointer: nil when missing. */
  function ReadPointer<T>(v: Option<Json>, read: Option<Json> -> Option<T>): Option<Option<T>> {
    if Missing(v) then Some(None)
    else
      var r := read(v);
      if r.Some? then Some(Some(r.value)) else None
  }

  function WriteAll<T>(xs: seq<T>, write: T -> Json): (items: seq<Json>)
    ensures |items| == |xs|
  {
    if xs == [] then [] else [write(xs[0])] + WriteAll(xs[1..], write)
  }

  lemma {:induction false} AllReadBack<T>(xs: seq<T>, write: T -> Json, read: Option<Json> -> Option<T>)
    requires forall i :: 0 <= i < |xs| ==> read(Some(write(xs[i]))) == Some(xs[i])
    ensures ReadAll(WriteAll(xs, write), read) == Some(xs)
  {
    if xs != [] {
      AllReadBack(xs[1..], write, read);
      assert WriteAll(xs, write)[1..] == WriteAll(xs[1..], write);
      assert xs == [xs[0]] + xs[1..];
    }
  }

  lemma {:induction false} AllAreReadable<T>(xs: seq<T>, write: T -> Json, depth: nat)
    requires forall i :: 0 <= i < |xs| ==> Readable(write(xs[i]), depth, AS_WRITTEN)
    ensures Readable(Arr(WriteAll(xs, write)), depth + 1, AS_WRITTEN)
  {
    if xs != [] {
      AllAreReadable(xs[1..], write, depth);
    }
  }

  // ---- Decimal numbers

  lemma {:induction false} DigitsOfAll(s: string)
    requires forall i :: 0 <= i < |s| ==> IsDigit(s[i])
    ensures Digits(s) == |s|
  {
    if s != "" {
      DigitsOfAll(s[1..]);
    }
  }

  lemma {:induction false} DecimalReadsBack(n: nat)
    ensures var s := Decimal(n);
            && s != "" && DecimalValue(s) == Some(n)
            && (forall i :: 0 <= i < |s| ==> IsDigit(s[i])) && (s[0] == '0' ==> n == 0 && |s| == 1)
    decreases n
  {
    if n >= 10 {
      DecimalReadsBack(n / 10);
      var s := Decimal(n);
      assert s[..|s| - 1] == Decimal(n / 10);
    }
  }

  lemma DigitsAreALiteral(s: string)
    requires s != "" && Digits(s) == |s| && (s[0] == '0' ==> |s| == 1)
    ensures NumberLiteral(s)
  {
    hide Digits;
    assert s[|s|..] == "" && IsDigit(s[0]);
    assert s[0] == '0' ==> s[1..] == "";
  }

  lemma NumbersReadBack(n: nat)
    ensures NumberLiteral(Decimal(n)) && DecimalValue(Decimal(n)) == Some(n)
    ensures ReadNat(Some(Number(Decimal(n)))) == Some(n)
    ensures forall depth: nat :: Readable(Number(Decimal(n)), depth, AS_WRITTEN)
  {
    hide NumberLiteral, Digits, DecimalValue, Decimal;
    DecimalReadsBack(n);
    DigitsOfAll(Decimal(n));
    DigitsAreALiteral(Decimal(n));
  }

  // ---- Fields, as they are written

  /** A field marked omitempty: left out when it is zero. */
  function Unless(zero: bool, v: Json): Option<Json> {
    if zero then None else Some(v)
  }

  function Text(t: string): Option<Json> {
    Some(Str(t))
  }

  function TextIfAny(t: string): Option<Json> {
    Unless(t == "", Str(t))
  }

  function Flag(b: bool): Option<Json> {
    Some(Bool(b))
  }

  function FlagIfSet(b: bool): Option<Json> {
    Unless(!b, Bool(b))
  }

  function Count(n: nat): Option<Json> {
    Some(Number(Decimal(n)))
  }

  function Float(x: real, f: Formats): Option<Json> {
    Some(Number(f.float(x)))
  }

  function FloatIfAny(x: real, f: Formats): Option<Json> {
    Unless(x == 0.0, Number(f.float(x)))
  }

  function SliceIfAny<T>(xs: seq<T>, write: T -> Json): Option<Json> {
    Unless(xs == [], Arr(WriteAll(xs, write)))
  }

  function PointerIfAny<T>(p: Option<T>, write: T -> Json): Option<Json> {
    match p
    case None => None
    case Some(x) => Some(write(x))
  }

  lemma TextsReadBack()
    ensures forall t :: ReadText(Text(t)) == Some(t) && ReadText(TextIfAny(t)) == Some(t)
    ensures forall t, depth: nat :: ReadableIfAny(Text(t), depth) && ReadableIfAny(TextIfAny(t), depth)
  {
  }

  lemma FlagsReadBack()
    ensures forall b :: ReadBool(Flag(b)) == Some(b) && ReadBool(FlagIfSet(b)) == Some(b)
    ensures forall b, depth: nat :: ReadableIfAny(Flag(b), depth) && ReadableIfAny(FlagIfSet(b), depth)
  {
  }

  lemma FloatsReadBack(x: real, f: Formats, depth: nat)
    requires Faithful(f) && f.exact(x)
    ensures ReadFloat(Float(x, f), f) == Some(x) && ReadFloat(FloatIfAny(x, f), f) == Some(x)
    ensures ReadableIfAny(Float(x, f), depth) && ReadableIfAny(FloatIfAny(x, f), depth)
  {
    hide NumberLiteral;
  }

  lemma SliceReadsBack<T>(xs: seq<T>, write: T -> Json, read: Option<Json> -> Option<T>, depth: nat)
    requires forall i :: 0 <= i < |xs| ==>
      read(Some(write(xs[i]))) == Some(xs[i]) && Readable(write(xs[i]), depth, AS_WRITTEN)
    ensures ReadSlice(SliceIfAny(xs, write), read) == Some(xs)
    ensures ReadableIfAny(SliceIfAny(xs, write), depth + 1)
  {
    hide Readable;
    AllReadBack(xs, write, read);
    AllAreReadable(xs, write, depth);
  }

  lemma Given(v: Json, depth: nat)
    requires Readable(v, depth, AS_WRITTEN)
    ensures ReadableIfAny(Some(v), depth)
  {
  }

  // ---- The promises about formats can be kept

  function SignedValue(s: string): Option<Time> {
    if s != "" && s[0] == '-' then
      var n := DecimalValue(s[1..]);
      if n.Some? then Some(-(n.value as Time)) else None
    else
      var n := DecimalValue(s);
      if n.Some? then Some(n.value as Time) else None
  }

  function WholeValue(s: string): Option<real> {
    var n := DecimalValue(s);
    if n.Some? then Some(n.value as real) else None
  }

  predicate Whole(x: real) {
    x >= 0.0 && x.Floor as real == x
  }

  function WholeText(x: real): string {
    if x >= 0.0 then Decimal(x.Floor) else "0"
  }

  function SignedText(t: Time): string {
    if t < 0 then "-" + Decimal(-t) else Decimal(t)
  }

  /** Formats that keep their promises, were every price a whole number. */
  const WHOLE_NUMBERS := Formats(Whole, WholeText, WholeValue, SignedText, SignedValue)

  lemma SignedReadsBack(t: Time)
    ensures SignedValue(SignedText(t)) == Some(t)
  {
    DecimalReadsBack(if t < 0 then -t else t);
    hide DecimalValue, Decimal;
    assert t < 0 ==> SignedText(t)[1..] == Decimal(-t);
  }

  lemma WholeReadsBack(x: real)
    requires Whole(x)
    ensures NumberLiteral(WholeText(x)) && WholeValue(WholeText(x)) == Some(x)
  {
    hide NumberLiteral, DecimalValue, Decimal;
    NumbersReadBack(x.Floor);
  }

  lemma FloorOf(n: int)
    ensures (n as real).Floor == n
  {
  }

  lemma WholesAddUp(x: real, y: real)
    requires Whole(x) && Whole(y)
    ensures Whole(x + y)
  {
    var m, n := x.Floor, y.Floor;
    assert x + y == m as real + n as real == (m + n) as real;
    FloorOf(m + n);
  }

  lemma PromisesCanBeKept()
    ensures Faithful(WHOLE_NUMBERS) && SumsAreExact(WHOLE_NUMBERS)
  {
    var f := WHOLE_NUMBERS;
    forall x | f.exact(x) ensures NumberLiteral(f.float(x)) && f.readFloat(f.float(x)) == Some(x) {
      WholeReadsBack(x);
      hide *;
    }
    forall t: Time ensures f.readTime(f.time(t)) == Some(t) {
      SignedReadsBack(t);
      hide *;
    }
    forall x, y | f.exact(x) && f.exact(y) ensures f.exact(x + y) {
      WholesAddUp(x, y);
      hide *;
    }
    hide NumberLiteral, WholeText, WholeValue, SignedText, SignedValue;
  }
}
