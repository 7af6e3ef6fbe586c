/** Checking a model's arguments against a tool's schema before the tool runs. */
module ToolArguments {
  import opened Prelude
  import opened Json
  import opened IdempotencyKey

  datatype FieldSchema = FieldSchema(kind: string, allowed: Option<seq<string>>)

  /** An empty schema accepts anything; a property without a schema of its own is known but unchecked. */
  datatype Schema =
    | Anything
    | Object(properties: Option<map<string, Option<FieldSchema>>>, required: seq<string>)

  datatype Violation = NotAnObject | Missing(key: string) | Unknown(keys: seq<string>) | WrongType(key: string)

  ghost predicate WalksAll(o: seq<Field> -> seq<Field>) {
    forall got :: multiset(o(got)) == multiset(got)
  }

  /** The order in which a map with these members is walked: some order, of all of them. */
  type Order = o: seq<Field> -> seq<Field> | WalksAll(o)
    witness (got: seq<Field>) => got

  /** How arguments are read: norm as in Json, whether a number is a whole one, and how maps are walked. */
  datatype Reader = Reader(norm: Norm, whole: string -> bool, order: Order)

  predicate TypeFits(f: FieldSchema, v: Json, reader: Reader) {
    if f.kind == "string" then v.Str? && (f.allowed.Some? ==> v.text in f.allowed.value)
    else if f.kind == "integer" then v.Number? && reader.whole(v.digits)
    else if f.kind == "number" then v.Number?
    else if f.kind == "boolean" then v.Bool?
    else if f.kind == "object" then v.Obj?
    else if f.kind == "array" then v.Arr?
    else true
  }

  /** The arguments as a map, its members in key order: an object, or null, which reads as an empty one. */
  function Members(args: string, reader: Reader): Option<seq<Field>> {
    match Parse(args, reader.norm)
    case None => None
    case Some(v) =>
      match Canonical(v)
      case Obj(fields) => Some(fields)
      case Null => Some([])
      case _ => None
  }

  function FirstMissing(required: seq<string>, got: seq<Field>): Option<string> {
    if required == [] then None
    else if Find(got, required[0]).None? then Some(required[0])
    else FirstMissing(required[1..], got)
  }

  function Unknowns(got: seq<Field>, known: map<string, Option<FieldSchema>>): seq<string> {
    if got == [] then []
    else
      var before, key := Unknowns(got[..|got| - 1], known), got[|got| - 1].key;
      if key in known then before else before + [key]
  }

  predicate Mistyped(f: Field, known: map<string, Option<FieldSchema>>, reader: Reader) {
    f.key in known && known[f.key].Some? && !TypeFits(known[f.key].value, f.value, reader)
  }

  function FirstMistyped(got: seq<Field>, known: map<string, Option<FieldSchema>>, reader: Reader): Option<string> {
    if got == [] then None
    else if Mistyped(got[0], known, reader) then Some(got[0].key)
    else FirstMistyped(got[1..], known, reader)
  }

  /** What is wrong with some arguments, in the order the checks are made. */
  function Verdict(schema: Schema, args: string, reader: Reader): Option<Violation> {
    if schema.Anything? then None
    else
      match Members(args, reader)
      case None => Some(NotAnObject)
      case Some(got) =>
        var missing := FirstMissing(schema.required, got);
        if missing.Some? then Some(Missing(missing.value))
        else if schema.properties.None? then None
        else if Unknowns(got, schema.properties.value) != [] then Some(Unknown(Unknowns(got, schema.properties.value)))
        else
          var bad := FirstMistyped(reader.order(got), schema.properties.value, reader);
          if bad.Some? then Some(WrongType(bad.value)) else None
  }

  method ValidateArguments(schema: Schema, args: string, reader: Reader) returns (err: Option<Violation>)
    ensures err == Verdict(schema, args, reader)
  {
    hide WalksAll, Parse, Find, Mistyped;
    if schema.Anything? {
      return None;
    }
    var members := Members(args, reader);
    if members.None? {
      return Some(NotAnObject);
    }
    var got := members.value;
    for i := 0 to |schema.required|
      invariant FirstMissing(schema.required, got) == FirstMissing(schema.required[i..], got)
    {
      if Find(got, schema.required[i]).None? {
        return Some(Missing(schema.required[i]));
      }
    }
    if schema.properties.None? {
      return None;
    }
    var known := schema.properties.value;
    var unknown: seq<string> := [];
    for i := 0 to |got|
      invariant unknown == Unknowns(got[..i], known)
    {
      assert got[..i + 1][..i] == got[..i];
      if got[i].key !in known {
        unknown := unknown + [got[i].key];
      }
    }
    assert got[..|got|] == got;
    if |unknown| > 0 {
      return Some(Unknown(unknown));
    }
    var walk := reader.order(got);
    for i := 0 to |walk|
      invariant FirstMistyped(walk, known, reader) == FirstMistyped(walk[i..], known, reader)
    {
      if Mistyped(walk[i], known, reader) {
        return Some(WrongType(walk[i].key));
      }
    }
    return None;
  }

  // ---- What the verdict means

  ghost predicate HasAll(got: seq<Field>, required: seq<string>) {
    forall k :: k in required ==> Find(got, k).Some?
  }

  /** Every member is known to the schema and of the type it asks for. */
  ghost predicate Typed(got: seq<Field>, known: map<string, Option<FieldSchema>>, reader: Reader) {
    forall k :: Find(got, k).Some? ==>
      k in known && (known[k].Some? ==> TypeFits(known[k].value, Find(got, k).value, reader))
  }

  ghost predicate Conforms(schema: Schema, args: string, reader: Reader) {
    schema.Anything? ||
    (&& Members(args, reader).Some?
     && var got := Members(args, reader).value;
        && HasAll(got, schema.required)
        && (schema.properties.Some? ==> Typed(got, schema.properties.value, reader)))
  }

  lemma {:induction false} FirstMissingIs(required: seq<string>, got: seq<Field>)
    ensures var m := FirstMissing(required, got);
            && (m.None? <==> HasAll(got, required))
            && (m.Some? ==> m.value in required && Find(got, m.value).None?)
  {
    if required != [] && Find(got, required[0]).Some? {
      FirstMissingIs(required[1..], got);
      assert required == [required[0]] + required[1..];
    }
  }

  lemma {:induction false} UnknownsAre(got: seq<Field>, known: map<string, Option<FieldSchema>>)
    ensures forall k :: k in Unknowns(got, known) <==> Find(got, k).Some? && k !in known
  {
    if got != [] {
      UnknownsAre(got[..|got| - 1], known);
    }
  }

  lemma {:induction false} AscendingFinds(got: seq<Field>, i: nat)
    requires Ascending(got) && i < |got|
    ensures Find(got, got[i].key) == Some(got[i].value)
  {
    var last := |got| - 1;
    if i < last {
      LessIsTotal(got[i].key, got[last].key);
      AscendingFinds(got[..last], i);
    }
  }

  lemma {:induction false} FirstMistypedIs(got: seq<Field>, known: map<string, Option<FieldSchema>>, reader: Reader)
    ensures var m := FirstMistyped(got, known, reader);
            && (m.None? <==> forall i :: 0 <= i < |got| ==> !Mistyped(got[i], known, reader))
            && (m.Some? ==> exists i :: 0 <= i < |got| && got[i].key == m.value && Mistyped(got[i], known, reader))
  {
    if got != [] {
      FirstMistypedIs(got[1..], known, reader);
      if !Mistyped(got[0], known, reader) {
        assert forall i :: 1 <= i < |got| ==> got[i] == got[1..][i - 1];
        if FirstMistyped(got[1..], known, reader).Some? {
          var i :| 0 <= i < |got[1..]| && got[1..][i].key == FirstMistyped(got[1..], known, reader).value
                   && Mistyped(got[1..][i], known, reader);
          assert got[i + 1] == got[1..][i];
        }
      }
    }
  }

  lemma WalkMeetsAll(got: seq<Field>, reader: Reader)
    ensures forall f :: f in reader.order(got) <==> f in got
  {
    forall f ensures f in reader.order(got) <==> f in got {
      assert f in multiset(reader.order(got)) <==> f in multiset(got);
    }
  }

  lemma MembersAscend(args: string, reader: Reader)
    requires Members(args, reader).Some?
    ensures Ascending(Members(args, reader).value)
  {
    var v := Parse(args, reader.norm).value;
    if v.Obj? {
      CanonicalFieldsAscend(v.fields);
    }
  }

  /** Under each key there is one member, found or walked past. */
  lemma FoundIsMember(got: seq<Field>, reader: Reader, k: string)
    requires Ascending(got)
    ensures Find(got, k).Some? ==> Field(k, Find(got, k).value) in reader.order(got)
    ensures forall f :: f in reader.order(got) && f.key == k ==> Find(got, k) == Some(f.value)
  {
    hide WalksAll;
    WalkMeetsAll(got, reader);
    forall f | f in got && f.key == k ensures Find(got, k) == Some(f.value) {
      var i :| 0 <= i < |got| && got[i] == f;
      AscendingFinds(got, i);
    }
  }

  ghost predicate NothingFoundMistyped(got: seq<Field>, known: map<string, Option<FieldSchema>>, reader: Reader) {
    forall k :: Find(got, k).Some? ==> !Mistyped(Field(k, Find(got, k).value), known, reader)
  }

  /** Nothing walked past is mistyped exactly when nothing that can be found is. */
  lemma NothingMistyped(got: seq<Field>, known: map<string, Option<FieldSchema>>, reader: Reader)
    requires Ascending(got)
    ensures FirstMistyped(reader.order(got), known, reader).None? <==> NothingFoundMistyped(got, known, reader)
  {
    var walk := reader.order(got);
    FirstMistypedIs(walk, known, reader);
    hide WalksAll, Find, Mistyped, Ascending, FirstMistyped;
    if FirstMistyped(walk, known, reader).None? {
      forall k | Find(got, k).Some? ensures !Mistyped(Field(k, Find(got, k).value), known, reader) {
        FoundIsMember(got, reader, k);
        var i :| 0 <= i < |walk| && walk[i] == Field(k, Find(got, k).value);
      }
    } else {
      var i :| 0 <= i < |walk| && Mistyped(walk[i], known, reader);
      FoundIsMember(got, reader, walk[i].key);
      assert walk[i] in walk;
      assert Field(walk[i].key, Find(got, walk[i].key).value) == walk[i];
    }
  }

  lemma TypedMeans(got: seq<Field>, known: map<string, Option<FieldSchema>>, reader: Reader)
    ensures Typed(got, known, reader) <==> Unknowns(got, known) == [] && NothingFoundMistyped(got, known, reader)
  {
    UnknownsAre(got, known);
    hide TypeFits, Find;
    if Unknowns(got, known) != [] {
      assert Unknowns(got, known)[0] in Unknowns(got, known);
    }
    hide Unknowns;
  }

  lemma TypedIffNothingWrong(got: seq<Field>, known: map<string, Option<FieldSchema>>, reader: Reader)
    requires Ascending(got)
    ensures var bad := FirstMistyped(reader.order(got), known, reader);
            Typed(got, known, reader) <==> Unknowns(got, known) == [] && bad.None?
    ensures FirstMistyped(reader.order(got), known, reader).Some? ==>
      var k := FirstMistyped(reader.order(got), known, reader).value;
      Find(got, k).Some? && k in known && known[k].Some? && !TypeFits(known[k].value, Find(got, k).value, reader)
  {
    hide WalksAll, TypeFits, Find, Ascending, Typed, Unknowns, NothingFoundMistyped;
    var walk := reader.order(got);
    TypedMeans(got, known, reader);
    NothingMistyped(got, known, reader);
    FirstMistypedIs(walk, known, reader);
    hide FirstMistyped;
    if FirstMistyped(walk, known, reader).Some? {
      var i :| 0 <= i < |walk| && walk[i].key == FirstMistyped(walk, known, reader).value && Mistyped(walk[i], known, reader);
      FoundIsMember(got, reader, walk[i].key);
      assert walk[i] in walk;
    }
  }

  /** The tool runs exactly when the arguments conform, and a refusal names what really is wrong with them. */
  lemma ValidationIsExact(schema: Schema, args: string, reader: Reader)
    ensures Verdict(schema, args, reader).None? <==> Conforms(schema, args, reader)
    ensures match Verdict(schema, args, reader)
            case None => true
            case Some(NotAnObject) => Members(args, reader).None?
            case Some(Missing(k)) => k in schema.required && Find(Members(args, reader).value, k).None?
            case Some(Unknown(ks)) =>
              forall k :: k in ks <==> Find(Members(args, reader).value, k).Some? && k !in schema.properties.value
            case Some(WrongType(k)) =>
              var v, known := Find(Members(args, reader).value, k), schema.properties.value;
              v.Some? && k in known && known[k].Some? && !TypeFits(known[k].value, v.value, reader)
  {
    if schema.Object? && Members(args, reader).Some? {
      hide Find, Members;
      var got := Members(args, reader).value;
      MembersAscend(args, reader);
      FirstMissingIs(schema.required, got);
      if schema.properties.Some? {
        TypedIffNothingWrong(got, schema.properties.value, reader);
        UnknownsAre(got, schema.properties.value);
      }
    }
  }

  /** Arguments that differ only in the order of their keys get the same verdict, as they get the same key. */
  lemma VerdictIgnoresKeyOrder(schema: Schema, a: string, b: string, reader: Reader)
    requires Parse(a, reader.norm).Some? && SameArguments(a, b, reader.norm)
    ensures Verdict(schema, a, reader) == Verdict(schema, b, reader)
  {
    CanonicalIffSame(Parse(a, reader.norm).value, Parse(b, reader.norm).value);
  }

  /** Maps are walked afresh each time; whether a retry is accepted does not depend on how. */
  lemma AcceptanceIgnoresOrder(schema: Schema, a: string, b: string, reader: Reader, again: Order)
    requires Parse(a, reader.norm).Some? && SameArguments(a, b, reader.norm)
    ensures Verdict(schema, a, reader).None? <==> Verdict(schema, b, reader.(order := again)).None?
  {
    VerdictIgnoresKeyOrder(schema, a, b, reader);
    ValidationIsExact(schema, b, reader);
    ValidationIsExact(schema, b, reader.(order := again));
    hide Verdict, Members, Parse, Find, WalksAll;
    ConformingIgnoresOrder(schema, b, reader, again);
  }

  lemma ConformingIgnoresOrder(schema: Schema, args: string, reader: Reader, again: Order)
    ensures Conforms(schema, args, reader) <==> Conforms(schema, args, reader.(order := again))
  {
    hide Find, Parse, Canonical, WalksAll;
    var reader' := reader.(order := again);
    if schema.Object? && schema.properties.Some? && Members(args, reader).Some? {
      var got, known := Members(args, reader).value, schema.properties.value;
      assert forall f: FieldSchema, v :: TypeFits(f, v, reader) <==> TypeFits(f, v, reader');
      hide TypeFits, Members;
      assert Typed(got, known, reader) <==> Typed(got, known, reader');
    }
  }
}
