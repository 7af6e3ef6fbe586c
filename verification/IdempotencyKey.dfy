/**
 * The key a Write tool deduplicates on: the correlation ID, the tool and the canonical form of its
 * arguments, framed by NULs and hashed. Two calls get the same hash input exactly when they are the same
 * call, with object keys in any order.
 */
module IdempotencyKey {
  import opened Prelude
  import opened Json
  import opened Framing

  // ---- Keys in order

  /** Go's order on strings. */
  predicate Less(a: string, b: string) {
    if b == "" then false
    else if a == "" then true
    else if a[0] != b[0] then a[0] < b[0]
    else Less(a[1..], b[1..])
  }

  lemma {:induction false} LessIsTotal(a: string, b: string)
    ensures Less(a, b) || a == b || Less(b, a)
    ensures !(Less(a, b) && Less(b, a)) && !Less(a, a)
  {
    if a != "" && b != "" && a[0] == b[0] {
      LessIsTotal(a[1..], b[1..]);
      assert a == [a[0]] + a[1..] && b == [b[0]] + b[1..];
    }
    if a != "" {
      LessIsTotal(a[1..], a[1..]);
    }
  }

  lemma {:induction false} LessIsTransitive(a: string, b: string, c: string)
    requires Less(a, b) && Less(b, c)
    ensures Less(a, c)
  {
    if a != "" && a[0] == b[0] && b[0] == c[0] {
      LessIsTransitive(a[1..], b[1..], c[1..]);
    }
  }

  predicate Ascending(fields: seq<Field>) {
    forall i, j :: 0 <= i < j < |fields| ==> Less(fields[i].key, fields[j].key)
  }

  /** A map read as untyped JSON keeps the last value given for a key. */
  function Find(fields: seq<Field>, key: string): (v: Option<Json>)
    ensures v.Some? ==> exists i :: 0 <= i < |fields| && fields[i] == Field(key, v.value)
    ensures v.None? ==> forall i :: 0 <= i < |fields| ==> fields[i].key != key
  {
    if fields == [] then None
    else
      var last := fields[|fields| - 1];
      if last.key == key then Some(last.value) else Find(fields[..|fields| - 1], key)
  }

  /** Put one member in its place, replacing any of the same key. */
  function Insert(fields: seq<Field>, f: Field): (r: seq<Field>)
    ensures forall x :: x in r ==> x in fields || x == f
  {
    if fields == [] then [f]
    else
      var init, last := fields[..|fields| - 1], fields[|fields| - 1];
      if last.key == f.key then init + [f]
      else if Less(last.key, f.key) then fields + [f]
      else Insert(init, f) + [last]
  }

  lemma {:induction false} InsertKeepsOrder(fields: seq<Field>, f: Field)
    requires Ascending(fields)
    ensures Ascending(Insert(fields, f))
  {
    if fields != [] {
      var init, last := fields[..|fields| - 1], fields[|fields| - 1];
      LessIsTotal(last.key, f.key);
      if last.key != f.key {
        if Less(last.key, f.key) {
          forall i | 0 <= i < |fields| ensures Less(fields[i].key, f.key) {
            if i < |init| {
              LessIsTransitive(fields[i].key, last.key, f.key);
            }
          }
        } else {
          InsertKeepsOrder(init, f);
          var r := Insert(init, f);
          forall i | 0 <= i < |r| ensures Less(r[i].key, last.key) {
            assert r[i] in init || r[i] == f;
          }
        }
      }
    }
  }

  lemma FindAppended(fields: seq<Field>, f: Field, key: string)
    ensures Find(fields + [f], key) == if key == f.key then Some(f.value) else Find(fields, key)
  {
    assert (fields + [f])[..|fields|] == fields;
  }

  lemma {:induction false} InsertFinds(fields: seq<Field>, f: Field, key: string)
    requires Ascending(fields)
    ensures Find(Insert(fields, f), key) == if key == f.key then Some(f.value) else Find(fields, key)
  {
    if fields == [] {
      FindAppended([], f, key);
    } else {
      var init, last := fields[..|fields| - 1], fields[|fields| - 1];
      assert fields == init + [last];
      LessIsTotal(last.key, f.key);
      InsertFinds(init, f, key);
      FindAppended(init, last, key);
      FindAppended(init, f, key);
      FindAppended(fields, f, key);
      FindAppended(Insert(init, f), last, key);
      hide Find, Less, Ascending;
    }
  }

  lemma LastIsLargest(a: seq<Field>, b: seq<Field>)
    requires Ascending(a) && a != [] && b != []
    requires Find(a, b[|b| - 1].key).Some?
    ensures !Less(a[|a| - 1].key, b[|b| - 1].key)
  {
    var key, last := b[|b| - 1].key, a[|a| - 1].key;
    var i :| 0 <= i < |a| && a[i].key == key;
    LessIsTotal(key, last);
  }

  lemma FindsLast(fields: seq<Field>)
    requires fields != []
    ensures Find(fields, fields[|fields| - 1].key).Some?
  {
  }

  /** An ascending list of members is determined by what it maps each key to. */
  lemma {:induction false} AscendingIsUnique(a: seq<Field>, b: seq<Field>)
    requires Ascending(a) && Ascending(b) && forall k :: Find(a, k) == Find(b, k)
    ensures a == b
  {
    if a == [] {
      if b != [] {
        FindsLast(b);
        assert false;
      }
    } else {
      var init, last := a[..|a| - 1], a[|a| - 1];
      assert Find(a, last.key) == Find(b, last.key) == Some(last.value);
      var init', last' := b[..|b| - 1], b[|b| - 1];
      assert Find(a, last'.key) == Find(b, last'.key) == Some(last'.value);
      LastIsLargest(a, b);
      LastIsLargest(b, a);
      LessIsTotal(last.key, last'.key);
      forall k ensures Find(init, k) == Find(init', k) {
        assert Find(a, k) == Find(b, k);
        LessIsTotal(k, k);
        if k == last.key {
          assert Find(init, k).None? && Find(init', k).None?;
        }
      }
      AscendingIsUnique(init, init');
      assert a == init + [last] && b == init' + [last'];
    }
  }

  // ---- The canonical form

  /** Rebuilt from the bottom up, each object with its keys in order and the last value of each. */
  function Canonical(v: Json): Json {
    match v
    case Arr(items) => Arr(CanonicalItems(items))
    case Obj(fields) => Obj(CanonicalFields(fields))
    case _ => v
  }

  function CanonicalItems(items: seq<Json>): seq<Json> {
    if items == [] then []
    else CanonicalItems(items[..|items| - 1]) + [Canonical(items[|items| - 1])]
  }

  function CanonicalFields(fields: seq<Field>): seq<Field> {
    if fields == [] then []
    else
      var last := fields[|fields| - 1];
      Insert(CanonicalFields(fields[..|fields| - 1]), Field(last.key, Canonical(last.value)))
  }

  /** The rebuilding as it runs: a fresh list or map, filled member by member. */
  method Rebuild(v: Json) returns (c: Json)
    ensures c == Canonical(v)
    decreases v
  {
    match v
    case Obj(fields) =>
      var out: seq<Field> := [];
      for i := 0 to |fields|
        invariant out == CanonicalFields(fields[..i])
      {
        var value := Rebuild(fields[i].value);
        assert fields[..i + 1][..i] == fields[..i];
        out := Insert(out, Field(fields[i].key, value));
      }
      assert fields[..|fields|] == fields;
      return Obj(out);
    case Arr(items) =>
      var out: seq<Json> := [];
      for i := 0 to |items|
        invariant out == CanonicalItems(items[..i])
      {
        var value := Rebuild(items[i]);
        assert items[..i + 1][..i] == items[..i];
        out := out + [value];
      }
      assert items[..|items|] == items;
      return Arr(out);
    case _ =>
      return v;
  }

  /** Equal up to the order of object keys, at every depth. */
  ghost predicate Same(v: Json, w: Json)
    decreases v, 1
  {
    match v
    case Arr(items) =>
      && w.Arr? && |items| == |w.items|
      && forall i :: 0 <= i < |items| ==> Same(items[i], w.items[i])
    case Obj(fields) =>
      && w.Obj?
      && forall k :: SameMember(v, w, k)
    case _ => v == w
  }

  ghost predicate SameMember(v: Json, w: Json, key: string)
    requires v.Obj? && w.Obj?
    decreases v, 0
  {
    var a, b := Find(v.fields, key), Find(w.fields, key);
    if a.Some? && b.Some? then (FoundIsInside(v, key); Same(a.value, b.value)) else a.None? && b.None?
  }

  lemma {:induction false} CanonicalItemsAre(items: seq<Json>)
    ensures |CanonicalItems(items)| == |items|
    ensures forall i :: 0 <= i < |items| ==> CanonicalItems(items)[i] == Canonical(items[i])
  {
    if items != [] {
      CanonicalItemsAre(items[..|items| - 1]);
    }
  }

  lemma {:induction false} CanonicalFieldsAscend(fields: seq<Field>)
    ensures Ascending(CanonicalFields(fields))
  {
    if fields != [] {
      var init, last := fields[..|fields| - 1], fields[|fields| - 1];
      CanonicalFieldsAscend(init);
      InsertKeepsOrder(CanonicalFields(init), Field(last.key, Canonical(last.value)));
    }
  }

  function CanonicalOf(v: Option<Json>): Option<Json> {
    if v.Some? then Some(Canonical(v.value)) else None
  }

  lemma {:induction false} CanonicalFieldsFind(fields: seq<Field>, key: string)
    ensures Find(CanonicalFields(fields), key) == CanonicalOf(Find(fields, key))
  {
    if fields != [] {
      var init, last := fields[..|fields| - 1], fields[|fields| - 1];
      CanonicalFieldsFind(init, key);
      CanonicalFieldsAscend(init);
      InsertFinds(CanonicalFields(init), Field(last.key, Canonical(last.value)), key);
    }
  }

  lemma FoundIsInside(v: Json, key: string)
    requires v.Obj? && Find(v.fields, key).Some?
    ensures Find(v.fields, key).value < v
  {
    var i :| 0 <= i < |v.fields| && v.fields[i] == Field(key, Find(v.fields, key).value);
    assert v.fields[i].value < v;
  }

  /** Two values have one canonical form exactly when they are equal up to key order. */
  lemma {:induction false} CanonicalIffSame(v: Json, w: Json)
    ensures Canonical(v) == Canonical(w) <==> Same(v, w)
    decreases v
  {
    if v.Arr? && w.Arr? && |v.items| == |w.items| {
      CanonicalItemsAre(v.items);
      CanonicalItemsAre(w.items);
      forall i | 0 <= i < |v.items|
        ensures CanonicalItems(v.items)[i] == CanonicalItems(w.items)[i] <==> Same(v.items[i], w.items[i])
      {
        CanonicalIffSame(v.items[i], w.items[i]);
      }
    } else if v.Arr? && w.Arr? {
      CanonicalItemsAre(v.items);
      CanonicalItemsAre(w.items);
    } else if v.Obj? && w.Obj? {
      var a, b := CanonicalFields(v.fields), CanonicalFields(w.fields);
      forall k ensures Find(a, k) == Find(b, k) <==> SameMember(v, w, k) {
        CanonicalFieldsFind(v.fields, k);
        CanonicalFieldsFind(w.fields, k);
        if Find(v.fields, k).Some? {
          FoundIsInside(v, k);
          if Find(w.fields, k).Some? {
            CanonicalIffSame(Find(v.fields, k).value, Find(w.fields, k).value);
          }
        }
      }
      hide SameMember;
      if Same(v, w) {
        CanonicalFieldsAscend(v.fields);
        CanonicalFieldsAscend(w.fields);
        AscendingIsUnique(a, b);
      }
    }
  }

  // ---- The canonical text

  ghost predicate ReadableFields(fields: seq<Field>, depth: nat, norm: Norm) {
    forall i :: 0 <= i < |fields| ==> Readable(fields[i].value, depth, norm)
  }

  lemma InsertKeepsReadable(fields: seq<Field>, f: Field, depth: nat, norm: Norm)
    requires ReadableFields(fields, depth, norm) && Readable(f.value, depth, norm)
    ensures ReadableFields(Insert(fields, f), depth, norm)
  {
    var r := Insert(fields, f);
    forall i | 0 <= i < |r| ensures Readable(r[i].value, depth, norm) {
      assert r[i] in r;
    }
  }

  lemma {:induction false} CanonicalIsReadable(v: Json, depth: nat, norm: Norm)
    requires Readable(v, depth, norm)
    ensures Readable(Canonical(v), depth, norm)
    decreases v, 0
  {
    match v
    case Arr(items) =>
      CanonicalItemsAre(items);
      forall i | 0 <= i < |items| ensures Readable(CanonicalItems(items)[i], depth - 1, norm) {
        CanonicalIsReadable(items[i], depth - 1, norm);
      }
    case Obj(fields) =>
      CanonicalFieldsAreReadable(fields, depth - 1, norm);
    case _ =>
  }

  lemma {:induction false} CanonicalFieldsAreReadable(fields: seq<Field>, depth: nat, norm: Norm)
    requires ReadableFields(fields, depth, norm)
    ensures ReadableFields(CanonicalFields(fields), depth, norm)
    decreases fields, 1
  {
    if fields != [] {
      var init, last := fields[..|fields| - 1], fields[|fields| - 1];
      CanonicalFieldsAreReadable(init, depth, norm);
      CanonicalIsReadable(last.value, depth, norm);
      InsertKeepsReadable(CanonicalFields(init), Field(last.key, Canonical(last.value)), depth, norm);
    }
  }

  /** What is hashed for some arguments: their canonical text, or the bytes as they came. */
  function CanonicalText(raw: string, norm: Norm): string {
    match Parse(raw, norm)
    case None => raw
    case Some(v) => Encode(Canonical(v))
  }

  /** The canonical text of valid arguments is valid itself and means their canonical form; no other is valid. */
  lemma CanonicalTextReadsBack(raw: string, norm: Norm)
    requires Reformats(norm)
    ensures Parse(CanonicalText(raw, norm), norm) == CanonicalOf(Parse(raw, norm))
  {
    if Parse(raw, norm).Some? {
      var v := Parse(raw, norm).value;
      ReadIsReadable(SkipWhite(raw), MAX_DEPTH, norm);
      CanonicalIsReadable(v, MAX_DEPTH, norm);
      RoundTrip(Canonical(v), norm);
    }
  }

  /** Valid and the same value up to key order, or malformed and the same bytes. */
  ghost predicate SameArguments(a: string, b: string, norm: Norm) {
    match (Parse(a, norm), Parse(b, norm))
    case (Some(v), Some(w)) => Same(v, w)
    case (None, None) => a == b
    case _ => false
  }

  lemma TextsAgreeIffSame(a: string, b: string, norm: Norm)
    requires Reformats(norm)
    ensures CanonicalText(a, norm) == CanonicalText(b, norm) <==> SameArguments(a, b, norm)
  {
    hide Parse, Canonical, Encode, Same;
    CanonicalTextReadsBack(a, norm);
    CanonicalTextReadsBack(b, norm);
    if Parse(a, norm).Some? && Parse(b, norm).Some? {
      CanonicalIffSame(Parse(a, norm).value, Parse(b, norm).value);
    }
  }

  /**
   * Canonical texts agree exactly when the arguments are the same: valid arguments by value, malformed ones
   * byte for byte, and never one of each.
   */
  lemma {:induction false} TextsIdentifyArguments(norm: Norm)
    requires Reformats(norm)
    ensures forall a, b :: CanonicalText(a, norm) == CanonicalText(b, norm) <==> SameArguments(a, b, norm)
  {
    forall a, b ensures CanonicalText(a, norm) == CanonicalText(b, norm) <==> SameArguments(a, b, norm) {
      hide CanonicalText, SameArguments;
      TextsAgreeIffSame(a, b, norm);
    }
  }

  /** Everything the key is a hash of. */
  function KeyInput(correlationID: string, name: string, args: string, norm: Norm): string {
    Framed(correlationID, Framed(name, CanonicalText(args, norm)))
  }

  /** digest stands for the truncated hexadecimal SHA-256. */
  method DeriveIdempotencyKey(correlationID: string, name: string, args: string, norm: Norm, digest: string -> string)
    returns (key: string)
    ensures key == digest(KeyInput(correlationID, name, args, norm))
  {
    var h := "";
    h := h + correlationID;
    h := h + "\0";
    h := h + name;
    h := h + "\0";
    var parsed := Parse(args, norm);
    if parsed.None? {
      h := h + args;
    } else {
      var canonical := Rebuild(parsed.value);
      h := h + Encode(canonical);
    }
    assert h == KeyInput(correlationID, name, args, norm);
    return digest(h);
  }

  /** The hash input names one call: the same correlation ID, the same tool, the same arguments. */
  lemma KeysIdentifyCalls(cid: string, name: string, args: string, cid': string, name': string, args': string, norm: Norm)
    requires Reformats(norm)
    requires NulFree(cid) && NulFree(cid') && NulFree(name) && NulFree(name')
    ensures KeyInput(cid, name, args, norm) == KeyInput(cid', name', args', norm) <==>
            cid == cid' && name == name' && SameArguments(args, args', norm)
  {
    hide CanonicalText, SameArguments;
    TextsAgreeIffSame(args, args', norm);
    FramesAreInjective(name, CanonicalText(args, norm), name', CanonicalText(args', norm));
    FramesAreInjective(cid, Framed(name, CanonicalText(args, norm)), cid', Framed(name', CanonicalText(args', norm)));
  }
}
