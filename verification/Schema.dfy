/** The schema tightening of the cognitive planner and its local shape checker. */
module SchemaTightening {
  import opened Graphs
  import opened JsonValues

  // ----- tightening

  predicate Closable(f: Fields) { Get(f, "type") == Some(Str("object")) || Has(f, "properties") }

  function Properties(f: Fields): Fields {
    match Get(f, "properties") case Some(Obj(p)) => p case _ => NoFields
  }

  /** Forbids other properties, and requires all listed ones. */
  function Close(f: Fields, properties: Fields): Fields {
    Set(Set(f, "additionalProperties", Bool(false)), "required", Arr(KeyList(properties)))
  }

  function Tighten(j: Json): Json {
    match j
    case Arr(items) => Arr(TightenItems(items))
    case Obj(f) => Obj(if Closable(f) then Close(TightenFields(f), Properties(f)) else TightenFields(f))
    case _ => j
  }

  function TightenItems(items: Items): Items {
    if items.NoItems? then items else Items(Tighten(items.head), TightenItems(items.tail))
  }

  function TightenFields(f: Fields): Fields {
    if f.NoFields? then f else Fields(f.key, Tighten(f.value), TightenFields(f.rest))
  }

  function EnvelopeOf(key: string, schema: Json): Fields {
    Fields("type", Str("object"),
      Fields("additionalProperties", Bool(false),
        Fields("properties", Obj(Fields(key, schema, NoFields)),
          Fields("required", Arr(Items(Str(key), NoItems)), NoFields))))
  }

  function StrictEnvelope(key: string, schema: Json): Json { Tighten(Obj(EnvelopeOf(key, schema))) }

  lemma {:induction false} GetTightened(f: Fields, key: string)
    ensures Has(TightenFields(f), key) <==> Has(f, key)
    ensures Has(f, key) ==> Get(TightenFields(f), key) == Some(Tighten(Get(f, key).value))
  {
    if f.Fields? {
      GetTightened(f.rest, key);
    }
  }

  lemma {:induction false} KeysTightened(f: Fields)
    ensures KeyList(TightenFields(f)) == KeyList(f)
  {
    if f.Fields? {
      KeysTightened(f.rest);
    }
  }

  /** What a key holds after tightening. */
  lemma {:induction false} TightenedGet(f: Fields, key: string)
    ensures Get(Tighten(Obj(f)).fields, key) ==
              if Closable(f) && key == "required" then Some(Arr(KeyList(Properties(f))))
              else if Closable(f) && key == "additionalProperties" then Some(Bool(false))
              else if Has(f, key) then Some(Tighten(Get(f, key).value)) else None
  {
    GetTightened(f, key);
    var mapped := TightenFields(f);
    GetSet(mapped, "additionalProperties", Bool(false), key);
    GetSet(Set(mapped, "additionalProperties", Bool(false)), "required", Arr(KeyList(Properties(f))), key);
  }

  // ----- the shape checker

  datatype Step = Key(name: string) | Index(i: nat)

  type Path = seq<Step>

  datatype Complaint = MatchesNone | Expected(what: string) | Missing(key: string) | TooShort | TooLong | NotInEnum

  datatype Problem = Problem(path: Path, complaint: Complaint)

  /** Numbers and booleans compare by value, across their types. */
  function Numeric(j: Json): Option<real> {
    match j
    case Bool(b) => Some(if b then 1.0 else 0.0)
    case Int(i) => Some(i as real)
    case Float(r) => Some(r)
    case _ => None
  }

  predicate Equal(a: Json, b: Json) { if Numeric(a).Some? && Numeric(b).Some? then Numeric(a) == Numeric(b) else a == b }

  predicate InEnum(v: Json, items: Items) { items.Items? && (Equal(v, items.head) || InEnum(v, items.tail)) }

  function Limit(f: Fields, key: string): Option<int> {
    match Get(f, key) case Some(Int(i)) => Some(i) case _ => None
  }

  predicate TypeFits(v: Json, expected: string) {
    if expected == "string" then v.Str?
    else if expected == "number" then v.Int? || v.Float?
    else if expected == "integer" then v.Int?
    else if expected == "boolean" then v.Bool?
    else true
  }

  function TypeName(f: Fields): string {
    match Get(f, "type") case Some(Str(s)) => s case _ => ""
  }

  function ShapeErrors(v: Json, schema: Fields, path: Path): seq<Problem>
    decreases FieldsSize(schema), 2, 0
  {
    var alternatives := Get(schema, "anyOf");
    if alternatives.Some? && alternatives.value.Arr? then
      if FitsSome(v, alternatives.value.items, path) then [] else [Problem(path, MatchesNone)]
    else
      var expected := TypeName(schema);
      if expected == "null" then if v.Null? then [] else [Problem(path, Expected(expected))]
      else if expected == "object" then
        if !v.Obj? then [Problem(path, Expected(expected))]
        else MissingErrors(v.fields, Required(schema), path) + PropertyErrors(v.fields, schema, path)
      else if expected == "array" then
        if !v.Arr? then [Problem(path, Expected(expected))]
        else LengthErrors(ItemCount(v.items), schema, path) + ElementsErrors(v.items, schema, path)
      else if !TypeFits(v, expected) then [Problem(path, Expected(expected))]
      else EnumErrors(v, schema, path)
  }

  /** Some alternative that is a schema object accepts the value. */
  predicate FitsSome(v: Json, alternatives: Items, path: Path)
    decreases ItemsSize(alternatives), 0, 0
  {
    if alternatives.NoItems? then false
    else
      assert Size(alternatives.head) < ItemsSize(alternatives);
      || (alternatives.head.Obj? && ShapeErrors(v, alternatives.head.fields, path) == [])
      || FitsSome(v, alternatives.tail, path)
  }

  function Required(schema: Fields): Items {
    match Get(schema, "required") case Some(Arr(items)) => items case _ => NoItems
  }

  function MissingErrors(fields: Fields, required: Items, path: Path): seq<Problem> {
    if required.NoItems? then []
    else (if required.head.Str? && !Has(fields, required.head.s) then [Problem(path, Missing(required.head.s))] else [])
         + MissingErrors(fields, required.tail, path)
  }

  function PropertyErrors(fields: Fields, schema: Fields, path: Path): seq<Problem>
    decreases FieldsSize(schema), 1, FieldsSize(fields)
  {
    var properties := Get(schema, "properties");
    if fields.NoFields? || properties.None? || !properties.value.Obj? then []
    else
      var child := Get(properties.value.fields, fields.key);
      (if child.Some? && child.value.Obj? then ShapeErrors(fields.value, child.value.fields, path + [Key(fields.key)]) else [])
      + PropertyErrors(fields.rest, schema, path)
  }

  function LengthErrors(count: nat, schema: Fields, path: Path): seq<Problem> {
    var least, most := Limit(schema, "minItems"), Limit(schema, "maxItems");
    (if least.Some? && count < least.value then [Problem(path, TooShort)] else [])
    + (if most.Some? && count > most.value then [Problem(path, TooLong)] else [])
  }

  function ElementsErrors(items: Items, schema: Fields, path: Path): seq<Problem>
    decreases FieldsSize(schema), 1, 0
  {
    var child := Get(schema, "items");
    if child.Some? && child.value.Obj? then ElementErrors(items, child.value.fields, path, 0) else []
  }

  function ElementErrors(items: Items, child: Fields, path: Path, index: nat): seq<Problem>
    decreases FieldsSize(child), 3, ItemsSize(items)
  {
    if items.NoItems? then []
    else ShapeErrors(items.head, child, path + [Index(index)]) + ElementErrors(items.tail, child, path, index + 1)
  }

  function EnumErrors(v: Json, schema: Fields, path: Path): seq<Problem> {
    match Get(schema, "enum")
    case Some(Arr(items)) => if InEnum(v, items) then [] else [Problem(path, NotInEnum)]
    case _ => []
  }

  // ----- tightening keeps the meaning

  predicate AllIn(required: Items, properties: Fields) {
    required.Items? ==> required.head.Str? && Has(properties, required.head.s) && AllIn(required.tail, properties)
  }

  /** What a schema must satisfy, where the checker looks: required names are declared, a
      property table that itself looks like a schema has no schema under the two keys that
      closing overwrites, and what tightening makes of an enumeration's entries is listed in it
      too. */
  predicate SchemaOk(schema: Fields)
    decreases FieldsSize(schema), 1
  {
    var alternatives, properties, items := Get(schema, "anyOf"), Get(schema, "properties"), Get(schema, "items");
    if alternatives.Some? && alternatives.value.Arr? then AlternativesOk(alternatives.value.items)
    else if TypeName(schema) == "object" then
      && AllIn(Required(schema), Properties(schema))
      && (properties.Some? && properties.value.Obj? ==>
            && TableOk(properties.value.fields)
            && PropertiesOk(properties.value.fields))
    else if TypeName(schema) == "array" then
      items.Some? && items.value.Obj? ==> SchemaOk(items.value.fields)
    else TypeName(schema) != "null" ==> EnumOk(schema)
  }

  predicate EnumOk(schema: Fields) {
    match Get(schema, "enum") case Some(Arr(items)) => EntriesListed(TightenItems(items), items, TypeName(schema)) case _ => true
  }

  /** Each entry that has the expected type is one of the items. */
  predicate EntriesListed(entries: Items, items: Items, expected: string) {
    entries.Items? ==>
      && (TypeFits(entries.head, expected) ==> InEnum(entries.head, items))
      && EntriesListed(entries.tail, items, expected)
  }

  predicate IsSchema(entry: Option<Json>) { entry.Some? && entry.value.Obj? }

  predicate TableOk(properties: Fields) {
    Closable(properties) ==> !IsSchema(Get(properties, "required")) && !IsSchema(Get(properties, "additionalProperties"))
  }

  predicate PropertiesOk(properties: Fields)
    decreases FieldsSize(properties), 0
  {
    properties.Fields? ==>
      && (properties.value.Obj? ==>
            (assert Size(properties.value) < FieldsSize(properties); SchemaOk(properties.value.fields)))
      && PropertiesOk(properties.rest)
  }

  predicate AlternativesOk(alternatives: Items)
    decreases ItemsSize(alternatives), 0
  {
    alternatives.Items? ==>
      && (alternatives.head.Obj? ==>
            (assert Size(alternatives.head) < ItemsSize(alternatives); SchemaOk(alternatives.head.fields)))
      && AlternativesOk(alternatives.tail)
  }

  lemma {:induction false} PropertyOk(properties: Fields, key: string)
    requires PropertiesOk(properties) && Has(properties, key) && Get(properties, key).value.Obj?
    ensures SchemaOk(Get(properties, key).value.fields)
  {
    if properties.key != key {
      PropertyOk(properties.rest, key);
    }
  }

  function Tightened(schema: Fields): Fields { Tighten(Obj(schema)).fields }

  lemma {:induction false} TypeKept(schema: Fields)
    ensures TypeName(Tightened(schema)) == TypeName(schema)
  {
    TightenedGet(schema, "type");
  }

  lemma {:induction false} MissingFewer(fields: Fields, required: Items, properties: Fields, path: Path)
    requires AllIn(required, properties) && MissingErrors(fields, KeyList(properties), path) == []
    ensures MissingErrors(fields, required, path) == []
  {
    if required.Items? {
      MissingFewer(fields, required.tail, properties, path);
      NothingMissing(fields, properties, path, required.head.s);
    }
  }

  lemma {:induction false} NothingMissing(fields: Fields, properties: Fields, path: Path, key: string)
    requires MissingErrors(fields, KeyList(properties), path) == [] && Has(properties, key)
    ensures Has(fields, key)
  {
    if properties.key != key {
      NothingMissing(fields, properties.rest, path, key);
    }
  }

  lemma {:induction false} LengthKept(count: nat, schema: Fields, path: Path)
    ensures LengthErrors(count, Tightened(schema), path) == LengthErrors(count, schema, path)
  {
    TightenedGet(schema, "minItems");
    TightenedGet(schema, "maxItems");
  }

  lemma {:induction false} EnumIsStronger(v: Json, schema: Fields, path: Path)
    requires EnumOk(schema) && TypeFits(v, TypeName(schema)) && EnumErrors(v, Tightened(schema), path) == []
    ensures EnumErrors(v, schema, path) == []
  {
    TightenedGet(schema, "enum");
    var entries := Get(schema, "enum");
    if entries.Some? && entries.value.Arr? {
      AllInSelf(entries.value.items);
      StillInEnum(v, entries.value.items, entries.value.items, TypeName(schema));
    }
  }

  predicate AllInEnum(some: Items, items: Items) { some.Items? ==> InEnum(some.head, items) && AllInEnum(some.tail, items) }

  lemma {:induction false} LongerEnum(some: Items, items: Items, more: Json)
    requires AllInEnum(some, items)
    ensures AllInEnum(some, Items(more, items))
  {
    if some.Items? {
      LongerEnum(some.tail, items, more);
    }
  }

  lemma {:induction false} AllInSelf(items: Items)
    ensures AllInEnum(items, items)
  {
    if items.Items? {
      AllInSelf(items.tail);
      LongerEnum(items.tail, items.tail, items.head);
    }
  }

  lemma {:induction false} EqualInEnum(v: Json, w: Json, items: Items)
    requires Equal(v, w) && InEnum(w, items)
    ensures InEnum(v, items)
  {
    if !Equal(w, items.head) {
      EqualInEnum(v, w, items.tail);
    }
  }

  /** A value that equals a tightened entry equals an item: the entry itself, if that is a plain
      value, or the item that its tightened form is. */
  lemma {:induction false} StillInEnum(v: Json, some: Items, items: Items, expected: string)
    requires TypeFits(v, expected) && InEnum(v, TightenItems(some))
    requires EntriesListed(TightenItems(some), items, expected) && AllInEnum(some, items)
    ensures InEnum(v, items)
  {
    var entry := Tighten(some.head);
    assert TightenItems(some) == Items(entry, TightenItems(some.tail));
    if Equal(v, entry) {
      if entry.Arr? || entry.Obj? {
        EqualInEnum(v, entry, items);
      } else {
        EqualInEnum(v, some.head, items);
      }
    } else {
      StillInEnum(v, some.tail, items, expected);
    }
  }

  /** A value without shape errors against the tightened schema has none against the original. */
  lemma {:induction false} TightenedIsStronger(v: Json, schema: Fields, path: Path)
    requires SchemaOk(schema) && ShapeErrors(v, Tightened(schema), path) == []
    ensures ShapeErrors(v, schema, path) == []
    decreases FieldsSize(schema), 2, 0
  {
    var alternatives := Get(schema, "anyOf");
    TightenedGet(schema, "anyOf");
    TypeKept(schema);
    if alternatives.Some? && alternatives.value.Arr? {
      SomeStillFits(v, alternatives.value.items, path);
    } else if TypeName(schema) == "object" && v.Obj? {
      ObjectIsStronger(v.fields, schema, path);
      PropertiesAreStronger(v.fields, schema, path);
    } else if TypeName(schema) == "array" && v.Arr? {
      LengthKept(ItemCount(v.items), schema, path);
      TightenedGet(schema, "items");
      if Get(schema, "items").Some? && Get(schema, "items").value.Obj? {
        ElementsAreStronger(v.items, Get(schema, "items").value.fields, path, 0);
      }
    } else if TypeName(schema) != "null" {
      EnumIsStronger(v, schema, path);
    }
  }

  lemma {:induction false} ObjectIsStronger(fields: Fields, schema: Fields, path: Path)
    requires TypeName(schema) == "object" && AllIn(Required(schema), Properties(schema))
    requires MissingErrors(fields, Required(Tightened(schema)), path) == []
    ensures MissingErrors(fields, Required(schema), path) == []
  {
    TightenedGet(schema, "required");
    assert Closable(schema);
    MissingFewer(fields, Required(schema), Properties(schema), path);
  }

  lemma {:induction false} SomeStillFits(v: Json, alternatives: Items, path: Path)
    requires AlternativesOk(alternatives) && FitsSome(v, TightenItems(alternatives), path)
    ensures FitsSome(v, alternatives, path)
    decreases ItemsSize(alternatives), 0, 0
  {
    assert TightenItems(alternatives) == Items(Tighten(alternatives.head), TightenItems(alternatives.tail));
    assert Size(alternatives.head) < ItemsSize(alternatives);
    if alternatives.head.Obj? && ShapeErrors(v, Tightened(alternatives.head.fields), path) == [] {
      TightenedIsStronger(v, alternatives.head.fields, path);
    } else {
      SomeStillFits(v, alternatives.tail, path);
    }
  }

  lemma {:induction false} PropertiesAreStronger(fields: Fields, schema: Fields, path: Path)
    requires TypeName(schema) == "object" && PropertyErrors(fields, Tightened(schema), path) == []
    requires Get(schema, "properties").Some? && Get(schema, "properties").value.Obj? ==>
               TableOk(Properties(schema)) && PropertiesOk(Properties(schema))
    ensures PropertyErrors(fields, schema, path) == []
    decreases FieldsSize(schema), 1, FieldsSize(fields)
  {
    TightenedGet(schema, "properties");
    var properties := Properties(schema);
    if fields.Fields? && Get(schema, "properties").Some? && Get(schema, "properties").value.Obj? {
      TightenedGet(properties, fields.key);
      PropertiesAreStronger(fields.rest, schema, path);
      if Has(properties, fields.key) && Get(properties, fields.key).value.Obj? {
        PropertyOk(properties, fields.key);
        TightenedIsStronger(fields.value, Get(properties, fields.key).value.fields, path + [Key(fields.key)]);
      }
    }
  }

  lemma {:induction false} ElementsAreStronger(items: Items, child: Fields, path: Path, index: nat)
    requires SchemaOk(child) && ElementErrors(items, Tightened(child), path, index) == []
    ensures ElementErrors(items, child, path, index) == []
    decreases FieldsSize(child), 3, ItemsSize(items)
  {
    if items.Items? {
      TightenedIsStronger(items.head, child, path + [Index(index)]);
      ElementsAreStronger(items.tail, child, path, index + 1);
    }
  }

  /** What the planner relies on: a response that passes the strict envelope locally holds,
      under the output key, a value that the authoritative schema accepts. */
  lemma {:induction false} EnvelopeKeepsMeaning(v: Json, key: string, schema: Json)
    requires schema.Obj? && SchemaOk(schema.fields)
    requires ShapeErrors(v, StrictEnvelope(key, schema).fields, []) == []
    ensures v.Obj? && Has(v.fields, key)
    ensures ShapeErrors(Get(v.fields, key).value, schema.fields, [Key(key)]) == []
  {
    var envelope := EnvelopeOf(key, schema);
    EnvelopeGets(key, schema);
    TightenedGet(envelope, "anyOf");
    TypeKept(envelope);
    TightenedIsStronger(v, envelope, []);
    PropertyAccepted(v.fields, key, schema, envelope);
  }

  lemma {:induction false} Skip(f: Fields, key: string)
    requires f.Fields? && f.key != key
    ensures Get(f, key) == Get(f.rest, key)
  {
  }

  lemma {:induction false} OneEntry(key: string, value: Json)
    ensures TableOk(Fields(key, value, NoFields))
  {
    assert forall other :: Has(Fields(key, value, NoFields), other) ==> other == key;
    assert "required" != "type" && "required" != "properties";
    assert "additionalProperties" != "type" && "additionalProperties" != "properties";
    if Closable(Fields(key, value, NoFields)) {
      assert key == "type" || key == "properties";
    }
  }

  lemma {:induction false} EnvelopeGets(key: string, schema: Json)
    ensures var envelope := EnvelopeOf(key, schema);
            && Get(envelope, "type") == Some(Str("object")) && Get(envelope, "anyOf") == None
            && Get(envelope, "properties") == Some(Obj(Fields(key, schema, NoFields)))
            && Get(envelope, "required") == Some(Arr(Items(Str(key), NoItems)))
    ensures schema.Obj? && SchemaOk(schema.fields) ==> SchemaOk(EnvelopeOf(key, schema))
  {
    var f := EnvelopeOf(key, schema);
    Skip(f, "anyOf");
    Skip(f.rest, "anyOf");
    Skip(f.rest.rest, "anyOf");
    Skip(f.rest.rest.rest, "anyOf");
    Skip(f, "properties");
    Skip(f.rest, "properties");
    Skip(f, "required");
    Skip(f.rest, "required");
    Skip(f.rest.rest, "required");
    var table := Fields(key, schema, NoFields);
    assert AllIn(Items(Str(key), NoItems), table);
    OneEntry(key, schema);
  }

  lemma {:induction false} PropertyAccepted(fields: Fields, key: string, schema: Json, envelope: Fields)
    requires schema.Obj? && Get(envelope, "properties") == Some(Obj(Fields(key, schema, NoFields)))
    requires PropertyErrors(fields, envelope, []) == [] && Has(fields, key)
    ensures ShapeErrors(Get(fields, key).value, schema.fields, [Key(key)]) == []
  {
    if fields.key == key {
      assert [] + [Key(key)] == [Key(key)];
    } else {
      PropertyAccepted(fields.rest, key, schema, envelope);
    }
  }

  // ----- where the meaning is lost

  lemma {:induction false} RemoveAddsNone(fields: Fields, schema: Fields, path: Path, key: string)
    requires PropertyErrors(fields, schema, path) == []
    ensures PropertyErrors(Remove(fields, key), schema, path) == []
  {
    if fields.Fields? {
      RemoveAddsNone(fields.rest, schema, path, key);
    }
  }

  lemma {:induction false} RemoveKeepsRequired(fields: Fields, properties: Fields, path: Path, key: string)
    requires !Has(properties, key) && MissingErrors(fields, KeyList(properties), path) == []
    ensures MissingErrors(Remove(fields, key), KeyList(properties), path) == []
  {
    if properties.Fields? {
      RemoveKeepsRequired(fields, properties.rest, path, key);
      GetRemove(fields, key, properties.key);
    }
  }

  lemma {:induction false} MissingIsReported(fields: Fields, required: Items, path: Path, key: string)
    requires Contains(required, Str(key)) && !Has(fields, key)
    ensures MissingErrors(fields, required, path) != []
  {
    if required.head != Str(key) {
      MissingIsReported(fields, required.tail, path, key);
    }
  }

  /** A required name that is not declared loses its force: from any object that the tightened
      schema accepts, dropping that key leaves one that it still accepts and the original
      rejects. */
  lemma {:induction false} UndeclaredRequirementIsLost(v: Json, schema: Fields, path: Path, key: string)
    requires TypeName(schema) == "object" && !Has(schema, "anyOf")
    requires Contains(Required(schema), Str(key)) && !Has(Properties(schema), key)
    requires v.Obj? && ShapeErrors(v, Tightened(schema), path) == []
    ensures ShapeErrors(Obj(Remove(v.fields, key)), Tightened(schema), path) == []
    ensures ShapeErrors(Obj(Remove(v.fields, key)), schema, path) != []
  {
    TypeKept(schema);
    TightenedGet(schema, "anyOf");
    TightenedGet(schema, "required");
    TightenedGet(schema, "properties");
    assert Closable(schema);
    RemoveAddsNone(v.fields, Tightened(schema), path, key);
    RemoveKeepsRequired(v.fields, Properties(schema), path, key);
    GetRemove(v.fields, key, key);
    MissingIsReported(Remove(v.fields, key), Required(schema), path, key);
  }

  /** Whatever the tightened schema accepts, the original accepts. */
  ghost predicate LosesNothing(schema: Fields, path: Path) {
    forall v :: ShapeErrors(v, Tightened(schema), path) == [] ==> ShapeErrors(v, schema, path) == []
  }

  /** An enumeration keeps its force exactly if what tightening makes of its entries is listed
      too, entries of another type apart. */
  lemma {:induction false} EnumLosesNothingIff(schema: Fields, path: Path)
    requires !Has(schema, "anyOf") && TypeName(schema) !in {"null", "object", "array"}
    ensures EnumOk(schema) <==> LosesNothing(schema, path)
  {
    if EnumOk(schema) {
      forall v | ShapeErrors(v, Tightened(schema), path) == [] ensures ShapeErrors(v, schema, path) == [] {
        TightenedIsStronger(v, schema, path);
      }
    }
    var entries := Get(schema, "enum");
    if LosesNothing(schema, path) && entries.Some? && entries.value.Arr? {
      AllInSelf(TightenItems(entries.value.items));
      EntriesAreListed(schema, path, TightenItems(entries.value.items), entries.value.items);
    }
  }

  lemma {:induction false} EntriesAreListed(schema: Fields, path: Path, entries: Items, items: Items)
    requires !Has(schema, "anyOf") && TypeName(schema) !in {"null", "object", "array"}
    requires Get(schema, "enum") == Some(Arr(items)) && AllInEnum(entries, TightenItems(items))
    requires LosesNothing(schema, path)
    ensures EntriesListed(entries, items, TypeName(schema))
  {
    if entries.Items? {
      if TypeFits(entries.head, TypeName(schema)) {
        EnumDecides(entries.head, schema, items, path);
        TightenedGet(schema, "enum");
        TightenedGet(schema, "anyOf");
        TypeKept(schema);
        EnumDecides(entries.head, Tightened(schema), TightenItems(items), path);
      }
      EntriesAreListed(schema, path, entries.tail, items);
    }
  }

  lemma {:induction false} EnumDecides(v: Json, schema: Fields, items: Items, path: Path)
    requires !Has(schema, "anyOf") && TypeName(schema) !in {"null", "object", "array"}
    requires Get(schema, "enum") == Some(Arr(items)) && TypeFits(v, TypeName(schema))
    ensures ShapeErrors(v, schema, path) == [] <==> InEnum(v, items)
  {
  }

  /** An enumeration entry that looks like an object schema is itself tightened, and the value
      that the tightened schema then asks for is not the one listed. */
  lemma {:induction false} TightenedEntryIsLost(entry: Fields, schema: Fields)
    requires entry == Fields("type", Str("object"), NoFields)
    requires schema == Fields("enum", Arr(Items(Obj(entry), NoItems)), NoFields)
    ensures ShapeErrors(Tighten(Obj(entry)), Tightened(schema), []) == []
    ensures ShapeErrors(Tighten(Obj(entry)), schema, []) != []
  {
    var value := Tighten(Obj(entry));
    EntryTightens(entry);
    EnumLookups(schema, Obj(entry));
    assert TightenItems(Items(Obj(entry), NoItems)) == Items(value, NoItems);
    assert InEnum(value, Items(value, NoItems));
    assert !InEnum(value, Items(Obj(entry), NoItems));
  }

  lemma {:induction false} EntryTightens(entry: Fields)
    requires entry == Fields("type", Str("object"), NoFields)
    ensures Has(Tightened(entry), "required") && !Has(entry, "required") && Tighten(Obj(entry)) != Obj(entry)
  {
    TightenedGet(entry, "required");
    assert Closable(entry);
  }

  lemma {:induction false} EnumLookups(schema: Fields, entry: Json)
    requires schema == Fields("enum", Arr(Items(entry, NoItems)), NoFields)
    ensures Get(schema, "enum") == Some(Arr(Items(entry, NoItems)))
    ensures Get(Tightened(schema), "enum") == Some(Arr(TightenItems(Items(entry, NoItems))))
    ensures !Has(schema, "anyOf") && !Has(Tightened(schema), "anyOf")
    ensures TypeName(schema) == "" && TypeName(Tightened(schema)) == ""
  {
    TightenedGet(schema, "enum");
    TightenedGet(schema, "anyOf");
    TightenedGet(schema, "type");
  }

  lemma {:induction false} SetKeepsRequired(fields: Fields, required: Items, path: Path, key: string, w: Json)
    requires MissingErrors(fields, required, path) == []
    ensures MissingErrors(Set(fields, key, w), required, path) == []
  {
    if required.Items? {
      SetKeepsRequired(fields, required.tail, path, key, w);
      if required.head.Str? {
        GetSet(fields, key, w, required.head.s);
      }
    }
  }

  lemma {:induction false} SetUnchecked(fields: Fields, schema: Fields, path: Path, key: string, w: Json)
    requires PropertyErrors(fields, schema, path) == [] && !IsSchema(Get(Properties(schema), key))
    ensures PropertyErrors(Set(fields, key, w), schema, path) == []
  {
    if fields.Fields? && fields.key != key {
      SetUnchecked(fields.rest, schema, path, key, w);
    }
  }

  lemma {:induction false} SetChecked(fields: Fields, schema: Fields, path: Path, key: string, w: Json)
    requires IsSchema(Get(Properties(schema), key))
    requires ShapeErrors(w, Get(Properties(schema), key).value.fields, path + [Key(key)]) != []
    ensures PropertyErrors(Set(fields, key, w), schema, path) != []
  {
    if fields.Fields? && fields.key != key {
      SetChecked(fields.rest, schema, path, key, w);
    }
  }

  /** A property table that itself looks like a schema loses the schemas under the two keys that
      closing overwrites: into any object that the tightened schema accepts, a value can be put
      there that only the original rejects. */
  lemma {:induction false} OverwrittenSchemaIsLost(v: Json, w: Json, schema: Fields, path: Path, key: string)
    requires TypeName(schema) == "object" && !Has(schema, "anyOf")
    requires Closable(Properties(schema)) && IsSchema(Get(Properties(schema), key))
    requires key == "required" || key == "additionalProperties"
    requires v.Obj? && ShapeErrors(v, Tightened(schema), path) == []
    requires ShapeErrors(w, Get(Properties(schema), key).value.fields, path + [Key(key)]) != []
    ensures ShapeErrors(Obj(Set(v.fields, key, w)), Tightened(schema), path) == []
    ensures ShapeErrors(Obj(Set(v.fields, key, w)), schema, path) != []
  {
    var changed := Obj(Set(v.fields, key, w));
    TypeKept(schema);
    TightenedGet(schema, "anyOf");
    TightenedGet(schema, "properties");
    TightenedGet(Properties(schema), key);
    ObjectErrors(v, Tightened(schema), path);
    ObjectErrors(changed, Tightened(schema), path);
    ObjectErrors(changed, schema, path);
    SetKeepsRequired(v.fields, Required(Tightened(schema)), path, key, w);
    SetUnchecked(v.fields, Tightened(schema), path, key, w);
    SetChecked(v.fields, schema, path, key, w);
  }

  /** A table with properties named "properties" and "required" is taken for a schema, and the
      schema under "required" is overwritten: a number passes where a string was asked for. */
  lemma {:induction false} OverwrittenPropertyIsLost(table: Fields, schema: Fields, value: Json)
    requires table == Fields("properties", Obj(NoFields), Fields("required", Obj(Fields("type", Str("string"), NoFields)), NoFields))
    requires schema == Fields("type", Str("object"), Fields("properties", Obj(table), NoFields))
    requires value == Obj(Fields("properties", Int(0), Fields("required", Int(0), NoFields)))
    ensures ShapeErrors(value, Tightened(schema), []) == []
    ensures ShapeErrors(value, schema, []) != []
  {
    TableLookups(table);
    SchemaLookups(schema, table);
    ObjectErrors(value, schema, []);
    ObjectErrors(value, Tightened(schema), []);
    NumberIsNotString(value.fields, schema, table);
    NumberIsAccepted(value.fields, Tightened(schema), Tightened(table));
  }

  lemma {:induction false} ObjectErrors(v: Json, schema: Fields, path: Path)
    requires TypeName(schema) == "object" && !Has(schema, "anyOf") && v.Obj?
    ensures ShapeErrors(v, schema, path) == MissingErrors(v.fields, Required(schema), path) + PropertyErrors(v.fields, schema, path)
  {
  }

  lemma {:induction false} NumberIsNotString(fields: Fields, schema: Fields, table: Fields)
    requires fields == Fields("properties", Int(0), Fields("required", Int(0), NoFields))
    requires Get(schema, "properties") == Some(Obj(table))
    requires Get(table, "required") == Some(Obj(Fields("type", Str("string"), NoFields)))
    ensures PropertyErrors(fields, schema, []) != []
  {
    var text := Fields("type", Str("string"), NoFields);
    assert TypeName(text) == "string" && !Has(text, "anyOf");
    assert ShapeErrors(Int(0), text, [] + [Key("required")]) != [];
    assert PropertyErrors(fields.rest, schema, []) != [];
  }

  lemma {:induction false} NumberIsAccepted(fields: Fields, schema: Fields, table: Fields)
    requires fields == Fields("properties", Int(0), Fields("required", Int(0), NoFields))
    requires Get(schema, "properties") == Some(Obj(table))
    requires Get(table, "properties") == Some(Obj(NoFields)) && Get(table, "required") == Some(Arr(NoItems))
    ensures PropertyErrors(fields, schema, []) == []
    ensures MissingErrors(fields, Items(Str("properties"), Items(Str("required"), NoItems)), []) == []
  {
    assert ShapeErrors(Int(0), NoFields, [] + [Key("properties")]) == [];
    assert PropertyErrors(fields.rest, schema, []) == [];
    Skip(fields, "required");
    assert MissingErrors(fields, Items(Str("required"), NoItems), []) == [];
  }

  lemma {:induction false} SchemaLookups(schema: Fields, table: Fields)
    requires schema == Fields("type", Str("object"), Fields("properties", Obj(table), NoFields))
    requires KeyList(table) == Items(Str("properties"), Items(Str("required"), NoItems))
    ensures !Has(schema, "anyOf") && !Has(Tightened(schema), "anyOf")
    ensures TypeName(schema) == "object" && TypeName(Tightened(schema)) == "object"
    ensures Get(schema, "properties") == Some(Obj(table)) && Get(Tightened(schema), "properties") == Some(Tighten(Obj(table)))
    ensures Required(Tightened(schema)) == Items(Str("properties"), Items(Str("required"), NoItems))
    ensures Required(schema) == NoItems
  {
    Skip(schema, "properties");
    Skip(schema, "anyOf");
    Skip(schema.rest, "anyOf");
    Skip(schema, "required");
    Skip(schema.rest, "required");
    TightenedGet(schema, "anyOf");
    TightenedGet(schema, "type");
    TightenedGet(schema, "properties");
    TightenedGet(schema, "required");
  }

  lemma {:induction false} TableLookups(table: Fields)
    requires table == Fields("properties", Obj(NoFields), Fields("required", Obj(Fields("type", Str("string"), NoFields)), NoFields))
    ensures KeyList(table) == Items(Str("properties"), Items(Str("required"), NoItems))
    ensures Get(table, "properties") == Some(Obj(NoFields)) && Get(table, "required") == Some(Obj(Fields("type", Str("string"), NoFields)))
    ensures Get(Tightened(table), "properties") == Some(Obj(NoFields))
    ensures Get(Tightened(table), "required") == Some(Arr(NoItems))
  {
    Skip(table, "required");
    TightenedGet(table, "properties");
    TightenedGet(table, "required");
    assert Closable(table) && Properties(table) == NoFields;
    assert Tighten(Obj(NoFields)) == Obj(NoFields);
  }

  /** The checker never looks at additionalProperties: an undeclared key changes nothing, even
      against a schema that forbids it. */
  lemma {:induction false} UndeclaredKeyIsIgnored(fields: Fields, schema: Fields, path: Path, key: string, extra: Json)
    requires TypeName(schema) == "object" && !Has(schema, "anyOf")
    requires !Has(Properties(schema), key) && !Contains(Required(schema), Str(key))
    ensures ShapeErrors(Obj(Fields(key, extra, fields)), schema, path) == ShapeErrors(Obj(fields), schema, path)
  {
    ObjectErrors(Obj(Fields(key, extra, fields)), schema, path);
    ObjectErrors(Obj(fields), schema, path);
    ExtraIsNotMissing(fields, Required(schema), path, key, extra);
    ExtraIsNoProperty(fields, schema, path, key, extra);
  }

  lemma {:induction false} ExtraIsNoProperty(fields: Fields, schema: Fields, path: Path, key: string, extra: Json)
    requires !Has(Properties(schema), key)
    ensures PropertyErrors(Fields(key, extra, fields), schema, path) == PropertyErrors(fields, schema, path)
  {
  }

  lemma {:induction false} ExtraIsNotMissing(fields: Fields, required: Items, path: Path, key: string, extra: Json)
    requires !Contains(required, Str(key))
    ensures MissingErrors(Fields(key, extra, fields), required, path) == MissingErrors(fields, required, path)
  {
    if required.Items? {
      ExtraIsNotMissing(fields, required.tail, path, key, extra);
    }
  }

  // ----- when a second pass changes nothing

  /** Every object schema forbids other properties and requires exactly the listed ones. */
  ghost predicate Closed(j: Json)
    decreases Size(j)
  {
    match j
    case Arr(items) => ItemsClosed(items)
    case Obj(f) =>
      && (Closable(f) ==> ClosedHere(f))
      && forall k :: Has(f, k) ==> Closed(Get(f, k).value)
    case _ => true
  }

  predicate ClosedHere(f: Fields) {
    Get(f, "additionalProperties") == Some(Bool(false)) && Get(f, "required") == Some(Arr(KeyList(Properties(f))))
  }

  ghost predicate ItemsClosed(items: Items)
    decreases ItemsSize(items)
  {
    items.Items? ==> Closed(items.head) && ItemsClosed(items.tail)
  }

  /** Tightening a property table leaves its list of names alone. */
  predicate NamesKept(p: Fields) { Closable(p) ==> Has(p, "additionalProperties") && Has(p, "required") }

  predicate Overwritten(f: Fields, k: string) { Closable(f) && (k == "additionalProperties" || k == "required") }

  ghost predicate Stable(j: Json)
    decreases Size(j)
  {
    match j
    case Arr(items) => ItemsStable(items)
    case Obj(f) =>
      && (Closable(f) ==> NamesKept(Properties(f)))
      && forall k :: Has(f, k) && !Overwritten(f, k) ==> Stable(Get(f, k).value)
    case _ => true
  }

  ghost predicate ItemsStable(items: Items)
    decreases ItemsSize(items)
  {
    items.Items? ==> Stable(items.head) && ItemsStable(items.tail)
  }

  lemma {:induction false} TightenedNames(p: Fields)
    ensures KeyList(Tightened(p)) == KeyList(p) <==> NamesKept(p)
  {
    var mapped := TightenFields(p);
    KeysTightened(p);
    GetTightened(p, "additionalProperties");
    GetTightened(p, "required");
    var once := Set(mapped, "additionalProperties", Bool(false));
    KeyListOfSet(mapped, "additionalProperties", Bool(false));
    GetSet(mapped, "additionalProperties", Bool(false), "required");
    KeyListOfSet(once, "required", Arr(KeyList(Properties(p))));
  }

  lemma {:induction false} TightenedShape(f: Fields)
    ensures Closable(Tightened(f)) <==> Closable(f)
    ensures Closable(f) ==> (ClosedHere(Tightened(f)) <==> NamesKept(Properties(f)))
  {
    TightenedGet(f, "type");
    TightenedGet(f, "properties");
    TightenedGet(f, "additionalProperties");
    TightenedGet(f, "required");
    TightenedNames(Properties(f));
    if !(Has(f, "properties") && Get(f, "properties").value.Obj?) {
      assert Properties(f) == NoFields;
    }
  }

  lemma {:induction false} KeyListClosed(f: Fields)
    ensures ItemsClosed(KeyList(f))
  {
    if f.Fields? {
      KeyListClosed(f.rest);
    }
  }

  /** Tightening closes a schema exactly when no property table is itself taken for an object
      schema and grows. */
  lemma {:induction false} ClosesIffStable(j: Json)
    ensures Closed(Tighten(j)) <==> Stable(j)
    decreases Size(j)
  {
    if j.Arr? {
      ItemsCloseIffStable(j.items);
    } else if j.Obj? {
      var f := j.fields;
      TightenedShape(f);
      forall k ensures Has(Tightened(f), k) && Closed(Get(Tightened(f), k).value) <==>
                         (Has(f, k) && Stable(Get(f, k).value)) || Overwritten(f, k)
      {
        FieldClosesIffStable(f, k);
      }
      forall k ensures Has(Tightened(f), k) <==> Has(f, k) || Overwritten(f, k) {
        TightenedGet(f, k);
      }
    }
  }

  lemma {:induction false} FieldClosesIffStable(f: Fields, k: string)
    ensures Has(Tightened(f), k) && Closed(Get(Tightened(f), k).value) <==>
              (Has(f, k) && Stable(Get(f, k).value)) || Overwritten(f, k)
    decreases FieldsSize(f)
  {
    TightenedGet(f, k);
    KeyListClosed(Properties(f));
    if Has(f, k) {
      ClosesIffStable(Get(f, k).value);
    }
  }

  lemma {:induction false} ItemsCloseIffStable(items: Items)
    ensures ItemsClosed(TightenItems(items)) <==> ItemsStable(items)
    decreases ItemsSize(items)
  {
    if items.Items? {
      ClosesIffStable(items.head);
      ItemsCloseIffStable(items.tail);
    }
  }

  lemma {:induction false} FixedIsClosed(j: Json)
    requires Tighten(j) == j
    ensures Closed(j)
    decreases Size(j)
  {
    if j.Arr? {
      FixedItemsAreClosed(j.items);
    } else if j.Obj? {
      var f := j.fields;
      forall k | Has(f, k) ensures Closed(Get(f, k).value) {
        TightenedGet(f, k);
        if Overwritten(f, k) {
          KeyListClosed(Properties(f));
        } else {
          FixedIsClosed(Get(f, k).value);
        }
      }
      TightenedGet(f, "additionalProperties");
      TightenedGet(f, "required");
    }
  }

  lemma {:induction false} FixedItemsAreClosed(items: Items)
    requires TightenItems(items) == items
    ensures ItemsClosed(items)
    decreases ItemsSize(items)
  {
    if items.Items? {
      FixedIsClosed(items.head);
      FixedItemsAreClosed(items.tail);
    }
  }

  lemma {:induction false} ClosedIsFixed(j: Json)
    requires Unique(j) && Closed(j)
    ensures Tighten(j) == j
    decreases Size(j)
  {
    if j.Arr? {
      ClosedItemsAreFixed(j.items);
    } else if j.Obj? {
      ClosedFieldsAreFixed(j.fields);
      if Closable(j.fields) {
        SetSame(j.fields, "additionalProperties", Bool(false));
        SetSame(j.fields, "required", Arr(KeyList(Properties(j.fields))));
      }
    }
  }

  lemma {:induction false} ClosedItemsAreFixed(items: Items)
    requires ItemsUnique(items) && ItemsClosed(items)
    ensures TightenItems(items) == items
    decreases ItemsSize(items)
  {
    if items.Items? {
      ClosedIsFixed(items.head);
      ClosedItemsAreFixed(items.tail);
    }
  }

  lemma {:induction false} ClosedFieldsAreFixed(f: Fields)
    requires FieldsUnique(f) && forall k :: Has(f, k) ==> Closed(Get(f, k).value)
    ensures TightenFields(f) == f
    decreases FieldsSize(f)
  {
    if f.Fields? {
      assert Get(f, f.key) == Some(f.value);
      ClosedIsFixed(f.value);
      forall k | Has(f.rest, k) ensures Closed(Get(f.rest, k).value) {
        assert Has(f, k) && Get(f, k) == Get(f.rest, k);
      }
      ClosedFieldsAreFixed(f.rest);
    }
  }

  lemma {:induction false} TightenKeepsUnique(j: Json)
    requires Unique(j)
    ensures Unique(Tighten(j))
    decreases Size(j)
  {
    if j.Arr? {
      TightenKeepsItemsUnique(j.items);
    } else if j.Obj? {
      var mapped := TightenFields(j.fields);
      TightenKeepsFieldsUnique(j.fields);
      KeyListUnique(Properties(j.fields));
      UniqueSet(mapped, "additionalProperties", Bool(false));
      UniqueSet(Set(mapped, "additionalProperties", Bool(false)), "required", Arr(KeyList(Properties(j.fields))));
    }
  }

  lemma {:induction false} TightenKeepsItemsUnique(items: Items)
    requires ItemsUnique(items)
    ensures ItemsUnique(TightenItems(items))
    decreases ItemsSize(items)
  {
    if items.Items? {
      TightenKeepsUnique(items.head);
      TightenKeepsItemsUnique(items.tail);
    }
  }

  lemma {:induction false} TightenKeepsFieldsUnique(f: Fields)
    requires FieldsUnique(f)
    ensures FieldsUnique(TightenFields(f))
    decreases FieldsSize(f)
  {
    if f.Fields? {
      TightenKeepsUnique(f.value);
      TightenKeepsFieldsUnique(f.rest);
      GetTightened(f.rest, f.key);
    }
  }

  /** A second pass changes nothing exactly when the schema is stable. */
  lemma {:induction false} TightenIsIdempotent(j: Json)
    requires Unique(j)
    ensures Tighten(Tighten(j)) == Tighten(j) <==> Stable(j)
  {
    ClosesIffStable(j);
    TightenKeepsUnique(j);
    if Tighten(Tighten(j)) == Tighten(j) {
      FixedIsClosed(Tighten(j));
    } else if Stable(j) {
      ClosedIsFixed(Tighten(j));
    }
  }

  /** A property named "properties" makes its table look like a schema, and the list of
      required names then grows on the second pass. */
  lemma {:induction false} PropertyNamedProperties(f: Fields)
    requires f == Fields("type", Str("object"),
                    Fields("properties", Obj(Fields("properties", Obj(NoFields), NoFields)), NoFields))
    ensures Unique(Obj(f)) && Tighten(Tighten(Obj(f))) != Tighten(Obj(f))
  {
    var table := Fields("properties", Obj(NoFields), NoFields);
    Skip(f, "properties");
    assert Get(f, "properties") == Some(Obj(table));
    assert Properties(f) == table && Closable(f) && Closable(table);
    assert !Has(table, "required");
    assert !Stable(Obj(f));
    TightenIsIdempotent(Obj(f));
  }
}
