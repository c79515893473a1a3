/** The geometry planner's normalisation of a JSON schema to the strict subset. */
module StrictSchema {
  import opened Graphs
  import opened JsonValues
  import opened SchemaTightening

  /** Unions become anyOf and discriminators go. */
  function Rename(f: Fields): Fields {
    var renamed := if Has(f, "oneOf") then Set(Remove(f, "oneOf"), "anyOf", Get(f, "oneOf").value) else f;
    Remove(renamed, "discriminator")
  }

  function Bare(reference: Json): Fields { Fields("$ref", reference, NoFields) }

  /** Tables keep their names as they were before their own visit; a reference is not visited. */
  function Strict(j: Json): Json {
    match j
    case Arr(items) => Arr(StrictItems(items))
    case Obj(f) =>
      Obj(if Has(f, "$ref") then Bare(Get(f, "$ref").value)
          else if Closable(f) then Close(Rename(StrictFields(f)), Properties(f))
          else Rename(StrictFields(f)))
    case _ => j
  }

  function StrictItems(items: Items): Items {
    if items.NoItems? then items else Items(Strict(items.head), StrictItems(items.tail))
  }

  function StrictFields(f: Fields): Fields {
    if f.NoFields? then f else Fields(f.key, Strict(f.value), StrictFields(f.rest))
  }

  function Normalised(f: Fields): Fields { Strict(Obj(f)).fields }

  // ----- what a key holds afterwards

  lemma {:induction false} GetStrict(f: Fields, key: string)
    ensures Has(StrictFields(f), key) <==> Has(f, key)
    ensures Has(f, key) ==> Get(StrictFields(f), key) == Some(Strict(Get(f, key).value))
  {
    if f.Fields? {
      GetStrict(f.rest, key);
    }
  }

  lemma {:induction false} GetRenamed(f: Fields, key: string)
    ensures Get(Rename(f), key) ==
              if key == "discriminator" || key == "oneOf" then None
              else if key == "anyOf" && Has(f, "oneOf") then Get(f, "oneOf")
              else Get(f, key)
  {
    if Has(f, "oneOf") {
      GetRemove(f, "oneOf", key);
      GetSet(Remove(f, "oneOf"), "anyOf", Get(f, "oneOf").value, key);
      GetRemove(Set(Remove(f, "oneOf"), "anyOf", Get(f, "oneOf").value), "discriminator", key);
    } else {
      GetRemove(f, "discriminator", key);
    }
  }

  /** Where the value of a key comes from, if it is not a constant of the closing. */
  function Origin(f: Fields, key: string): Option<Json> {
    if key == "discriminator" || key == "oneOf" then None
    else if key == "anyOf" && Has(f, "oneOf") then Get(f, "oneOf")
    else Get(f, key)
  }

  lemma {:induction false} StrictGet(f: Fields, key: string)
    requires !Has(f, "$ref")
    ensures Get(Normalised(f), key) ==
              if Closable(f) && key == "required" then Some(Arr(KeyList(Properties(f))))
              else if Closable(f) && key == "additionalProperties" then Some(Bool(false))
              else if Origin(f, key).Some? then Some(Strict(Origin(f, key).value)) else None
  {
    var mapped := Rename(StrictFields(f));
    GetStrict(f, key);
    GetStrict(f, "oneOf");
    GetRenamed(StrictFields(f), key);
    GetSet(mapped, "additionalProperties", Bool(false), key);
    GetSet(Set(mapped, "additionalProperties", Bool(false)), "required", Arr(KeyList(Properties(f))), key);
  }

  // ----- the normal form

  predicate NormalHere(f: Fields) {
    && !Has(f, "oneOf") && !Has(f, "discriminator")
    && (Closable(f) ==> ClosedHere(f))
  }

  /** No oneOf and no discriminator; every reference is bare; every object schema forbids other
      properties and requires exactly its own. */
  ghost predicate Normal(j: Json)
    decreases Size(j)
  {
    match j
    case Arr(items) => ItemsNormal(items)
    case Obj(f) =>
      if Has(f, "$ref") then f == Bare(Get(f, "$ref").value)
      else NormalHere(f) && forall k :: Has(f, k) ==> Normal(Get(f, k).value)
    case _ => true
  }

  ghost predicate ItemsNormal(items: Items)
    decreases ItemsSize(items)
  {
    items.Items? ==> Normal(items.head) && ItemsNormal(items.tail)
  }

  /** Normalising a property table leaves its list of names alone: no property has one of the
      names that the pass acts on. */
  predicate NamesSteady(p: Fields) {
    if Has(p, "$ref") then p.rest == NoFields
    else !Has(p, "oneOf") && !Has(p, "discriminator") && NamesKept(p)
  }

  ghost predicate Steady(j: Json)
    decreases Size(j)
  {
    match j
    case Arr(items) => ItemsSteady(items)
    case Obj(f) =>
      Has(f, "$ref") ||
      (&& (Closable(f) ==> NamesSteady(Properties(f)))
       && forall k :: Origin(f, k).Some? && !Overwritten(f, k) ==>
            (assert Size(Origin(f, k).value) < FieldsSize(f); Steady(Origin(f, k).value)))
    case _ => true
  }

  ghost predicate ItemsSteady(items: Items)
    decreases ItemsSize(items)
  {
    items.Items? ==> Steady(items.head) && ItemsSteady(items.tail)
  }

  // ----- when the result is normal

  lemma {:induction false} KeysStrict(f: Fields)
    ensures KeyList(StrictFields(f)) == KeyList(f)
  {
    if f.Fields? {
      KeysStrict(f.rest);
    }
  }

  lemma {:induction false} StrictNames(p: Fields)
    ensures KeyList(Normalised(p)) == KeyList(p) <==> NamesSteady(p)
  {
    if Has(p, "$ref") {
      ReferenceNames(p);
    } else {
      StrictGet(p, "oneOf");
      StrictGet(p, "discriminator");
      KeyListContains(p, "oneOf");
      KeyListContains(p, "discriminator");
      KeyListContains(Normalised(p), "oneOf");
      KeyListContains(Normalised(p), "discriminator");
      if !Has(p, "oneOf") && !Has(p, "discriminator") {
        PlainNames(p);
      }
    }
  }

  lemma {:induction false} ReferenceNames(p: Fields)
    requires Has(p, "$ref")
    ensures KeyList(Normalised(p)) == KeyList(p) <==> p.rest == NoFields
  {
    assert KeyList(Bare(Get(p, "$ref").value)) == Items(Str("$ref"), NoItems);
    assert KeyList(p) == Items(Str(p.key), KeyList(p.rest));
    assert KeyList(p.rest) == NoItems <==> p.rest == NoFields;
    if p.rest == NoFields {
      assert p.key == "$ref";
    }
  }

  lemma {:induction false} PlainNames(p: Fields)
    requires !Has(p, "$ref") && !Has(p, "oneOf") && !Has(p, "discriminator")
    ensures KeyList(Normalised(p)) == KeyList(p) <==> NamesKept(p)
  {
    var mapped := StrictFields(p);
    KeysStrict(p);
    GetStrict(p, "oneOf");
    GetStrict(p, "discriminator");
    GetStrict(p, "additionalProperties");
    GetStrict(p, "required");
    RemoveAbsent(mapped, "discriminator");
    var once := Set(mapped, "additionalProperties", Bool(false));
    KeyListOfSet(mapped, "additionalProperties", Bool(false));
    GetSet(mapped, "additionalProperties", Bool(false), "required");
    KeyListOfSet(once, "required", Arr(KeyList(Properties(p))));
  }

  lemma {:induction false} StrictShape(f: Fields)
    requires !Has(f, "$ref")
    ensures !Has(Normalised(f), "$ref")
    ensures NormalHere(Normalised(f)) <==> (Closable(f) ==> NamesSteady(Properties(f)))
  {
    StrictGet(f, "$ref");
    StrictGet(f, "oneOf");
    StrictGet(f, "discriminator");
    StrictGet(f, "type");
    StrictGet(f, "properties");
    StrictGet(f, "additionalProperties");
    StrictGet(f, "required");
    StrictNames(Properties(f));
    if !(Has(f, "properties") && Get(f, "properties").value.Obj?) {
      assert Properties(f) == NoFields;
    }
  }

  lemma {:induction false} KeyListNormal(f: Fields)
    ensures ItemsNormal(KeyList(f))
  {
    if f.Fields? {
      KeyListNormal(f.rest);
    }
  }

  /** The result is in normal form exactly when no property of a visited object has one of the
      names that the pass acts on. */
  lemma {:induction false} NormalIffSteady(j: Json)
    ensures Normal(Strict(j)) <==> Steady(j)
    decreases Size(j)
  {
    if j.Arr? {
      ItemsNormalIffSteady(j.items);
    } else if j.Obj? && !Has(j.fields, "$ref") {
      var f := j.fields;
      StrictShape(f);
      forall k ensures Has(Normalised(f), k) && Normal(Get(Normalised(f), k).value) <==>
                         (Origin(f, k).Some? && Steady(Origin(f, k).value)) || Overwritten(f, k)
      {
        FieldNormalIffSteady(f, k);
      }
      forall k ensures Has(Normalised(f), k) <==> Origin(f, k).Some? || Overwritten(f, k) {
        StrictGet(f, k);
      }
    }
  }

  lemma {:induction false} FieldNormalIffSteady(f: Fields, k: string)
    requires !Has(f, "$ref")
    ensures Has(Normalised(f), k) && Normal(Get(Normalised(f), k).value) <==>
              (Origin(f, k).Some? && Steady(Origin(f, k).value)) || Overwritten(f, k)
    decreases FieldsSize(f)
  {
    StrictGet(f, k);
    KeyListNormal(Properties(f));
    if Origin(f, k).Some? {
      NormalIffSteady(Origin(f, k).value);
    }
  }

  lemma {:induction false} ItemsNormalIffSteady(items: Items)
    ensures ItemsNormal(StrictItems(items)) <==> ItemsSteady(items)
    decreases ItemsSize(items)
  {
    if items.Items? {
      NormalIffSteady(items.head);
      ItemsNormalIffSteady(items.tail);
    }
  }

  // ----- when a second pass changes nothing

  lemma {:induction false} FixedIsNormal(j: Json)
    requires Strict(j) == j
    ensures Normal(j)
    decreases Size(j)
  {
    if j.Arr? {
      FixedItemsAreNormal(j.items);
    } else if j.Obj? && !Has(j.fields, "$ref") {
      var f := j.fields;
      forall k | Has(f, k) ensures Normal(Get(f, k).value) {
        StrictGet(f, "oneOf");
        StrictGet(f, k);
        if Overwritten(f, k) {
          KeyListNormal(Properties(f));
        } else {
          FixedIsNormal(Get(f, k).value);
        }
      }
      StrictGet(f, "oneOf");
      StrictGet(f, "discriminator");
      StrictGet(f, "additionalProperties");
      StrictGet(f, "required");
    }
  }

  lemma {:induction false} FixedItemsAreNormal(items: Items)
    requires StrictItems(items) == items
    ensures ItemsNormal(items)
    decreases ItemsSize(items)
  {
    if items.Items? {
      FixedIsNormal(items.head);
      FixedItemsAreNormal(items.tail);
    }
  }

  lemma {:induction false} NormalIsFixed(j: Json)
    requires Unique(j) && Normal(j)
    ensures Strict(j) == j
    decreases Size(j)
  {
    if j.Arr? {
      NormalItemsAreFixed(j.items);
    } else if j.Obj? && !Has(j.fields, "$ref") {
      var f := j.fields;
      NormalFieldsAreFixed(f);
      RemoveAbsent(f, "discriminator");
      if Closable(f) {
        SetSame(f, "additionalProperties", Bool(false));
        SetSame(f, "required", Arr(KeyList(Properties(f))));
      }
    }
  }

  lemma {:induction false} NormalItemsAreFixed(items: Items)
    requires ItemsUnique(items) && ItemsNormal(items)
    ensures StrictItems(items) == items
    decreases ItemsSize(items)
  {
    if items.Items? {
      NormalIsFixed(items.head);
      NormalItemsAreFixed(items.tail);
    }
  }

  lemma {:induction false} NormalFieldsAreFixed(f: Fields)
    requires FieldsUnique(f) && forall k :: Has(f, k) ==> Normal(Get(f, k).value)
    ensures StrictFields(f) == f
    decreases FieldsSize(f)
  {
    if f.Fields? {
      assert Get(f, f.key) == Some(f.value);
      NormalIsFixed(f.value);
      forall k | Has(f.rest, k) ensures Normal(Get(f.rest, k).value) {
        assert Has(f, k) && Get(f, k) == Get(f.rest, k);
      }
      NormalFieldsAreFixed(f.rest);
    }
  }

  lemma {:induction false} StrictKeepsUnique(j: Json)
    requires Unique(j)
    ensures Unique(Strict(j))
    decreases Size(j)
  {
    if j.Arr? {
      StrictKeepsItemsUnique(j.items);
    } else if j.Obj? {
      if Has(j.fields, "$ref") {
        UniqueGet(j.fields, "$ref");
      } else {
        var mapped := StrictFields(j.fields);
        StrictKeepsFieldsUnique(j.fields);
        RenameKeepsUnique(mapped);
        KeyListUnique(Properties(j.fields));
        UniqueSet(Rename(mapped), "additionalProperties", Bool(false));
        UniqueSet(Set(Rename(mapped), "additionalProperties", Bool(false)), "required", Arr(KeyList(Properties(j.fields))));
      }
    }
  }

  lemma {:induction false} RenameKeepsUnique(f: Fields)
    requires FieldsUnique(f)
    ensures FieldsUnique(Rename(f))
  {
    if Has(f, "oneOf") {
      UniqueGet(f, "oneOf");
      UniqueRemove(f, "oneOf");
      UniqueSet(Remove(f, "oneOf"), "anyOf", Get(f, "oneOf").value);
      UniqueRemove(Set(Remove(f, "oneOf"), "anyOf", Get(f, "oneOf").value), "discriminator");
    } else {
      UniqueRemove(f, "discriminator");
    }
  }

  lemma {:induction false} StrictKeepsItemsUnique(items: Items)
    requires ItemsUnique(items)
    ensures ItemsUnique(StrictItems(items))
    decreases ItemsSize(items)
  {
    if items.Items? {
      StrictKeepsUnique(items.head);
      StrictKeepsItemsUnique(items.tail);
    }
  }

  lemma {:induction false} StrictKeepsFieldsUnique(f: Fields)
    requires FieldsUnique(f)
    ensures FieldsUnique(StrictFields(f))
    decreases FieldsSize(f)
  {
    if f.Fields? {
      StrictKeepsUnique(f.value);
      StrictKeepsFieldsUnique(f.rest);
      GetStrict(f.rest, f.key);
    }
  }

  /** Being in normal form and being left alone by the pass are the same, so the pass reaches
      the normal form, and a second pass is the identity, exactly on steady schemas. */
  lemma {:induction false} StrictIsIdempotent(j: Json)
    requires Unique(j)
    ensures Normal(j) <==> Strict(j) == j
    ensures Strict(Strict(j)) == Strict(j) <==> Steady(j)
  {
    NormalIffSteady(j);
    StrictKeepsUnique(j);
    if Normal(j) {
      NormalIsFixed(j);
    }
    if Strict(j) == j {
      FixedIsNormal(j);
    }
    if Normal(Strict(j)) {
      NormalIsFixed(Strict(j));
    }
    if Strict(Strict(j)) == Strict(j) {
      FixedIsNormal(Strict(j));
    }
  }

  /** A property that happens to be named "discriminator" stays required but is no longer
      declared. */
  lemma {:induction false} PropertyNamedDiscriminator(f: Fields)
    requires !Has(f, "$ref") && Has(Properties(f), "discriminator") && !Has(Properties(f), "$ref")
    ensures Contains(Required(Normalised(f)), Str("discriminator"))
    ensures !Has(Properties(Normalised(f)), "discriminator")
  {
    StrictGet(f, "required");
    StrictGet(f, "properties");
    KeyListContains(Properties(f), "discriminator");
    StrictGet(Properties(f), "discriminator");
  }
}
