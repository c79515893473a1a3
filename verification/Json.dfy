/** JSON values as the planners hold them: dictionaries keep their insertion order. */
module JsonValues {
  import opened Graphs

  datatype Json =
    | Null
    | Bool(b: bool)
    | Int(i: int)
    | Float(r: real)
    | Str(s: string)
    | Arr(items: Items)
    | Obj(fields: Fields)

  datatype Items = NoItems | Items(head: Json, tail: Items)

  datatype Fields = NoFields | Fields(key: string, value: Json, rest: Fields)

  function Size(j: Json): nat {
    match j
    case Arr(items) => 1 + ItemsSize(items)
    case Obj(fields) => 1 + FieldsSize(fields)
    case _ => 1
  }

  function ItemsSize(items: Items): nat {
    if items.NoItems? then 0 else 1 + Size(items.head) + ItemsSize(items.tail)
  }

  function FieldsSize(f: Fields): nat {
    if f.NoFields? then 0 else 1 + Size(f.value) + FieldsSize(f.rest)
  }

  predicate Has(f: Fields, key: string) { f.Fields? && (f.key == key || Has(f.rest, key)) }

  function Get(f: Fields, key: string): (v: Option<Json>)
    ensures v.Some? <==> Has(f, key)
    ensures v.Some? ==> Size(v.value) < FieldsSize(f)
  {
    if f.NoFields? then None else if f.key == key then Some(f.value) else Get(f.rest, key)
  }

  /** Assigning to a key: in place if the key is there, at the end if not. */
  function Set(f: Fields, key: string, v: Json): Fields {
    if f.NoFields? then Fields(key, v, NoFields)
    else if f.key == key then f.(value := v)
    else f.(rest := Set(f.rest, key, v))
  }

  function Remove(f: Fields, key: string): Fields {
    if f.NoFields? then f else if f.key == key then Remove(f.rest, key) else f.(rest := Remove(f.rest, key))
  }

  function KeyList(f: Fields): Items {
    if f.NoFields? then NoItems else Items(Str(f.key), KeyList(f.rest))
  }

  predicate Contains(items: Items, j: Json) { items.Items? && (items.head == j || Contains(items.tail, j)) }

  lemma {:induction false} GetSet(f: Fields, key: string, v: Json, other: string)
    ensures Get(Set(f, key, v), other) == if other == key then Some(v) else Get(f, other)
  {
    if f.Fields? && f.key != key {
      GetSet(f.rest, key, v, other);
    }
  }

  lemma {:induction false} SetSame(f: Fields, key: string, v: Json)
    requires Get(f, key) == Some(v)
    ensures Set(f, key, v) == f
  {
    if f.key != key {
      SetSame(f.rest, key, v);
    }
  }

  lemma {:induction false} KeyListContains(f: Fields, key: string)
    ensures Contains(KeyList(f), Str(key)) <==> Has(f, key)
  {
    if f.Fields? {
      KeyListContains(f.rest, key);
    }
  }

  lemma {:induction false} KeyListOfSet(f: Fields, key: string, v: Json)
    ensures Has(f, key) ==> KeyList(Set(f, key, v)) == KeyList(f)
    ensures !Has(f, key) ==> ItemCount(KeyList(Set(f, key, v))) == ItemCount(KeyList(f)) + 1
  {
    if f.Fields? && f.key != key {
      KeyListOfSet(f.rest, key, v);
    }
  }

  function ItemCount(items: Items): nat { if items.NoItems? then 0 else 1 + ItemCount(items.tail) }

  // ----- dictionaries have each key once

  predicate Unique(j: Json) {
    match j
    case Arr(items) => ItemsUnique(items)
    case Obj(f) => FieldsUnique(f)
    case _ => true
  }

  predicate ItemsUnique(items: Items) { items.Items? ==> Unique(items.head) && ItemsUnique(items.tail) }

  predicate FieldsUnique(f: Fields) {
    f.Fields? ==> !Has(f.rest, f.key) && Unique(f.value) && FieldsUnique(f.rest)
  }

  lemma {:induction false} UniqueGet(f: Fields, key: string)
    requires FieldsUnique(f) && Has(f, key)
    ensures Unique(Get(f, key).value)
  {
    if f.key != key {
      UniqueGet(f.rest, key);
    }
  }

  lemma {:induction false} UniqueSet(f: Fields, key: string, v: Json)
    requires FieldsUnique(f) && Unique(v)
    ensures FieldsUnique(Set(f, key, v))
  {
    if f.Fields? && f.key != key {
      UniqueSet(f.rest, key, v);
      GetSet(f.rest, key, v, f.key);
    }
  }

  lemma {:induction false} GetRemove(f: Fields, key: string, other: string)
    ensures Get(Remove(f, key), other) == if other == key then None else Get(f, other)
  {
    if f.Fields? {
      GetRemove(f.rest, key, other);
    }
  }

  lemma {:induction false} UniqueRemove(f: Fields, key: string)
    requires FieldsUnique(f)
    ensures FieldsUnique(Remove(f, key))
  {
    if f.Fields? {
      UniqueRemove(f.rest, key);
      GetRemove(f.rest, key, f.key);
    }
  }

  lemma {:induction false} RemoveAbsent(f: Fields, key: string)
    requires !Has(f, key)
    ensures Remove(f, key) == f
  {
    if f.Fields? {
      RemoveAbsent(f.rest, key);
    }
  }

  lemma {:induction false} KeyListUnique(f: Fields)
    ensures ItemsUnique(KeyList(f))
  {
    if f.Fields? {
      KeyListUnique(f.rest);
    }
  }
}
