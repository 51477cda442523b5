/** What reading a stored list gives, saved by this service or not: each property once, the listed ones first. */
module FormReading {
  import opened Common
  import opened FormFields

  // ------------------------------------------------------------------ which fields, in which order

  /** In a list, `a` stands before `b`. */
  ghost predicate Before<T>(s: seq<T>, a: T, b: T) {
    exists m, n :: 0 <= m < n < |s| && s[m] == a && s[n] == b
  }

  lemma BeforeGrows<T>(init: seq<T>, last: T, a: T, b: T)
    ensures Before(init, a, b) ==> Before(init + [last], a, b)
    ensures a in init ==> Before(init + [last], a, last)
  {
    var s := init + [last];
    if m, n :| 0 <= m < n < |init| && init[m] == a && init[n] == b {
      assert s[m] == a && s[n] == b;
    }
    if a in init {
      var m :| 0 <= m < |init| && init[m] == a;
      assert s[m] == a && s[|init|] == last;
    }
  }

  lemma {:induction false} ListedAre(order: seq<Json>, properties: map<string, Property>)
    requires Distinct(order)
    ensures var listed := Listed(order, properties);
            && (forall key :: key in listed <==> Str(key) in order && key in properties)
            && Distinct(listed)
            && forall i, j :: 0 <= i < j < |listed| ==> Before(order, Str(listed[i]), Str(listed[j]))
  {
    if order != [] {
      var init, last := order[..|order| - 1], order[|order| - 1];
      ListedAre(init, properties);
      assert order == init + [last] && last !in init;
      var before, listed := Listed(init, properties), Listed(order, properties);
      assert forall i :: 0 <= i < |before| ==> before[i] in before;
      forall i, j | 0 <= i < j < |listed| ensures Before(order, Str(listed[i]), Str(listed[j])) {
        BeforeGrows(init, last, Str(listed[i]), Str(listed[j]));
      }
    }
  }

  lemma {:induction false} NotInAre(keys: seq<string>, listed: seq<string>)
    requires Distinct(keys)
    ensures var rest := NotIn(keys, listed);
            && (forall key :: key in rest <==> key in keys && key !in listed)
            && Distinct(rest)
            && forall i, j :: 0 <= i < j < |rest| ==> Before(keys, rest[i], rest[j])
  {
    if keys != [] {
      var init, last := keys[..|keys| - 1], keys[|keys| - 1];
      NotInAre(init, listed);
      assert keys == init + [last] && last !in init;
      var before, rest := NotIn(init, listed), NotIn(keys, listed);
      assert forall i :: 0 <= i < |before| ==> before[i] in before;
      forall i, j | 0 <= i < j < |rest| ensures Before(keys, rest[i], rest[j]) {
        BeforeGrows(init, last, rest[i], rest[j]);
      }
    }
  }

  /** What one property of the list reads as. */
  function ReadProperty(show: Show, d: Definition, required: seq<Json>, key: string): Option<FormField>
    requires key in d.stored.properties
  {
    ReadField(show, key, d.stored.properties[key], if key in d.stored.options then d.stored.options[key] else NO_OPTIONS,
              Str(key) in required, d.vertical)
  }

  lemma {:induction false} ReadAllIs(show: Show, d: Definition, required: seq<Json>, keys: seq<string>)
    requires ReadAll(show, d, required, keys).Some?
    ensures var fields := ReadAll(show, d, required, keys).value;
            && |fields| == |keys|
            && forall i :: 0 <= i < |keys| ==>
                 keys[i] in d.stored.properties && ReadProperty(show, d, required, keys[i]) == Some(fields[i]) && fields[i].key == keys[i]
  {
    if keys != [] {
      ReadAllIs(show, d, required, keys[..|keys| - 1]);
    }
  }

  /** Of two properties, which is read first: listed ones in the list's order, the others after them in the database's. */
  ghost predicate ReadFirst(order: seq<Json>, propertyOrder: seq<string>, a: string, b: string) {
    if Str(b) in order then Before(order, Str(a), Str(b)) else Str(a) in order || Before(propertyOrder, a, b)
  }

  /** One field for each property, no two alike in key, in the order in which properties are read. */
  ghost predicate OnePerProperty(fields: seq<FormField>, order: seq<Json>, d: Definition) {
    && (forall key :: key in d.stored.properties <==> exists i :: 0 <= i < |fields| && fields[i].key == key)
    && (forall i, j :: 0 <= i < j < |fields| ==> fields[i].key != fields[j].key)
    && forall i, j :: 0 <= i < j < |fields| ==> ReadFirst(order, d.propertyOrder, fields[i].key, fields[j].key)
  }

  lemma FieldsFollowKeys(fields: seq<FormField>, keys: seq<string>, order: seq<Json>, d: Definition)
    requires |fields| == |keys| && forall i :: 0 <= i < |keys| ==> fields[i].key == keys[i]
    requires Distinct(keys) && forall key :: key in keys <==> key in d.stored.properties
    requires forall i, j :: 0 <= i < j < |keys| ==> ReadFirst(order, d.propertyOrder, keys[i], keys[j])
    ensures OnePerProperty(fields, order, d)
  {
    forall key ensures key in d.stored.properties <==> exists i :: 0 <= i < |fields| && fields[i].key == key {
      if key in keys {
        var i :| 0 <= i < |keys| && keys[i] == key;
        assert fields[i].key == key;
      }
    }
  }

  /**
   A stored list that can be read at all gives one field for each of its properties, as that property, its UI options
   and its place among the required ones say; the listed properties first, in that order, then the rest.
  */
  lemma {:induction false} ReadsEachProperty(show: Show, d: Definition)
    requires FieldsOf(show, d).Some? && Distinct(Elements(d.stored.order).value) && Distinct(d.propertyOrder)
    requires forall key :: key in d.propertyOrder <==> key in d.stored.properties
    ensures var fields, required := FieldsOf(show, d).value, Elements(d.stored.required).value;
            && OnePerProperty(fields, Elements(d.stored.order).value, d)
            && forall i :: 0 <= i < |fields| ==>
                 fields[i].key in d.stored.properties && ReadProperty(show, d, required, fields[i].key) == Some(fields[i])
  {
    var order, required := Elements(d.stored.order).value, Elements(d.stored.required).value;
    var listed := Listed(order, d.stored.properties);
    var rest := NotIn(d.propertyOrder, listed);
    ListedAre(order, d.stored.properties);
    NotInAre(d.propertyOrder, listed);
    KeysInOrder(order, d.propertyOrder, d.stored.properties, listed, rest);
    ReadAllIs(show, d, required, listed + rest);
    FieldsFollowKeys(FieldsOf(show, d).value, listed + rest, order, d);
  }

  lemma KeysInOrder(order: seq<Json>, propertyOrder: seq<string>, properties: map<string, Property>, listed: seq<string>, rest: seq<string>)
    requires forall key :: key in listed <==> Str(key) in order && key in properties
    requires forall i, j :: 0 <= i < j < |listed| ==> Before(order, Str(listed[i]), Str(listed[j]))
    requires forall key :: key in rest <==> key in propertyOrder && key !in listed
    requires forall i, j :: 0 <= i < j < |rest| ==> Before(propertyOrder, rest[i], rest[j])
    requires Distinct(listed) && Distinct(rest)
    requires forall key :: key in propertyOrder <==> key in properties
    ensures var keys := listed + rest;
            && (forall key :: key in keys <==> key in properties)
            && Distinct(keys)
            && forall i, j :: 0 <= i < j < |keys| ==> ReadFirst(order, propertyOrder, keys[i], keys[j])
  {
    var keys := listed + rest;
    forall i | 0 <= i < |keys| ensures if i < |listed| then keys[i] in listed else keys[i] in rest {
      assert if i < |listed| then keys[i] == listed[i] else keys[i] == rest[i - |listed|];
    }
    forall i, j | 0 <= i < j < |keys| ensures ReadFirst(order, propertyOrder, keys[i], keys[j]) {
      if j < |listed| {
        assert Before(order, Str(listed[i]), Str(listed[j]));
      } else if i >= |listed| {
        assert Before(propertyOrder, rest[i - |listed|], rest[j - |listed|]);
      }
    }
  }

  // ------------------------------------------------------------------ which type

  function StringProperty(format: Option<Json>): Property {
    Property(None, None, Some(Str("string")), format, None, None, None)
  }

  /** A plain string by its format: JSON Schema's, and "phone". */
  lemma FormatsRead()
    ensures TypeOf(StringProperty(None), NO_OPTIONS) == Some(Text)
    ensures TypeOf(StringProperty(Some(Str("date"))), NO_OPTIONS) == Some(Date)
    ensures TypeOf(StringProperty(Some(Str("date-time"))), NO_OPTIONS) == Some(DateTime)
    ensures TypeOf(StringProperty(Some(Str("uri"))), NO_OPTIONS) == Some(Url)
    ensures TypeOf(StringProperty(Some(Str("email"))), NO_OPTIONS) == Some(Email)
    ensures TypeOf(StringProperty(Some(Str("phone"))), NO_OPTIONS) == Some(Phone)
    ensures TypeOf(StringProperty(None), NO_OPTIONS.(widget := Some(Str("textarea")))) == Some(LongText)
  {
    assert |"string"| == 6 && |"array"| == 5 && |"number"| == 6 && |"integer"| == 7 && |"boolean"| == 7 && "string"[0] != "number"[0];
    assert |"date"| == 4 && |"date-time"| == 9 && |"uri"| == 3 && |"email"| == 5 && |"phone"| == 5 && "email"[0] != "phone"[0];
  }

  /** The JSON types; a list of choices makes a choice, and an array of them a choice of several. */
  lemma TypesRead(ui: UiOptions, choices: Json, prop: Property)
    requires prop.choices.None?
    ensures prop.jsonType == Some(Str("number")) ==> TypeOf(prop, ui) == Some(Number)
    ensures prop.jsonType == Some(Str("integer")) ==> TypeOf(prop, ui) == Some(Integer)
    ensures prop.jsonType == Some(Str("boolean")) ==> TypeOf(prop, ui) == Some(Boolean)
    ensures prop.jsonType == Some(Str("string")) ==> TypeOf(prop.(choices := Some(choices)), ui) == Some(Choice)
    ensures prop.jsonType == Some(Str("array")) ==>
              TypeOf(prop, ui) == Some(if prop.items.Some? && prop.items.value.ItemsObject? && prop.items.value.choices.Some?
                                          && Truthy(prop.items.value.choices.value) then MultiChoice else Text)
  {
    assert |"string"| == 6 && |"array"| == 5 && |"number"| == 6 && |"integer"| == 7 && |"boolean"| == 7;
    assert "string"[0] != "number"[0] && "integer"[0] != "boolean"[0];
  }
}
