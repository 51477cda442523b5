/** What merging any live lists gives: one field per key, and an account of every other occurrence. */
module FormMerge {
  import opened Common
  import opened Sorting
  import opened FormFields

  // ------------------------------------------------------------------ the reference: first occurrences

  predicate SameButVerticals(a: FormField, b: FormField) {
    && a.key == b.key && a.labelText == b.labelText && a.fieldType == b.fieldType && a.required == b.required
    && a.options == b.options && a.help == b.help && a.showWhen == b.showWhen
  }

  /** The first field met with this key. */
  function FirstWith(fields: seq<FormField>, key: string): Option<FormField> {
    if fields == [] then None
    else
      var before := FirstWith(fields[..|fields| - 1], key);
      if before.None? && fields[|fields| - 1].key == key then Some(fields[|fields| - 1]) else before
  }

  /** The keys in the order they were first met. */
  function FirstKeys(fields: seq<FormField>): seq<string> {
    if fields == [] then []
    else
      var init, last := fields[..|fields| - 1], fields[|fields| - 1];
      FirstKeys(init) + (if FirstWith(init, last.key).None? then [last.key] else [])
  }

  /** The repeats that differ from the first field with their key, in the order met. */
  function Differing(fields: seq<FormField>): seq<FormField> {
    if fields == [] then []
    else
      var init, last := fields[..|fields| - 1], fields[|fields| - 1];
      var first := FirstWith(init, last.key);
      Differing(init) + (if first.Some? && !SameButVerticals(first.value, last) then [last] else [])
  }

  /** The verticals of all the fields alike to `first`. */
  function VerticalsAlike(fields: seq<FormField>, first: FormField): set<VerticalId> {
    set f, v | f in fields && SameButVerticals(first, f) && v in f.verticals :: v
  }

  // ------------------------------------------------------------------ merging field by field

  lemma {:induction false} FirstWithHas(fields: seq<FormField>, key: string)
    ensures FirstWith(fields, key).Some? <==> exists f :: f in fields && f.key == key
    ensures FirstWith(fields, key).Some? ==> FirstWith(fields, key).value in fields && FirstWith(fields, key).value.key == key
  {
    if fields != [] {
      FirstWithHas(fields[..|fields| - 1], key);
      assert fields == fields[..|fields| - 1] + [fields[|fields| - 1]];
    }
  }

  lemma {:induction false} MissingIs(more: seq<VerticalId>, have: seq<VerticalId>)
    ensures forall v :: v in Missing(more, have) <==> v in more && v !in have
  {
    if more != [] {
      MissingIs(more[..|more| - 1], have);
      assert more == more[..|more| - 1] + [more[|more| - 1]];
    }
  }

  /** What is kept for one key: the first field, with the verticals of every repeat alike to it, unless it is for all. */
  ghost predicate KeptFor(fields: seq<FormField>, m: Merged, key: string) {
    var first := FirstWith(fields, key);
    && (key in m.byKey <==> first.Some?)
    && (key in m.byKey ==>
          && SameButVerticals(first.value, m.byKey[key])
          && (first.value.verticals == [] <==> m.byKey[key].verticals == [])
          && (first.value.verticals != [] ==> forall v :: v in m.byKey[key].verticals <==> v in VerticalsAlike(fields, first.value)))
  }

  lemma VerticalsAlikeGrow(init: seq<FormField>, last: FormField, first: FormField)
    ensures forall v :: v in VerticalsAlike(init + [last], first) <==>
                        v in VerticalsAlike(init, first) || (SameButVerticals(first, last) && v in last.verticals)
  {
  }

  lemma {:induction false} MergeStep(init: seq<FormField>, last: FormField, m: Merged, key: string)
    requires KeptFor(init, m, key) && KeptFor(init, m, last.key)
    ensures KeptFor(init + [last], MergeOne(m, last), key)
  {
    var fields := init + [last];
    assert fields[..|fields| - 1] == init;
    FirstWithHas(init, key);
    if last.key == key {
      if key in m.byKey {
        var first := FirstWith(init, key).value;
        VerticalsAlikeGrow(init, last, first);
        MissingIs(last.verticals, m.byKey[key].verticals);
      } else {
        VerticalsAlikeGrow(init, last, last);
        OthersDiffer(init, last);
      }
    } else if key in m.byKey {
      VerticalsAlikeGrow(init, last, FirstWith(init, key).value);
    }
  }

  lemma OthersDiffer(init: seq<FormField>, last: FormField)
    requires FirstWith(init, last.key).None?
    ensures VerticalsAlike(init, last) == {}
  {
  }

  lemma {:induction false} MergeKeeps(fields: seq<FormField>, key: string)
    ensures KeptFor(fields, MergeAll(fields), key)
  {
    if fields != [] {
      var init, last := fields[..|fields| - 1], fields[|fields| - 1];
      MergeKeeps(init, key);
      MergeKeeps(init, last.key);
      MergeStep(init, last, MergeAll(init), key);
      assert init + [last] == fields;
    }
  }

  lemma {:induction false} MergeOrderAndNotes(fields: seq<FormField>)
    ensures MergeAll(fields).keys == FirstKeys(fields)
    ensures MergeAll(fields).notes == Differing(fields)
  {
    if fields != [] {
      var init, last := fields[..|fields| - 1], fields[|fields| - 1];
      MergeOrderAndNotes(init);
      MergeKeeps(init, last.key);
      assert FirstKeys(init) + [] == FirstKeys(init) && Differing(init) + [] == Differing(init);
    }
  }

  lemma {:induction false} FirstKeysAre(fields: seq<FormField>)
    ensures forall key :: key in FirstKeys(fields) <==> exists f :: f in fields && f.key == key
    ensures Distinct(FirstKeys(fields))
  {
    if fields != [] {
      var init, last := fields[..|fields| - 1], fields[|fields| - 1];
      FirstKeysAre(init);
      FirstWithHas(init, last.key);
      assert fields == init + [last];
      var before := FirstKeys(init);
      if FirstWith(init, last.key).None? {
        assert forall i :: 0 <= i < |before| ==> before[i] in before;
        assert FirstKeys(fields) == before + [last.key];
      } else {
        assert FirstKeys(fields) == before;
      }
    }
  }

  // ------------------------------------------------------------------ the form the user sees

  ghost predicate UniqueKeys(fields: seq<FormField>) {
    forall i, j :: 0 <= i < j < |fields| ==> fields[i].key != fields[j].key
  }

  lemma UniqueByKey(fields: seq<FormField>)
    ensures UniqueKeys(fields) <==> UniqueBy(KeyOf, fields)
  {
  }

  function KeyOf(f: FormField): string {
    f.key
  }

  lemma {:induction false} ValuesAre(fields: seq<FormField>)
    ensures var m := MergeAll(fields);
            && UniqueKeys(Values(m))
            && forall f: FormField :: f in Values(m) <==> f.key in m.byKey && m.byKey[f.key] == f
  {
    var m := MergeAll(fields);
    MergeOrderAndNotes(fields);
    FirstKeysAre(fields);
    forall key ensures key in m.keys <==> key in m.byKey {
      MergeKeeps(fields, key);
      FirstWithHas(fields, key);
    }
    forall key | key in m.byKey ensures m.byKey[key].key == key {
      MergeKeeps(fields, key);
      FirstWithHas(fields, key);
    }
    forall i | 0 <= i < |m.keys| ensures Values(m)[i] == m.byKey[m.keys[i]] && Values(m)[i].key == m.keys[i] {
      assert m.keys[i] in m.keys;
    }
    forall f: FormField | f.key in m.byKey && m.byKey[f.key] == f ensures f in Values(m) {
      var i :| 0 <= i < |m.keys| && m.keys[i] == f.key;
      assert Values(m)[i] == f;
    }
  }

  /**
   Merging any live lists that can be read at all: keys come out unique, one field for every key met; each is,
   verticals aside, the first occurrence in the documented order of lists; every repeat that differs from it gets
   one note, in order, and nothing else does; and no repeat alike to it loses its verticals, unless the kept field
   is for every vertical.
  */
  lemma {:induction false} MergedForm(show: Show, names: map<VerticalId, string>, definitions: seq<Definition>, key: string)
    requires Merge(show, names, definitions).Some?
    ensures var form, met := Merge(show, names, definitions).value, AllFields(show, Ordered(names, definitions)).value;
            && UniqueKeys(form.fields)
            && form.notes == Differing(met)
            && ((exists f :: f in form.fields && f.key == key) <==> FirstWith(met, key).Some?)
            && forall f :: f in form.fields && f.key == key ==>
                 && SameButVerticals(FirstWith(met, key).value, f)
                 && (f.verticals == [] <==> FirstWith(met, key).value.verticals == [])
                 && (f.verticals != [] ==> forall v :: v in f.verticals <==> v in VerticalsAlike(met, f))
  {
    var ordered := Ordered(names, definitions);
    var met := AllFields(show, ordered).value;
    var m, form := MergeAll(met), Merge(show, names, definitions).value;
    MergeOrderAndNotes(met);
    ValuesAre(met);
    MergeKeeps(met, key);
    InFormOrderHas(Values(m), ordered);
    forall f | f in form.fields && f.key == key && f.verticals != []
      ensures forall v :: v in f.verticals <==> v in VerticalsAlike(met, f)
    {
      SameAlike(met, FirstWith(met, key).value, f);
    }
    if key in m.byKey {
      FirstWithHas(met, key);
      assert m.byKey[key] in Values(m);
    }
  }

  lemma SameAlike(fields: seq<FormField>, a: FormField, b: FormField)
    requires SameButVerticals(a, b)
    ensures VerticalsAlike(fields, a) == VerticalsAlike(fields, b)
  {
  }

  lemma InFormOrderHas(fields: seq<FormField>, ordered: seq<Definition>)
    requires UniqueKeys(fields) && InFormOrder(fields, ordered).Some?
    ensures var sorted := InFormOrder(fields, ordered).value;
            UniqueKeys(sorted) && forall f :: f in sorted <==> f in fields
  {
    if ordered != [] {
      var order := Elements(ordered[0].stored.order).value;
      SortHas(ByPosition(order), fields);
      UniqueByKey(fields);
      SortKeepsUnique(KeyOf, ByPosition(order), fields);
      UniqueByKey(Sort(ByPosition(order), fields));
    }
  }

  // ------------------------------------------------------------------ the documented order of lists

  lemma ComesFirstIsOrder(names: map<VerticalId, string>)
    ensures Order((a, b) => ComesFirst(names, a, b))
  {
    var le := (a, b) => ComesFirst(names, a, b);
    forall a, b ensures le(a, b) || le(b, a) {
      StringLeTotal(a.id, b.id);
      StringLeTotal(NameOf(names, a.vertical), NameOf(names, b.vertical));
    }
    forall a, b, c | le(a, b) && le(b, c) ensures le(a, c) {
      ComesFirstTransitive(names, a, b, c);
    }
  }

  lemma ComesFirstTransitive(names: map<VerticalId, string>, a: Definition, b: Definition, c: Definition)
    requires ComesFirst(names, a, b) && ComesFirst(names, b, c)
    ensures ComesFirst(names, a, c)
  {
    var x, y, z := NameOf(names, a.vertical), NameOf(names, b.vertical), NameOf(names, c.vertical);
    if StringLe(x, y) && StringLe(y, z) {
      StringLeTransitive(x, y, z);
      StringLeTotal(x, y);
    }
    if StringLe(a.id, b.id) && StringLe(b.id, c.id) {
      StringLeTransitive(a.id, b.id, c.id);
    }
  }

  /** Any list for every vertical leads; of two alike in that, the newer; then by vertical name; then by id. */
  ghost predicate Documented(names: map<VerticalId, string>, a: Definition, b: Definition) {
    var nameA := if a.vertical.Some? && a.vertical.value in names then names[a.vertical.value] else "";
    var nameB := if b.vertical.Some? && b.vertical.value in names then names[b.vertical.value] else "";
    && (b.vertical.None? ==> a.vertical.None?)
    && (a.vertical.None? == b.vertical.None? ==>
          && a.version >= b.version
          && (a.version == b.version ==> StringLe(nameA, nameB) && (nameA == nameB ==> StringLe(a.id, b.id))))
  }

  lemma ComesFirstIsDocumented(names: map<VerticalId, string>, a: Definition, b: Definition)
    requires ComesFirst(names, a, b)
    ensures Documented(names, a, b)
  {
    StringLeTotal(NameOf(names, a.vertical), NameOf(names, a.vertical));
  }

  /** The lists are the same lists, in the documented order. */
  lemma OrderedIsOrdered(names: map<VerticalId, string>, definitions: seq<Definition>)
    ensures var ordered := Ordered(names, definitions);
            && |ordered| == |definitions| && (forall d :: d in ordered <==> d in definitions)
            && forall i, j :: 0 <= i < j < |ordered| ==> Documented(names, ordered[i], ordered[j])
  {
    var le := (a, b) => ComesFirst(names, a, b);
    ComesFirstIsOrder(names);
    SortHas(le, definitions);
    SortSorts(le, definitions);
    assert Ordered(names, definitions) == Sort(le, definitions);
    forall i, j | 0 <= i < j < |Ordered(names, definitions)|
      ensures Documented(names, Ordered(names, definitions)[i], Ordered(names, definitions)[j])
    {
      assert le(Sort(le, definitions)[i], Sort(le, definitions)[j]);
      ComesFirstIsDocumented(names, Sort(le, definitions)[i], Sort(le, definitions)[j]);
    }
  }

  // ------------------------------------------------------------------ the order of the result

  ghost predicate MentionedAt(order: seq<Json>, key: string, k: nat) {
    k < |order| && order[k] == Str(key)
  }

  lemma {:induction false} PositionsAre(order: seq<Json>)
    requires Distinct(order)
    ensures |Positions(order)| == |order|
    ensures forall j :: j in Positions(order) <==> j in order
    ensures forall k :: 0 <= k < |order| ==> order[k] in Positions(order) && Positions(order)[order[k]] == k
  {
    if order != [] {
      var init, last := order[..|order| - 1], order[|order| - 1];
      PositionsAre(init);
      assert order == init + [last];
      assert forall k :: 0 <= k < |init| ==> init[k] == order[k];
    }
  }

  /**
   Where the first list names each field at most once, the merged fields follow it: named ones in its order, and those
   it does not name after them.
  */
  lemma {:induction false} FollowsFirstList(fields: seq<FormField>, ordered: seq<Definition>, i: nat, j: nat)
    requires ordered != [] && InFormOrder(fields, ordered).Some? && Distinct(Elements(ordered[0].stored.order).value)
    requires i < j < |InFormOrder(fields, ordered).value|
    ensures var sorted, order := InFormOrder(fields, ordered).value, Elements(ordered[0].stored.order).value;
            forall n: nat :: MentionedAt(order, sorted[j].key, n) ==>
              exists m: nat :: m <= n && MentionedAt(order, sorted[i].key, m)
  {
    var sorted, order := InFormOrder(fields, ordered).value, Elements(ordered[0].stored.order).value;
    var le := ByPosition(order);
    ByPositionIsOrder(order);
    SortSorts(le, fields);
    assert le(sorted[i], sorted[j]);
    PositionsAre(order);
    if n: nat :| MentionedAt(order, sorted[j].key, n) {
      assert order[n] in Positions(order) && Positions(order)[order[n]] == n;
      assert Str(sorted[i].key) in order;
      var m :| 0 <= m < |order| && order[m] == Str(sorted[i].key);
      assert MentionedAt(order, sorted[i].key, m);
    }
  }

  lemma ByPositionIsOrder(order: seq<Json>)
    ensures Order(ByPosition(order))
  {
  }
}
