/**
 Splitting a valid form into its stored lists and merging them back gives the form again, whatever order the
 database returns the lists, their ids and their properties in; and splitting that again stores the same lists.
*/
module FormRoundTrip {
  import opened Common
  import opened Sorting
  import opened FormFields
  import opened FormInput
  import opened FormMerge

  ghost predicate ValidForm(fields: seq<FormField>) {
    UniqueKeys(fields) && forall f :: f in fields ==> ValidField(f)
  }

  /** Strings print as themselves. */
  ghost predicate ShowsStrings(show: Show) {
    forall s :: show(Str(s)) == s
  }

  /** The field as the list of one vertical, or of every vertical, holds it. */
  function In(f: FormField, vertical: Option<VerticalId>): FormField {
    f.(verticals := if vertical.Some? then [vertical.value] else [])
  }

  // ------------------------------------------------------------------ one field

  lemma WordsDiffer()
    ensures "array" != "string" && "number" != "string" && "integer" != "string" && "boolean" != "string"
    ensures "number" != "array" && "integer" != "array" && "boolean" != "array"
    ensures "integer" != "number" && "boolean" != "number" && "boolean" != "integer"
    ensures "email" != "phone" && "date" != "date-time" && "uri" != "email" && "uri" != "phone" && "date" != "uri"
    ensures "date" != "email" && "date" != "phone" && "date-time" != "uri" && "date-time" != "email" && "date-time" != "phone"
  {
  }

  lemma FormatReadsBack(t: FieldType)
    ensures TypeByFormat(FormatOf(t)) == if FormatOf(t).Some? then Some(t) else Some(Text)
  {
  }

  lemma TypeReadsBack(f: FormField)
    requires ValidField(f)
    ensures TypeOf(PropertyOf(f), OptionsOf(f)) == Some(f.fieldType)
  {
    WordsDiffer();
    FormatReadsBack(f.fieldType);
    if f.fieldType.MultiChoice? {
      assert Strings(f.options) != [];
    }
  }

  lemma StringsShown(show: Show, s: seq<string>)
    requires ShowsStrings(show)
    ensures Shown(show, Strings(s)) == s
  {
  }

  lemma ChoicesReadBack(show: Show, f: FormField)
    requires ValidField(f) && ShowsStrings(show)
    ensures ReadChoices(show, PropertyOf(f), f.fieldType) == Some(f.options)
  {
    StringsShown(show, f.options);
    if f.fieldType.MultiChoice? {
      assert Strings(f.options) != [];
    }
  }

  lemma RuleReadsBack(show: Show, f: FormField)
    requires ValidField(f) && ShowsStrings(show)
    ensures ReadRule(show, OptionsOf(f).showWhen) == Some(f.showWhen)
  {
    if f.showWhen.Some? {
      var rule := f.showWhen.value;
      StringsShown(show, rule.values);
      assert Strings(rule.values) != [];
      assert Elements(Some(Arr(Strings(rule.values)))) == Some(Strings(rule.values));
    }
  }

  lemma LabelAndHelpReadBack(f: FormField)
    requires ValidField(f)
    ensures ReadLabel(PropertyOf(f).title, f.key) == Some(f.labelText) && ReadHelp(PropertyOf(f).description) == Some(f.help)
  {
  }

  /** A field read back from what was stored for it is that field. */
  lemma FieldReadsBack(show: Show, f: FormField, vertical: Option<VerticalId>)
    requires ValidField(f) && ShowsStrings(show)
    ensures ReadField(show, f.key, PropertyOf(f), OptionsOf(f), f.required, vertical) == Some(In(f, vertical))
  {
    TypeReadsBack(f);
    ChoicesReadBack(show, f);
    RuleReadsBack(show, f);
    LabelAndHelpReadBack(f);
  }

  // ------------------------------------------------------------------ one list

  lemma {:induction false} PropertiesHas(fields: seq<FormField>)
    requires UniqueKeys(fields)
    ensures forall key :: key in PropertiesOf(fields) <==> key in Keys(fields)
    ensures forall f :: f in fields ==> f.key in PropertiesOf(fields) && PropertiesOf(fields)[f.key] == PropertyOf(f)
  {
    if fields != [] {
      var init, last := fields[..|fields| - 1], fields[|fields| - 1];
      PropertiesHas(init);
      assert fields == init + [last] && Keys(fields) == Keys(init) + [last.key];
      forall f | f in init ensures f.key != last.key {
        var i :| 0 <= i < |init| && init[i] == f;
        assert fields[i].key != fields[|init|].key;
      }
    }
  }

  lemma {:induction false} OptionsHas(fields: seq<FormField>)
    requires UniqueKeys(fields)
    ensures forall key :: key in AllOptionsOf(fields) ==> key in Keys(fields)
    ensures forall f :: f in fields ==>
              OptionsOf(f) == if f.key in AllOptionsOf(fields) then AllOptionsOf(fields)[f.key] else NO_OPTIONS
  {
    if fields != [] {
      var init, last := fields[..|fields| - 1], fields[|fields| - 1];
      OptionsHas(init);
      assert fields == init + [last] && Keys(fields) == Keys(init) + [last.key];
      forall f | f in init ensures f.key != last.key {
        var i :| 0 <= i < |init| && init[i] == f;
        assert fields[i].key != fields[|init|].key;
      }
      LastKeyIsNew(fields);
    }
  }

  lemma LastKeyIsNew(fields: seq<FormField>)
    requires UniqueKeys(fields) && fields != []
    ensures fields[|fields| - 1].key !in Keys(fields[..|fields| - 1])
  {
  }

  lemma {:induction false} RequiredHas(fields: seq<FormField>)
    requires UniqueKeys(fields)
    ensures forall key :: key in RequiredOf(fields) ==> key in Keys(fields)
    ensures forall f :: f in fields ==> (f.key in RequiredOf(fields) <==> f.required)
  {
    if fields != [] {
      var init, last := fields[..|fields| - 1], fields[|fields| - 1];
      RequiredHas(init);
      LastKeyIsNew(fields);
      assert fields == init + [last] && Keys(fields) == Keys(init) + [last.key];
      forall f | f in init ensures f.key != last.key {
        var i :| 0 <= i < |init| && init[i] == f;
        assert fields[i].key != fields[|init|].key;
      }
    }
  }

  lemma {:induction false} MembersAre(fields: seq<FormField>, vertical: Option<VerticalId>)
    requires UniqueKeys(fields)
    ensures UniqueKeys(MembersOf(fields, vertical))
    ensures forall f :: f in MembersOf(fields, vertical) <==> f in fields && SitsIn(f, vertical)
  {
    if fields != [] {
      var init, last := fields[..|fields| - 1], fields[|fields| - 1];
      MembersAre(init, vertical);
      assert fields == init + [last];
      var before := MembersOf(init, vertical);
      forall i | 0 <= i < |before| ensures before[i].key != last.key {
        assert before[i] in init;
        var j :| 0 <= j < |init| && init[j] == before[i];
        assert fields[j].key != fields[|init|].key;
      }
    }
  }

  /** Of the whole form's order, a list's own keys are what its properties leave. */
  lemma {:induction false} OrderLeavesMembers(fields: seq<FormField>, vertical: Option<VerticalId>, properties: map<string, Property>)
    requires forall f :: f in fields ==> (f.key in properties <==> SitsIn(f, vertical))
    ensures Listed(Strings(Keys(fields)), properties) == Keys(MembersOf(fields, vertical))
  {
    if fields != [] {
      var init, last := fields[..|fields| - 1], fields[|fields| - 1];
      OrderLeavesMembers(init, vertical, properties);
      var order := Strings(Keys(fields));
      assert order[..|order| - 1] == Strings(Keys(init)) && order[|order| - 1] == Str(last.key);
      assert last in fields;
      var members := MembersOf(init, vertical);
      assert Keys(members + [last]) == Keys(members) + [last.key];
      assert members + [] == members;
    }
  }

  lemma {:induction false} AllListed(keys: seq<string>, listed: seq<string>)
    requires forall key :: key in keys ==> key in listed
    ensures NotIn(keys, listed) == []
  {
    if keys != [] {
      AllListed(keys[..|keys| - 1], listed);
      assert keys[|keys| - 1] in keys;
    }
  }

  /** A live list that a save of this form made, under any id, its properties in any order. */
  ghost predicate SavedAs(fields: seq<FormField>, d: Definition) {
    && d.stored == Schemas(MembersOf(fields, d.vertical), Keys(fields))
    && forall key :: key in d.propertyOrder ==> key in d.stored.properties
  }

  function AllIn(fields: seq<FormField>, vertical: Option<VerticalId>): seq<FormField> {
    seq(|fields|, i requires 0 <= i < |fields| => In(fields[i], vertical))
  }

  /** The list stores this field, and says of it what the form says. */
  ghost predicate Stores(d: Definition, required: seq<Json>, f: FormField) {
    && ValidField(f) && f.key in d.stored.properties && d.stored.properties[f.key] == PropertyOf(f)
    && OptionsOf(f) == (if f.key in d.stored.options then d.stored.options[f.key] else NO_OPTIONS)
    && (Str(f.key) in required <==> f.required)
  }

  lemma {:induction false} KeyReadsBack(show: Show, d: Definition, required: seq<Json>, f: FormField)
    requires ShowsStrings(show) && Stores(d, required, f)
    ensures ReadKey(show, d, required, f.key) == Some(In(f, d.vertical))
  {
    FieldReadsBack(show, f, d.vertical);
  }

  lemma {:induction false} ReadAllBack(show: Show, d: Definition, required: seq<Json>, members: seq<FormField>)
    requires forall i :: 0 <= i < |members| ==> ReadKey(show, d, required, members[i].key) == Some(In(members[i], d.vertical))
    ensures ReadAll(show, d, required, Keys(members)) == Some(AllIn(members, d.vertical))
  {
    var keys := Keys(members);
    if members == [] {
      assert keys == [] && AllIn(members, d.vertical) == [];
    } else {
      var init, last := members[..|members| - 1], members[|members| - 1];
      ReadAllBack(show, d, required, init);
      assert keys[..|keys| - 1] == Keys(init) && keys[|keys| - 1] == last.key;
      assert AllIn(members, d.vertical) == AllIn(init, d.vertical) + [In(last, d.vertical)];
      assert ReadAll(show, d, required, keys[..|keys| - 1]) == Some(AllIn(init, d.vertical));
    }
  }

  lemma RequiredElements(keys: seq<string>)
    ensures var required := Elements(if keys == [] then None else Some(Arr(Strings(keys))));
            required.Some? && Hashable(required.value) && forall key :: Str(key) in required.value <==> key in keys
  {
    if keys != [] {
      assert Strings(keys) != [];
    }
    forall key ensures Str(key) in Strings(keys) <==> key in keys {
      if key in keys {
        var i :| 0 <= i < |keys| && keys[i] == key;
        assert Strings(keys)[i] == Str(key);
      }
    }
  }

  lemma OrderElements(keys: seq<string>)
    ensures Elements(Some(Arr(Strings(keys)))) == Some(Strings(keys)) && Hashable(Strings(keys))
  {
  }

  /** A saved list is read back as its members, in the form's order. */
  lemma ListReadsBack(show: Show, fields: seq<FormField>, d: Definition)
    requires ValidForm(fields) && ShowsStrings(show) && SavedAs(fields, d)
    ensures FieldsOf(show, d) == Some(AllIn(MembersOf(fields, d.vertical), d.vertical))
  {
    var members := MembersOf(fields, d.vertical);
    MembersAre(fields, d.vertical);
    PropertiesHas(members);
    OptionsHas(members);
    RequiredHas(members);
    RequiredElements(RequiredOf(members));
    OrderElements(Keys(fields));
    KeysAreMembers(fields, d.vertical);
    OrderLeavesMembers(fields, d.vertical, d.stored.properties);
    var listed := Keys(members);
    AllListed(d.propertyOrder, listed);
    assert listed + [] == listed;
    forall i | 0 <= i < |members|
      ensures ReadKey(show, d, Elements(d.stored.required).value, members[i].key) == Some(In(members[i], d.vertical))
    {
      assert members[i] in members;
      KeyReadsBack(show, d, Elements(d.stored.required).value, members[i]);
    }
    ReadAllBack(show, d, Elements(d.stored.required).value, members);
  }

  lemma KeysAreMembers(fields: seq<FormField>, vertical: Option<VerticalId>)
    requires UniqueKeys(fields)
    ensures forall f :: f in fields ==> (f.key in Keys(MembersOf(fields, vertical)) <==> SitsIn(f, vertical))
  {
    var members := MembersOf(fields, vertical);
    MembersAre(fields, vertical);
    forall f | f in fields ensures f.key in Keys(members) <==> SitsIn(f, vertical) {
      if f.key in Keys(members) {
        var i :| 0 <= i < |members| && members[i].key == f.key;
        assert members[i] in members;
        SameKeySameField(fields, members[i], f);
      }
      if SitsIn(f, vertical) {
        var i :| 0 <= i < |members| && members[i] == f;
        assert Keys(members)[i] == f.key;
      }
    }
  }

  lemma SameKeySameField(fields: seq<FormField>, a: FormField, b: FormField)
    requires UniqueKeys(fields) && a in fields && b in fields && a.key == b.key
    ensures a == b
  {
  }

  // ------------------------------------------------------------------ all the lists

  /** Some field of the form as one of the lists holds it. */
  predicate FromForm(fields: seq<FormField>, lists: seq<Definition>, it: FormField) {
    exists f, d :: f in fields && d in lists && SitsIn(f, d.vertical) && it == In(f, d.vertical)
  }

  lemma {:induction false} ListsReadBack(show: Show, fields: seq<FormField>, lists: seq<Definition>)
    requires ValidForm(fields) && ShowsStrings(show) && forall d :: d in lists ==> SavedAs(fields, d)
    ensures AllFields(show, lists).Some?
    ensures forall it :: it in AllFields(show, lists).value <==> FromForm(fields, lists, it)
  {
    if lists != [] {
      var init, last := lists[..|lists| - 1], lists[|lists| - 1];
      assert lists == init + [last];
      ListsReadBack(show, fields, init);
      ListReadsBack(show, fields, last);
      MembersAre(fields, last.vertical);
      var members := MembersOf(fields, last.vertical);
      forall it ensures it in AllIn(members, last.vertical) <==>
                        exists f :: f in fields && SitsIn(f, last.vertical) && it == In(f, last.vertical) {
        if f :| f in fields && SitsIn(f, last.vertical) && it == In(f, last.vertical) {
          var i :| 0 <= i < |members| && members[i] == f;
          assert AllIn(members, last.vertical)[i] == it;
        }
        if it in AllIn(members, last.vertical) {
          var i :| 0 <= i < |members| && AllIn(members, last.vertical)[i] == it;
          assert members[i] in members;
        }
      }
      FromFormGrows(fields, init, last);
    }
  }

  lemma FromFormGrows(fields: seq<FormField>, init: seq<Definition>, last: Definition)
    ensures forall it :: FromForm(fields, init + [last], it) <==>
              FromForm(fields, init, it) || exists f :: f in fields && SitsIn(f, last.vertical) && it == In(f, last.vertical)
  {
  }

  lemma {:induction false} NoneDiffers(met: seq<FormField>)
    requires forall a, b :: a in met && b in met && a.key == b.key ==> SameButVerticals(a, b)
    ensures Differing(met) == []
  {
    if met != [] {
      var init, last := met[..|met| - 1], met[|met| - 1];
      assert met == init + [last];
      NoneDiffers(init);
      FirstWithHas(init, last.key);
    }
  }

  // ------------------------------------------------------------------ the form's order

  lemma {:induction false} PositionsOfKeys(keys: seq<string>)
    requires Distinct(keys)
    ensures forall i :: 0 <= i < |keys| ==> Str(keys[i]) in Positions(Strings(keys)) && Positions(Strings(keys))[Str(keys[i])] == i
  {
    if keys != [] {
      var init := keys[..|keys| - 1];
      PositionsOfKeys(init);
      assert Strings(keys)[..|keys| - 1] == Strings(init);
      forall i | 0 <= i < |init|
        ensures Str(keys[i]) in Positions(Strings(keys)) && Positions(Strings(keys))[Str(keys[i])] == i
      {
        assert init[i] == keys[i] && keys[i] != keys[|init|];
      }
    }
  }

  /** Increasing positions that hit every one of 0 .. n are those numbers. */
  lemma {:induction false} IncreasingIsIdentity(ps: seq<nat>, n: nat, j: nat)
    requires forall i, k :: 0 <= i < k < |ps| ==> ps[i] < ps[k]
    requires forall i :: 0 <= i < |ps| ==> ps[i] < n
    requires forall v: nat :: v < n ==> v in ps
    requires j < n
    ensures j < |ps| && ps[j] == j
    decreases j
  {
    assert j in ps;
    var m :| 0 <= m < |ps| && ps[m] == j;
    AtLeastIndex(ps, m);
    if m < j {
      IncreasingIsIdentity(ps, n, m);
    }
  }

  lemma {:induction false} AtLeastIndex(ps: seq<nat>, i: nat)
    requires forall i, k :: 0 <= i < k < |ps| ==> ps[i] < ps[k]
    requires i < |ps|
    ensures ps[i] >= i
    decreases i
  {
    if i > 0 {
      AtLeastIndex(ps, i - 1);
    }
  }

  ghost predicate SameVerticals(a: FormField, b: FormField) {
    forall v :: v in a.verticals <==> v in b.verticals
  }

  /** The same fields in the same order, verticals compared as sets. */
  ghost predicate SameForm(a: seq<FormField>, b: seq<FormField>) {
    |a| == |b| && forall i :: 0 <= i < |a| ==> SameButVerticals(a[i], b[i]) && SameVerticals(a[i], b[i])
  }

  /** Each field of `got` is a field of the form. */
  ghost predicate AllFrom(fields: seq<FormField>, got: seq<FormField>) {
    forall g :: g in got ==> exists f :: f in fields && SameButVerticals(f, g) && SameVerticals(f, g)
  }

  /** Each field of the form has its key in `got`. */
  ghost predicate NoneLost(fields: seq<FormField>, got: seq<FormField>) {
    forall f :: f in fields ==> exists g :: g in got && g.key == f.key
  }

  ghost predicate InOrder(positions: map<Json, nat>, got: seq<FormField>) {
    forall i, j :: 0 <= i < j < |got| ==> Position(positions, got[i].key) <= Position(positions, got[j].key)
  }

  ghost predicate PositionsOf(fields: seq<FormField>, positions: map<Json, nat>) {
    forall i :: 0 <= i < |fields| ==> Str(fields[i].key) in positions && positions[Str(fields[i].key)] == i
  }

  lemma PlaceOf(fields: seq<FormField>, got: seq<FormField>, positions: map<Json, nat>, i: nat)
    requires AllFrom(fields, got) && PositionsOf(fields, positions) && i < |got|
    ensures var p := Position(positions, got[i].key);
            p < |fields| && SameButVerticals(fields[p], got[i]) && SameVerticals(fields[p], got[i])
  {
    assert got[i] in got;
    var f :| f in fields && SameButVerticals(f, got[i]) && SameVerticals(f, got[i]);
    var k :| 0 <= k < |fields| && fields[k] == f;
  }

  lemma PlaceTaken(fields: seq<FormField>, got: seq<FormField>, positions: map<Json, nat>, v: nat) returns (i: nat)
    requires NoneLost(fields, got) && PositionsOf(fields, positions) && v < |fields|
    ensures i < |got| && Position(positions, got[i].key) == v
  {
    assert fields[v] in fields;
    var g :| g in got && g.key == fields[v].key;
    i :| 0 <= i < |got| && got[i] == g;
  }

  lemma SortedIsForm(fields: seq<FormField>, got: seq<FormField>, positions: map<Json, nat>)
    requires UniqueKeys(got) && AllFrom(fields, got) && NoneLost(fields, got) && PositionsOf(fields, positions)
    requires InOrder(positions, got)
    ensures SameForm(fields, got)
  {
    var n := |fields|;
    var ps: seq<nat> := seq(|got|, i requires 0 <= i < |got| => Position(positions, got[i].key));
    PlacesAre(fields, got, positions, ps);
    AllInPlace(ps, n);
    forall i | 0 <= i < n ensures SameButVerticals(fields[i], got[i]) && SameVerticals(fields[i], got[i]) {
      PlaceOf(fields, got, positions, i);
    }
  }

  lemma PlacesAre(fields: seq<FormField>, got: seq<FormField>, positions: map<Json, nat>, ps: seq<nat>)
    requires UniqueKeys(got) && AllFrom(fields, got) && NoneLost(fields, got) && PositionsOf(fields, positions)
    requires InOrder(positions, got)
    requires |ps| == |got| && forall i :: 0 <= i < |got| ==> ps[i] == Position(positions, got[i].key)
    ensures forall i, k :: 0 <= i < k < |ps| ==> ps[i] < ps[k]
    ensures forall i :: 0 <= i < |ps| ==> ps[i] < |fields|
    ensures forall v: nat :: v < |fields| ==> v in ps
  {
    forall i, j | 0 <= i < j < |got| ensures ps[i] < ps[j] {
      PlaceOf(fields, got, positions, i);
      PlaceOf(fields, got, positions, j);
      assert got[i].key != got[j].key;
    }
    forall i | 0 <= i < |ps| ensures ps[i] < |fields| {
      PlaceOf(fields, got, positions, i);
    }
    forall v: nat | v < |fields| ensures v in ps {
      var i := PlaceTaken(fields, got, positions, v);
      assert ps[i] == v;
    }
  }

  lemma AllInPlace(ps: seq<nat>, n: nat)
    requires forall i, k :: 0 <= i < k < |ps| ==> ps[i] < ps[k]
    requires forall i :: 0 <= i < |ps| ==> ps[i] < n
    requires forall v: nat :: v < n ==> v in ps
    ensures |ps| == n && forall j :: 0 <= j < n ==> ps[j] == j
  {
    forall j: nat | j < n ensures j < |ps| && ps[j] == j {
      IncreasingIsIdentity(ps, n, j);
    }
    if n > 0 {
      IncreasingIsIdentity(ps, n, n - 1);
    }
    if n < |ps| {
      AtLeastIndex(ps, n);
    }
  }

  // ------------------------------------------------------------------ splitting and merging

  /** These live lists are those a save of the form made, all of them and no others. */
  ghost predicate SavedForm(fields: seq<FormField>, lists: seq<Definition>) {
    && (forall d :: d in lists ==> SavedAs(fields, d))
    && forall v :: HasList(fields, v) ==> exists d :: d in lists && d.vertical == v
  }

  lemma FromFormAlike(fields: seq<FormField>, lists: seq<Definition>, met: seq<FormField>)
    requires UniqueKeys(fields) && forall it :: it in met <==> FromForm(fields, lists, it)
    ensures Differing(met) == []
  {
    forall a, b | a in met && b in met && a.key == b.key ensures SameButVerticals(a, b) {
      var f, d :| f in fields && d in lists && SitsIn(f, d.vertical) && a == In(f, d.vertical);
      var g, e :| g in fields && e in lists && SitsIn(g, e.vertical) && b == In(g, e.vertical);
      SameKeySameField(fields, f, g);
    }
    NoneDiffers(met);
  }

  /** The verticals a field was split over, gathered again. */
  lemma GatheredVerticals(fields: seq<FormField>, lists: seq<Definition>, met: seq<FormField>, f: FormField, g: FormField)
    requires UniqueKeys(fields) && SavedForm(fields, lists) && forall it :: it in met <==> FromForm(fields, lists, it)
    requires f in fields && SameButVerticals(f, g)
    ensures forall v :: v in VerticalsAlike(met, g) <==> v in f.verticals
  {
    forall v | v in VerticalsAlike(met, g) ensures v in f.verticals {
      var it :| it in met && SameButVerticals(g, it) && v in it.verticals;
      var h, d :| h in fields && d in lists && SitsIn(h, d.vertical) && it == In(h, d.vertical);
      SameKeySameField(fields, f, h);
    }
    forall v | v in f.verticals ensures v in VerticalsAlike(met, g) {
      assert HasList(fields, Some(v));
      var d :| d in lists && d.vertical == Some(v);
      assert FromForm(fields, lists, In(f, Some(v)));
      assert v in In(f, Some(v)).verticals;
    }
  }

  lemma EveryFieldIsMet(fields: seq<FormField>, lists: seq<Definition>, f: FormField)
    requires SavedForm(fields, lists) && f in fields
    ensures exists it :: FromForm(fields, lists, it) && it.key == f.key
  {
    var v := if f.verticals == [] then None else Some(f.verticals[0]);
    assert HasList(fields, v);
    var d :| d in lists && d.vertical == v;
    assert FromForm(fields, lists, In(f, v));
  }

  lemma {:induction false} MergedFromForm(fields: seq<FormField>, lists: seq<Definition>, met: seq<FormField>, g: FormField)
    requires UniqueKeys(fields) && SavedForm(fields, lists) && forall it :: it in met <==> FromForm(fields, lists, it)
    requires FirstWith(met, g.key).Some? && SameButVerticals(FirstWith(met, g.key).value, g)
    requires g.verticals == [] <==> FirstWith(met, g.key).value.verticals == []
    requires g.verticals != [] ==> forall v :: v in g.verticals <==> v in VerticalsAlike(met, g)
    ensures exists f :: f in fields && SameButVerticals(f, g) && SameVerticals(f, g)
  {
    var first := FirstWith(met, g.key).value;
    FirstWithHas(met, g.key);
    assert FromForm(fields, lists, first);
    var f, d :| f in fields && d in lists && SitsIn(f, d.vertical) && first == In(f, d.vertical);
    assert SameButVerticals(f, g);
    if g.verticals != [] {
      GatheredVerticals(fields, lists, met, f, g);
    }
    assert SameVerticals(f, g);
  }

  lemma {:induction false} MergedIsForm(show: Show, names: map<VerticalId, string>, fields: seq<FormField>, definitions: seq<Definition>,
                                        met: seq<FormField>)
    requires UniqueKeys(fields) && SavedForm(fields, definitions)
    requires Merge(show, names, definitions).Some? && met == AllFields(show, Ordered(names, definitions)).value
    requires forall it :: it in met <==> FromForm(fields, definitions, it)
    ensures var got := Merge(show, names, definitions).value.fields;
            UniqueKeys(got) && AllFrom(fields, got) && NoneLost(fields, got)
  {
    var got := Merge(show, names, definitions).value.fields;
    MergedForm(show, names, definitions, "");
    forall g | g in got ensures exists f :: f in fields && SameButVerticals(f, g) && SameVerticals(f, g) {
      MergedForm(show, names, definitions, g.key);
      MergedFromForm(fields, definitions, met, g);
    }
    forall f | f in fields ensures exists g :: g in got && g.key == f.key {
      MergedForm(show, names, definitions, f.key);
      EveryFieldIsMet(fields, definitions, f);
      FirstWithHas(met, f.key);
    }
  }

  lemma {:induction false} SortedByPosition(fields: seq<FormField>, order: seq<Json>)
    ensures InOrder(Positions(order), Sort(ByPosition(order), fields))
  {
    SortSorts(ByPosition(order), fields);
    var sorted := Sort(ByPosition(order), fields);
    forall i, j | 0 <= i < j < |sorted|
      ensures Position(Positions(order), sorted[i].key) <= Position(Positions(order), sorted[j].key)
    {
      assert ByPosition(order)(sorted[i], sorted[j]);
    }
  }

  lemma {:induction false} FormPositions(fields: seq<FormField>)
    requires UniqueKeys(fields)
    ensures PositionsOf(fields, Positions(Strings(Keys(fields))))
  {
    PositionsOfKeys(Keys(fields));
    assert forall i :: 0 <= i < |fields| ==> Keys(fields)[i] == fields[i].key;
  }

  lemma {:induction false} FormOrderKnown(fields: seq<FormField>, lists: seq<Definition>, values: seq<FormField>)
    requires lists != [] && SavedAs(fields, lists[0])
    ensures InFormOrder(values, lists).Some?
    ensures InOrder(Positions(Strings(Keys(fields))), InFormOrder(values, lists).value)
  {
    OrderElements(Keys(fields));
    assert lists[0].stored.order == Some(Arr(Strings(Keys(fields))));
    SortedByPosition(values, Strings(Keys(fields)));
    assert InFormOrder(values, lists) == Some(Sort(ByPosition(Strings(Keys(fields))), values));
  }

  lemma {:induction false} SameFormSameMembers(a: seq<FormField>, b: seq<FormField>, vertical: Option<VerticalId>)
    requires SameForm(a, b)
    ensures SameForm(MembersOf(a, vertical), MembersOf(b, vertical))
  {
    if a != [] {
      SameFormSameMembers(a[..|a| - 1], b[..|b| - 1], vertical);
      assert SameVerticals(a[|a| - 1], b[|b| - 1]);
      EmptyTogether(a[|a| - 1], b[|b| - 1]);
    }
  }

  lemma EmptyTogether(a: FormField, b: FormField)
    requires SameVerticals(a, b)
    ensures a.verticals == [] <==> b.verticals == []
  {
    if a.verticals != [] {
      assert a.verticals[0] in b.verticals;
    }
    if b.verticals != [] {
      assert b.verticals[0] in a.verticals;
    }
  }

  lemma {:induction false} SameFormSameSchemas(a: seq<FormField>, b: seq<FormField>)
    requires SameForm(a, b)
    ensures PropertiesOf(a) == PropertiesOf(b) && RequiredOf(a) == RequiredOf(b) && AllOptionsOf(a) == AllOptionsOf(b)
    ensures Keys(a) == Keys(b)
  {
    if a != [] {
      SameFormSameSchemas(a[..|a| - 1], b[..|b| - 1]);
      assert SameButVerticals(a[|a| - 1], b[|b| - 1]);
      assert forall i :: 0 <= i < |a| ==> SameButVerticals(a[i], b[i]);
    }
  }

  /** Forms that are the same are stored as exactly the same lists. */
  lemma {:induction false} SameFormSameLists(a: seq<FormField>, b: seq<FormField>, vertical: Option<VerticalId>)
    requires SameForm(a, b)
    ensures HasList(a, vertical) <==> HasList(b, vertical)
    ensures Schemas(MembersOf(a, vertical), Keys(a)) == Schemas(MembersOf(b, vertical), Keys(b))
  {
    SameFormSameMembers(a, b, vertical);
    SameFormSameSchemas(MembersOf(a, vertical), MembersOf(b, vertical));
    SameFormSameSchemas(a, b);
    if f :| f in a && vertical.Some? && vertical.value in f.verticals {
      var i :| 0 <= i < |a| && a[i] == f;
      assert SameVerticals(a[i], b[i]) && b[i] in b;
    }
    if f :| f in b && vertical.Some? && vertical.value in f.verticals {
      var i :| 0 <= i < |b| && b[i] == f;
      assert SameVerticals(a[i], b[i]) && a[i] in a;
    }
  }

  /**
   The round trip: the live lists a save of a valid form made, whatever their ids, versions, order and property
   order, merge into the same fields in the same order without a note, verticals compared as sets; and that form
   would be stored as exactly the same lists.
  */
  lemma {:induction false} SplitThenMerge(show: Show, names: map<VerticalId, string>, fields: seq<FormField>, definitions: seq<Definition>)
    requires ValidForm(fields) && ShowsStrings(show) && SavedForm(fields, definitions)
    ensures Merge(show, names, definitions).Some?
    ensures var form := Merge(show, names, definitions).value;
            && SameForm(fields, form.fields) && form.notes == []
            && forall v :: (HasList(fields, v) <==> HasList(form.fields, v))
                           && Schemas(MembersOf(fields, v), Keys(fields)) == Schemas(MembersOf(form.fields, v), Keys(form.fields))
  {
    var met := EverythingReadBack(show, names, fields, definitions);
    MergedIsForm(show, names, fields, definitions, met);
    var form := Merge(show, names, definitions).value;
    SortedIsForm(fields, form.fields, Positions(Strings(Keys(fields))));
    forall v
      ensures HasList(fields, v) <==> HasList(form.fields, v)
      ensures Schemas(MembersOf(fields, v), Keys(fields)) == Schemas(MembersOf(form.fields, v), Keys(form.fields))
    {
      SameFormSameLists(fields, form.fields, v);
    }
  }

  lemma {:induction false} EverythingReadBack(show: Show, names: map<VerticalId, string>, fields: seq<FormField>, definitions: seq<Definition>)
    returns (met: seq<FormField>)
    requires ValidForm(fields) && ShowsStrings(show) && SavedForm(fields, definitions)
    ensures Merge(show, names, definitions).Some? && AllFields(show, Ordered(names, definitions)) == Some(met)
    ensures forall it :: it in met <==> FromForm(fields, definitions, it)
    ensures var form, positions := Merge(show, names, definitions).value, Positions(Strings(Keys(fields)));
            form.notes == [] && PositionsOf(fields, positions) && InOrder(positions, form.fields)
  {
    var ordered := Ordered(names, definitions);
    OrderedIsOrdered(names, definitions);
    ListsReadBack(show, fields, ordered);
    met := AllFields(show, ordered).value;
    SameListsSameFields(fields, ordered, definitions);
    FromFormAlike(fields, definitions, met);
    MergeOrderAndNotes(met);
    assert HasList(fields, None);
    assert ordered != [];
    FormPositions(fields);
    FormOrderKnown(fields, ordered, Values(MergeAll(met)));
  }

  lemma SameListsSameFields(fields: seq<FormField>, a: seq<Definition>, b: seq<Definition>)
    requires forall d :: d in a <==> d in b
    ensures forall it :: FromForm(fields, a, it) <==> FromForm(fields, b, it)
  {
  }
}
