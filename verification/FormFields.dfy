/**
 A form's custom fields as one list, and how that list is stored: one field definition for every vertical plus
 one for each vertical a field is limited to (services/form_fields.py).

 A stored JSON object is a record of the keywords the service reads or writes, each present or not; a JSON value
 the service only tests or prints is a `Json`. None as a result stands for an exception on a malformed value.
*/
module FormFields {
  import opened Common
  import opened Sorting

  type VerticalId = string

  datatype FieldType =
    | Text | LongText | Number | Integer | Boolean | Date | DateTime | Choice | MultiChoice | Url | Email | Phone

  datatype ShowWhen = ShowWhen(input: string, values: seq<string>)

  /** No verticals means every vertical. */
  datatype FormField = FormField(
    key: string, labelText: string, fieldType: FieldType, required: bool, options: seq<string>, help: Option<string>,
    verticals: seq<VerticalId>, showWhen: Option<ShowWhen>)

  // ------------------------------------------------------------------ stored JSON

  datatype Json = Null | Bool(b: bool) | Num(n: int) | Str(s: string) | Arr(items: seq<Json>) | Obj

  /** `items` of an array property: an object with perhaps a type and choices, or something else. */
  datatype Items = ItemsObject(itemType: Option<Json>, choices: Option<Json>) | NotAnObject

  /** A property; one that is no object has no keywords. */
  datatype Property = Property(
    title: Option<Json>, description: Option<Json>, jsonType: Option<Json>, format: Option<Json>, choices: Option<Json>,
    items: Option<Items>, uniqueItems: Option<Json>)

  datatype Rule = Rule(input: Option<Json>, values: Option<Json>)
  datatype UiOptions = UiOptions(widget: Option<Json>, showWhen: Option<Rule>)

  /** `order` is what the UI schema holds under "ui:order", `options` what it holds under its other keys. */
  datatype Stored = Stored(
    properties: map<string, Property>, required: Option<Json>, order: Option<Json>, options: map<string, UiOptions>)

  /** A row; `propertyOrder` is the order in which the database gives the properties back. */
  datatype Definition = Definition(id: string, vertical: Option<VerticalId>, version: int, stored: Stored, propertyOrder: seq<string>)

  const NO_OPTIONS := UiOptions(None, None)

  function Strings(s: seq<string>): seq<Json> {
    seq(|s|, i requires 0 <= i < |s| => Str(s[i]))
  }

  predicate Truthy(j: Json) {
    match j
    case Null => false
    case Bool(b) => b
    case Num(n) => n != 0
    case Str(s) => s != ""
    case Arr(items) => items != []
    case Obj => true
  }

  /** `value or []`, ready to loop over; None when it cannot be looped over. */
  function Elements(value: Option<Json>): Option<seq<Json>> {
    if value.None? || !Truthy(value.value) then Some([])
    else match value.value
         case Arr(items) => Some(items)
         case Str(s) => Some(seq(|s|, i requires 0 <= i < |s| => Str([s[i]])))
         case _ => None
  }

  // ------------------------------------------------------------------ one list -> the lists to store

  function FormatOf(t: FieldType): Option<Json> {
    match t
    case Date => Some(Str("date"))
    case DateTime => Some(Str("date-time"))
    case Url => Some(Str("uri"))
    case Email => Some(Str("email"))
    case Phone => Some(Str("phone"))
    case _ => None
  }

  function PropertyOf(f: FormField): Property {
    var text := Property(
      Some(Str(f.labelText)), if f.help.GetOr("") == "" then None else Some(Str(f.help.value)),
      Some(Str("string")), FormatOf(f.fieldType), None, None, None);
    match f.fieldType
    case Number => text.(jsonType := Some(Str("number")))
    case Integer => text.(jsonType := Some(Str("integer")))
    case Boolean => text.(jsonType := Some(Str("boolean")))
    case Choice => text.(choices := Some(Arr(Strings(f.options))))
    case MultiChoice =>
      text.(jsonType := Some(Str("array")), uniqueItems := Some(Bool(true)),
            items := Some(ItemsObject(Some(Str("string")), Some(Arr(Strings(f.options))))))
    case _ => text
  }

  function OptionsOf(f: FormField): UiOptions {
    UiOptions(
      if f.fieldType.LongText? then Some(Str("textarea")) else None,
      if f.showWhen.Some? then Some(Rule(Some(Str(f.showWhen.value.input)), Some(Arr(Strings(f.showWhen.value.values))))) else None)
  }

  function Keys(fields: seq<FormField>): seq<string> {
    seq(|fields|, i requires 0 <= i < |fields| => fields[i].key)
  }

  function PropertiesOf(fields: seq<FormField>): map<string, Property> {
    if fields == [] then map[]
    else PropertiesOf(fields[..|fields| - 1])[fields[|fields| - 1].key := PropertyOf(fields[|fields| - 1])]
  }

  function RequiredOf(fields: seq<FormField>): seq<string> {
    if fields == [] then []
    else RequiredOf(fields[..|fields| - 1]) + (if fields[|fields| - 1].required then [fields[|fields| - 1].key] else [])
  }

  function AllOptionsOf(fields: seq<FormField>): map<string, UiOptions> {
    if fields == [] then map[]
    else
      var before, last := AllOptionsOf(fields[..|fields| - 1]), fields[|fields| - 1];
      if OptionsOf(last) == NO_OPTIONS then before else before[last.key := OptionsOf(last)]
  }

  function Schemas(fields: seq<FormField>, formOrder: seq<string>): Stored {
    Stored(PropertiesOf(fields), if RequiredOf(fields) == [] then None else Some(Arr(Strings(RequiredOf(fields)))),
           Some(Arr(Strings(formOrder))), AllOptionsOf(fields))
  }

  /** Whether a field sits in the list for a vertical, or in the one for every vertical. */
  predicate SitsIn(f: FormField, vertical: Option<VerticalId>) {
    if vertical.None? then f.verticals == [] else vertical.value in f.verticals
  }

  function MembersOf(fields: seq<FormField>, vertical: Option<VerticalId>): seq<FormField> {
    if fields == [] then []
    else
      var last := fields[|fields| - 1];
      MembersOf(fields[..|fields| - 1], vertical) + (if SitsIn(last, vertical) then [last] else [])
  }

  /** The lists a form is stored as. */
  predicate HasList(fields: seq<FormField>, vertical: Option<VerticalId>) {
    vertical.None? || exists f :: f in fields && vertical.value in f.verticals
  }

  type Members = map<Option<VerticalId>, seq<FormField>>

  function ListFor(members: Members, vertical: Option<VerticalId>): seq<FormField> {
    if vertical in members then members[vertical] else []
  }

  function Appended(members: Members, vertical: Option<VerticalId>, field: FormField): (after: Members)
    ensures forall v :: v in after <==> v in members || v == vertical
    ensures forall v :: ListFor(after, v) == ListFor(members, v) + if v == vertical then [field] else []
  {
    members[vertical := ListFor(members, vertical) + [field]]
  }

  predicate Among(vertical: Option<VerticalId>, ids: seq<VerticalId>) {
    vertical.Some? && vertical.value in ids
  }

  /** Adds one field to the list of each of its verticals, or to the list for every vertical. */
  method AddToLists(before: Members, field: FormField) returns (members: Members)
    requires Distinct(field.verticals)
    ensures forall v :: v in members <==> v in before || SitsIn(field, v)
    ensures forall v :: ListFor(members, v) == ListFor(before, v) + if SitsIn(field, v) then [field] else []
  {
    members := before;
    if field.verticals == [] {
      return Appended(members, None, field);
    }
    for i := 0 to |field.verticals|
      invariant forall v :: v in members <==> v in before || Among(v, field.verticals[..i])
      invariant forall v :: ListFor(members, v) == ListFor(before, v) + if Among(v, field.verticals[..i]) then [field] else []
    {
      var id := field.verticals[i];
      assert id !in field.verticals[..i] && field.verticals[..i + 1] == field.verticals[..i] + [id];
      members := Appended(members, Some(id), field);
    }
    assert field.verticals[..|field.verticals|] == field.verticals;
  }

  method ListsByVertical(fields: seq<FormField>) returns (members: Members)
    requires forall f :: f in fields ==> Distinct(f.verticals)
    ensures forall v :: v in members <==> HasList(fields, v)
    ensures forall v :: v in members ==> members[v] == MembersOf(fields, v)
  {
    members := map[None := []];
    for i := 0 to |fields|
      invariant forall v :: v in members <==> HasList(fields[..i], v)
      invariant forall v :: ListFor(members, v) == MembersOf(fields[..i], v)
    {
      assert fields[..i + 1] == fields[..i] + [fields[i]];
      members := AddToLists(members, fields[i]);
    }
    assert fields[..|fields|] == fields;
  }

  method StoredLists(fields: seq<FormField>) returns (lists: map<Option<VerticalId>, Stored>)
    requires forall f :: f in fields ==> Distinct(f.verticals)
    ensures forall v :: v in lists <==> HasList(fields, v)
    ensures forall v :: v in lists ==> lists[v] == Schemas(MembersOf(fields, v), Keys(fields))
  {
    var members := ListsByVertical(fields);
    var formOrder := Keys(fields);
    lists := map v | v in members :: Schemas(members[v], formOrder);
  }

  // ------------------------------------------------------------------ reading one stored list

  /** How Python prints a value; a string prints as itself. */
  type Show = Json -> string

  function TypeByFormat(format: Option<Json>): Option<FieldType> {
    if format.Some? && (format.value.Arr? || format.value.Obj?) then None
    else if format == FormatOf(Date) then Some(Date)
    else if format == FormatOf(DateTime) then Some(DateTime)
    else if format == FormatOf(Url) then Some(Url)
    else if format == FormatOf(Email) then Some(Email)
    else if format == FormatOf(Phone) then Some(Phone)
    else Some(Text)
  }

  predicate HasChoices(items: Option<Items>) {
    items.Some? && items.value.ItemsObject? && items.value.choices.Some? && Truthy(items.value.choices.value)
  }

  function TypeOf(prop: Property, ui: UiOptions): Option<FieldType> {
    if prop.jsonType == Some(Str("array")) then Some(if HasChoices(prop.items) then MultiChoice else Text)
    else if prop.choices.Some? then Some(Choice)
    else if prop.jsonType == Some(Str("number")) then Some(Number)
    else if prop.jsonType == Some(Str("integer")) then Some(Integer)
    else if prop.jsonType == Some(Str("boolean")) then Some(Boolean)
    else if ui.widget == Some(Str("textarea")) then Some(LongText)
    else TypeByFormat(prop.format)
  }

  function Shown(show: Show, values: seq<Json>): seq<string> {
    seq(|values|, i requires 0 <= i < |values| => show(values[i]))
  }

  /** A list of choices, printed; None when it cannot be looped over, as an empty value that is no list cannot. */
  function ChoicesOf(show: Show, choices: Json): Option<seq<string>> {
    match choices
    case Arr(items) => Some(Shown(show, items))
    case Str(_) => Some(Shown(show, Elements(Some(choices)).value))
    case _ => None
  }

  function ReadChoices(show: Show, prop: Property, t: FieldType): Option<seq<string>> {
    if t.Choice? && prop.choices.Some? then ChoicesOf(show, prop.choices.value)
    else if t.MultiChoice? && HasChoices(prop.items) then ChoicesOf(show, prop.items.value.choices.value)
    else Some([])
  }

  predicate IsSpace(c: char) {
    c in " \t\n\r"
  }

  function StripLeft(s: string): string {
    if s != "" && IsSpace(s[0]) then StripLeft(s[1..]) else s
  }

  function StripRight(s: string): string {
    if s != "" && IsSpace(s[|s| - 1]) then StripRight(s[..|s| - 1]) else s
  }

  function Strip(s: string): string {
    StripRight(StripLeft(s))
  }

  /** Stripped, without blanks, each once, in order. */
  function Clean(values: seq<string>): seq<string> {
    if values == [] then []
    else
      var before, last := Clean(values[..|values| - 1]), Strip(values[|values| - 1]);
      if last == "" || last in before then before else before + [last]
  }

  /** The outer None is an exception: the rule's own validation refuses it. */
  function ReadRule(show: Show, rule: Option<Rule>): Option<Option<ShowWhen>> {
    if rule.None? || rule.value.input.None? || rule.value.values.None? then Some(None)
    else if !Truthy(rule.value.input.value) || !Truthy(rule.value.values.value) then Some(None)
    else
      var input, values := show(rule.value.input.value), Elements(rule.value.values);
      if values.None? || !(1 <= |input| <= 64) || Clean(Shown(show, values.value)) == [] then None
      else Some(Some(ShowWhen(input, Clean(Shown(show, values.value)))))
  }

  function ReadLabel(title: Option<Json>, key: string): Option<string> {
    if title.None? || !Truthy(title.value) then Some(key) else if title.value.Str? then Some(title.value.s) else None
  }

  function ReadHelp(description: Option<Json>): Option<Option<string>> {
    if description.None? || description.value.Null? then Some(None)
    else if description.value.Str? then Some(Some(description.value.s))
    else None
  }

  function ReadField(show: Show, key: string, prop: Property, ui: UiOptions, required: bool, vertical: Option<VerticalId>)
    : Option<FormField>
  {
    var labelText, help, t, rule := ReadLabel(prop.title, key), ReadHelp(prop.description), TypeOf(prop, ui), ReadRule(show, ui.showWhen);
    if labelText.None? || help.None? || t.None? || rule.None? then None
    else
      var options := ReadChoices(show, prop, t.value);
      if options.None? then None
      else Some(FormField(key, labelText.value, t.value, required, options.value, help.value,
                          if vertical.Some? then [vertical.value] else [], rule.value))
  }

  predicate Hashable(values: seq<Json>) {
    forall j :: j in values ==> !j.Arr? && !j.Obj?
  }

  /** The listed keys that are properties. */
  function Listed(order: seq<Json>, properties: map<string, Property>): seq<string> {
    if order == [] then []
    else
      var last := order[|order| - 1];
      Listed(order[..|order| - 1], properties) + (if last.Str? && last.s in properties then [last.s] else [])
  }

  function NotIn(keys: seq<string>, listed: seq<string>): seq<string> {
    if keys == [] then []
    else NotIn(keys[..|keys| - 1], listed) + (if keys[|keys| - 1] in listed then [] else [keys[|keys| - 1]])
  }

  function ReadKey(show: Show, d: Definition, required: seq<Json>, key: string): Option<FormField> {
    if key !in d.stored.properties then None
    else
      var ui := if key in d.stored.options then d.stored.options[key] else NO_OPTIONS;
      ReadField(show, key, d.stored.properties[key], ui, Str(key) in required, d.vertical)
  }

  function ReadAll(show: Show, d: Definition, required: seq<Json>, keys: seq<string>): Option<seq<FormField>> {
    if keys == [] then Some([])
    else
      var before := ReadAll(show, d, required, keys[..|keys| - 1]);
      var field := ReadKey(show, d, required, keys[|keys| - 1]);
      if before.None? || field.None? then None else Some(before.value + [field.value])
  }

  /** One stored list's fields, in its order; on any schema, not only ones saved here. */
  function FieldsOf(show: Show, d: Definition): Option<seq<FormField>> {
    var required, order := Elements(d.stored.required), Elements(d.stored.order);
    if required.None? || order.None? || !Hashable(required.value) || !Hashable(order.value) then None
    else
      var listed := Listed(order.value, d.stored.properties);
      ReadAll(show, d, required.value, listed + NotIn(d.propertyOrder, listed))
  }

  // ------------------------------------------------------------------ the stored lists -> one list

  /** A dict of fields by key, with the order in which the keys came. */
  datatype Merged = Merged(keys: seq<string>, byKey: map<string, FormField>, notes: seq<FormField>)

  predicate Alike(a: FormField, b: FormField) {
    a.(verticals := []) == b.(verticals := [])
  }

  function Missing(more: seq<VerticalId>, have: seq<VerticalId>): seq<VerticalId> {
    if more == [] then []
    else Missing(more[..|more| - 1], have) + (if more[|more| - 1] in have then [] else [more[|more| - 1]])
  }

  /** A note names the field that was left out. */
  function MergeOne(m: Merged, field: FormField): Merged {
    if field.key !in m.byKey then m.(keys := m.keys + [field.key], byKey := m.byKey[field.key := field])
    else
      var kept := m.byKey[field.key];
      if kept.verticals != [] && field.verticals != [] && Alike(kept, field) then
        m.(byKey := m.byKey[field.key := kept.(verticals := kept.verticals + Missing(field.verticals, kept.verticals))])
      else if !Alike(kept, field) then m.(notes := m.notes + [field])
      else m
  }

  function MergeAll(fields: seq<FormField>): Merged {
    if fields == [] then Merged([], map[], []) else MergeOne(MergeAll(fields[..|fields| - 1]), fields[|fields| - 1])
  }

  function NameOf(names: map<VerticalId, string>, vertical: Option<VerticalId>): string {
    if vertical.Some? && vertical.value in names then names[vertical.value] else ""
  }

  /** The list for every vertical first, then the newest, then by vertical name, then by id. */
  predicate ComesFirst(names: map<VerticalId, string>, a: Definition, b: Definition) {
    if a.vertical.None? != b.vertical.None? then a.vertical.None?
    else if a.version != b.version then a.version > b.version
    else if NameOf(names, a.vertical) != NameOf(names, b.vertical) then StringLe(NameOf(names, a.vertical), NameOf(names, b.vertical))
    else StringLe(a.id, b.id)
  }

  function Ordered(names: map<VerticalId, string>, definitions: seq<Definition>): seq<Definition> {
    Sort((a, b) => ComesFirst(names, a, b), definitions)
  }

  /** The fields of the lists, one list after the other. */
  function AllFields(show: Show, definitions: seq<Definition>): Option<seq<FormField>> {
    if definitions == [] then Some([])
    else
      var before, last := AllFields(show, definitions[..|definitions| - 1]), FieldsOf(show, definitions[|definitions| - 1]);
      if before.None? || last.None? then None else Some(before.value + last.value)
  }

  function Values(m: Merged): seq<FormField> {
    seq(|m.keys|, i requires 0 <= i < |m.keys| => if m.keys[i] in m.byKey then m.byKey[m.keys[i]]
                                                  else FormField(m.keys[i], "", Text, false, [], None, [], None))
  }

  /** Where the first list's order puts each key: its last mention. */
  function Positions(order: seq<Json>): map<Json, nat> {
    if order == [] then map[] else Positions(order[..|order| - 1])[order[|order| - 1] := |order| - 1]
  }

  function Position(positions: map<Json, nat>, key: string): nat {
    if Str(key) in positions then positions[Str(key)] else |positions|
  }

  function ByPosition(order: seq<Json>): (FormField, FormField) -> bool {
    (a: FormField, b: FormField) => Position(Positions(order), a.key) <= Position(Positions(order), b.key)
  }

  function InFormOrder(fields: seq<FormField>, ordered: seq<Definition>): Option<seq<FormField>> {
    if ordered == [] then Some(fields)
    else
      var order := Elements(ordered[0].stored.order);
      if order.None? || !Hashable(order.value) then None
      else Some(Sort(ByPosition(order.value), fields))
  }

  datatype Form = Form(fields: seq<FormField>, notes: seq<FormField>)

  function Merge(show: Show, names: map<VerticalId, string>, definitions: seq<Definition>): Option<Form> {
    var ordered := Ordered(names, definitions);
    var all := AllFields(show, ordered);
    if all.None? then None
    else
      var merged := MergeAll(all.value);
      var fields := InFormOrder(Values(merged), ordered);
      if fields.None? then None else Some(Form(fields.value, merged.notes))
  }

  /** Merges one list's fields into what the lists before it gave. */
  method MergeList(before: Merged, fields: seq<FormField>, ghost met: seq<FormField>) returns (merged: Merged)
    requires before == MergeAll(met)
    ensures merged == MergeAll(met + fields)
  {
    merged := before;
    assert met + fields[..0] == met;
    for j := 0 to |fields|
      invariant merged == MergeAll(met + fields[..j])
    {
      assert (met + fields[..j + 1])[..|met| + j] == met + fields[..j];
      merged := MergeOne(merged, fields[j]);
    }
    assert fields[..|fields|] == fields;
  }

  method MergeLists(show: Show, names: map<VerticalId, string>, definitions: seq<Definition>) returns (form: Option<Form>)
    ensures form == Merge(show, names, definitions)
  {
    var ordered := Ordered(names, definitions);
    var merged := Merged([], map[], []);
    ghost var met: seq<FormField> := [];
    for i := 0 to |ordered|
      invariant AllFields(show, ordered[..i]) == Some(met) && merged == MergeAll(met)
    {
      assert ordered[..i + 1][..i] == ordered[..i];
      var fields := FieldsOf(show, ordered[i]);
      if fields.None? {
        FailsForGood(show, ordered, i + 1);
        return None;
      }
      merged := MergeList(merged, fields.value, met);
      met := met + fields.value;
    }
    assert ordered[..|ordered|] == ordered;
    var inOrder := InFormOrder(Values(merged), ordered);
    return if inOrder.None? then None else Some(Form(inOrder.value, merged.notes));
  }

  lemma {:induction false} FailsForGood(show: Show, ordered: seq<Definition>, n: nat)
    requires n <= |ordered| && AllFields(show, ordered[..n]).None?
    ensures AllFields(show, ordered).None?
  {
    if n == |ordered| {
      assert ordered[..n] == ordered;
    } else {
      FailsForGood(show, ordered[..|ordered| - 1], n) by {
        assert ordered[..|ordered| - 1][..n] == ordered[..n];
      }
    }
  }
}
