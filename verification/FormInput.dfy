/** What the API accepts as a form (schemas/vertical.py): the validators that run before anything is stored. */
module FormInput {
  import opened Common
  import opened FormFields

  predicate TakesOptions(t: FieldType) {
    t.Choice? || t.MultiChoice?
  }

  /** ^[a-z][a-z0-9_]*$, up to 64 characters. */
  predicate KeyPattern(key: string) {
    1 <= |key| <= 64 && 'a' <= key[0] <= 'z'
    && forall i :: 0 <= i < |key| ==> 'a' <= key[i] <= 'z' || '0' <= key[i] <= '9' || key[i] == '_'
  }

  /** None when the rule is refused. */
  function CheckRule(rule: Option<ShowWhen>): Option<Option<ShowWhen>> {
    match rule
    case None => Some(None)
    case Some(r) =>
      if 1 <= |r.input| <= 64 && Clean(r.values) != [] then Some(Some(ShowWhen(r.input, Clean(r.values)))) else None
  }

  function CleanHelp(help: Option<string>): Option<string> {
    if help.None? || Strip(help.value) == "" then None else Some(Strip(help.value))
  }

  /** What the service then works with. */
  predicate ValidField(f: FormField) {
    && f.key != "" && f.labelText != "" && f.help != Some("")
    && (if TakesOptions(f.fieldType) then |f.options| >= 2 else f.options == [])
    && Distinct(f.verticals)
    && (f.verticals != [] ==> f.showWhen.None?)
    && (f.showWhen.Some? ==>
          && 1 <= |f.showWhen.value.input| <= 64 && f.showWhen.value.values != []
          && Clean(f.showWhen.value.values) == f.showWhen.value.values)
  }

  /** One field as it is accepted, with its options and verticals cleaned; None when it is refused. */
  method CheckField(raw: FormField) returns (accepted: Option<FormField>)
    ensures accepted.Some? ==> ValidField(accepted.value) && KeyPattern(accepted.value.key) && accepted.value.key == raw.key
    ensures accepted.Some? ==> forall v :: v in accepted.value.verticals <==> v in raw.verticals
    ensures accepted.Some? ==>
              && accepted.value.fieldType == raw.fieldType && accepted.value.required == raw.required
              && accepted.value.labelText == Strip(raw.labelText) && accepted.value.options == Clean(raw.options)
              && accepted.value.help == (if Strip(raw.help.GetOr("")) == "" then None else Some(Strip(raw.help.GetOr(""))))
              && (accepted.value.showWhen.Some? <==> raw.showWhen.Some?)
              && (raw.showWhen.Some? ==>
                    accepted.value.showWhen == Some(ShowWhen(raw.showWhen.value.input, Clean(raw.showWhen.value.values))))
    ensures accepted.Some? <==>
              && KeyPattern(raw.key) && |raw.labelText| <= 120 && Strip(raw.labelText) != "" && |raw.help.GetOr("")| <= 500
              && (if raw.fieldType.Choice? || raw.fieldType.MultiChoice? then |Clean(raw.options)| >= 2 else Clean(raw.options) == [])
              && (raw.showWhen.Some? ==>
                    && 1 <= |raw.showWhen.value.input| <= 64 && Clean(raw.showWhen.value.values) != []
                    && raw.verticals == [] && raw.showWhen.value.input != raw.key)
    ensures ValidField(raw) && KeyPattern(raw.key) && raw.options == Clean(raw.options) && |raw.labelText| <= 120
            && Strip(raw.labelText) == raw.labelText && |raw.help.GetOr("")| <= 500 && Strip(raw.help.GetOr("")) == raw.help.GetOr("")
            && (raw.showWhen.Some? ==> raw.showWhen.value.input != raw.key)
            ==> accepted == Some(raw)
  {
    var rule := CheckRule(raw.showWhen);
    if !KeyPattern(raw.key) || !(1 <= |raw.labelText| <= 120) || |raw.help.GetOr("")| > 500 || rule.None? {
      return None;
    }
    if Strip(raw.labelText) == "" {
      return None;
    }
    var field := raw.(labelText := Strip(raw.labelText), help := CleanHelp(raw.help), showWhen := rule.value);
    field := field.(options := Clean(raw.options));
    if TakesOptions(field.fieldType) && |field.options| < 2 {
      return None;
    }
    if !TakesOptions(field.fieldType) && field.options != [] {
      return None;
    }
    field := field.(verticals := Dedupe(raw.verticals));
    VerticalsOnce(raw.verticals);
    if field.verticals != [] && field.showWhen.Some? {
      return None;
    }
    if field.showWhen.Some? && field.showWhen.value.input == field.key {
      return None;
    }
    if raw.showWhen.Some? {
      CleanTwice(raw.showWhen.value.values);
    }
    return Some(field);
  }

  lemma VerticalsOnce(ids: seq<VerticalId>)
    ensures Distinct(Dedupe(ids)) && (forall v :: v in Dedupe(ids) <==> v in ids)
    ensures Dedupe(ids) == [] <==> ids == []
    ensures Distinct(ids) ==> Dedupe(ids) == ids
  {
    DedupeKeepsEachOnce(ids);
    assert ids != [] ==> ids[0] in ids;
    assert Dedupe(ids) != [] ==> Dedupe(ids)[0] in Dedupe(ids);
    if Distinct(ids) {
      DedupeKeepsDistinct(ids);
    }
  }

  lemma {:induction false} CleanTwice(values: seq<string>)
    ensures Clean(Clean(values)) == Clean(values)
  {
    CleanIsClean(values);
    CleanKeepsClean(Clean(values));
  }

  // ------------------------------------------------------------------ cleaning twice is cleaning once

  predicate Stripped(s: string) {
    s != "" && !IsSpace(s[0]) && !IsSpace(s[|s| - 1])
  }

  predicate IsClean(values: seq<string>) {
    Distinct(values) && forall i :: 0 <= i < |values| ==> Stripped(values[i])
  }

  lemma {:induction false} StripLeftStarts(s: string)
    ensures StripLeft(s) == "" || !IsSpace(StripLeft(s)[0])
  {
    if s != "" && IsSpace(s[0]) {
      StripLeftStarts(s[1..]);
    }
  }

  lemma {:induction false} StripRightEnds(s: string)
    ensures StripRight(s) == "" || !IsSpace(StripRight(s)[|StripRight(s)| - 1])
    ensures StripRight(s) <= s
  {
    if s != "" && IsSpace(s[|s| - 1]) {
      StripRightEnds(s[..|s| - 1]);
    }
  }

  lemma {:induction false} StripStrips(s: string)
    ensures Strip(s) == "" || Stripped(Strip(s))
    ensures Stripped(s) ==> Strip(s) == s
  {
    StripLeftStarts(s);
    StripRightEnds(StripLeft(s));
  }

  lemma {:induction false} CleanIsClean(values: seq<string>)
    ensures IsClean(Clean(values))
  {
    if values != [] {
      var before := Clean(values[..|values| - 1]);
      CleanIsClean(values[..|values| - 1]);
      StripStrips(values[|values| - 1]);
    }
  }

  lemma {:induction false} CleanKeepsClean(values: seq<string>)
    requires IsClean(values)
    ensures Clean(values) == values
  {
    if values != [] {
      var init, last := values[..|values| - 1], values[|values| - 1];
      CleanKeepsClean(init);
      StripStrips(last);
      assert last !in init;
    }
  }
}
