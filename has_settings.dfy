/**
 * The value-level parts of the `HasSettings` trait: default lookup, attribute
 * decode and encode, and what the creating and saving hooks assign.
 */
module HasSettings {
  import opened Wrappers
  import opened Arr
  import opened Json

  /** `getDefaultSettings()`: the declared `defaultSettings` when it is set and an array, else the empty array. */
  function DefaultSettings(declared: Option<Value>): Mapping
  {
    if declared.Some? && declared.value.Obj? then declared.value.fields else map[]
  }

  /** `getSettingsAttribute($text)`: `json_decode($text, true)`, an array or null. */
  function SettingsAttribute(c: Column): Option<Mapping>
  {
    match Decode(c)
    case Obj(m) => Some(m)
    case _ => None
  }

  /** `setSettingsAttribute(array $settings)`. */
  function SettingsColumn(m: Mapping): Column
  {
    Encode(Obj(m))
  }

  /** PHP truthiness of `?array`: null and the empty array are false. */
  predicate Truthy(s: Option<Mapping>)
  {
    s.Some? && s.value != map[]
  }

  /** The creating hook: falsy settings are replaced by the defaults. */
  function Creating(c: Column, declared: Option<Value>): Column
  {
    if !Truthy(SettingsAttribute(c)) then SettingsColumn(DefaultSettings(declared)) else c
  }

  /** The saving hook: non-empty settings keep only the keys of a declared `allowedSettings` array. */
  function Saving(c: Column, allowed: Option<seq<string>>): Column
  {
    var s := SettingsAttribute(c);
    if Truthy(s) && allowed.Some? then SettingsColumn(Only(s.value, allowed.value)) else c
  }

  /** Decoding the attribute that was set gives the array back. */
  lemma SettingsRoundTrip(m: Mapping)
    ensures SettingsAttribute(SettingsColumn(m)) == Some(m)
  {
  }

  /** An absent or malformed column reads as null, not as an empty array (unlike the options). */
  lemma UnreadableSettingsAreNull()
    ensures SettingsAttribute(Missing) == None
    ensures SettingsAttribute(Malformed) == None
  {
  }

  /** The defaults are exactly the declared array; anything else (unset, null, a scalar) gives empty. */
  lemma DefaultSettingsDeclared(declared: Option<Value>)
    ensures forall m :: declared == Some(Obj(m)) ==> DefaultSettings(declared) == m
    ensures (declared.None? || !declared.value.Obj?) ==> DefaultSettings(declared) == map[]
  {
  }

  /** Falsy settings read as the defaults after the creating hook; truthy ones are untouched. */
  lemma CreatingFillsFalsy(c: Column, declared: Option<Value>)
    ensures !Truthy(SettingsAttribute(c)) ==> SettingsAttribute(Creating(c, declared)) == Some(DefaultSettings(declared))
    ensures Truthy(SettingsAttribute(c)) ==> Creating(c, declared) == c
  {
  }

  /** The saving hook restricts non-empty settings to the allowed keys, with their values, and otherwise changes nothing. */
  lemma SavingKeepsAllowed(c: Column, allowed: Option<seq<string>>)
    ensures !(Truthy(SettingsAttribute(c)) && allowed.Some?) ==> Saving(c, allowed) == c
    ensures Truthy(SettingsAttribute(c)) && allowed.Some? ==>
      var before, after := SettingsAttribute(c).value, SettingsAttribute(Saving(c, allowed));
      && after.Some?
      && (forall k :: k in after.value <==> k in before && k in allowed.value)
      && (forall k :: k in after.value ==> after.value[k] == before[k])
  {
  }

  /** With `allowedSettings = ["a", "b"]`, the settings `{a: 1, b: 2, c: 3}` are saved as `{a: 1, b: 2}`. */
  lemma SavingScenario()
    ensures SettingsAttribute(Saving(SettingsColumn(map["a" := Num(1), "b" := Num(2), "c" := Num(3)]), Some(["a", "b"])))
         == Some(map["a" := Num(1), "b" := Num(2)])
  {
    var m := map["a" := Num(1), "b" := Num(2), "c" := Num(3)];
    assert "a" in m;
    assert Truthy(SettingsAttribute(SettingsColumn(m)));
    assert Only(m, ["a", "b"]) == map["a" := Num(1), "b" := Num(2)];
  }
}
