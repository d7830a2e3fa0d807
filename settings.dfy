/**
 * The non-caching accessor `Settings` over a record's `settings` attribute, and the
 * `HasSettings` members that hand it out (`settings()` and its memoised instance).
 */
module SettingsAccessor {
  import opened Wrappers
  import opened Arr
  import opened Eloquent
  import HasSettings

  /** The `?array` that `all()` returns, seen by the `array_*` helpers: null walks like the empty array. */
  function AsArray(s: Option<Mapping>): Mapping
  {
    s.GetOr(map[])
  }

  /** The `?array` that `all()` returns, as a value: null or the array. */
  function AsValue(s: Option<Mapping>): Value
  {
    match s
    case None => Null
    case Some(m) => Obj(m)
  }

  class Settings {
    const model: Record

    /** `new Settings($model)`. */
    constructor (model: Record)
      ensures this.model == model
    {
      this.model := model;
    }

    /** The state `apply(m)` leaves: the record's settings set to `m` and the record saved once, its hooks included. */
    twostate predicate Applied(m: Mapping)
      reads model
    {
      && model.attributes == AfterSave(model.config, old(model.attributes).(settings := HasSettings.SettingsColumn(m)), old(model.stored))
      && model.stored
      && model.persisted == Some(model.attributes)
      && model.saves == old(model.saves) + 1
    }

    /** `all()`: the record's settings, an array or null, with no cache. */
    method All() returns (s: Option<Mapping>)
      ensures s == model.SettingsValue()
    {
      s := model.SettingsValue();
    }

    /** `apply($settings)`: assign the array, save; returns the accessor itself. */
    method Apply(m: Mapping) returns (self: Settings)
      modifies model
      ensures self == this
      ensures Applied(m)
    {
      model.SetSettings(m);
      model.Save();
      self := this;
    }

    /** `delete($path)`: no path (null, `""` or `"0"`) goes through `set([])`; otherwise the path is forgotten. */
    method Delete(path: Option<string>) returns (self: Settings)
      modifies model
      ensures self == this
      ensures Applied(if PathGiven(path) then Arr.Forget(AsArray(old(model.SettingsValue())), path.value) else map[])
    {
      if !PathGiven(path) {
        self := Replace(map[]);
        return;
      }
      var settings := All();
      var remaining := Arr.Forget(AsArray(settings), path.value);
      self := Apply(remaining);
    }

    /** `forget($path)`, an alias of `delete`. */
    method Forget(path: Option<string>) returns (self: Settings)
      modifies model
      ensures self == this
      ensures Applied(if PathGiven(path) then Arr.Forget(AsArray(old(model.SettingsValue())), path.value) else map[])
    {
      self := Delete(path);
    }

    /** `get($path, $default)`: the whole settings (possibly null) without a path, else the value at the path or `default`. */
    method Get(path: Option<string>, default: Value) returns (r: Value)
      ensures PathGiven(path) ==> r == Arr.Get(AsArray(model.SettingsValue()), path.value, default)
      ensures !PathGiven(path) ==> r == AsValue(model.SettingsValue())
    {
      var settings := All();
      r := if PathGiven(path) then Arr.Get(AsArray(settings), path.value, default) else AsValue(settings);
    }

    /** `has($path)`: the path resolves in the settings. */
    method Has(path: string) returns (r: bool)
      ensures r == Arr.Has(AsArray(model.SettingsValue()), path)
    {
      var settings := All();
      r := Arr.Has(AsArray(settings), path);
    }

    /** `set($path, $value)` with a path: the value is stored at the path and the result applied. */
    method Set(path: string, value: Value) returns (self: Settings)
      modifies model
      ensures self == this
      ensures Applied(Arr.Set(AsArray(old(model.SettingsValue())), path, value))
    {
      var settings := All();
      var updated := Arr.Set(AsArray(settings), path, value);
      self := Apply(updated);
    }

    /** `set($settings)`, the one-argument form: the whole array is replaced. */
    method Replace(settings: Mapping) returns (self: Settings)
      modifies model
      ensures self == this
      ensures Applied(settings)
    {
      self := Apply(settings);
    }

    /** `update($path, $value)`, an alias of the two-argument `set`. */
    method Update(path: string, value: Value) returns (self: Settings)
      modifies model
      ensures self == this
      ensures Applied(Arr.Set(AsArray(old(model.SettingsValue())), path, value))
    {
      self := Set(path, value);
    }
  }

  /** The static `$instance` slot of the model class. */
  class SettingsSlot {
    var instance: Settings?

    constructor ()
      ensures instance == null
    {
      instance := null;
    }
  }

  /** `getSettingsInstance()` as written: an accessor is made only when the slot is empty, and never rebound. */
  method GetSettingsInstanceAsWritten(record: Record, slot: SettingsSlot) returns (s: Settings)
    modifies slot
    ensures slot.instance == s
    ensures old(slot.instance) != null ==> s == old(slot.instance)
    ensures old(slot.instance) == null ==> fresh(s) && s.model == record
  {
    if slot.instance == null {
      slot.instance := new Settings(record);
    }
    s := slot.instance;
  }

  /** Once one record has asked, a second record is handed the first record's accessor. */
  method SecondRecordGetsFirstAccessor(first: Record, second: Record, slot: SettingsSlot) returns (s1: Settings, s2: Settings)
    requires first != second && slot.instance == null
    modifies slot
    ensures s1 == s2 && s2.model == first && s2.model != second
  {
    s1 := GetSettingsInstanceAsWritten(first, slot);
    s2 := GetSettingsInstanceAsWritten(second, slot);
  }

  /** `getSettingsInstance()` as intended: reuse the accessor while it is bound to `record`, else bind a new one. */
  method GetSettingsInstance(record: Record, slot: SettingsSlot) returns (s: Settings)
    modifies slot
    ensures slot.instance == s && s.model == record
    ensures old(slot.instance) != null && old(slot.instance).model == record ==> s == old(slot.instance)
    ensures old(slot.instance) == null || old(slot.instance).model != record ==> fresh(s)
  {
    if slot.instance == null || slot.instance.model != record {
      slot.instance := new Settings(record);
    }
    s := slot.instance;
  }

  /** Each record gets an accessor bound to itself, and asking twice gives the same one. */
  method EachRecordGetsOwnAccessor(first: Record, second: Record, slot: SettingsSlot) returns (s1: Settings, s2: Settings, again: Settings)
    modifies slot
    ensures s1.model == first && s2.model == second && again == s2
  {
    s1 := GetSettingsInstance(first, slot);
    s2 := GetSettingsInstance(second, slot);
    again := GetSettingsInstance(second, slot);
  }

  /** The two results `settings($key, $default)` may give. */
  datatype SettingsResult = Accessor(instance: Settings) | Found(value: Value)

  /**
   * `settings($key, $default)`: with a key, the value read through the slot's accessor;
   * without, the accessor. The accessor is the first one made, whichever record asks.
   */
  method SettingsOf(record: Record, slot: SettingsSlot, key: Option<string>, default: Value) returns (r: SettingsResult)
    modifies slot
    ensures slot.instance != null
    ensures old(slot.instance) != null ==> slot.instance == old(slot.instance)
    ensures old(slot.instance) == null ==> fresh(slot.instance) && slot.instance.model == record
    ensures PathGiven(key) ==> r == Found(Get(AsArray(slot.instance.model.SettingsValue()), key.value, default))
    ensures !PathGiven(key) ==> r == Accessor(slot.instance)
  {
    var s := GetSettingsInstanceAsWritten(record, slot);
    if PathGiven(key) {
      var v := s.Get(key, default);
      r := Found(v);
    } else {
      r := Accessor(s);
    }
  }

  /** Once a first record has asked, `settings(k)` on a second record reads the first record's settings. */
  method SecondRecordReadsFirstSettings(first: Record, second: Record, slot: SettingsSlot, key: string, default: Value)
    returns (r1: SettingsResult, r2: SettingsResult)
    requires slot.instance == null && PathGiven(Some(key))
    modifies slot
    ensures r1 == r2 == Found(Get(AsArray(first.SettingsValue()), key, default))
  {
    r1 := SettingsOf(first, slot, Some(key), default);
    r2 := SettingsOf(second, slot, Some(key), default);
  }

  // What a caller observes through one accessor, from the contracts above alone.

  /** Read after write: `set(p, v)` then `get(p)` gives `v` whenever the allow-list keeps the first segment of `p`. */
  method SetThenGet(s: Settings, path: string, value: Value, default: Value) returns (r: Value)
    requires PathGiven(Some(path))
    requires s.model.config.allowedSettings.None? || Explode(path)[0] in s.model.config.allowedSettings.value
    modifies s.model
    ensures r == value
  {
    ghost var a, existed, before := s.model.attributes, s.model.stored, AsArray(s.model.SettingsValue());
    ghost var m := Arr.Set(before, path, value);
    var _ := s.Set(path, value);
    GetAfterSet(before, path, value, default);
    RestrictKeepsKey(m, s.model.config.allowedSettings, path, default);
    ghost var kept := Restrict(m, s.model.config.allowedSettings);
    assert Has(kept, path);
    assert Explode(path)[0] in kept;
    SavedSettings(s.model.config, a, m, existed);
    r := s.Get(Some(path), default);
  }

  /** Delete then absent: on a stored record, `delete(p)` then `has(p)` is false. */
  method DeleteThenHas(s: Settings, path: string) returns (r: bool)
    requires PathGiven(Some(path)) && s.model.stored
    modifies s.model
    ensures !r
  {
    ghost var a, before := s.model.attributes, AsArray(s.model.SettingsValue());
    ghost var m := Arr.Forget(before, path);
    var _ := s.Delete(Some(path));
    SavedSettings(s.model.config, a, m, true);
    HasAfterForget(before, path);
    RestrictKeepsKey(m, s.model.config.allowedSettings, path, Null);
    r := s.Has(path);
  }

  /**
   * `delete()` with no path (null, `""` or `"0"`) leaves a stored record's settings the
   * empty array, whatever they held; a record being inserted gets the defaults instead.
   */
  method DeleteAll(s: Settings, path: Option<string>) returns (r: Option<Mapping>)
    requires !PathGiven(path)
    modifies s.model
    ensures old(s.model.stored) ==> r == Some(map[])
    ensures !old(s.model.stored) ==> r == Some(HasSettings.DefaultSettings(s.model.config.defaultSettings))
  {
    ghost var a, existed := s.model.attributes, s.model.stored;
    var _ := s.Delete(path);
    SavedSettings(s.model.config, a, map[], existed);
    r := s.All();
  }

  /** `set("ui.theme", "light")` on empty settings, then `get("ui.theme")`, on a record without an allow-list. */
  method NestedSetScenario(s: Settings) returns (all: Option<Mapping>, theme: Value)
    requires s.model.config.allowedSettings.None? && AsArray(s.model.SettingsValue()) == map[]
    modifies s.model
    ensures all == Some(map["ui" := Obj(map["theme" := Str("light")])])
    ensures theme == Str("light")
  {
    ghost var a, existed := s.model.attributes, s.model.stored;
    var _ := s.Set("ui.theme", Str("light"));
    SetNestedOnEmpty();
    assert "ui" in Arr.Set(map[], "ui.theme", Str("light"));
    SavedSettings(s.model.config, a, Arr.Set(map[], "ui.theme", Str("light")), existed);
    all := s.All();
    theme := s.Get(Some("ui.theme"), Null);
  }
}
