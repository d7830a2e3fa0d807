/**
 * The caching accessor `Options` over a record's `options` attribute, and the
 * `HasOptions` members that hand it out (`options()` and its memoised instance).
 */
module OptionsAccessor {
  import opened Wrappers
  import opened Arr
  import opened Eloquent
  import Cache
  import HasOptions

  /** The cache key of a record's options: its table, its key and `options`, joined by dots. */
  function CacheKey(r: Record): string
  {
    r.table + "." + r.key + ".options"
  }

  /** What `all()` returns when the record is read through `cache`: the cached mapping on a hit, the record's options on a miss. */
  function Visible(r: Record, cache: Cache.Store): Mapping
    reads r, cache
  {
    var k := CacheKey(r);
    if k in cache.entries then cache.entries[k] else r.OptionsValue()
  }

  /** `Collection::get($path, null)` on the defaults: a literal top-level key, not a dot walk. */
  function DefaultAt(defaults: Mapping, path: string): Value
  {
    if path in defaults then defaults[path] else Null
  }

  class Options {
    const model: Record
    const cache: Cache.Store
    /** The cache key, fixed when the accessor is made from the record's table and key. */
    const cacheKey: string := CacheKey(model)

    /** `new Options($model)`. */
    constructor (model: Record, cache: Cache.Store)
      ensures this.model == model && this.cache == cache
      ensures cacheKey == model.table + "." + model.key + ".options"
    {
      this.model := model;
      this.cache := cache;
    }

    /** What `all()` would return now. */
    function Current(): Mapping
      reads model, cache
    {
      Visible(model, cache)
    }

    /**
     * The state `apply(m)` leaves: the record's options set to `m` and the record
     * saved once (its hooks included), and this record's cache entry evicted.
     */
    twostate predicate Applied(m: Mapping)
      reads model, cache
    {
      && model.attributes == AfterSave(model.config, old(model.attributes).(options := HasOptions.OptionsColumn(m)), old(model.stored))
      && model.stored
      && model.persisted == Some(model.attributes)
      && model.saves == old(model.saves) + 1
      && cache.entries == old(cache.entries) - {cacheKey}
    }

    /** `getModel()`. */
    function GetModel(): (r: Record)
      ensures r == model
    {
      model
    }

    /** `all()`: read through the cache; a miss stores the record's options under the key. */
    method All() returns (m: Mapping)
      modifies cache
      ensures m == old(Current())
      ensures cacheKey in old(cache.entries) ==> m == old(cache.entries[cacheKey])
      ensures cacheKey !in old(cache.entries) ==> m == model.OptionsValue()
      ensures cache.entries == old(cache.entries)[cacheKey := m]
      ensures Current() == m
    {
      if cacheKey in cache.entries {
        m := cache.entries[cacheKey];
      } else {
        m := model.OptionsValue();
        cache.Remember(cacheKey, m);
      }
    }

    /** `apply($options)`: assign, save, evict; returns the accessor itself. */
    method Apply(m: Mapping) returns (self: Options)
      modifies model, cache
      ensures self == this
      ensures Applied(m)
      ensures Current() == model.OptionsValue()
    {
      model.SetOptions(m);
      model.Save();
      cache.Forget(cacheKey);
      self := this;
    }

    /** `delete($path)`: no path (null, `""` or `"0"`) applies the empty mapping; otherwise the path is forgotten. */
    method Delete(path: Option<string>) returns (self: Options)
      modifies model, cache
      ensures self == this
      ensures Applied(if PathGiven(path) then Arr.Forget(old(Current()), path.value) else map[])
    {
      if !PathGiven(path) {
        self := Apply(map[]);
        return;
      }
      var options := All();
      options := Arr.Forget(options, path.value);
      self := Apply(options);
    }

    /** `forget($path)`, an alias of `delete`. */
    method Forget(path: Option<string>) returns (self: Options)
      modifies model, cache
      ensures self == this
      ensures Applied(if PathGiven(path) then Arr.Forget(old(Current()), path.value) else map[])
    {
      self := Delete(path);
    }

    /** `get($path, $default)`: the whole mapping without a path, else the value at the path or `default`. */
    method Get(path: Option<string>, default: Value) returns (r: Value)
      modifies cache
      ensures r == if PathGiven(path) then Arr.Get(old(Current()), path.value, default) else Obj(old(Current()))
      ensures cache.entries == old(cache.entries)[cacheKey := old(Current())]
    {
      var options := All();
      r := if PathGiven(path) then Arr.Get(options, path.value, default) else Obj(options);
    }

    /** `has($path)`: the path resolves in the current mapping. */
    method Has(path: string) returns (r: bool)
      modifies cache
      ensures r == Arr.Has(old(Current()), path)
      ensures cache.entries == old(cache.entries)[cacheKey := old(Current())]
    {
      var options := All();
      r := Arr.Has(options, path);
    }

    /** `set($path, $value)` with a path: the value is stored at the path and the result applied. */
    method Set(path: string, value: Value) returns (self: Options)
      modifies model, cache
      ensures self == this
      ensures Applied(Arr.Set(old(Current()), path, value))
    {
      var options := All();
      options := Arr.Set(options, path, value);
      self := Apply(options);
    }

    /** `set(null, $options)`: the whole mapping is replaced. */
    method Replace(options: Mapping) returns (self: Options)
      modifies model, cache
      ensures self == this
      ensures Applied(options)
    {
      var current := All();
      self := Apply(options);
    }

    /** `update($path, $value)`, an alias of the two-argument `set`. */
    method Update(path: string, value: Value) returns (self: Options)
      modifies model, cache
      ensures self == this
      ensures Applied(Arr.Set(old(Current()), path, value))
    {
      self := Set(path, value);
    }

    /** `reset($path)`: no path applies the defaults; a path is set to the defaults' literal top-level entry or null. */
    method Reset(path: Option<string>) returns (self: Options)
      modifies model, cache
      ensures self == this
      ensures var defaults := HasOptions.DefaultOptions(model.config.defaultOptions);
        Applied(if PathGiven(path) then Arr.Set(old(Current()), path.value, DefaultAt(defaults, path.value)) else defaults)
    {
      var defaults := HasOptions.DefaultOptions(model.config.defaultOptions);
      if PathGiven(path) {
        self := Set(path.value, DefaultAt(defaults, path.value));
        return;
      }
      self := Apply(defaults);
    }
  }

  /** The static `$optionsInstance` slot of the model class; the cache facade is the one every accessor uses. */
  class OptionsSlot {
    var instance: Options?
    const cache: Cache.Store

    constructor (cache: Cache.Store)
      ensures instance == null && this.cache == cache
    {
      instance := null;
      this.cache := cache;
    }

    predicate Valid()
      reads this
    {
      instance != null ==> instance.cache == cache
    }
  }

  /** `getOptionsInstance()`: reuse the slot's accessor while it is bound to `record`, else bind a new one to it. */
  method GetOptionsInstance(record: Record, slot: OptionsSlot) returns (o: Options)
    requires slot.Valid()
    modifies slot
    ensures slot.Valid() && slot.instance == o
    ensures o.model == record && o.cache == slot.cache
    ensures old(slot.instance) != null && old(slot.instance).model == record ==> o == old(slot.instance)
    ensures old(slot.instance) == null || old(slot.instance).model != record ==> fresh(o)
  {
    if slot.instance == null || slot.instance.GetModel() != record {
      slot.instance := new Options(record, slot.cache);
    }
    o := slot.instance;
  }

  /** The two results `options($key, $default)` may give. */
  datatype OptionsResult = Accessor(instance: Options) | Found(value: Value)

  /** `options($key, $default)`: with a key, the value read through the accessor; without, the accessor. */
  method OptionsOf(record: Record, slot: OptionsSlot, key: Option<string>, default: Value) returns (r: OptionsResult)
    requires slot.Valid()
    modifies slot, slot.cache
    ensures slot.Valid() && slot.instance != null && slot.instance.model == record
    ensures old(slot.instance) != null && old(slot.instance).model == record ==> slot.instance == old(slot.instance)
    ensures PathGiven(key) ==> r == Found(Get(old(Visible(record, slot.cache)), key.value, default))
    ensures PathGiven(key) ==> slot.cache.entries == old(slot.cache.entries)[CacheKey(record) := old(Visible(record, slot.cache))]
    ensures !PathGiven(key) ==> r == Accessor(slot.instance) && slot.cache.entries == old(slot.cache.entries)
  {
    var o := GetOptionsInstance(record, slot);
    if PathGiven(key) {
      var v := o.Get(key, default);
      r := Found(v);
    } else {
      r := Accessor(o);
    }
  }

  // What a caller observes through one accessor, from the contracts above alone.

  /** Read after write: `set(p, v)` then `get(p)` gives `v` whenever the allow-list keeps the first segment of `p`. */
  method SetThenGet(o: Options, path: string, value: Value, default: Value) returns (r: Value)
    requires PathGiven(Some(path))
    requires o.model.config.allowedOptions.None? || Explode(path)[0] in o.model.config.allowedOptions.value
    modifies o.model, o.cache
    ensures r == value
  {
    ghost var a, existed, before := o.model.attributes, o.model.stored, o.Current();
    ghost var m := Arr.Set(before, path, value);
    var _ := o.Set(path, value);
    GetAfterSet(before, path, value, default);
    RestrictKeepsKey(m, o.model.config.allowedOptions, path, default);
    ghost var kept := Restrict(m, o.model.config.allowedOptions);
    assert Has(kept, path);
    assert Explode(path)[0] in kept;
    SavedOptions(o.model.config, a, m, existed);
    r := o.Get(Some(path), default);
  }

  /** Delete then absent: `delete(p)` then `has(p)` is false, for every string `p` (a falsy one empties everything). */
  method DeleteThenHas(o: Options, path: string) returns (r: bool)
    modifies o.model, o.cache
    ensures !r
  {
    ghost var a, existed := o.model.attributes, o.model.stored;
    ghost var m := if PathGiven(Some(path)) then Arr.Forget(o.Current(), path) else map[];
    var _ := o.Delete(Some(path));
    SavedOptions(o.model.config, a, m, existed);
    HasAfterForget(old(o.Current()), path);
    RestrictKeepsKey(m, o.model.config.allowedOptions, path, Null);
    r := o.Has(path);
  }

  /** Deleting a path that is not there re-applies the same mapping: with no allow-list, `all()` is unchanged. */
  method DeleteMissing(o: Options, path: string) returns (m: Mapping)
    requires PathGiven(Some(path)) && o.model.config.allowedOptions.None? && !Has(o.Current(), path)
    modifies o.model, o.cache
    ensures m == old(o.Current())
  {
    ghost var a, existed, before := o.model.attributes, o.model.stored, o.Current();
    var _ := o.Delete(Some(path));
    ForgetMissing(before, path);
    assert Arr.Forget(before, path) == before;
    SavedOptions(o.model.config, a, before, existed);
    assert o.model.OptionsValue() == before;
    m := o.All();
  }

  /** Writing one path leaves every diverging path reading as before, whenever the allow-list keeps its first segment. */
  method SetKeepsSiblings(o: Options, path: string, value: Value, other: string, default: Value) returns (r: Value)
    requires o.model.config.allowedOptions.None? || Explode(other)[0] in o.model.config.allowedOptions.value
    requires PathGiven(Some(other)) && Diverge(Explode(path), Explode(other))
    modifies o.model, o.cache
    ensures r == Get(old(o.Current()), other, default)
  {
    ghost var a, existed, m := o.model.attributes, o.model.stored, Arr.Set(o.Current(), path, value);
    var _ := o.Set(path, value);
    SavedOptions(o.model.config, a, m, existed);
    RestrictKeepsKey(m, o.model.config.allowedOptions, other, default);
    OtherKeysUnchanged(old(o.Current()), path, other, value, default);
    r := o.Get(Some(other), default);
  }

  /** Resetting one path leaves every diverging path reading as before, whenever the allow-list keeps its first segment. */
  method ResetKeepsSiblings(o: Options, path: string, other: string, default: Value) returns (r: Value)
    requires o.model.config.allowedOptions.None? || Explode(other)[0] in o.model.config.allowedOptions.value
    requires PathGiven(Some(path)) && PathGiven(Some(other)) && Diverge(Explode(path), Explode(other))
    modifies o.model, o.cache
    ensures r == Get(old(o.Current()), other, default)
  {
    ghost var value := DefaultAt(HasOptions.DefaultOptions(o.model.config.defaultOptions), path);
    ghost var a, existed, m := o.model.attributes, o.model.stored, Arr.Set(o.Current(), path, value);
    var _ := o.Reset(Some(path));
    SavedOptions(o.model.config, a, m, existed);
    RestrictKeepsKey(m, o.model.config.allowedOptions, other, default);
    OtherKeysUnchanged(old(o.Current()), path, other, value, default);
    r := o.Get(Some(other), default);
  }

  /** `delete()` with no path (null, `""` or `"0"`) empties the options, whatever they held. */
  method DeleteAll(o: Options, path: Option<string>) returns (m: Mapping)
    requires !PathGiven(path)
    modifies o.model, o.cache
    ensures m == map[]
  {
    ghost var a, existed := o.model.attributes, o.model.stored;
    var _ := o.Delete(path);
    SavedOptions(o.model.config, a, map[], existed);
    m := o.All();
  }

  /** `reset()` with no path: the options become the defaults (cut to the allow-list, if any). */
  method ResetAll(o: Options) returns (m: Mapping)
    modifies o.model, o.cache
    ensures m == Restrict(HasOptions.DefaultOptions(o.model.config.defaultOptions), o.model.config.allowedOptions)
  {
    ghost var a, existed := o.model.attributes, o.model.stored;
    var _ := o.Reset(None);
    SavedOptions(o.model.config, a, HasOptions.DefaultOptions(o.model.config.defaultOptions), existed);
    m := o.All();
  }

  /** After `apply(m)`, two calls of `all()` both return the saved mapping, and the second is served from the cache. */
  method ApplyThenAllTwice(o: Options, m: Mapping) returns (first: Mapping, second: Mapping)
    modifies o.model, o.cache
    ensures first == second == Restrict(m, o.model.config.allowedOptions)
    ensures o.cacheKey in o.cache.entries && o.cache.entries[o.cacheKey] == first
  {
    ghost var a, existed := o.model.attributes, o.model.stored;
    var _ := o.Apply(m);
    SavedOptions(o.model.config, a, m, existed);
    first := o.All();
    assert o.cacheKey in o.cache.entries;
    second := o.All();
  }

  /** `reset(p)` looks `p` up as a literal top-level key of the defaults, so a dotted path finds nothing there. */
  lemma ResetLooksUpLiteralKey()
    ensures var defaults := map["ui" := Obj(map["theme" := Str("dark")])];
      DefaultAt(defaults, "ui.theme") == Null && Get(defaults, "ui.theme", Null) == Str("dark")
  {
    var defaults := map["ui" := Obj(map["theme" := Str("dark")])];
    ExplodeImplode(["ui", "theme"]);
    assert Implode(["ui", "theme"]) == "ui.theme";
    assert "ui.theme" !in defaults;
  }

  /**
   * The path `"0"` is falsy in PHP, like null and `""`, so every member that tests its
   * path takes the no-path branch for it (see `DeleteAll`, which accepts all three).
   */
  lemma ZeroPathIsNoPath()
    ensures !PathGiven(Some("0")) && !PathGiven(Some("")) && !PathGiven(None)
    ensures PathGiven(Some("a"))
  {
  }
}
