/**
 * The record the accessors are bound to: a model class using both traits, with its
 * two JSON columns, whether it is stored yet, the last stored snapshot and a count
 * of saves. `Save` fires the traits' hooks in the order the ORM fires its events.
 */
module Eloquent {
  import opened Wrappers
  import opened Arr
  import opened Json
  import HasOptions
  import HasSettings

  /**
   * The properties the model class declares. `None` is an undeclared (or unset)
   * property; an allow-list that is declared but is not an array is also `None`.
   */
  datatype Config = Config(
    defaultOptions: Option<Value>,
    allowedOptions: Option<seq<string>>,
    defaultSettings: Option<Value>,
    allowedSettings: Option<seq<string>>)

  /** The record's two raw attributes. */
  datatype Attributes = Attributes(options: Column, settings: Column)

  /** What the `saving` hooks of both traits leave in the attributes. */
  function SavingHooks(cfg: Config, a: Attributes): Attributes
  {
    Attributes(HasOptions.Saving(a.options, cfg.allowedOptions), HasSettings.Saving(a.settings, cfg.allowedSettings))
  }

  /** What the `creating` hooks of both traits leave in the attributes, the options hook as written. */
  function CreatingHooks(cfg: Config, a: Attributes): Attributes
  {
    Attributes(HasOptions.CreatingAsWritten(a.options, cfg.defaultOptions), HasSettings.Creating(a.settings, cfg.defaultSettings))
  }

  /** The attributes a save stores: `saving` always fires, `creating` after it when the record is inserted. */
  function AfterSave(cfg: Config, a: Attributes, existed: bool): Attributes
  {
    var saved := SavingHooks(cfg, a);
    if existed then saved else CreatingHooks(cfg, saved)
  }

  /** The top-level restriction an allow-list imposes, if one is declared. */
  function Restrict(m: Mapping, allowed: Option<seq<string>>): Mapping
  {
    if allowed.Some? then Only(m, allowed.value) else m
  }

  class Record {
    const table: string
    const key: string
    const config: Config
    var attributes: Attributes
    var stored: bool            // the ORM's `exists` flag
    var persisted: Option<Attributes>
    var saves: nat

    /** A record as loaded (`stored`) or as newly made and not yet inserted. */
    constructor (table: string, key: string, config: Config, attributes: Attributes, stored: bool)
      ensures this.table == table && this.key == key && this.config == config
      ensures this.attributes == attributes && this.stored == stored
      ensures persisted == (if stored then Some(attributes) else None) && saves == 0
    {
      this.table := table;
      this.key := key;
      this.config := config;
      this.attributes := attributes;
      this.stored := stored;
      persisted := if stored then Some(attributes) else None;
      saves := 0;
    }

    /** `$model->options`, read through `getOptionsAttribute`. */
    function OptionsValue(): Mapping
      reads this
    {
      HasOptions.OptionsAttribute(attributes.options)
    }

    /** `$model->settings`, read through `getSettingsAttribute`. */
    function SettingsValue(): Option<Mapping>
      reads this
    {
      HasSettings.SettingsAttribute(attributes.settings)
    }

    /** `$model->options = $m`, written through `setOptionsAttribute`. */
    method SetOptions(m: Mapping)
      modifies this`attributes
      ensures attributes == old(attributes).(options := HasOptions.OptionsColumn(m))
      ensures OptionsValue() == m
    {
      attributes := attributes.(options := HasOptions.OptionsColumn(m));
    }

    /** `$model->settings = $m`, written through `setSettingsAttribute`. */
    method SetSettings(m: Mapping)
      modifies this`attributes
      ensures attributes == old(attributes).(settings := HasSettings.SettingsColumn(m))
      ensures SettingsValue() == Some(m)
    {
      attributes := attributes.(settings := HasSettings.SettingsColumn(m));
    }

    /**
     * The `creating` hook of `HasOptions` as written: the guard negates the Collection
     * that `$model->options` returns, an object and so always true, and never fires.
     */
    method OptionsCreatingAsWritten()
      modifies this`attributes
      ensures attributes == old(attributes).(options := HasOptions.CreatingAsWritten(old(attributes.options), config.defaultOptions))
    {
      // `!$model->options` is false for every Collection, so the assignment of the defaults is never reached.
    }

    /** The `creating` hook of `HasOptions`, with its guard as intended: empty options become the defaults. */
    method OptionsCreating()
      modifies this`attributes
      ensures attributes == old(attributes).(options := HasOptions.Creating(old(attributes.options), config.defaultOptions))
    {
      if OptionsValue() == map[] {
        SetOptions(HasOptions.DefaultOptions(config.defaultOptions));
      }
    }

    /** The `saving` hook of `HasOptions`. */
    method OptionsSaving()
      modifies this`attributes
      ensures attributes == old(attributes).(options := HasOptions.Saving(old(attributes.options), config.allowedOptions))
    {
      // The Collection read here is an object, so the truthiness test always passes.
      if config.allowedOptions.Some? {
        SetOptions(Only(OptionsValue(), config.allowedOptions.value));
      }
    }

    /** The `creating` hook of `HasSettings`. */
    method SettingsCreating()
      modifies this`attributes
      ensures attributes == old(attributes).(settings := HasSettings.Creating(old(attributes.settings), config.defaultSettings))
    {
      if !HasSettings.Truthy(SettingsValue()) {
        SetSettings(HasSettings.DefaultSettings(config.defaultSettings));
      }
    }

    /** The `saving` hook of `HasSettings`. */
    method SettingsSaving()
      modifies this`attributes
      ensures attributes == old(attributes).(settings := HasSettings.Saving(old(attributes.settings), config.allowedSettings))
    {
      var settings := SettingsValue();
      if HasSettings.Truthy(settings) && config.allowedSettings.Some? {
        SetSettings(Only(settings.value, config.allowedSettings.value));
      }
    }

    /** `save()`: fire `saving`, insert (firing `creating`) or update, and store the attributes. */
    method Save()
      modifies this
      ensures attributes == AfterSave(config, old(attributes), old(stored))
      ensures stored && persisted == Some(attributes) && saves == old(saves) + 1
    {
      OptionsSaving();
      SettingsSaving();
      if !stored {
        OptionsCreatingAsWritten();
        SettingsCreating();
        stored := true;
      }
      persisted := Some(attributes);
      saves := saves + 1;
    }
  }

  /**
   * Saving a record whose options were set to `m`, on update and on insert alike: they
   * read as `m` cut to the allow-list, since the creating hook never assigns the defaults.
   */
  lemma SavedOptions(cfg: Config, a: Attributes, m: Mapping, existed: bool)
    ensures HasOptions.OptionsAttribute(AfterSave(cfg, a.(options := HasOptions.OptionsColumn(m)), existed).options)
      == Restrict(m, cfg.allowedOptions)
  {
    HasOptions.CreatingAsWrittenNeverFills(SavingHooks(cfg, a.(options := HasOptions.OptionsColumn(m))).options, cfg.defaultOptions);
  }

  /**
   * A record inserted with no options and non-empty `defaultOptions` is stored with
   * empty options: the defaults are lost.
   */
  lemma InsertDropsDefaultOptions(a: Attributes, allowedOptions: Option<seq<string>>, defaultSettings: Option<Value>, allowedSettings: Option<seq<string>>)
    requires a.options == Missing
    ensures var cfg := Config(Some(Obj(map["theme" := Str("dark")])), allowedOptions, defaultSettings, allowedSettings);
      HasOptions.OptionsAttribute(AfterSave(cfg, a, false).options) == map[]
      && HasOptions.DefaultOptions(cfg.defaultOptions) != map[]
  {
    var cfg := Config(Some(Obj(map["theme" := Str("dark")])), allowedOptions, defaultSettings, allowedSettings);
    if allowedOptions.Some? {
      assert Only(map[], allowedOptions.value) == map[];
    }
    assert "theme" in HasOptions.DefaultOptions(cfg.defaultOptions);
  }

  /**
   * Saving a record whose settings were set to `m`: they read as `m` cut to the
   * allow-list, except that a record being inserted with that cut empty gets the defaults.
   */
  lemma SavedSettings(cfg: Config, a: Attributes, m: Mapping, existed: bool)
    ensures var r := Restrict(m, cfg.allowedSettings);
      HasSettings.SettingsAttribute(AfterSave(cfg, a.(settings := HasSettings.SettingsColumn(m)), existed).settings)
      == Some(if existed || r != map[] then r else HasSettings.DefaultSettings(cfg.defaultSettings))
  {
    if m == map[] && cfg.allowedSettings.Some? {
      assert Only(m, cfg.allowedSettings.value) == map[];
    }
  }

  /** A key whose first segment the allow-list keeps reads the same after the cut; no key resolves only after it. */
  lemma RestrictKeepsKey(m: Mapping, allowed: Option<seq<string>>, key: string, default: Value)
    ensures allowed.None? || Explode(key)[0] in allowed.value ==>
      Get(Restrict(m, allowed), key, default) == Get(m, key, default) && (Has(Restrict(m, allowed), key) <==> Has(m, key))
    ensures Has(Restrict(m, allowed), key) ==> Has(m, key)
  {
    if allowed.Some? {
      WalkOnly(m, allowed.value, Explode(key));
    }
  }

  /** A new record with `defaultSettings = {theme: "dark"}` and no settings reads `{theme: "dark"}` once created. */
  lemma CreationScenario(a: Attributes, allowedOptions: Option<seq<string>>, defaultOptions: Option<Value>)
    requires a.settings == Missing
    ensures var cfg := Config(defaultOptions, allowedOptions, Some(Obj(map["theme" := Str("dark")])), None);
      HasSettings.SettingsAttribute(AfterSave(cfg, a, false).settings) == Some(map["theme" := Str("dark")])
  {
  }
}
