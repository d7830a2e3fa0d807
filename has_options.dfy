/**
 * The value-level parts of the `HasOptions` trait: default lookup, attribute
 * decode and encode, and what the creating and saving hooks assign.
 */
module HasOptions {
  import opened Wrappers
  import opened Arr
  import opened Json

  /** `collect($value)`: null gives the empty collection, an array itself, any other value a one-item list. */
  function Collect(v: Value): Mapping
  {
    match v
    case Null => map[]
    case Obj(m) => m
    case _ => map["0" := v]
  }

  /** `getDefaultOptions()`: the declared `defaultOptions` when it is set and an array, else empty. */
  function DefaultOptions(declared: Option<Value>): Mapping
  {
    if declared.Some? && declared.value.Obj? then declared.value.fields else map[]
  }

  /** `getOptionsAttribute($text)`: `collect(json_decode($text, true))`. */
  function OptionsAttribute(c: Column): Mapping
  {
    Collect(Decode(c))
  }

  /** `setOptionsAttribute($options)`: an array and a Collection serialise alike. */
  function OptionsColumn(m: Mapping): Column
  {
    Encode(Obj(m))
  }

  /** The saving hook: with an array `allowedOptions` declared, the options keep only the listed top-level keys. */
  function Saving(c: Column, allowed: Option<seq<string>>): Column
  {
    // `$model->options` is a Collection object, so the truthiness test always passes.
    if allowed.Some? then OptionsColumn(Only(OptionsAttribute(c), allowed.value)) else c
  }

  /**
   * The creating hook as written: `if (!$model->options)` tests a Collection object,
   * which PHP treats as true whatever it holds, so the defaults are never assigned.
   */
  function CreatingAsWritten(c: Column, declared: Option<Value>): Column
  {
    var optionsIsObject := true;
    if !optionsIsObject then OptionsColumn(DefaultOptions(declared)) else c
  }

  /** The creating hook as intended: empty options are replaced by the defaults. */
  function Creating(c: Column, declared: Option<Value>): Column
  {
    if OptionsAttribute(c) == map[] then OptionsColumn(DefaultOptions(declared)) else c
  }

  /** Decoding the attribute that was set gives the mapping back. */
  lemma OptionsRoundTrip(m: Mapping)
    ensures OptionsAttribute(OptionsColumn(m)) == m
  {
  }

  /** An absent or malformed column reads as the empty mapping, never as null. */
  lemma UnreadableOptionsAreEmpty()
    ensures OptionsAttribute(Missing) == map[]
    ensures OptionsAttribute(Malformed) == map[]
  {
  }

  /** The defaults are exactly the declared array; anything else (unset, null, a scalar) gives empty. */
  lemma DefaultOptionsDeclared(declared: Option<Value>)
    ensures forall m :: declared == Some(Obj(m)) ==> DefaultOptions(declared) == m
    ensures (declared.None? || !declared.value.Obj?) ==> DefaultOptions(declared) == map[]
  {
  }

  /** With an allow-list the saved options hold exactly the allowed keys present, with their values; without one nothing changes. */
  lemma SavingKeepsAllowed(c: Column, allowed: Option<seq<string>>)
    ensures allowed.None? ==> Saving(c, allowed) == c
    ensures allowed.Some? ==> forall k :: k in OptionsAttribute(Saving(c, allowed)) <==> k in OptionsAttribute(c) && k in allowed.value
    ensures allowed.Some? ==> forall k :: k in OptionsAttribute(Saving(c, allowed)) ==> OptionsAttribute(Saving(c, allowed))[k] == OptionsAttribute(c)[k]
  {
  }

  /** As written, the creating hook leaves the column as it found it, for every column and every defaults. */
  lemma CreatingAsWrittenNeverFills(c: Column, declared: Option<Value>)
    ensures CreatingAsWritten(c, declared) == c
  {
  }

  /** A record created with no options and `defaultOptions = {theme: "dark"}` keeps empty options as written. */
  lemma CreatingAsWrittenDropsDefaults()
    ensures OptionsAttribute(CreatingAsWritten(Missing, Some(Obj(map["theme" := Str("dark")])))) == map[]
    ensures DefaultOptions(Some(Obj(map["theme" := Str("dark")]))) == map["theme" := Str("dark")]
  {
  }

  /** As intended, empty options read as the defaults after the hook and non-empty ones are untouched. */
  lemma CreatingFillsEmpty(c: Column, declared: Option<Value>)
    ensures OptionsAttribute(c) == map[] ==> OptionsAttribute(Creating(c, declared)) == DefaultOptions(declared)
    ensures OptionsAttribute(c) != map[] ==> Creating(c, declared) == c
  {
  }
}
