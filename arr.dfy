/**
 * The dot-path helpers the accessors rest on (Laravel's `Arr::get`, `Arr::has`,
 * `Arr::set`, `Arr::forget`, `Arr::only` and their `array_*` twins), modelled as
 * the plain walk over the segments of a dot-separated key.
 */
module Arr {
  import opened Wrappers

  /** A decoded JSON value. An object or a PHP array is a map from string keys. */
  datatype Value =
    | Null
    | Bool(b: bool)
    | Num(n: int)
    | Str(s: string)
    | Obj(fields: map<string, Value>)

  /** A settings (or options) mapping: one PHP array with string keys. */
  type Mapping = map<string, Value>

  /** The segments of a dot path, as `explode('.', $key)` yields them. */
  type Path = seq<string>

  /** `implode('.', $segments)`. */
  function Implode(segments: Path): string
  {
    if segments == [] then ""
    else if |segments| == 1 then segments[0]
    else segments[0] + "." + Implode(segments[1..])
  }

  /** `explode('.', $key)`: at least one segment, none holding a dot, and gluing them back gives the key. */
  function Explode(key: string): (segments: Path)
    ensures |segments| >= 1
    ensures forall i :: 0 <= i < |segments| ==> '.' !in segments[i]
    ensures Implode(segments) == key
  {
    if key == [] then [""]
    else
      var rest := Explode(key[1..]);
      if key[0] == '.' then
        assert ([""] + rest)[1..] == rest;
        assert key == "." + key[1..];
        [""] + rest
      else
        var segments := [[key[0]] + rest[0]] + rest[1..];
        assert segments[1..] == rest[1..];
        assert key == [key[0]] + key[1..];
        segments
  }

  /** Splitting a key whose first segment is `head` peels that segment off. */
  lemma {:induction false} ExplodePrefix(head: string, tail: string)
    requires '.' !in head
    ensures Explode(head + tail) == [head + Explode(tail)[0]] + Explode(tail)[1..]
  {
    if head != [] {
      assert (head + tail)[0] == head[0];
      assert (head + tail)[1..] == head[1..] + tail;
      ExplodePrefix(head[1..], tail);
      assert [head[0]] + (head[1..] + Explode(tail)[0]) == head + Explode(tail)[0];
    } else {
      var e := Explode(tail);
      assert head + tail == tail;
      assert head + e[0] == e[0];
      assert [e[0]] + e[1..] == e;
    }
  }

  /** Joining dot-free segments with dots and splitting again gives the same segments. */
  lemma {:induction false} ExplodeImplode(segments: Path)
    requires |segments| >= 1
    requires forall i :: 0 <= i < |segments| ==> '.' !in segments[i]
    ensures Explode(Implode(segments)) == segments
  {
    if |segments| == 1 {
      ExplodePrefix(segments[0], "");
      assert segments[0] + "" == segments[0];
    } else {
      var rest := segments[1..];
      assert forall i :: 0 <= i < |rest| ==> '.' !in rest[i] by {
        forall i | 0 <= i < |rest| ensures '.' !in rest[i] {
          assert rest[i] == segments[i + 1];
        }
      }
      ExplodeImplode(rest);
      var tail := "." + Implode(rest);
      assert Implode(segments) == segments[0] + tail;
      ExplodePrefix(segments[0], tail);
      assert tail[0] == '.' && tail[1..] == Implode(rest);
      assert Explode(tail) == [""] + rest;
      assert segments[0] + "" == segments[0];
    }
  }

  /** PHP truthiness of an optional path argument: null, `""` and `"0"` are false, so they mean "no path". */
  predicate PathGiven(path: Option<string>)
  {
    path.Some? && path.value != "" && path.value != "0"
  }

  /** The value reached from `v` by following `path`, if every segment resolves to a key of a map. */
  function Walk(v: Value, path: Path): Option<Value>
    decreases |path|
  {
    if path == [] then Some(v)
    else if v.Obj? && path[0] in v.fields then Walk(v.fields[path[0]], path[1..])
    else None
  }

  /** `Arr::get($m, $key, $default)` with a non-null key. */
  function Get(m: Mapping, key: string, default: Value): Value
  {
    Walk(Obj(m), Explode(key)).GetOr(default)
  }

  /** `Arr::has($m, $key)`: the whole key resolves. */
  predicate Has(m: Mapping, key: string)
  {
    Walk(Obj(m), Explode(key)).Some?
  }

  /**
   * `Arr::set` along `path`: every missing or non-map intermediate becomes an empty
   * map, then the last segment is set. Only the first segment's top-level key changes.
   */
  function SetPath(m: Mapping, path: Path, x: Value): (r: Mapping)
    requires |path| >= 1
    ensures r.Keys == m.Keys + {path[0]}
    ensures forall k :: k in m && k != path[0] ==> r[k] == m[k]
    decreases |path|
  {
    var k := path[0];
    if |path| == 1 then m[k := x]
    else
      var child := if k in m && m[k].Obj? then m[k].fields else map[];
      m[k := Obj(SetPath(child, path[1..], x))]
  }

  /**
   * `Arr::forget` along `path`: the last segment's key is removed from the map the
   * path leads to; a path that does not lead to a map changes nothing.
   */
  function ForgetPath(m: Mapping, path: Path): (r: Mapping)
    requires |path| >= 1
    ensures r.Keys == if |path| == 1 then m.Keys - {path[0]} else m.Keys
    ensures forall k :: k in m && k != path[0] ==> r[k] == m[k]
    decreases |path|
  {
    var k := path[0];
    if |path| == 1 then m - {k}
    else if k in m && m[k].Obj? then m[k := Obj(ForgetPath(m[k].fields, path[1..]))]
    else m
  }

  /** `Arr::set($m, $key, $x)` with a non-null key. */
  function Set(m: Mapping, key: string, x: Value): Mapping
  {
    SetPath(m, Explode(key), x)
  }

  /** `Arr::forget($m, $key)`. */
  function Forget(m: Mapping, key: string): Mapping
  {
    ForgetPath(m, Explode(key))
  }

  /** `Arr::only($m, $keys)`: the top-level entries whose key is listed, with their values. */
  function Only(m: Mapping, keys: seq<string>): (r: Mapping)
    ensures forall k :: k in r <==> k in m && k in keys
    ensures forall k :: k in r ==> r[k] == m[k]
  {
    map k | k in m && k in keys :: m[k]
  }

  /** Restricting to top-level keys keeps every path whose first segment is kept and drops every other. */
  lemma WalkOnly(m: Mapping, keys: seq<string>, path: Path)
    requires |path| >= 1
    ensures path[0] in keys ==> Walk(Obj(Only(m, keys)), path) == Walk(Obj(m), path)
    ensures path[0] !in keys ==> Walk(Obj(Only(m, keys)), path) == None
  {
  }

  /** Two paths that differ at some segment both have: neither is a prefix of the other. */
  ghost predicate Diverge(p: Path, q: Path)
  {
    exists i :: 0 <= i < |p| && i < |q| && p[i] != q[i]
  }

  /** After setting `path` to `x`, the path resolves to `x`. */
  lemma {:induction false} WalkSetPath(m: Mapping, path: Path, x: Value)
    requires |path| >= 1
    ensures Walk(Obj(SetPath(m, path, x)), path) == Some(x)
    decreases |path|
  {
    if |path| > 1 {
      var k := path[0];
      var child := if k in m && m[k].Obj? then m[k].fields else map[];
      WalkSetPath(child, path[1..], x);
    }
  }

  /** Setting `p` leaves every path that diverges from `p` resolving exactly as before. */
  lemma {:induction false} WalkSetPathOther(m: Mapping, p: Path, q: Path, x: Value)
    requires |p| >= 1
    requires Diverge(p, q)
    ensures Walk(Obj(SetPath(m, p, x)), q) == Walk(Obj(m), q)
    decreases |p|
  {
    var i :| 0 <= i < |p| && i < |q| && p[i] != q[i];
    var k := p[0];
    if q[0] != k {
    } else {
      assert i >= 1 && |p| >= 2 && |q| >= 2;
      assert Diverge(p[1..], q[1..]) by {
        assert p[1..][i - 1] != q[1..][i - 1];
      }
      var child := if k in m && m[k].Obj? then m[k].fields else map[];
      WalkSetPathOther(child, p[1..], q[1..], x);
      if !(k in m && m[k].Obj?) {
        assert Walk(Obj(child), q[1..]) == None;
      }
    }
  }

  /** After forgetting `path`, the path no longer resolves. */
  lemma {:induction false} WalkForgetPath(m: Mapping, path: Path)
    requires |path| >= 1
    ensures Walk(Obj(ForgetPath(m, path)), path) == None
    decreases |path|
  {
    var k := path[0];
    if |path| > 1 && k in m && m[k].Obj? {
      WalkForgetPath(m[k].fields, path[1..]);
    }
  }

  /** Forgetting a path that does not resolve leaves the mapping as it was. */
  lemma {:induction false} ForgetPathMissing(m: Mapping, path: Path)
    requires |path| >= 1
    requires Walk(Obj(m), path) == None
    ensures ForgetPath(m, path) == m
    decreases |path|
  {
    var k := path[0];
    if |path| > 1 && k in m && m[k].Obj? {
      ForgetPathMissing(m[k].fields, path[1..]);
      assert m[k] == Obj(m[k].fields);
    }
  }

  /** Forgetting `p` leaves every path that diverges from `p` resolving exactly as before. */
  lemma {:induction false} WalkForgetPathOther(m: Mapping, p: Path, q: Path)
    requires |p| >= 1
    requires Diverge(p, q)
    ensures Walk(Obj(ForgetPath(m, p)), q) == Walk(Obj(m), q)
    decreases |p|
  {
    var i :| 0 <= i < |p| && i < |q| && p[i] != q[i];
    var k := p[0];
    if q[0] != k {
    } else if k in m && m[k].Obj? {
      assert i >= 1 && |p| >= 2 && |q| >= 2;
      assert Diverge(p[1..], q[1..]) by {
        assert p[1..][i - 1] != q[1..][i - 1];
      }
      WalkForgetPathOther(m[k].fields, p[1..], q[1..]);
    }
  }

  /** Read after write: `get` of the key just set gives the value set, whatever the default. */
  lemma GetAfterSet(m: Mapping, key: string, x: Value, default: Value)
    ensures Has(Set(m, key, x), key)
    ensures Get(Set(m, key, x), key, default) == x
  {
    WalkSetPath(m, Explode(key), x);
  }

  /** A key that does not resolve reads as the default; one that resolves reads the same for every default. */
  lemma GetMissing(m: Mapping, key: string, d1: Value, d2: Value)
    ensures !Has(m, key) ==> Get(m, key, d1) == d1
    ensures Has(m, key) ==> Get(m, key, d1) == Get(m, key, d2)
  {
  }

  /** Delete then absent: after `forget`, `has` is false. */
  lemma HasAfterForget(m: Mapping, key: string)
    ensures !Has(Forget(m, key), key)
  {
    WalkForgetPath(m, Explode(key));
  }

  /** Forgetting a key that is not there leaves the mapping unchanged. */
  lemma ForgetMissing(m: Mapping, key: string)
    requires !Has(m, key)
    ensures Forget(m, key) == m
  {
    ForgetPathMissing(m, Explode(key));
  }

  /** Setting then forgetting one key leaves it absent. */
  lemma ForgetAfterSet(m: Mapping, key: string, x: Value)
    ensures !Has(Forget(Set(m, key, x), key), key)
  {
    HasAfterForget(Set(m, key, x), key);
  }

  /** Writing or deleting `key` does not change what a diverging key reads. */
  lemma OtherKeysUnchanged(m: Mapping, key: string, other: string, x: Value, default: Value)
    requires Diverge(Explode(key), Explode(other))
    ensures Get(Set(m, key, x), other, default) == Get(m, other, default)
    ensures Has(Set(m, key, x), other) == Has(m, other)
    ensures Get(Forget(m, key), other, default) == Get(m, other, default)
    ensures Has(Forget(m, key), other) == Has(m, other)
  {
    WalkSetPathOther(m, Explode(key), Explode(other), x);
    WalkForgetPathOther(m, Explode(key), Explode(other));
  }

  /** The write `set("ui.theme", "light")` on an empty mapping yields `{ui: {theme: "light"}}`. */
  lemma SetNestedOnEmpty()
    ensures Set(map[], "ui.theme", Str("light")) == map["ui" := Obj(map["theme" := Str("light")])]
    ensures Get(Set(map[], "ui.theme", Str("light")), "ui.theme", Null) == Str("light")
  {
    ExplodeImplode(["ui", "theme"]);
    assert Implode(["ui", "theme"]) == "ui.theme";
  }
}
