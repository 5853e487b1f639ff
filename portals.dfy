/** Portal configuration: a portal's partial configuration layered over the base portal's,
    which is layered over the hard defaults, and the check for the default portal. */
module Portals {
  import opened Wrappers

  /** A JSON-like configuration value. `Null` is a value in its own right; a missing key is
      absent from the enclosing object's map. */
  datatype Json =
    | Null
    | Bool(b: bool)
    | Num(n: int)
    | Str(s: string)
    | Arr(items: seq<Json>)
    | Obj(fields: map<string, Json>)

  /** `higher` merged over `lower`: where both are objects their fields merge key by key,
      a key missing from one side is taken from the other, and anywhere else the higher
      value replaces the lower one whole (arrays included). */
  function Merge(lower: Json, higher: Json): (r: Json)
    ensures r.Obj? <==> higher.Obj?
    ensures lower.Obj? && higher.Obj? ==> r.fields.Keys == lower.fields.Keys + higher.fields.Keys
    ensures !higher.Obj? ==> r == higher
    decreases higher
  {
    if lower.Obj? && higher.Obj? then
      Obj(map k | k in lower.fields.Keys + higher.fields.Keys ::
            if k in higher.fields && k in lower.fields then Merge(lower.fields[k], higher.fields[k])
            else if k in higher.fields then higher.fields[k]
            else lower.fields[k])
    else higher
  }

  /** The value at a field path, if every step of the path is a key of an object. */
  function Get(j: Json, path: seq<string>): Option<Json>
    decreases |path|
  {
    if path == [] then Some(j)
    else if j.Obj? && path[0] in j.fields then Get(j.fields[path[0]], path[1..])
    else None
  }

  /** The layer leaves the path unset: along the path it is an object that lacks the next
      key (a scalar on the way would set it). */
  predicate Unset(j: Json, path: seq<string>)
    decreases |path|
  {
    path != [] && j.Obj? && (path[0] !in j.fields || Unset(j.fields[path[0]], path[1..]))
  }

  lemma {:induction false} UnsetHasNoValue(j: Json, path: seq<string>)
    requires Unset(j, path)
    ensures Get(j, path) == None
    decreases |path|
  {
    if path[0] in j.fields {
      UnsetHasNoValue(j.fields[path[0]], path[1..]);
    }
  }

  /** Where the higher layer sets a path, the merged value there is the higher value merged
      over the lower one's, or the higher value alone when the lower layer has none. */
  lemma {:induction false} MergeAtPath(lower: Json, higher: Json, path: seq<string>)
    requires Get(higher, path).Some?
    ensures Get(Merge(lower, higher), path)
         == Some(if Get(lower, path).Some? then Merge(Get(lower, path).value, Get(higher, path).value)
                 else Get(higher, path).value)
    decreases |path|
  {
    if path != [] {
      var k := path[0];
      if lower.Obj? {
        if k in lower.fields {
          MergeAtPath(lower.fields[k], higher.fields[k], path[1..]);
        }
      } else {
        assert Get(lower, path) == None;
      }
    }
  }

  /** A value the higher layer sets that is not an object wins outright; `null`, `false`
      and arrays included. */
  lemma {:induction false} MergeLeafWins(lower: Json, higher: Json, path: seq<string>, v: Json)
    requires Get(higher, path) == Some(v) && !v.Obj?
    ensures Get(Merge(lower, higher), path) == Some(v)
  {
    MergeAtPath(lower, higher, path);
  }

  /** A path the higher layer leaves unset falls through to the lower layer. */
  lemma {:induction false} MergeFallsThrough(lower: Json, higher: Json, path: seq<string>)
    requires Unset(higher, path)
    ensures Get(Merge(lower, higher), path) == Get(lower, path)
    decreases |path|
  {
    var k := path[0];
    if !lower.Obj? {
      UnsetHasNoValue(higher, path);
    } else if k in higher.fields {
      if k in lower.fields {
        MergeFallsThrough(lower.fields[k], higher.fields[k], path[1..]);
      } else {
        UnsetHasNoValue(higher.fields[k], path[1..]);
      }
    }
  }

  /** Merging a layer over itself gives it back. */
  lemma {:induction false} MergeIdempotent(a: Json)
    ensures Merge(a, a) == a
    decreases a
  {
    if a.Obj? {
      forall k | k in a.fields
        ensures Merge(a.fields[k], a.fields[k]) == a.fields[k]
      {
        MergeIdempotent(a.fields[k]);
      }
      assert Merge(a, a).fields == a.fields;
    }
  }

  /** Merging the higher layer in a second time changes nothing. */
  lemma {:induction false} MergeAbsorbsHigher(a: Json, b: Json)
    ensures Merge(Merge(a, b), b) == Merge(a, b)
    decreases b
  {
    if a.Obj? && b.Obj? {
      var m := Merge(a, b);
      forall k | k in m.fields
        ensures Merge(m, b).fields[k] == m.fields[k]
      {
        if k in b.fields {
          if k in a.fields {
            MergeAbsorbsHigher(a.fields[k], b.fields[k]);
          } else {
            MergeIdempotent(b.fields[k]);
          }
        }
      }
      assert Merge(m, b).fields == m.fields;
    } else if b.Obj? {
      MergeIdempotent(b);
    }
  }

  /** Merging a result over its own lower layer changes nothing. */
  lemma {:induction false} MergeAbsorbsLower(a: Json, b: Json)
    ensures Merge(a, Merge(a, b)) == Merge(a, b)
    decreases b
  {
    if a.Obj? && b.Obj? {
      var m := Merge(a, b);
      forall k | k in m.fields
        ensures Merge(a, m).fields[k] == m.fields[k]
      {
        if k in a.fields {
          if k in b.fields {
            MergeAbsorbsLower(a.fields[k], b.fields[k]);
          } else {
            MergeIdempotent(a.fields[k]);
          }
        }
      }
      assert Merge(a, m).fields == m.fields;
    }
  }

  /** Why a configuration cannot be built. */
  datatype ConfigError = MissingBasePortal(baseId: string) | MissingPortalId

  /** The base and target layers merged, then `portalId` set to the target's own and
      `parentConfig` to the base portal's id. */
  function Resolve(defaults: Json, base: Json, baseId: string, target: Json): (r: Json)
    requires target.Obj? && "portalId" in target.fields
  {
    var merged := Merge(Merge(defaults, base), target);
    Obj(merged.fields["portalId" := target.fields["portalId"]]["parentConfig" := Str(baseId)])
  }

  /** `buildConfig`: the target portal over the registry's base portal over the hard
      defaults. */
  function BuildConfig(defaults: Json, registry: map<string, Json>, baseId: string, target: Json)
    : (r: Result<Json, ConfigError>)
    ensures r.Failure? <==> baseId !in registry || !target.Obj? || "portalId" !in target.fields
    ensures r.Success? ==>
      && r.value.Obj?
      && "portalId" in r.value.fields && r.value.fields["portalId"] == target.fields["portalId"]
      && "parentConfig" in r.value.fields && r.value.fields["parentConfig"] == Str(baseId)
  {
    if baseId !in registry then Failure(MissingBasePortal(baseId))
    else if !target.Obj? || "portalId" !in target.fields then Failure(MissingPortalId)
    else Success(Resolve(defaults, registry[baseId], baseId, target))
  }

  /** Outside `portalId` and `parentConfig`, the built configuration reads as the merged
      layers. */
  lemma ResolveOtherPaths(defaults: Json, base: Json, baseId: string, target: Json, path: seq<string>)
    requires target.Obj? && "portalId" in target.fields
    requires path != [] && path[0] != "portalId" && path[0] != "parentConfig"
    ensures Get(Resolve(defaults, base, baseId, target), path) == Get(Merge(Merge(defaults, base), target), path)
  {
  }

  /** The precedence portal > base portal > defaults, at any path other than the two the
      build sets itself. */
  lemma BuildConfigPrecedence(defaults: Json, registry: map<string, Json>, baseId: string, target: Json,
                              path: seq<string>)
    requires BuildConfig(defaults, registry, baseId, target).Success?
    requires path != [] && path[0] != "portalId" && path[0] != "parentConfig"
    ensures var config, base := BuildConfig(defaults, registry, baseId, target).value, registry[baseId];
      && (Get(target, path).Some? && !Get(target, path).value.Obj? ==> Get(config, path) == Get(target, path))
      && (Unset(target, path) && Get(base, path).Some? && !Get(base, path).value.Obj?
          ==> Get(config, path) == Get(base, path))
      && (Unset(target, path) && Unset(base, path) ==> Get(config, path) == Get(defaults, path))
  {
    var base := registry[baseId];
    ResolveOtherPaths(defaults, base, baseId, target, path);
    if Get(target, path).Some? && !Get(target, path).value.Obj? {
      MergeLeafWins(Merge(defaults, base), target, path, Get(target, path).value);
    }
    if Unset(target, path) {
      MergeFallsThrough(Merge(defaults, base), target, path);
      if Get(base, path).Some? && !Get(base, path).value.Obj? {
        MergeLeafWins(defaults, base, path, Get(base, path).value);
      }
      if Unset(base, path) {
        MergeFallsThrough(defaults, base, path);
      }
    }
  }

  /** An explicit `null` in the winning layer survives the build as `null`; it is not
      treated as a missing value. */
  lemma BuildConfigKeepsNull(defaults: Json, registry: map<string, Json>, baseId: string, target: Json,
                             path: seq<string>)
    requires BuildConfig(defaults, registry, baseId, target).Success?
    requires path != [] && path[0] != "portalId" && path[0] != "parentConfig"
    requires Get(target, path) == Some(Null) || (Unset(target, path) && Get(registry[baseId], path) == Some(Null))
    ensures Get(BuildConfig(defaults, registry, baseId, target).value, path) == Some(Null)
  {
    BuildConfigPrecedence(defaults, registry, baseId, target, path);
  }

  /** Setting a key of the higher layer before merging is undone by setting it again after. */
  lemma MergeThenSet(lower: Json, h: map<string, Json>, key: string, v: Json, w: Json)
    ensures Merge(lower, Obj(h[key := v])).fields[key := w] == Merge(lower, Obj(h)).fields[key := w]
  {
  }

  /** Building a built configuration again gives it back unchanged. */
  lemma BuildConfigIdempotent(defaults: Json, registry: map<string, Json>, baseId: string, target: Json)
    requires BuildConfig(defaults, registry, baseId, target).Success?
    ensures var config := BuildConfig(defaults, registry, baseId, target).value;
      BuildConfig(defaults, registry, baseId, config) == Success(config)
  {
    var lower := Merge(defaults, registry[baseId]);
    var merged := Merge(lower, target);
    var id, parent := target.fields["portalId"], Str(baseId);
    var withId := merged.fields["portalId" := id];
    var again := Merge(lower, Obj(withId["parentConfig" := parent])).fields;
    assert merged == Obj(merged.fields);
    calc {
      again["portalId" := id]["parentConfig" := parent];
      again["parentConfig" := parent]["portalId" := id];
      { MergeThenSet(lower, withId, "parentConfig", parent, parent); }
      Merge(lower, Obj(withId)).fields["parentConfig" := parent]["portalId" := id];
      Merge(lower, Obj(withId)).fields["portalId" := id]["parentConfig" := parent];
      { MergeThenSet(lower, merged.fields, "portalId", id, id); }
      Merge(lower, merged).fields["portalId" := id]["parentConfig" := parent];
      { MergeAbsorbsLower(lower, target); }
      withId["parentConfig" := parent];
    }
  }

  /** Resolving the base portal against itself applies its layer once: the result is the
      base over the defaults, with the two identity fields set. */
  lemma BuildConfigOfBase(defaults: Json, registry: map<string, Json>, baseId: string)
    requires baseId in registry && registry[baseId].Obj? && "portalId" in registry[baseId].fields
    ensures var base := registry[baseId];
      var merged := Merge(defaults, base);
      BuildConfig(defaults, registry, baseId, base)
        == Success(Obj(merged.fields["portalId" := base.fields["portalId"]]["parentConfig" := Str(baseId)]))
  {
    MergeAbsorbsHigher(defaults, registry[baseId]);
  }

  /** The part of the application configuration the portal utilities read. */
  datatype ApplicationConfig = ApplicationConfig(defaultPortal: string)

  /** `isDefaultPortal`: exact comparison with the configured default portal id; an
      undefined id is never the default. */
  function IsDefaultPortal(config: ApplicationConfig, portalId: Option<string>): (r: bool)
    ensures r <==> portalId.Some? && portalId.value == config.defaultPortal
  {
    portalId == Some(config.defaultPortal)
  }

  /** With `edsc` configured as the default, `edsc` is the default portal and `simple` is not;
      neither is any proper prefix or extension of the default id. */
  lemma IsDefaultPortalExamples(id: string)
    requires id != ""
    ensures var config := ApplicationConfig("edsc");
      && IsDefaultPortal(config, Some("edsc"))
      && !IsDefaultPortal(config, Some("simple"))
      && !IsDefaultPortal(config, Some("edsc" + id))
      && !IsDefaultPortal(config, Some("edsc"[1..]))
  {
  }
}
