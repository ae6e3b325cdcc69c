/** The environment-schema builder of
    validators/environment-variables/SchemaFromEnvironmentObject.ts: every
    key of the environment object gets a plain string validator, and the
    overrides replace or add validators by key. */
module EnvironmentSchema {
  import opened Wrappers

  /** A per-key validator: the default `Zod.string()`, or an override (the
      Zod schema itself is outside this model; it is named by a label). */
  datatype Validator = PlainString | Override(schemaName: string)

  /** `Object.keys(object)`: an object is its own properties in order. */
  function ObjectKeys<V>(env: seq<(string, V)>): (keys: seq<string>)
    ensures |keys| == |env|
    ensures forall i :: 0 <= i < |env| ==> keys[i] == env[i].0
  {
    if env == [] then [] else [env[0].0] + ObjectKeys(env[1..])
  }

  /** The `reduce` over the keys: each step spreads the accumulated object
      and adds the key with the default validator. */
  function DefaultSchema(keys: seq<string>): (schema: map<string, Validator>)
    ensures schema.Keys == set k | k in keys
    ensures forall k :: k in schema ==> schema[k] == PlainString
  {
    if keys == [] then map[]
    else DefaultSchema(keys[..|keys| - 1])[keys[|keys| - 1] := PlainString]
  }

  /** `createSchemaFromEnvironmentObject`: the defaults spread first, then
      the overrides (`overrides ?? {}`), so an override wins on its key. */
  function CreateSchema<V>(env: seq<(string, V)>, overrides: Option<map<string, Validator>>): (schema: map<string, Validator>)
    ensures forall i :: 0 <= i < |env| ==> env[i].0 in schema
    ensures overrides.Some? ==> forall k :: k in overrides.value ==> k in schema && schema[k] == overrides.value[k]
    ensures forall k :: k in schema && (overrides.None? || k !in overrides.value) ==> schema[k] == PlainString
  {
    var defaults := DefaultSchema(ObjectKeys(env));
    match overrides
    case None => defaults
    case Some(o) => defaults + o
  }

  /** The key set of an object. */
  function KeySet<V>(env: seq<(string, V)>): set<string>
  {
    set i | 0 <= i < |env| :: env[i].0
  }

  lemma ObjectKeysCoverKeySet<V>(env: seq<(string, V)>)
    ensures (set k | k in ObjectKeys(env)) == KeySet(env)
  {
  }

  /** The schema's keys are the object's keys together with the override
      keys. */
  lemma SchemaKeysAreUnion<V>(env: seq<(string, V)>, overrides: Option<map<string, Validator>>)
    ensures CreateSchema(env, overrides).Keys ==
      KeySet(env) + (if overrides.Some? then overrides.value.Keys else {})
  {
  }

  /** Without overrides the schema is exactly the default validator on each
      key of the object. */
  lemma NoOverridesGivesDefaults<V>(env: seq<(string, V)>)
    ensures CreateSchema(env, None) == map k | k in KeySet(env) :: PlainString
  {
  }

  /** The schema depends on the object's key set alone: neither the values
      nor the order nor repetition of the keys matter. */
  lemma OnlyKeysMatter<V, W>(env: seq<(string, V)>, other: seq<(string, W)>, overrides: Option<map<string, Validator>>)
    requires KeySet(env) == KeySet(other)
    ensures CreateSchema(env, overrides) == CreateSchema(other, overrides)
  {
    SchemaKeysAreUnion(env, overrides);
    SchemaKeysAreUnion(other, overrides);
    SameKeysSameSchema(CreateSchema(env, overrides), CreateSchema(other, overrides), overrides);
  }

  /** Two schemas built with the same overrides agree once their keys do. */
  lemma SameKeysSameSchema(a: map<string, Validator>, b: map<string, Validator>, overrides: Option<map<string, Validator>>)
    requires a.Keys == b.Keys
    requires overrides.Some? ==> forall k :: k in overrides.value ==> k in a && a[k] == overrides.value[k] && k in b && b[k] == overrides.value[k]
    requires forall k :: k in a && (overrides.None? || k !in overrides.value) ==> a[k] == PlainString
    requires forall k :: k in b && (overrides.None? || k !in overrides.value) ==> b[k] == PlainString
    ensures a == b
  {
  }
}
