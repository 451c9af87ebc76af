/**
 * The merge engine (src/ConfigSet.ts): an ordered list of sub-configs, later
 * entries taking precedence, and the composition operations over one setting
 * of all of them. Each operation is specified by a left fold over the configs
 * (`...Of`), which the loop of the corresponding method follows prefix by
 * prefix; ConfigSetLaws proves what those folds mean.
 */
module ConfigSets {
  import opened Results
  import opened JsValues

  /** What a uniqueness conflict is said to be: a property of the named setting, or a whole setting. */
  datatype Subject = PropertyNamed(key: string) | WholeSetting

  /** The errors the merge operations throw (their message text is not modelled). */
  datatype Error =
    | NotArray(setting: string, given: TypeTag, value: Value)
    | NotObject(setting: string, given: TypeTag, value: Value)
    | NotUnique(setting: string, subject: Subject, existing: Value, incoming: Value)

  // ---------------------------------------------------------------------------
  // What a single config contributes.

  /** `config[name] ?? []`, which concatArrays requires to be an array. */
  function ArraySource(config: SubConfig, name: string): (r: Result<seq<Value>, Error>)
    ensures r.Ok? <==> IsNullish(Lookup(config, name)) || Lookup(config, name).Arr?
    ensures r.Ok? ==> r.value == (if IsNullish(Lookup(config, name)) then [] else Lookup(config, name).elems)
    ensures r.Err? ==> r.error == NotArray(name, TypeOf(Lookup(config, name)), Lookup(config, name))
  {
    var settingValue := NullishOr(Lookup(config, name), Arr([]));
    if settingValue.Arr? then Ok(settingValue.elems)
    else Err(NotArray(name, TypeOf(settingValue), settingValue))
  }

  /**
   * `config[name] ?? {}`, which must have `typeof` 'object' (so an array
   * passes), and the own properties `Object.assign` then copies from it.
   */
  function ObjectSource(config: SubConfig, name: string): (r: Result<SubConfig, Error>)
    ensures r.Err? <==> IsScalar(Lookup(config, name))
    ensures r.Ok? ==> r.value == OwnProps(Lookup(config, name))
    ensures r.Err? ==> r.error == NotObject(name, TypeOf(Lookup(config, name)), Lookup(config, name))
  {
    var settingValue := NullishOr(Lookup(config, name), Obj(map[]));
    if TypeOf(settingValue) != TObject then Err(NotObject(name, TypeOf(settingValue), settingValue))
    else Ok(OwnProps(settingValue))
  }

  /** The truthiness test on mergeUniqueObjects' optional setting name: the empty string counts as absent. */
  predicate Named(name: Option<string>) {
    name.Some? && name.value != ""
  }

  /** What mergeUniqueObjects takes from one config: the named setting's object, or the config itself. */
  function UniqueSource(config: SubConfig, name: Option<string>): (r: Result<SubConfig, Error>)
    ensures !Named(name) ==> r == Ok(config)
    ensures Named(name) ==> r == ObjectSource(config, name.value)
  {
    if Named(name) then ObjectSource(config, name.value) else Ok(config)
  }

  /** The keys that `incoming` would give a value other than the one already merged. */
  function Conflicts(merged: SubConfig, incoming: SubConfig): (c: set<string>)
    ensures forall k :: k in c <==> k in incoming && k in merged && merged[k] != incoming[k]
    ensures c == {} <==> forall k :: k in merged ==> (merged + incoming)[k] == merged[k]
  {
    set k | k in incoming && k in merged && merged[k] != incoming[k]
  }

  /**
   * The conflict error: named after `settingName ?? key`, and describing the
   * key as a property of the setting when the setting name is truthy, as a
   * whole setting otherwise.
   */
  function ConflictError(name: Option<string>, key: string, existing: Value, incoming: Value): (e: Error)
    ensures e.NotUnique? && e.existing == existing && e.incoming == incoming
    ensures e.setting == (if name.Some? then name.value else key)
    ensures e.subject == (if Named(name) then PropertyNamed(key) else WholeSetting)
  {
    NotUnique(
      match name case Some(s) => s case None => key,
      if Named(name) then PropertyNamed(key) else WholeSetting,
      existing, incoming)
  }

  // ---------------------------------------------------------------------------
  // The operations as folds over the configs, stopping at the first error.

  function ConcatArraysOf(configs: seq<SubConfig>, name: string): Result<seq<Value>, Error>
  {
    if configs == [] then Ok([])
    else
      match ConcatArraysOf(configs[..|configs| - 1], name)
      case Err(e) => Err(e)
      case Ok(concatenated) =>
        match ArraySource(configs[|configs| - 1], name)
        case Err(e) => Err(e)
        case Ok(elems) => Ok(concatenated + elems)
  }

  function MergeObjectsOf(configs: seq<SubConfig>, name: string): Result<SubConfig, Error>
  {
    if configs == [] then Ok(map[])
    else
      match MergeObjectsOf(configs[..|configs| - 1], name)
      case Err(e) => Err(e)
      case Ok(merged) =>
        match ObjectSource(configs[|configs| - 1], name)
        case Err(e) => Err(e)
        case Ok(props) => Ok(merged + props)
  }

  /**
   * Why mergeUniqueObjects fails: a setting value that is not an object, or a
   * config whose `incoming` properties clash with those `merged` before it.
   */
  datatype UniqueFailure = BadSource(err: Error) | Clash(merged: SubConfig, incoming: SubConfig)

  function MergeUniqueOf(configs: seq<SubConfig>, name: Option<string>): Result<SubConfig, UniqueFailure>
  {
    if configs == [] then Ok(map[])
    else
      match MergeUniqueOf(configs[..|configs| - 1], name)
      case Err(f) => Err(f)
      case Ok(merged) =>
        match UniqueSource(configs[|configs| - 1], name)
        case Err(e) => Err(BadSource(e))
        case Ok(incoming) =>
          if Conflicts(merged, incoming) == {} then Ok(merged + incoming)
          else Err(Clash(merged, incoming))
  }

  /**
   * The errors a failure may be reported as: a clash is reported on one of its
   * conflicting keys, with the value merged so far and the incoming one.
   */
  ghost predicate Reports(f: UniqueFailure, name: Option<string>, e: Error) {
    match f
    case BadSource(err) => e == err
    case Clash(merged, incoming) =>
      exists k :: k in Conflicts(merged, incoming) && e == ConflictError(name, k, merged[k], incoming[k])
  }

  // Once a prefix fails, the whole sequence fails with the same error.

  lemma {:induction false} ConcatArraysErrorSticks(configs: seq<SubConfig>, name: string, i: nat)
    requires i <= |configs| && ConcatArraysOf(configs[..i], name).Err?
    ensures ConcatArraysOf(configs, name) == ConcatArraysOf(configs[..i], name)
    decreases |configs|
  {
    if i < |configs| {
      var init := configs[..|configs| - 1];
      assert init[..i] == configs[..i];
      ConcatArraysErrorSticks(init, name, i);
    } else {
      assert configs[..i] == configs;
    }
  }

  lemma {:induction false} MergeObjectsErrorSticks(configs: seq<SubConfig>, name: string, i: nat)
    requires i <= |configs| && MergeObjectsOf(configs[..i], name).Err?
    ensures MergeObjectsOf(configs, name) == MergeObjectsOf(configs[..i], name)
    decreases |configs|
  {
    if i < |configs| {
      var init := configs[..|configs| - 1];
      assert init[..i] == configs[..i];
      MergeObjectsErrorSticks(init, name, i);
    } else {
      assert configs[..i] == configs;
    }
  }

  lemma {:induction false} MergeUniqueErrorSticks(configs: seq<SubConfig>, name: Option<string>, i: nat)
    requires i <= |configs| && MergeUniqueOf(configs[..i], name).Err?
    ensures MergeUniqueOf(configs, name) == MergeUniqueOf(configs[..i], name)
    decreases |configs|
  {
    if i < |configs| {
      var init := configs[..|configs| - 1];
      assert init[..i] == configs[..i];
      MergeUniqueErrorSticks(init, name, i);
    } else {
      assert configs[..i] == configs;
    }
  }

  // ---------------------------------------------------------------------------
  // The engine.

  class ConfigSet {
    /** The sub-configs, lowest precedence first, fixed by the constructor. */
    const configs: seq<SubConfig>

    constructor (configs: seq<SubConfig>)
      ensures this.configs == configs
    {
      this.configs := configs;
    }

    /** Concatenates, in config order, the arrays stored under `settingName`. */
    method ConcatArrays(settingName: string) returns (r: Result<seq<Value>, Error>)
      ensures r == ConcatArraysOf(configs, settingName)
    {
      var concatenated: seq<Value> := [];
      for i := 0 to |configs|
        invariant ConcatArraysOf(configs[..i], settingName) == Ok(concatenated)
      {
        assert configs[..i + 1][..i] == configs[..i];
        var settingValue := NullishOr(Lookup(configs[i], settingName), Arr([]));
        if !settingValue.Arr? {
          r := Err(NotArray(settingName, TypeOf(settingValue), settingValue));
          ConcatArraysErrorSticks(configs, settingName, i + 1);
          return;
        }
        concatenated := concatenated + settingValue.elems;
      }
      assert configs[..|configs|] == configs;
      r := Ok(concatenated);
    }

    /** Shallow-merges the objects stored under `settingName`; the last writer wins. */
    method MergeObjects(settingName: string) returns (r: Result<SubConfig, Error>)
      ensures r == MergeObjectsOf(configs, settingName)
    {
      var merged: SubConfig := map[];
      for i := 0 to |configs|
        invariant MergeObjectsOf(configs[..i], settingName) == Ok(merged)
      {
        assert configs[..i + 1][..i] == configs[..i];
        var settingValue := NullishOr(Lookup(configs[i], settingName), Obj(map[]));
        if TypeOf(settingValue) != TObject {
          r := Err(NotObject(settingName, TypeOf(settingValue), settingValue));
          MergeObjectsErrorSticks(configs, settingName, i + 1);
          return;
        }
        merged := merged + OwnProps(settingValue);
      }
      assert configs[..|configs|] == configs;
      r := Ok(merged);
    }

    /**
     * Shallow-merges the objects under `settingName`, or the configs
     * themselves when no (truthy) setting name is given, failing when a key
     * would receive a second, different value.
     */
    method MergeUniqueObjects(settingName: Option<string>) returns (r: Result<SubConfig, Error>)
      ensures r.Ok? <==> MergeUniqueOf(configs, settingName).Ok?
      ensures r.Ok? ==> r.value == MergeUniqueOf(configs, settingName).value
      ensures r.Err? ==> Reports(MergeUniqueOf(configs, settingName).error, settingName, r.error)
    {
      var merged: SubConfig := map[];
      for i := 0 to |configs|
        invariant MergeUniqueOf(configs[..i], settingName) == Ok(merged)
      {
        assert configs[..i + 1][..i] == configs[..i];
        var settingValue: Value;
        if Named(settingName) {
          settingValue := NullishOr(Lookup(configs[i], settingName.value), Obj(map[]));
          if TypeOf(settingValue) != TObject {
            r := Err(NotObject(settingName.value, TypeOf(settingValue), settingValue));
            MergeUniqueErrorSticks(configs, settingName, i + 1);
            return;
          }
        } else {
          settingValue := Obj(configs[i]);
        }
        var incoming := OwnProps(settingValue);
        var unchecked := incoming.Keys;
        while unchecked != {}
          invariant unchecked <= incoming.Keys
          invariant Conflicts(merged, incoming) <= unchecked
          decreases unchecked
        {
          var propertyName :| propertyName in unchecked;
          if propertyName in merged && merged[propertyName] != incoming[propertyName] {
            r := Err(ConflictError(settingName, propertyName, merged[propertyName], incoming[propertyName]));
            MergeUniqueErrorSticks(configs, settingName, i + 1);
            return;
          }
          unchecked := unchecked - {propertyName};
        }
        merged := merged + incoming;
      }
      assert configs[..|configs|] == configs;
      r := Ok(merged);
    }

    /** The stored configs, as constructed. */
    method ToArray() returns (r: seq<SubConfig>)
      ensures r == configs
    {
      r := configs;
    }
  }

  /** Querying a ConfigSet leaves its configs exactly as they were given to the constructor. */
  method QueriesLeaveConfigsIntact(configs: seq<SubConfig>, settingName: string) returns (stored: seq<SubConfig>)
    ensures stored == configs
  {
    var configSet := new ConfigSet(configs);
    var arrays := configSet.ConcatArrays(settingName);
    var objects := configSet.MergeObjects(settingName);
    var named := configSet.MergeUniqueObjects(Some(settingName));
    var whole := configSet.MergeUniqueObjects(None);
    stored := configSet.ToArray();
  }
}
