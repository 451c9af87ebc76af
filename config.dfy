/**
 * The library-config resolver (src/Config.ts): the whole loaded config maps
 * library names to their blocks; a main library's block is validated and
 * returned, or, for a sub-library, the sub-library's top-level block is
 * overlaid by the block nested under the main library.
 */
module LibraryConfig {
  import opened Results
  import opened JsValues

  /** The errors getConfigForLibrary throws, naming the main library. */
  datatype LibraryError = ShouldNotBeNull(library: string) | ShouldBeObject(library: string)

  /** The main library's block as the resolver uses it: an undefined block reads as `{}`. */
  function MainBlock(allConfig: SubConfig, mainLibraryName: string): (v: Value)
    ensures Lookup(allConfig, mainLibraryName).Undef? ==> v == Obj(map[])
    ensures !Lookup(allConfig, mainLibraryName).Undef? ==> v == Lookup(allConfig, mainLibraryName)
  {
    var mainConfig := Lookup(allConfig, mainLibraryName);
    if mainConfig.Undef? then Obj(map[]) else mainConfig
  }

  /**
   * `getConfigForLibrary(mainLibraryName, subLibraryName?)` over `allConfig`.
   * A null main block is rejected before the object check; an absent
   * sub-library name (null or undefined) returns the main block itself.
   */
  function GetConfigForLibrary(allConfig: SubConfig, mainLibraryName: string, subLibraryName: Option<string>)
    : (r: Result<Value, LibraryError>)
    ensures r == Err(ShouldNotBeNull(mainLibraryName)) <==> Lookup(allConfig, mainLibraryName).Null?
    ensures r == Err(ShouldBeObject(mainLibraryName)) <==> IsScalar(Lookup(allConfig, mainLibraryName))
    ensures r.Err? ==> r.error.library == mainLibraryName
    ensures r.Ok? && subLibraryName.Some? ==> r.value.Obj?
  {
    if Lookup(allConfig, mainLibraryName).Null? then Err(ShouldNotBeNull(mainLibraryName))
    else
      var mainConfig := MainBlock(allConfig, mainLibraryName);
      if TypeOf(mainConfig) != TObject then Err(ShouldBeObject(mainLibraryName))
      else if subLibraryName.None? then Ok(mainConfig)
      else
        var subConfig := NullishOr(Lookup(allConfig, subLibraryName.value), Obj(map[]));
        // the top-level block, then the block nested under the main library, copied onto an empty object
        Ok(Obj(map[] + OwnProps(subConfig) + OwnProps(Get(mainConfig, subLibraryName.value))))
  }

  /** The call succeeds exactly when the main block is an object, an array or undefined. */
  lemma SucceedsIff(allConfig: SubConfig, mainLibraryName: string, subLibraryName: Option<string>)
    ensures GetConfigForLibrary(allConfig, mainLibraryName, subLibraryName).Ok? <==>
      var mainConfig := Lookup(allConfig, mainLibraryName);
      mainConfig.Obj? || mainConfig.Arr? || mainConfig.Undef?
  {
  }

  /** Without a sub-library the main block is returned unchanged, or `{}` when it is undefined. */
  lemma NoSubLibraryReturnsMainBlock(allConfig: SubConfig, mainLibraryName: string)
    requires !Lookup(allConfig, mainLibraryName).Null?
    requires !IsScalar(Lookup(allConfig, mainLibraryName))
    ensures GetConfigForLibrary(allConfig, mainLibraryName, None) == Ok(MainBlock(allConfig, mainLibraryName))
  {
  }

  /**
   * With a sub-library the result has the keys of the top-level sub-library
   * block and of the block nested under the main library, and the nested
   * block wins on every key it defines.
   */
  lemma SubLibraryOverlay(allConfig: SubConfig, mainLibraryName: string, subLibraryName: string)
    requires GetConfigForLibrary(allConfig, mainLibraryName, Some(subLibraryName)).Ok?
    ensures var merged := GetConfigForLibrary(allConfig, mainLibraryName, Some(subLibraryName)).value.fields;
      var top := OwnProps(Lookup(allConfig, subLibraryName));
      var nested := OwnProps(Get(MainBlock(allConfig, mainLibraryName), subLibraryName));
      && (forall k :: k in merged <==> k in top || k in nested)
      && (forall k :: k in nested ==> merged[k] == nested[k])
      && (forall k :: k in top && k !in nested ==> merged[k] == top[k])
  {
  }

  /** An undefined main block contributes nothing: the result is the sub-library's own block. */
  lemma MissingMainBlock(allConfig: SubConfig, mainLibraryName: string, subLibraryName: string)
    requires Lookup(allConfig, mainLibraryName).Undef?
    ensures GetConfigForLibrary(allConfig, mainLibraryName, Some(subLibraryName))
      == Ok(Obj(OwnProps(Lookup(allConfig, subLibraryName))))
    ensures Lookup(allConfig, subLibraryName).Obj? ==>
      GetConfigForLibrary(allConfig, mainLibraryName, Some(subLibraryName)) == Ok(Lookup(allConfig, subLibraryName))
  {
    assert map[] + OwnProps(Lookup(allConfig, subLibraryName)) + map[] == OwnProps(Lookup(allConfig, subLibraryName));
  }

  /** A missing block under the main library contributes nothing, and with no top-level block either the result is `{}`. */
  lemma MissingNestedBlock(allConfig: SubConfig, mainLibraryName: string, subLibraryName: string)
    requires GetConfigForLibrary(allConfig, mainLibraryName, Some(subLibraryName)).Ok?
    requires IsNullish(Get(MainBlock(allConfig, mainLibraryName), subLibraryName))
    ensures GetConfigForLibrary(allConfig, mainLibraryName, Some(subLibraryName))
      == Ok(Obj(OwnProps(Lookup(allConfig, subLibraryName))))
    ensures IsNullish(Lookup(allConfig, subLibraryName)) ==>
      GetConfigForLibrary(allConfig, mainLibraryName, Some(subLibraryName)) == Ok(Obj(map[]))
  {
    assert map[] + OwnProps(Lookup(allConfig, subLibraryName)) + map[] == OwnProps(Lookup(allConfig, subLibraryName));
  }
}
