# PHPConfig configuration composition, modelled in Dafny

PHPConfig loads the configuration of Uniter and of the libraries that plug
into it. Two pieces of it compose configuration, and this project models both
and proves what they compute:

- **The merge engine** (`ConfigSet`, src/ConfigSet.ts). It holds an ordered
  list of sub-configs: plugin configs first, the root config last. Later
  entries take precedence. Its operations are:
  - `concatArrays` concatenates the arrays stored under one setting, in config order;
  - `mergeObjects` shallow-merges the objects under one setting, and the last writer wins;
  - `mergeUniqueObjects` shallow-merges the objects under one setting, or the whole
    configs when no setting name is given, and fails when one key gets two different values;
  - `toArray` returns the stored list.
- **The library-config resolver** (`Config.getConfigForLibrary`, src/Config.ts).
  It validates the main library's block, returns it when no sub-library is
  asked for, and otherwise returns the sub-library's top-level block overlaid
  by the block nested under the main library.

Files:

- `results.dfy` (module `Results`): `Option` and `Result`.
- `js_value.dfy` (module `JsValues`): the setting values of src/types.d.ts plus
  arrays, as one datatype. It also holds the JavaScript built-ins the core
  relies on: `typeof`, `??`, property reads, and the own enumerable properties
  that `Object.keys` and `Object.assign` see.
- `config_set.dfy` (module `ConfigSets`): the class `ConfigSet`. Each composition method is
  a loop over the configs, as in the source. `ConcatArrays` and `MergeObjects`
  are proved equal to a left fold over the configs (`ConcatArraysOf`,
  `MergeObjectsOf`). `MergeUniqueObjects` succeeds exactly when its fold
  `MergeUniqueOf` does, and then returns the fold's value. On failure its error
  is one the fold's failure allows (`ConfigSets.Reports`). The loop invariant
  is "the accumulator equals the fold of the configs processed so far".
- `config_set_laws.dfy` (module `ConfigSetLaws`): what those folds mean. The
  statements are made against reference definitions that do not stop at
  errors: the flattening of all arrays, the plain shallow merge of all objects,
  and pairwise agreement of all sources.
- `config.dfy` (module `LibraryConfig`): `getConfigForLibrary` as a pure
  function, with lemmas for its error cases and its precedence rule.
- `scenarios.dfy` (module `Scenarios`): configurations from the unit tests,
  with the outcomes those tests expect, derived from the model.

Modelling choices:

- Setting values are `Obj(map<string, Value>) | Arr | Bool | Num | Str | Null | Undef`.
  An object is a map. Inside an object, a key whose value is `Undef` is still
  present, because `Object.keys` and `Object.assign` list and copy such keys.
  A top-level read `config[name]` of an absent key gives `Undef`. The `??`
  operator then treats absent, `undefined` and `null` alike.
- Objects carry no key order. `mergeUniqueObjects` visits the keys of one
  config in some order and reports the first clash it meets. The model reports
  *some* conflicting key of the *first* clashing config (the predicate
  `ConfigSets.Reports`). Which config fails, and whether one fails at all, is
  determined exactly.
- JavaScript coercions are modelled, not excluded:
  - an array passes the `typeof ... === 'object'` checks (src/ConfigSet.ts:50,77 and src/Config.ts:38);
  - `Object.assign` and `Object.keys` see an array's elements and a string's
    characters under their decimal indices, and see nothing in the other scalars;
  - `v[key]` on an array or a string reads an element by index, or `length`.
- `mergeUniqueObjects(settingName?)` takes `Option<string>`. The source tests
  the name for truthiness (src/ConfigSet.ts:71), so `Some("")` takes the
  "merge the whole configs" branch, just like `None`. The conflict error names
  `settingName ?? key` (src/ConfigSet.ts:95). So with `Some("")` it names the
  empty setting, not the key, and it still says "setting" rather than
  "property". The model reproduces this as written (`ConfigSets.ConflictError`).
- `getConfigForLibrary(main, sub?)` takes `Option<string>` for `sub`.
  `sub == null` is true for both `null` and `undefined`, so both are `None`.
  The empty string is a real sub-library name there.
- `ConfigSet.configs` is a `const` field, set once by the constructor, as the
  source's private `configs` is only assigned there (src/ConfigSet.ts:18). No
  method has a `modifies` clause, so no operation can change the stored configs.
  `ConfigSets.QueriesLeaveConfigsIntact` shows this from a client's side.
  Values are immutable datatypes, so no merge can write into an input.
  In the same way, `getConfigForLibrary` takes `allConfig` as a value and cannot
  change it. With a sub-library it builds its result as a new object
  (src/Config.ts:52). Without one it returns the stored main block itself
  (src/Config.ts:44-46); see "## Left out" for the aliasing this implies.
- A `null` main-library block is rejected with "should not be null"
  (src/Config.ts:28-32), before the `undefined` default and the object check.
  It is not treated like an absent block.
- The model follows src/Config.ts where it departs from its interface:
  `getConfigForLibrary` returns one merged value (src/Config.ts:22-53), while
  src/ConfigInterface.ts:22-25 declares `getConfigsForLibrary` returning a list
  of sub-configs.

## Model

| member | source | states |
|---|---|---|
| `JsValues.IndexKey` | src/ConfigSet.ts:56 | the property name of an array index is a non-empty decimal numeral with no leading zero |
| `JsValues.IndexKeyParses` | src/ConfigSet.ts:56 | reading an index's property name back as a numeral gives the index |
| `JsValues.IndexKeyInjective` | src/ConfigSet.ts:56 | distinct indices have distinct property names |
| `JsValues.Indexed` | src/ConfigSet.ts:56 | an array's enumerable properties map each index's name to the element at that index |
| `JsValues.IndexedKeyIsIndex` | src/ConfigSet.ts:87 | every key `Object.keys` lists for an array names one of its indices |
| `JsValues.GetAgreesWithOwnProps` | src/ConfigSet.ts:91-94 | reading a listed property (`settingValue[propertyName]`) gives the value that `Object.assign` copies for it |
| `ConfigSets.ArraySource` | src/ConfigSet.ts:26-33 | a config passes exactly when its value for the setting is an array, null or absent, and then contributes that array or nothing; otherwise the error names the setting and the value's `typeof` |
| `ConfigSets.ObjectSource` | src/ConfigSet.ts:47-54 | a config fails exactly when its value for the setting is a boolean, number or string; the error names the setting and the `typeof`; otherwise it contributes the value's own properties |
| `ConfigSets.Conflicts` | src/ConfigSet.ts:87-93 | there is no conflict exactly when merging the incoming object leaves every value already merged unchanged |
| `ConfigSets.ConcatArraysErrorSticks` | src/ConfigSet.ts:30-32 | a failure on a prefix of the configs is the failure of the whole call |
| `ConfigSets.MergeObjectsErrorSticks` | src/ConfigSet.ts:51-53 | a failure on a prefix of the configs is the failure of the whole call |
| `ConfigSets.MergeUniqueErrorSticks` | src/ConfigSet.ts:78-104 | a failure on a prefix of the configs is the failure of the whole call |
| `ConfigSets.ConfigSet.constructor` | src/ConfigSet.ts:18 | the set stores the given configs |
| `ConfigSets.ConfigSet.ConcatArrays` | src/ConfigSet.ts:23-39 | the loop returns the concatenation fold `ConcatArraysOf` over the stored configs, error included |
| `ConfigSets.ConfigSet.MergeObjects` | src/ConfigSet.ts:44-60 | the loop returns the shallow-merge fold `MergeObjectsOf` over the stored configs, error included |
| `ConfigSets.ConfigSet.MergeUniqueObjects` | src/ConfigSet.ts:65-112 | succeeds exactly when the unique-merge fold `MergeUniqueOf` does and then returns its value; on failure it reports the fold's failure (a conflict on one of the clashing keys) |
| `ConfigSets.ConfigSet.ToArray` | src/ConfigSet.ts:117-119 | returns the stored configs |
| `ConfigSets.QueriesLeaveConfigsIntact` | src/ConfigSet.ts:18-119 | after every query, `toArray` still returns exactly the configs given to the constructor |
| `ConfigSetLaws.FlattenSnoc` | src/ConfigSet.ts:35 | appending one more array to the concatenation puts its elements last |
| `ConfigSetLaws.FlattenLength` | src/ConfigSetInterface.ts:16-18 | the concatenation is as long as all arrays together |
| `ConfigSetLaws.ShallowMergeKeys` | src/ConfigSet.ts:56 | `Object.assign({}, ...parts)` has exactly the keys of all parts |
| `ConfigSetLaws.ShallowMergeLastWins` | src/ConfigSet.ts:56 | the last part defining a key gives the merge its value |
| `ConfigSetLaws.ShallowMergeAgreed` | src/ConfigSet.ts:108 | when the parts agree, the merge gives each key the value every defining part gives it |
| `ConfigSetLaws.ConcatArraysSucceedsIff` | src/ConfigSet.ts:26-33 | concatArrays succeeds if and only if every config's value is an array, null or absent |
| `ConfigSetLaws.ConcatArraysFirstError` | src/ConfigSet.ts:29-33 | a failure is the error of the first config whose value is not an array |
| `ConfigSetLaws.ConcatArraysConcatenates` | src/ConfigSet.ts:23-38 | on success the result is every config's array (nothing for null or absent), concatenated in config order |
| `ConfigSetLaws.ConcatArraysLength` | src/ConfigSetInterface.ts:16-18 | on success the result's length is the sum of the lengths of the arrays present |
| `ConfigSetLaws.MergeObjectsSucceedsIff` | src/ConfigSet.ts:48-54 | mergeObjects succeeds if and only if no config's value is a boolean, number or string |
| `ConfigSetLaws.MergeObjectsFirstError` | src/ConfigSet.ts:50-54 | a failure is the error of the first config whose value is not an object |
| `ConfigSetLaws.MergeObjectsIsShallowMerge` | src/ConfigSet.ts:44-59 | on success the result is `Object.assign({}, ...)` of every config's object, in config order |
| `ConfigSetLaws.MergeObjectsLastWriterWins` | src/ConfigSetInterface.ts:27-29 | on success the keys are the union of the configs' objects' keys, each with the value of the last config defining it |
| `ConfigSetLaws.MergeObjectsRepeated` | src/ConfigSet.ts:56 | merging `[A, A]` gives the same as merging `[A]`, which is A's object |
| `ConfigSetLaws.AgreePrefix` | src/ConfigSet.ts:87-93 | agreement of the sources holds for every prefix |
| `ConfigSetLaws.AgreeSnoc` | src/ConfigSet.ts:87-93 | a source that clashes with nothing merged so far keeps the sources in agreement |
| `ConfigSetLaws.ClashDisagrees` | src/ConfigSet.ts:88-93 | a source that clashes with the merge so far disagrees with some earlier source |
| `ConfigSetLaws.MergeUniqueSucceedsIff` | src/ConfigSetInterface.ts:38-47 | mergeUniqueObjects succeeds if and only if every config supplies an object and no key gets two different values across the configs; the result is then the plain shallow merge |
| `ConfigSetLaws.MergeUniqueValues` | src/ConfigSet.ts:87-108 | on success the keys are the union of the sources' keys, each with the value every defining source gives it |
| `ConfigSetLaws.MergeUniqueFailsAtOneConfig` | src/ConfigSet.ts:77-104 | a failure happens at one config: its setting value is not an object, or it clashes with the successful merge of the configs before it |
| `ConfigSetLaws.AgreeAmong` | src/ConfigSet.ts:87-93 | sources drawn from agreeing sources agree |
| `ConfigSetLaws.ShallowMergeIncluded` | src/ConfigSet.ts:108 | the merge of agreeing sources is contained in the merge of any agreeing sources including them |
| `ConfigSetLaws.ShallowMergeSameParts` | src/ConfigSet.ts:108 | agreeing sources merge to the same object whatever their order or repetition |
| `ConfigSetLaws.UniquePartsOfMembers` | src/ConfigSet.ts:68-85 | the sources of configs drawn from a list are among that list's sources |
| `ConfigSetLaws.MergeUniqueReorder` | src/ConfigSet.ts:65-112 | reordering the configs changes neither whether mergeUniqueObjects succeeds nor what it returns |
| `LibraryConfig.GetConfigForLibrary` | src/Config.ts:22-53 | fails with "should not be null" exactly for a null main block, and with "should be an object" exactly for a boolean, number or string one; both errors name the main library; with a sub-library the result is an object |
| `LibraryConfig.SucceedsIff` | src/Config.ts:28-42 | the call succeeds if and only if the main block is an object, an array or undefined |
| `LibraryConfig.NoSubLibraryReturnsMainBlock` | src/Config.ts:44-46 | without a sub-library the main block is returned unchanged, or `{}` when undefined |
| `LibraryConfig.SubLibraryOverlay` | src/Config.ts:48-52 | with a sub-library the keys are the union of the top-level sub block's and `main[sub]`'s keys, and `main[sub]` wins on every key it defines |
| `LibraryConfig.MissingMainBlock` | src/Config.ts:34-36 | with an undefined main block the result is the own properties of the sub-library's top-level block, which is the block itself when it is an object |
| `LibraryConfig.MissingNestedBlock` | src/Config.ts:48-52 | a missing `main[sub]` contributes nothing; with no top-level sub block either, the result is `{}` |
| `Scenarios.ConcatArraysSkipsNullish` | test/unit/ConfigSet.test.ts:46-66 | null and undefined values add no elements: `[first]`, null, undefined, `[second]` concatenate to `[first, second]` |
| `Scenarios.ConcatArraysRejectsString` | test/unit/ConfigSet.test.ts:68-84 | a string after an array fails with the setting's name, the tag `string` and the string |
| `Scenarios.MergeUniqueReportsProperty` | test/unit/ConfigSet.test.ts:248-267 | with a setting name, the clash on `second` is reported exactly as property "second" of that setting, with values `two` and `[different]` |
| `Scenarios.MergeUniqueReportsSetting` | test/unit/ConfigSet.test.ts:269-285 | without a setting name, the clash is reported exactly as the setting `my_string_setting`, with both values |
| `Scenarios.NestedBlockOverrides` | test/unit/Config.test.ts:35-45 | the block under the main library overrides `first_setting` of the top-level sub-library block and keeps `second_setting` |

Definitions the contracts above are written in, with no row of their own:
`JsValues.TypeOf` (`typeof`, src/ConfigSet.ts:50), `JsValues.NullishOr` (`??`,
src/ConfigSet.ts:27), `JsValues.Lookup` (`config[name]`, src/ConfigSet.ts:26),
`JsValues.OwnProps` (the properties `Object.assign` copies, src/ConfigSet.ts:56),
`ConfigSets.UniqueSource` (src/ConfigSet.ts:68-85), `ConfigSets.ConflictError`
(src/ConfigSet.ts:94-104), `LibraryConfig.MainBlock` (src/Config.ts:26-36),
`JsValues.Get` (the property reads `settingValue[propertyName]`,
src/ConfigSet.ts:91,94, and `mainConfig[subLibraryName]`, src/Config.ts:52,
including array and string indices and `length`), `ConfigSets.Named` (the
truthiness test on the setting name, src/ConfigSet.ts:71,96),
`JsValues.IsScalar` (the values `typeof ... !== 'object'` rejects,
src/ConfigSet.ts:50,77 and src/Config.ts:38), `JsValues.IsNullish` (the values
`??` replaces, src/ConfigSet.ts:27,48 and src/Config.ts:48) and
`JsValues.ParseIndex` (reading a property name as an array index, the inverse
of `JsValues.IndexKey`, src/ConfigSet.ts:56).
What they mean is carried by the rows that use them, for instance
`ConfigSetLaws.MergeUniqueSucceedsIff`, `Scenarios.MergeUniqueReportsSetting`
and `LibraryConfig.SucceedsIff`.

## Left out

- `ConfigSets.ConfigSet.MergeUniqueObjects`: compares values structurally. The
  source uses `!==`, which compares nested objects and arrays by reference. So
  two separately written but equal nested objects clash in the source and not
  in the model. NaN, which is not equal to itself, is not modelled either.
- `ConfigSets.ConfigSet.MergeUniqueObjects`: does not say which conflicting
  key is reported. The model has no key order. JavaScript's key order
  (integer-like keys first, then insertion order) is not modelled.
- `ConfigSets.ConfigSet.ToArray`: returns a value, not the source's shared array
  reference. That the caller could mutate the stored configs through the
  returned array (aliasing) is not captured.
- Numbers are opaque integers. JavaScript's floating point is not modelled,
  since the core only copies and compares numbers.
- Inherited object properties are not modelled. For example,
  `allConfig["toString"]` reads a function from `Object.prototype`; the model reads undefined.
- Error message text is not modelled. An error carries its kind, the
  setting or library it names, and, where the message shows one, the
  `typeof` tag and the offending values. The `${value}` rendering is not modelled.
- `LibraryConfig.GetConfigForLibrary`: returns a value. Without a sub-library
  the source returns the very object stored in `allConfig` (src/Config.ts:45),
  so a caller that mutates the result mutates the loaded config; that aliasing
  is not captured.
- Strings are Dafny strings, sequences of Unicode scalar values, while
  JavaScript indexes strings by UTF-16 code unit. So for a string holding a
  character outside the Basic Multilingual Plane, `JsValues.OwnProps` (what
  `Object.assign` spreads, src/ConfigSet.ts:56 and src/Config.ts:52) gives fewer
  index keys than JavaScript, one whole character under each, and `JsValues.Get`
  gives a smaller `length`. For strings of Basic Multilingual Plane characters
  only, the two agree.
- The plugin-list resolver, ConfigExporter, ConfigImporter,
  SerialisationChecker and Requirer are not part of this model.
- src/Loader.ts (file-system search and module loading) is not modelled: it is I/O.
  src/ConfigLoader.ts and src/index.ts are not modelled either: they only wire the pieces together.
