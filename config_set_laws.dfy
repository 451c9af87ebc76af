/**
 * What the merge engine's operations mean: when they fail and with which
 * error, and what they compute, stated against reference definitions that do
 * not stop at errors (the concatenation of all arrays, the plain shallow merge
 * of all objects, pairwise agreement of all sources).
 */
module ConfigSetLaws {
  import opened Results
  import opened JsValues
  import opened ConfigSets

  // ---------------------------------------------------------------------------
  // Reference definitions.

  /** The elements a value contributes to concatArrays: an array's, or none. */
  function PresentElems(v: Value): seq<Value> {
    if v.Arr? then v.elems else []
  }

  /** Each config's array for the setting, in config order. */
  function ArrayParts(configs: seq<SubConfig>, name: string): (parts: seq<seq<Value>>)
    ensures |parts| == |configs|
  {
    seq(|configs|, i requires 0 <= i < |configs| => PresentElems(Lookup(configs[i], name)))
  }

  /** The concatenation of a sequence of arrays, first to last. */
  function Flatten(parts: seq<seq<Value>>): seq<Value> {
    if parts == [] then [] else parts[0] + Flatten(parts[1..])
  }

  /** The sum of the lengths of a sequence of arrays. */
  function TotalLength(parts: seq<seq<Value>>): nat {
    if parts == [] then 0 else |parts[0]| + TotalLength(parts[1..])
  }

  /** Each config's object for the setting, as the properties `Object.assign` copies. */
  function ObjectParts(configs: seq<SubConfig>, name: string): (parts: seq<SubConfig>)
    ensures |parts| == |configs|
  {
    seq(|configs|, i requires 0 <= i < |configs| => OwnProps(Lookup(configs[i], name)))
  }

  /** What mergeUniqueObjects takes from a config: the setting's properties, or the whole config. */
  function UniqueProps(config: SubConfig, name: Option<string>): SubConfig {
    if Named(name) then OwnProps(Lookup(config, name.value)) else config
  }

  function UniqueParts(configs: seq<SubConfig>, name: Option<string>): (parts: seq<SubConfig>)
    ensures |parts| == |configs|
  {
    seq(|configs|, i requires 0 <= i < |configs| => UniqueProps(configs[i], name))
  }

  /** `Object.assign({}, ...parts)`: copy every part in order onto an empty object. */
  function ShallowMerge(parts: seq<SubConfig>): SubConfig {
    if parts == [] then map[] else ShallowMerge(parts[..|parts| - 1]) + parts[|parts| - 1]
  }

  /** No key is given two different values by two parts. */
  ghost predicate Agree(parts: seq<SubConfig>) {
    forall i, j, k :: 0 <= i < |parts| && 0 <= j < |parts| && k in parts[i] && k in parts[j] ==> parts[i][k] == parts[j][k]
  }

  // ---------------------------------------------------------------------------
  // Facts about the reference definitions.

  lemma {:induction false} FlattenSnoc(parts: seq<seq<Value>>, last: seq<Value>)
    ensures Flatten(parts + [last]) == Flatten(parts) + last
  {
    if parts != [] {
      assert (parts + [last])[1..] == parts[1..] + [last];
      FlattenSnoc(parts[1..], last);
    }
  }

  /** The concatenation is as long as all arrays together. */
  lemma {:induction false} FlattenLength(parts: seq<seq<Value>>)
    ensures |Flatten(parts)| == TotalLength(parts)
  {
    if parts != [] {
      FlattenLength(parts[1..]);
    }
  }

  /** The merge has exactly the keys of all parts. */
  lemma {:induction false} ShallowMergeKeys(parts: seq<SubConfig>)
    ensures forall k :: k in ShallowMerge(parts) <==> exists i :: 0 <= i < |parts| && k in parts[i]
  {
    if parts != [] {
      var n := |parts| - 1;
      var init := parts[..n];
      ShallowMergeKeys(init);
      assert ShallowMerge(parts) == ShallowMerge(init) + parts[n];
      forall k | k in ShallowMerge(parts) ensures exists i :: 0 <= i < |parts| && k in parts[i] {
        if k !in parts[n] {
          var i :| 0 <= i < n && k in init[i];
          assert k in parts[i];
        }
      }
      forall k, i | 0 <= i < |parts| && k in parts[i] ensures k in ShallowMerge(parts) {
        if i < n {
          assert k in init[i];
        }
      }
    }
  }

  /** The last part that defines a key gives the merge its value there. */
  lemma {:induction false} ShallowMergeLastWins(parts: seq<SubConfig>, i: nat, k: string)
    requires i < |parts| && k in parts[i]
    requires forall j :: i < j < |parts| ==> k !in parts[j]
    ensures k in ShallowMerge(parts) && ShallowMerge(parts)[k] == parts[i][k]
  {
    var n := |parts| - 1;
    if i < n {
      var init := parts[..n];
      assert k in init[i];
      ShallowMergeLastWins(init, i, k);
    }
  }

  /** When the parts agree, the merge gives each key the value every defining part gives it. */
  lemma {:induction false} ShallowMergeAgreed(parts: seq<SubConfig>, i: nat, k: string)
    requires Agree(parts) && i < |parts| && k in parts[i]
    ensures k in ShallowMerge(parts) && ShallowMerge(parts)[k] == parts[i][k]
  {
    var n := |parts| - 1;
    if k !in parts[n] {
      var init := parts[..n];
      assert k in init[i];
      assert Agree(init) by {
        forall a, b, key | 0 <= a < n && 0 <= b < n && key in init[a] && key in init[b]
          ensures init[a][key] == init[b][key]
        {
          assert init[a] == parts[a] && init[b] == parts[b];
        }
      }
      ShallowMergeAgreed(init, i, k);
    } else {
      assert parts[n][k] == parts[i][k];
    }
  }

  // ---------------------------------------------------------------------------
  // concatArrays

  /** concatArrays succeeds exactly when every config's value is an array, null or absent. */
  lemma {:induction false} ConcatArraysSucceedsIff(configs: seq<SubConfig>, name: string)
    ensures ConcatArraysOf(configs, name).Ok? <==>
      forall i :: 0 <= i < |configs| ==> ArraySource(configs[i], name).Ok?
  {
    if configs != [] {
      var n := |configs| - 1;
      var init := configs[..n];
      ConcatArraysSucceedsIff(init, name);
      assert forall i :: 0 <= i < n ==> init[i] == configs[i];
    }
  }

  /** A failure is the error of the first config whose value is not an array. */
  lemma {:induction false} ConcatArraysFirstError(configs: seq<SubConfig>, name: string)
    requires ConcatArraysOf(configs, name).Err?
    ensures exists j :: (0 <= j < |configs|
      && ArraySource(configs[j], name) == Err(ConcatArraysOf(configs, name).error)
      && forall i :: 0 <= i < j ==> ArraySource(configs[i], name).Ok?)
  {
    var n := |configs| - 1;
    var init := configs[..n];
    assert forall i :: 0 <= i < n ==> init[i] == configs[i];
    if ConcatArraysOf(init, name).Err? {
      ConcatArraysFirstError(init, name);
      var j :| 0 <= j < n && ArraySource(init[j], name) == Err(ConcatArraysOf(init, name).error)
        && forall i :: 0 <= i < j ==> ArraySource(init[i], name).Ok?;
      assert ArraySource(configs[j], name) == Err(ConcatArraysOf(configs, name).error);
    } else {
      ConcatArraysSucceedsIff(init, name);
      assert ArraySource(configs[n], name) == Err(ConcatArraysOf(configs, name).error);
    }
  }

  /** On success the result is every config's array, concatenated in config order. */
  lemma {:induction false} ConcatArraysConcatenates(configs: seq<SubConfig>, name: string)
    requires ConcatArraysOf(configs, name).Ok?
    ensures ConcatArraysOf(configs, name).value == Flatten(ArrayParts(configs, name))
  {
    if configs != [] {
      var n := |configs| - 1;
      var init := configs[..n];
      ConcatArraysConcatenates(init, name);
      var parts := ArrayParts(configs, name);
      assert ArrayParts(init, name) == parts[..n];
      assert parts == parts[..n] + [parts[n]];
      FlattenSnoc(parts[..n], parts[n]);
    }
  }

  /** On success the result's length is the sum of the lengths of the arrays present. */
  lemma ConcatArraysLength(configs: seq<SubConfig>, name: string)
    requires ConcatArraysOf(configs, name).Ok?
    ensures |ConcatArraysOf(configs, name).value| == TotalLength(ArrayParts(configs, name))
  {
    ConcatArraysConcatenates(configs, name);
    FlattenLength(ArrayParts(configs, name));
  }

  // ---------------------------------------------------------------------------
  // mergeObjects

  /** mergeObjects succeeds exactly when no config's value is a boolean, number or string. */
  lemma {:induction false} MergeObjectsSucceedsIff(configs: seq<SubConfig>, name: string)
    ensures MergeObjectsOf(configs, name).Ok? <==>
      forall i :: 0 <= i < |configs| ==> !IsScalar(Lookup(configs[i], name))
  {
    if configs != [] {
      var n := |configs| - 1;
      var init := configs[..n];
      MergeObjectsSucceedsIff(init, name);
      assert forall i :: 0 <= i < n ==> init[i] == configs[i];
    }
  }

  /** A failure is the error of the first config whose value is not an object. */
  lemma {:induction false} MergeObjectsFirstError(configs: seq<SubConfig>, name: string)
    requires MergeObjectsOf(configs, name).Err?
    ensures exists j :: (0 <= j < |configs|
      && ObjectSource(configs[j], name) == Err(MergeObjectsOf(configs, name).error)
      && forall i :: 0 <= i < j ==> ObjectSource(configs[i], name).Ok?)
  {
    var n := |configs| - 1;
    var init := configs[..n];
    assert forall i :: 0 <= i < n ==> init[i] == configs[i];
    if MergeObjectsOf(init, name).Err? {
      MergeObjectsFirstError(init, name);
      var j :| 0 <= j < n && ObjectSource(init[j], name) == Err(MergeObjectsOf(init, name).error)
        && forall i :: 0 <= i < j ==> ObjectSource(init[i], name).Ok?;
      assert ObjectSource(configs[j], name) == Err(MergeObjectsOf(configs, name).error);
    } else {
      MergeObjectsSucceedsIff(init, name);
      assert ObjectSource(configs[n], name) == Err(MergeObjectsOf(configs, name).error);
    }
  }

  /** On success the result is the shallow merge of every config's object, in config order. */
  lemma {:induction false} MergeObjectsIsShallowMerge(configs: seq<SubConfig>, name: string)
    requires MergeObjectsOf(configs, name).Ok?
    ensures MergeObjectsOf(configs, name).value == ShallowMerge(ObjectParts(configs, name))
  {
    if configs != [] {
      var n := |configs| - 1;
      var init := configs[..n];
      MergeObjectsIsShallowMerge(init, name);
      assert ObjectParts(init, name) == ObjectParts(configs, name)[..n];
    }
  }

  /**
   * On success the result has the keys of all the configs' objects, each with
   * the value of the last config that defines it.
   */
  lemma MergeObjectsLastWriterWins(configs: seq<SubConfig>, name: string)
    requires MergeObjectsOf(configs, name).Ok?
    ensures var merged := MergeObjectsOf(configs, name).value;
      && (forall k :: k in merged <==> exists i :: 0 <= i < |configs| && k in ObjectParts(configs, name)[i])
      && (forall i, k :: 0 <= i < |configs| && k in ObjectParts(configs, name)[i]
            && (forall j :: i < j < |configs| ==> k !in ObjectParts(configs, name)[j])
            ==> k in merged && merged[k] == ObjectParts(configs, name)[i][k])
  {
    var parts := ObjectParts(configs, name);
    MergeObjectsIsShallowMerge(configs, name);
    ShallowMergeKeys(parts);
    forall i, k | 0 <= i < |configs| && k in parts[i] && (forall j :: i < j < |configs| ==> k !in parts[j])
      ensures k in ShallowMerge(parts) && ShallowMerge(parts)[k] == parts[i][k]
    {
      ShallowMergeLastWins(parts, i, k);
    }
  }

  /** Merging a config with itself gives that config's object: merging [A, A] yields A. */
  lemma MergeObjectsRepeated(config: SubConfig, name: string)
    ensures MergeObjectsOf([config, config], name) == MergeObjectsOf([config], name)
    ensures MergeObjectsOf([config], name) == ObjectSource(config, name)
  {
    assert [config, config][..1] == [config];
    assert [config][..0] == [];
    match ObjectSource(config, name)
    case Err(_) =>
    case Ok(props) =>
      assert map[] + props == props;
      assert props + props == props;
  }

  // ---------------------------------------------------------------------------
  // mergeUniqueObjects

  /** Agreement of the parts holds for every prefix of them. */
  lemma AgreePrefix(parts: seq<SubConfig>, n: nat)
    requires Agree(parts) && n <= |parts|
    ensures Agree(parts[..n])
  {
  }

  /** Adding a part that clashes with nothing merged so far keeps the parts in agreement. */
  lemma AgreeSnoc(parts: seq<SubConfig>)
    requires |parts| >= 1
    requires Agree(parts[..|parts| - 1])
    requires Conflicts(ShallowMerge(parts[..|parts| - 1]), parts[|parts| - 1]) == {}
    ensures Agree(parts)
  {
    var n := |parts| - 1;
    var init := parts[..n];
    forall a, b, k | 0 <= a < |parts| && 0 <= b < |parts| && k in parts[a] && k in parts[b]
      ensures parts[a][k] == parts[b][k]
    {
      if a < n {
        assert init[a] == parts[a];
        ShallowMergeAgreed(init, a, k);
      }
      if b < n {
        assert init[b] == parts[b];
        ShallowMergeAgreed(init, b, k);
      }
    }
  }

  /** A part that clashes with the merge so far disagrees with some earlier part. */
  lemma ClashDisagrees(parts: seq<SubConfig>)
    requires |parts| >= 1
    requires Agree(parts[..|parts| - 1])
    requires Conflicts(ShallowMerge(parts[..|parts| - 1]), parts[|parts| - 1]) != {}
    ensures !Agree(parts)
  {
    var n := |parts| - 1;
    var init := parts[..n];
    var merged := ShallowMerge(init);
    var k :| k in Conflicts(merged, parts[n]);
    ShallowMergeKeys(init);
    var a :| 0 <= a < n && k in init[a];
    ShallowMergeAgreed(init, a, k);
    assert init[a] == parts[a];
    assert parts[a][k] != parts[n][k];
  }

  /**
   * mergeUniqueObjects succeeds exactly when every config supplies an object
   * and no key is given two different values across the configs; the result is
   * then the plain shallow merge of the sources.
   */
  lemma {:induction false} MergeUniqueSucceedsIff(configs: seq<SubConfig>, name: Option<string>)
    ensures MergeUniqueOf(configs, name).Ok? <==>
      (forall i :: 0 <= i < |configs| ==> UniqueSource(configs[i], name).Ok?) && Agree(UniqueParts(configs, name))
    ensures MergeUniqueOf(configs, name).Ok? ==>
      MergeUniqueOf(configs, name).value == ShallowMerge(UniqueParts(configs, name))
  {
    if configs != [] {
      var n := |configs| - 1;
      var init := configs[..n];
      var parts := UniqueParts(configs, name);
      MergeUniqueSucceedsIff(init, name);
      assert forall i :: 0 <= i < n ==> init[i] == configs[i];
      assert UniqueParts(init, name) == parts[..n];
      if Agree(parts) {
        AgreePrefix(parts, n);
      }
      if MergeUniqueOf(init, name).Ok? && UniqueSource(configs[n], name).Ok? {
        assert UniqueSource(configs[n], name).value == parts[n];
        if Conflicts(ShallowMerge(parts[..n]), parts[n]) == {} {
          AgreeSnoc(parts);
        } else {
          ClashDisagrees(parts);
        }
      }
    }
  }

  /**
   * On success the result has the keys of all sources, and each key has the
   * value that every source defining it gives it.
   */
  lemma MergeUniqueValues(configs: seq<SubConfig>, name: Option<string>)
    requires MergeUniqueOf(configs, name).Ok?
    ensures var merged := MergeUniqueOf(configs, name).value;
      && (forall k :: k in merged <==> exists i :: 0 <= i < |configs| && k in UniqueParts(configs, name)[i])
      && (forall i, k :: 0 <= i < |configs| && k in UniqueParts(configs, name)[i]
            ==> k in merged && merged[k] == UniqueParts(configs, name)[i][k])
  {
    var parts := UniqueParts(configs, name);
    MergeUniqueSucceedsIff(configs, name);
    ShallowMergeKeys(parts);
    forall i, k | 0 <= i < |configs| && k in parts[i]
      ensures k in ShallowMerge(parts) && ShallowMerge(parts)[k] == parts[i][k]
    {
      ShallowMergeAgreed(parts, i, k);
    }
  }

  /**
   * A failure happens at one config: either its setting value is not an object,
   * or its properties clash with the (successful) merge of the configs before it.
   */
  lemma {:induction false} MergeUniqueFailsAtOneConfig(configs: seq<SubConfig>, name: Option<string>)
    requires MergeUniqueOf(configs, name).Err?
    ensures exists j :: (0 <= j < |configs| && MergeUniqueOf(configs[..j], name).Ok? &&
      match MergeUniqueOf(configs, name).error
      case BadSource(e) => UniqueSource(configs[j], name) == Err(e)
      case Clash(merged, incoming) =>
        && MergeUniqueOf(configs[..j], name).value == merged
        && UniqueSource(configs[j], name) == Ok(incoming)
        && Conflicts(merged, incoming) != {})
  {
    var n := |configs| - 1;
    var init := configs[..n];
    if MergeUniqueOf(init, name).Err? {
      MergeUniqueFailsAtOneConfig(init, name);
      var j :| 0 <= j < n && MergeUniqueOf(init[..j], name).Ok? &&
        (match MergeUniqueOf(init, name).error
         case BadSource(e) => UniqueSource(init[j], name) == Err(e)
         case Clash(merged, incoming) =>
           && MergeUniqueOf(init[..j], name).value == merged
           && UniqueSource(init[j], name) == Ok(incoming)
           && Conflicts(merged, incoming) != {});
      assert init[..j] == configs[..j] && init[j] == configs[j];
    } else {
      assert MergeUniqueOf(configs[..n], name).Ok?;
    }
  }

  /** Parts drawn from agreeing parts agree. */
  lemma AgreeAmong(parts: seq<SubConfig>, drawn: seq<SubConfig>)
    requires Agree(parts)
    requires forall p :: p in drawn ==> p in parts
    ensures Agree(drawn)
  {
    forall i, j, k | 0 <= i < |drawn| && 0 <= j < |drawn| && k in drawn[i] && k in drawn[j]
      ensures drawn[i][k] == drawn[j][k]
    {
      assert drawn[i] in parts && drawn[j] in parts;
      var a :| 0 <= a < |parts| && parts[a] == drawn[i];
      var b :| 0 <= b < |parts| && parts[b] == drawn[j];
    }
  }

  /** The merge of agreeing parts is contained in the merge of any agreeing parts that include them. */
  lemma ShallowMergeIncluded(parts: seq<SubConfig>, parts': seq<SubConfig>, k: string)
    requires Agree(parts) && Agree(parts')
    requires forall p :: p in parts ==> p in parts'
    requires k in ShallowMerge(parts)
    ensures k in ShallowMerge(parts') && ShallowMerge(parts')[k] == ShallowMerge(parts)[k]
  {
    ShallowMergeKeys(parts);
    var a :| 0 <= a < |parts| && k in parts[a];
    assert parts[a] in parts';
    var b :| 0 <= b < |parts'| && parts'[b] == parts[a];
    ShallowMergeAgreed(parts, a, k);
    ShallowMergeAgreed(parts', b, k);
  }

  /** Agreeing parts merge to the same object whatever their order or repetition. */
  lemma ShallowMergeSameParts(parts: seq<SubConfig>, parts': seq<SubConfig>)
    requires Agree(parts) && Agree(parts')
    requires forall p :: p in parts <==> p in parts'
    ensures ShallowMerge(parts) == ShallowMerge(parts')
  {
    var merged, merged' := ShallowMerge(parts), ShallowMerge(parts');
    forall k | k in merged ensures k in merged' && merged'[k] == merged[k] {
      ShallowMergeIncluded(parts, parts', k);
    }
    forall k | k in merged' ensures k in merged {
      ShallowMergeIncluded(parts', parts, k);
    }
    assert merged == merged';
  }

  /** The sources of a config are among the sources of any sequence holding it. */
  lemma UniquePartsOfMembers(configs: seq<SubConfig>, others: seq<SubConfig>, name: Option<string>)
    requires forall c :: c in others ==> c in configs
    ensures forall p :: p in UniqueParts(others, name) ==> p in UniqueParts(configs, name)
    ensures forall i :: 0 <= i < |others| ==> exists a :: 0 <= a < |configs| && configs[a] == others[i]
  {
    var parts, parts' := UniqueParts(configs, name), UniqueParts(others, name);
    forall i | 0 <= i < |others| ensures exists a :: 0 <= a < |configs| && configs[a] == others[i] {
      assert others[i] in configs;
      var a :| 0 <= a < |configs| && configs[a] == others[i];
    }
    forall p | p in parts' ensures p in parts {
      var i :| 0 <= i < |others| && parts'[i] == p;
      assert others[i] in configs;
      var a :| 0 <= a < |configs| && configs[a] == others[i];
      assert parts[a] == p;
    }
  }

  /** Whether mergeUniqueObjects succeeds, and what it yields, does not depend on the configs' order. */
  lemma MergeUniqueReorder(configs: seq<SubConfig>, reordered: seq<SubConfig>, name: Option<string>)
    requires multiset(configs) == multiset(reordered)
    requires MergeUniqueOf(configs, name).Ok?
    ensures MergeUniqueOf(reordered, name) == MergeUniqueOf(configs, name)
  {
    var parts, parts' := UniqueParts(configs, name), UniqueParts(reordered, name);
    assert forall c :: c in reordered <==> c in multiset(reordered);
    assert forall c :: c in configs <==> c in multiset(configs);
    UniquePartsOfMembers(configs, reordered, name);
    UniquePartsOfMembers(reordered, configs, name);
    MergeUniqueSucceedsIff(configs, name);
    AgreeAmong(parts, parts');
    forall i | 0 <= i < |reordered| ensures UniqueSource(reordered[i], name).Ok? {
      var a :| 0 <= a < |configs| && configs[a] == reordered[i];
    }
    MergeUniqueSucceedsIff(reordered, name);
    ShallowMergeSameParts(parts, parts');
  }
}
