/**
 * Concrete configurations from the repository's unit tests, with the outcome
 * the tests expect, derived from the model.
 */
module Scenarios {
  import opened Results
  import opened JsValues
  import opened ConfigSets
  import opened LibraryConfig

  /** Null and undefined values for the setting contribute no elements. */
  lemma ConcatArraysSkipsNullish()
    ensures ConcatArraysOf([
        map["my_array_setting" := Arr([Str("first")])],
        map["my_array_setting" := Null],
        map["my_array_setting" := Undef],
        map["my_array_setting" := Arr([Str("second")])]
      ], "my_array_setting") == Ok([Str("first"), Str("second")])
  {
    var name := "my_array_setting";
    var c0, c1, c2, c3 := map[name := Arr([Str("first")])], map[name := Null], map[name := Undef], map[name := Arr([Str("second")])];
    var first: seq<Value> := [Str("first")];
    assert [c0][..0] == [] && [] + first == first && first + [] == first;
    assert ConcatArraysOf([c0], name) == Ok(first);
    assert [c0, c1][..1] == [c0];
    assert ConcatArraysOf([c0, c1], name) == Ok([Str("first")]);
    assert [c0, c1, c2][..2] == [c0, c1];
    assert ConcatArraysOf([c0, c1, c2], name) == Ok([Str("first")]);
    assert [c0, c1, c2, c3][..3] == [c0, c1, c2];
    assert first + [Str("second")] == [Str("first"), Str("second")];
    assert ConcatArraysOf([c0, c1, c2, c3], name) == Ok([Str("first"), Str("second")]);
  }

  /** A string where an array is expected fails, naming the setting and its `typeof`. */
  lemma ConcatArraysRejectsString()
    ensures ConcatArraysOf([
        map["my_array_setting" := Arr([Str("first"), Str("second")])],
        map["my_array_setting" := Str("not an array")]
      ], "my_array_setting") == Err(NotArray("my_array_setting", TString, Str("not an array")))
  {
    var cs := [
      map["my_array_setting" := Arr([Str("first"), Str("second")])],
      map["my_array_setting" := Str("not an array")]
    ];
    assert cs[..1][..0] == [];
  }

  /** With a setting name, a clash is reported as a property of that setting. */
  lemma MergeUniqueReportsProperty(e: Error)
    ensures var f := MergeUniqueOf([
        map["my_unique_object_setting" := Obj(map["first" := Str("one"), "second" := Str("two")])],
        map["my_unique_object_setting" := Obj(map["second" := Str("[different]")])]
      ], Some("my_unique_object_setting"));
      f.Err? && (Reports(f.error, Some("my_unique_object_setting"), e) <==>
        e == NotUnique("my_unique_object_setting", PropertyNamed("second"), Str("two"), Str("[different]")))
  {
    var first := map["first" := Str("one"), "second" := Str("two")];
    var second := map["second" := Str("[different]")];
    var cs := [map["my_unique_object_setting" := Obj(first)], map["my_unique_object_setting" := Obj(second)]];
    assert cs[..1][..0] == [];
    assert MergeUniqueOf(cs[..1], Some("my_unique_object_setting")) == Ok(first) by {
      assert map[] + first == first;
    }
    assert Conflicts(first, second) == {"second"};
  }

  /** Without a setting name, a clash is reported as a setting named after the clashing key. */
  lemma MergeUniqueReportsSetting(e: Error)
    ensures var f := MergeUniqueOf([
        map["my_string_setting" := Str("first value")],
        map["my_string_setting" := Str("[different]")]
      ], None);
      f.Err? && (Reports(f.error, None, e) <==>
        e == NotUnique("my_string_setting", WholeSetting, Str("first value"), Str("[different]")))
  {
    var first := map["my_string_setting" := Str("first value")];
    var second := map["my_string_setting" := Str("[different]")];
    var cs := [first, second];
    assert cs[..1][..0] == [];
    assert MergeUniqueOf(cs[..1], None) == Ok(first) by {
      assert map[] + first == first;
    }
    assert Conflicts(first, second) == {"my_string_setting"};
  }

  /** The block nested under the main library overrides the sub-library's top-level block. */
  lemma NestedBlockOverrides()
    ensures GetConfigForLibrary(
        map[
          "my_main_lib" := Obj(map["my_sub_lib" := Obj(map["first_setting" := Str("[overridden] first value")])]),
          "my_sub_lib" := Obj(map["first_setting" := Str("first value"), "second_setting" := Str("second value")])
        ], "my_main_lib", Some("my_sub_lib"))
      == Ok(Obj(map["first_setting" := Str("[overridden] first value"), "second_setting" := Str("second value")]))
  {
    var top := map["first_setting" := Str("first value"), "second_setting" := Str("second value")];
    var nested := map["first_setting" := Str("[overridden] first value")];
    assert map[] + top + nested == map["first_setting" := Str("[overridden] first value"), "second_setting" := Str("second value")];
  }
}
