/** The current schema-directed expander: it walks a loaded config dict next
    to the field annotations of a model and replaces every string that
    stands where a model is expected by the expanded dict of the file it
    names, relative to the file that holds the string.  Inline model dicts
    are walked, and lists and dicts are expanded element by element whatever
    their elements are.  The result is plain dicts; validation comes after.

    There is no cycle guard in the expander, so the recursion through files
    carries `fuel`: each followed reference uses one unit, and `OutOfFuel` is
    what a reference chain deeper than the fuel gives.  `FuelIsOnlyABound`
    shows that more fuel never changes any other outcome. */
module Expand {
  import opened PurePaths
  import opened ConfigModel
  import Loaders

  /** `ConfigExpander`: all it keeps is the default suffix. */
  datatype ConfigExpander = ConfigExpander(defaultSuffix: Option<string>)

  /** `_get_optional_ann`: `Union[X, None, ...]` becomes `X`, whatever `X` is. */
  function GetOptionalAnn(a: Ann): (r: Ann)
    ensures r == a || (a.Union? && a.second == NoneT && r == a.first)
    ensures a.Union? && a.second == NoneT ==> r == a.first
  {
    if a.Union? && a.second == NoneT then a.first else a
  }

  /** `_get_list_value_ann`: the first argument of a list annotation that has one. */
  function GetListValueAnn(a: Ann): (r: Option<Ann>)
    ensures r.Some? <==> a.ListOf? && |a.args| > 0
    ensures r.Some? ==> r.value == a.args[0]
  {
    if a.ListOf? && |a.args| > 0 then Some(a.args[0]) else None
  }

  /** `_get_dict_value_ann`: the value argument of a dict annotation that has two. */
  function GetDictValueAnn(a: Ann): (r: Option<Ann>)
    ensures r.Some? <==> a.DictOf? && |a.args| > 1
    ensures r.Some? ==> r.value == a.args[1]
  {
    if a.DictOf? && |a.args| > 1 then Some(a.args[1]) else None
  }

  /** `ConfigExpander.expand`: load the file with the expander's default suffix and
      walk its dict against the model. */
  function Expand(x: ConfigExpander, w: World, configPath: Path, model: string, fuel: nat)
    : (r: Result<Entries>)
    ensures r.Ok? ==> configPath in w.files
    ensures Loaders.LoadConfig(w.loaders, w.files, configPath, x.defaultSuffix).Err? ==>
              r == Err(Loaders.LoadConfig(w.loaders, w.files, configPath, x.defaultSuffix).error)
    ensures r.Ok? ==> Loaders.LoadConfig(w.loaders, w.files, configPath, x.defaultSuffix).Ok? &&
                      Keys(r.value) == Keys(Loaders.LoadConfig(w.loaders, w.files, configPath, x.defaultSuffix).value)
    ensures Loaders.LoadConfig(w.loaders, w.files, configPath, x.defaultSuffix).Ok? ==>
              r == PreparseConfigDict(x, w, Loaders.LoadConfig(w.loaders, w.files, configPath, x.defaultSuffix).value,
                                      model, configPath, fuel)
    decreases fuel, 1, 0
  {
    var d :- Loaders.LoadConfig(w.loaders, w.files, configPath, x.defaultSuffix);
    PreparseConfigDict(x, w, d, model, configPath, fuel)
  }

  /** `_preparse_config_dict`: each value is preparsed against its field's annotation;
      the keys and their order are kept, and an undeclared key is a KeyError. */
  function PreparseConfigDict(x: ConfigExpander, w: World, d: Entries, model: string, configPath: Path, fuel: nat)
    : (r: Result<Entries>)
    ensures r.Ok? ==> Keys(r.value) == Keys(d)
    ensures r.Ok? ==> forall i :: 0 <= i < |d| ==> Declared(w.schema, model, d[i].0)
    decreases fuel, 0, SizeEntries(d)
  {
    if d == [] then Ok([])
    else
      var ann :- FieldAnn(w.schema, model, d[0].0);
      var v :- PreparseConfigValue(x, w, d[0].1, ann, configPath, fuel);
      var rest :- PreparseConfigDict(x, w, d[1..], model, configPath, fuel);
      Ok([(d[0].0, v)] + rest)
  }

  /** `_preparse_config_value`: the six-way dispatch, after unwrapping an optional.
      Whatever the case, a list stays a list of the same length, a dict keeps its
      keys, and a string either stays or becomes the dict of the file it names. */
  function PreparseConfigValue(x: ConfigExpander, w: World, v: Value, fieldAnn: Ann, configPath: Path, fuel: nat)
    : (r: Result<Value>)
    ensures !IsContainer(v) ==> r == Ok(v)
    ensures v.Str? && !IsPydModel(GetOptionalAnn(fieldAnn)) ==> r == Ok(v)
    ensures v.Str? && IsPydModel(GetOptionalAnn(fieldAnn)) && r.Ok? ==> r.value.Dict?
    ensures v.List? && r.Ok? ==> r.value.List? && |r.value.items| == |v.items|
    ensures v.Dict? && r.Ok? ==> r.value.Dict? && Keys(r.value.entries) == Keys(v.entries)
    decreases fuel, 0, Size(v)
  {
    var ann := GetOptionalAnn(fieldAnn);
    if !IsContainer(v) then Ok(v)
    else if v.Dict? && IsPydModel(ann) then
      var es :- PreparseConfigDict(x, w, v.entries, ann.name, configPath, fuel);
      Ok(Dict(es))
    else if v.Str? && IsPydModel(ann) then
      var es :- ParsePathStrIntoPydmodel(x, w, v.s, ann.name, configPath, fuel);
      Ok(Dict(es))
    else if v.List? && GetListValueAnn(ann).Some? then
      var items :- PreparseItems(x, w, v.items, GetListValueAnn(ann).value, configPath, fuel);
      Ok(List(items))
    else if v.Dict? && GetDictValueAnn(ann).Some? then
      var es :- PreparseDictValues(x, w, v.entries, GetDictValueAnn(ann).value, configPath, fuel);
      Ok(Dict(es))
    else Ok(v)
  }

  /** The list comprehension of case 4: every element under the element annotation. */
  function PreparseItems(x: ConfigExpander, w: World, items: seq<Value>, ann: Ann, configPath: Path, fuel: nat)
    : (r: Result<seq<Value>>)
    ensures r.Ok? ==> |r.value| == |items|
    decreases fuel, 0, SizeList(items)
  {
    if items == [] then Ok([])
    else
      var v :- PreparseConfigValue(x, w, items[0], ann, configPath, fuel);
      var rest :- PreparseItems(x, w, items[1..], ann, configPath, fuel);
      Ok([v] + rest)
  }

  /** The dict comprehension of case 5: every value under the value annotation. */
  function PreparseDictValues(x: ConfigExpander, w: World, d: Entries, ann: Ann, configPath: Path, fuel: nat)
    : (r: Result<Entries>)
    ensures r.Ok? ==> Keys(r.value) == Keys(d)
    decreases fuel, 0, SizeEntries(d)
  {
    if d == [] then Ok([])
    else
      var v :- PreparseConfigValue(x, w, d[0].1, ann, configPath, fuel);
      var rest :- PreparseDictValues(x, w, d[1..], ann, configPath, fuel);
      Ok([(d[0].0, v)] + rest)
  }

  /** `_parse_path_str_into_pydmodel`: resolve the reference against the directory of
      the referencing file, insist that it is a file, and expand it with the
      resolved path as the new anchor for the references inside it. */
  function ParsePathStrIntoPydmodel(x: ConfigExpander, w: World, pathStr: string, model: string,
                                    parentPath: Path, fuel: nat)
    : (r: Result<Entries>)
    ensures ResolveRef(parentPath, pathStr) !in w.files ==> r == Err(FileNotFound(parentPath, pathStr))
    ensures r.Ok? ==> ResolveRef(parentPath, pathStr) in w.files
    ensures ResolveRef(parentPath, pathStr) in w.files && fuel == 0 ==> r == Err(OutOfFuel)
    ensures ResolveRef(parentPath, pathStr) in w.files && fuel > 0 ==>
              r == Expand(x, w, ResolveRef(parentPath, pathStr), model, fuel - 1)
    decreases fuel, 0, 0
  {
    var path := ResolveRef(parentPath, pathStr);
    if path !in w.files then Err(FileNotFound(parentPath, pathStr))
    else if fuel == 0 then Err(OutOfFuel)
    else Expand(x, w, path, model, fuel - 1)
  }

  /** `expand_config` followed by validation into the model. */
  function ValidateConfig(w: World, configPath: Path, model: string, defaultSuffix: Option<string>, fuel: nat)
    : (r: Result<Value>)
    ensures r.Ok? ==> r.value.Obj? && r.value.model == model
    ensures r.Ok? ==> Loaders.LoadConfig(w.loaders, w.files, configPath, defaultSuffix).Ok? &&
                      Keys(r.value.fields) == Keys(Loaders.LoadConfig(w.loaders, w.files, configPath, defaultSuffix).value)
    ensures var e := Expand(ConfigExpander(defaultSuffix), w, configPath, model, fuel);
            && (e.Ok? ==> r == Ok(Obj(model, e.value)))
            && (e.Err? ==> r == Err(e.error))
  {
    var d :- Expand(ConfigExpander(defaultSuffix), w, configPath, model, fuel);
    Ok(Obj(model, d))
  }

  // ---------------------------------------------------------------------------
  // The dispatch, case by case

  /** An optional annotation expands exactly as the annotation it wraps. */
  lemma OptionalSameAsRequired(x: ConfigExpander, w: World, v: Value, a: Ann, rest: seq<Ann>,
                               configPath: Path, fuel: nat)
    requires GetOptionalAnn(a) == a
    ensures PreparseConfigValue(x, w, v, Union(a, NoneT, rest), configPath, fuel) ==
            PreparseConfigValue(x, w, v, a, configPath, fuel)
  {
  }

  /** Any other annotation, a union whose second member is not None included, is not unwrapped. */
  lemma OtherAnnotationsKept(a: Ann)
    requires !(a.Union? && a.second == NoneT)
    ensures GetOptionalAnn(a) == a
  {
  }

  /** Case 2: an inline dict where a model is expected is walked against that model,
      with the same anchor path. */
  lemma InlineModelDictIsWalked(x: ConfigExpander, w: World, es: Entries, fieldAnn: Ann, configPath: Path, fuel: nat)
    requires IsPydModel(GetOptionalAnn(fieldAnn))
    ensures var r := PreparseConfigValue(x, w, Dict(es), fieldAnn, configPath, fuel);
            var inner := PreparseConfigDict(x, w, es, GetOptionalAnn(fieldAnn).name, configPath, fuel);
            (r.Ok? <==> inner.Ok?) && (r.Ok? ==> r.value == Dict(inner.value)) &&
            (r.Err? ==> r.error == inner.error)
  {
  }

  /** Case 3: a string where a model is expected is the dict of the file it names. */
  lemma PathStringIsExpanded(x: ConfigExpander, w: World, s: string, fieldAnn: Ann, configPath: Path, fuel: nat)
    requires IsPydModel(GetOptionalAnn(fieldAnn))
    ensures var r := PreparseConfigValue(x, w, Str(s), fieldAnn, configPath, fuel);
            var path := ResolveRef(configPath, s);
            && (path !in w.files ==> r == Err(FileNotFound(configPath, s)))
            && (path in w.files && fuel > 0 ==>
                  var sub := Expand(x, w, path, GetOptionalAnn(fieldAnn).name, fuel - 1);
                  (r.Ok? <==> sub.Ok?) && (r.Ok? ==> r.value == Dict(sub.value)) &&
                  (r.Err? ==> r.error == sub.error))
  {
  }

  /** Case 4 at the dispatch: a list under an annotation with an element type is the
      element-by-element walk under that element type. */
  lemma ListUnderListAnnIsWalked(x: ConfigExpander, w: World, items: seq<Value>, fieldAnn: Ann,
                                 configPath: Path, fuel: nat)
    requires GetListValueAnn(GetOptionalAnn(fieldAnn)).Some?
    ensures var r := PreparseConfigValue(x, w, List(items), fieldAnn, configPath, fuel);
            var inner := PreparseItems(x, w, items, GetListValueAnn(GetOptionalAnn(fieldAnn)).value, configPath, fuel);
            (r.Ok? <==> inner.Ok?) && (r.Ok? ==> r.value == List(inner.value)) &&
            (r.Err? ==> r.error == inner.error)
  {
  }

  /** Case 5 at the dispatch: a dict under an annotation with a value type (and not a
      model) is the value-by-value walk under that value type. */
  lemma DictUnderDictAnnIsWalked(x: ConfigExpander, w: World, d: Entries, fieldAnn: Ann,
                                 configPath: Path, fuel: nat)
    requires GetDictValueAnn(GetOptionalAnn(fieldAnn)).Some?
    ensures var r := PreparseConfigValue(x, w, Dict(d), fieldAnn, configPath, fuel);
            var inner := PreparseDictValues(x, w, d, GetDictValueAnn(GetOptionalAnn(fieldAnn)).value, configPath, fuel);
            (r.Ok? <==> inner.Ok?) && (r.Ok? ==> r.value == Dict(inner.value)) &&
            (r.Err? ==> r.error == inner.error)
  {
  }

  /** Case 4: a list under `list[T]` is mapped element by element under `T`, whatever
      its elements are; it succeeds exactly when every element does. */
  lemma {:induction false} ListIsMappedElementwise(x: ConfigExpander, w: World, items: seq<Value>, ann: Ann,
                                                   configPath: Path, fuel: nat)
    ensures var r := PreparseItems(x, w, items, ann, configPath, fuel);
            && (r.Ok? <==> forall i :: 0 <= i < |items| ==> PreparseConfigValue(x, w, items[i], ann, configPath, fuel).Ok?)
            && (r.Ok? ==> forall i :: 0 <= i < |items| ==>
                            PreparseConfigValue(x, w, items[i], ann, configPath, fuel) == Ok(r.value[i]))
    decreases |items|
  {
    if items != [] {
      ListIsMappedElementwise(x, w, items[1..], ann, configPath, fuel);
      ItemsStep(x, w, items, ann, configPath, fuel);
      assert forall i :: 0 < i < |items| ==> items[i] == items[1..][i - 1];
    }
  }

  /** ... and when it fails, it fails with the error of the first element that does. */
  lemma {:induction false} ListFailsAtFirstError(x: ConfigExpander, w: World, items: seq<Value>, ann: Ann,
                                                 configPath: Path, fuel: nat)
    ensures var r := PreparseItems(x, w, items, ann, configPath, fuel);
            r.Err? ==> exists i :: 0 <= i < |items| &&
                         PreparseConfigValue(x, w, items[i], ann, configPath, fuel) == Err(r.error) &&
                         forall j :: 0 <= j < i ==> PreparseConfigValue(x, w, items[j], ann, configPath, fuel).Ok?
    decreases |items|
  {
    if items != [] {
      ListFailsAtFirstError(x, w, items[1..], ann, configPath, fuel);
      ItemsStep(x, w, items, ann, configPath, fuel);
      var r := PreparseItems(x, w, items, ann, configPath, fuel);
      var head := PreparseConfigValue(x, w, items[0], ann, configPath, fuel);
      var tail := PreparseItems(x, w, items[1..], ann, configPath, fuel);
      if head.Ok? && tail.Err? {
        var k :| 0 <= k < |items[1..]| &&
                 PreparseConfigValue(x, w, items[1..][k], ann, configPath, fuel) == Err(tail.error) &&
                 forall j :: 0 <= j < k ==> PreparseConfigValue(x, w, items[1..][j], ann, configPath, fuel).Ok?;
        assert items[1..][k] == items[k + 1];
        forall j | 0 < j <= k
          ensures PreparseConfigValue(x, w, items[j], ann, configPath, fuel).Ok?
        {
          assert items[j] == items[1..][j - 1];
        }
        assert PreparseConfigValue(x, w, items[k + 1], ann, configPath, fuel) == Err(r.error);
      }
    }
  }

  lemma ItemsStep(x: ConfigExpander, w: World, items: seq<Value>, ann: Ann, configPath: Path, fuel: nat)
    requires items != []
    ensures var r := PreparseItems(x, w, items, ann, configPath, fuel);
            var head := PreparseConfigValue(x, w, items[0], ann, configPath, fuel);
            var tail := PreparseItems(x, w, items[1..], ann, configPath, fuel);
            && (head.Err? ==> r == Err(head.error))
            && (head.Ok? && tail.Err? ==> r == Err(tail.error))
            && (head.Ok? && tail.Ok? ==> r == Ok([head.value] + tail.value))
  {
  }

  /** Case 5: a dict under `dict[K, V]` keeps its keys and maps each value under `V`. */
  lemma {:induction false} DictIsMappedValuewise(x: ConfigExpander, w: World, d: Entries, ann: Ann,
                                                 configPath: Path, fuel: nat)
    ensures var r := PreparseDictValues(x, w, d, ann, configPath, fuel);
            && (r.Ok? <==> forall i :: 0 <= i < |d| ==> PreparseConfigValue(x, w, d[i].1, ann, configPath, fuel).Ok?)
            && (r.Ok? ==> forall i :: 0 <= i < |d| ==>
                            r.value[i].0 == d[i].0 &&
                            PreparseConfigValue(x, w, d[i].1, ann, configPath, fuel) == Ok(r.value[i].1))
    decreases |d|
  {
    if d != [] {
      DictIsMappedValuewise(x, w, d[1..], ann, configPath, fuel);
      DictValuesStep(x, w, d, ann, configPath, fuel);
      assert forall i :: 0 < i < |d| ==> d[i] == d[1..][i - 1];
    }
  }

  lemma DictValuesStep(x: ConfigExpander, w: World, d: Entries, ann: Ann, configPath: Path, fuel: nat)
    requires d != []
    ensures var r := PreparseDictValues(x, w, d, ann, configPath, fuel);
            var head := PreparseConfigValue(x, w, d[0].1, ann, configPath, fuel);
            var tail := PreparseDictValues(x, w, d[1..], ann, configPath, fuel);
            && (head.Err? ==> r == Err(head.error))
            && (head.Ok? && tail.Err? ==> r == Err(tail.error))
            && (head.Ok? && tail.Ok? ==> r == Ok([(d[0].0, head.value)] + tail.value))
  {
  }

  /** One field of `_preparse_config_dict`: its annotation, then its value under it. */
  function FieldOutcome(x: ConfigExpander, w: World, field: (string, Value), model: string, configPath: Path, fuel: nat)
    : Result<Value>
  {
    var ann :- FieldAnn(w.schema, model, field.0);
    PreparseConfigValue(x, w, field.1, ann, configPath, fuel)
  }

  /** The walked dict holds, key by key, each field's value preparsed under that field's
      own annotation; it succeeds exactly when every field does (an undeclared key
      fails with UnknownField). */
  lemma {:induction false} ConfigDictIsMappedFieldwise(x: ConfigExpander, w: World, d: Entries, model: string,
                                                       configPath: Path, fuel: nat)
    ensures var r := PreparseConfigDict(x, w, d, model, configPath, fuel);
            && (r.Ok? <==> forall i :: 0 <= i < |d| ==> FieldOutcome(x, w, d[i], model, configPath, fuel).Ok?)
            && (r.Ok? ==> forall i :: 0 <= i < |d| ==>
                            r.value[i].0 == d[i].0 &&
                            FieldOutcome(x, w, d[i], model, configPath, fuel) == Ok(r.value[i].1))
    decreases |d|
  {
    if d != [] {
      ConfigDictIsMappedFieldwise(x, w, d[1..], model, configPath, fuel);
      ConfigDictStep(x, w, d, model, configPath, fuel);
      assert forall i :: 0 < i < |d| ==> d[i] == d[1..][i - 1];
    }
  }

  /** ... and when it fails, it fails with the error of the first field that does. */
  lemma {:induction false} ConfigDictFailsAtFirstError(x: ConfigExpander, w: World, d: Entries, model: string,
                                                       configPath: Path, fuel: nat)
    ensures var r := PreparseConfigDict(x, w, d, model, configPath, fuel);
            r.Err? ==> exists i :: 0 <= i < |d| &&
                         FieldOutcome(x, w, d[i], model, configPath, fuel) == Err(r.error) &&
                         forall j :: 0 <= j < i ==> FieldOutcome(x, w, d[j], model, configPath, fuel).Ok?
    decreases |d|
  {
    if d != [] {
      ConfigDictFailsAtFirstError(x, w, d[1..], model, configPath, fuel);
      ConfigDictStep(x, w, d, model, configPath, fuel);
      var r := PreparseConfigDict(x, w, d, model, configPath, fuel);
      var head := FieldOutcome(x, w, d[0], model, configPath, fuel);
      var tail := PreparseConfigDict(x, w, d[1..], model, configPath, fuel);
      if head.Ok? && tail.Err? {
        var k :| 0 <= k < |d[1..]| &&
                 FieldOutcome(x, w, d[1..][k], model, configPath, fuel) == Err(tail.error) &&
                 forall j :: 0 <= j < k ==> FieldOutcome(x, w, d[1..][j], model, configPath, fuel).Ok?;
        assert d[1..][k] == d[k + 1];
        forall j | 0 < j <= k
          ensures FieldOutcome(x, w, d[j], model, configPath, fuel).Ok?
        {
          assert d[j] == d[1..][j - 1];
        }
        assert FieldOutcome(x, w, d[k + 1], model, configPath, fuel) == Err(r.error);
      }
    }
  }

  lemma ConfigDictStep(x: ConfigExpander, w: World, d: Entries, model: string, configPath: Path, fuel: nat)
    requires d != []
    ensures var r := PreparseConfigDict(x, w, d, model, configPath, fuel);
            var head := FieldOutcome(x, w, d[0], model, configPath, fuel);
            var tail := PreparseConfigDict(x, w, d[1..], model, configPath, fuel);
            && (head.Err? ==> r == Err(head.error))
            && (head.Ok? && tail.Err? ==> r == Err(tail.error))
            && (head.Ok? && tail.Ok? ==> r == Ok([(d[0].0, head.value)] + tail.value))
  {
  }

  /** A key the model does not declare fails with a KeyError naming it. */
  lemma UndeclaredFieldFails(x: ConfigExpander, w: World, field: (string, Value), model: string,
                             configPath: Path, fuel: nat)
    requires !Declared(w.schema, model, field.0)
    ensures FieldOutcome(x, w, field, model, configPath, fuel) == Err(UnknownField(model, field.0))
  {
  }

  // ---------------------------------------------------------------------------
  // Inline data passes through

  /** No string stands where the dispatch expects a model, at any depth the dispatch
      walks, and every walked inline model dict declares all its keys. */
  predicate NoReferences(schema: Schema, v: Value, fieldAnn: Ann)
    decreases Size(v)
  {
    var ann := GetOptionalAnn(fieldAnn);
    if !IsContainer(v) then true
    else if v.Dict? && IsPydModel(ann) then NoReferencesInFields(schema, v.entries, ann.name)
    else if v.Str? && IsPydModel(ann) then false
    else if v.List? && GetListValueAnn(ann).Some? then
      NoReferencesInItems(schema, v.items, GetListValueAnn(ann).value)
    else if v.Dict? && GetDictValueAnn(ann).Some? then
      NoReferencesInValues(schema, v.entries, GetDictValueAnn(ann).value)
    else true
  }

  predicate NoReferencesInFields(schema: Schema, d: Entries, model: string)
    decreases SizeEntries(d)
  {
    d == [] ||
    (&& Declared(schema, model, d[0].0)
     && NoReferences(schema, d[0].1, FieldAnn(schema, model, d[0].0).value)
     && NoReferencesInFields(schema, d[1..], model))
  }

  predicate NoReferencesInItems(schema: Schema, items: seq<Value>, ann: Ann)
    decreases SizeList(items)
  {
    items == [] || (NoReferences(schema, items[0], ann) && NoReferencesInItems(schema, items[1..], ann))
  }

  predicate NoReferencesInValues(schema: Schema, d: Entries, ann: Ann)
    decreases SizeEntries(d)
  {
    d == [] || (NoReferences(schema, d[0].1, ann) && NoReferencesInValues(schema, d[1..], ann))
  }

  /** Expansion is the identity on data that holds no reference: it neither reads a
      file nor uses fuel, and returns the value as it was. */
  lemma {:induction false} NoReferencesUnchanged(x: ConfigExpander, w: World, v: Value, fieldAnn: Ann,
                                                 configPath: Path, fuel: nat)
    requires NoReferences(w.schema, v, fieldAnn)
    ensures PreparseConfigValue(x, w, v, fieldAnn, configPath, fuel) == Ok(v)
    decreases Size(v)
  {
    var ann := GetOptionalAnn(fieldAnn);
    if !IsContainer(v) {
    } else if v.Dict? && IsPydModel(ann) {
      NoReferencesInFieldsUnchanged(x, w, v.entries, ann.name, configPath, fuel);
    } else if v.List? && GetListValueAnn(ann).Some? {
      NoReferencesInItemsUnchanged(x, w, v.items, GetListValueAnn(ann).value, configPath, fuel);
    } else if v.Dict? && GetDictValueAnn(ann).Some? {
      NoReferencesInValuesUnchanged(x, w, v.entries, GetDictValueAnn(ann).value, configPath, fuel);
    }
  }

  lemma {:induction false} NoReferencesInFieldsUnchanged(x: ConfigExpander, w: World, d: Entries, model: string,
                                                         configPath: Path, fuel: nat)
    requires NoReferencesInFields(w.schema, d, model)
    ensures PreparseConfigDict(x, w, d, model, configPath, fuel) == Ok(d)
    decreases SizeEntries(d)
  {
    if d != [] {
      var ann := FieldAnn(w.schema, model, d[0].0);
      assert ann.Ok?;
      NoReferencesUnchanged(x, w, d[0].1, ann.value, configPath, fuel);
      assert FieldOutcome(x, w, d[0], model, configPath, fuel) == Ok(d[0].1);
      NoReferencesInFieldsUnchanged(x, w, d[1..], model, configPath, fuel);
      ConfigDictStep(x, w, d, model, configPath, fuel);
      assert d == [(d[0].0, d[0].1)] + d[1..];
    }
  }

  lemma {:induction false} NoReferencesInItemsUnchanged(x: ConfigExpander, w: World, items: seq<Value>, ann: Ann,
                                                        configPath: Path, fuel: nat)
    requires NoReferencesInItems(w.schema, items, ann)
    ensures PreparseItems(x, w, items, ann, configPath, fuel) == Ok(items)
    decreases SizeList(items)
  {
    if items != [] {
      NoReferencesUnchanged(x, w, items[0], ann, configPath, fuel);
      NoReferencesInItemsUnchanged(x, w, items[1..], ann, configPath, fuel);
      assert items == [items[0]] + items[1..];
    }
  }

  lemma {:induction false} NoReferencesInValuesUnchanged(x: ConfigExpander, w: World, d: Entries, ann: Ann,
                                                         configPath: Path, fuel: nat)
    requires NoReferencesInValues(w.schema, d, ann)
    ensures PreparseDictValues(x, w, d, ann, configPath, fuel) == Ok(d)
    decreases SizeEntries(d)
  {
    if d != [] {
      NoReferencesUnchanged(x, w, d[0].1, ann, configPath, fuel);
      NoReferencesInValuesUnchanged(x, w, d[1..], ann, configPath, fuel);
      assert d == [(d[0].0, d[0].1)] + d[1..];
    }
  }

  /** `None` as an annotation holds no reference, whatever the value under it. */
  lemma {:induction false} NoneAnnHoldsNoReferences(schema: Schema, items: seq<Value>, d: Entries)
    ensures NoReferencesInItems(schema, items, NoneT)
    ensures NoReferencesInValues(schema, d, NoneT)
    decreases |items| + |d|
  {
    if items != [] {
      NoneAnnHoldsNoReferences(schema, items[1..], d);
    }
    if d != [] {
      NoneAnnHoldsNoReferences(schema, items, d[1..]);
    }
  }

  /** A falsy element annotation, the `None` of `list[None]` or `dict[K, None]`, is walked
      under `None`, which gives back every list and dict as it was, as the source's
      default case does. */
  lemma NoneElementAnnotationKeeps(x: ConfigExpander, w: World, items: seq<Value>, d: Entries, k: Ann,
                                   configPath: Path, fuel: nat)
    ensures PreparseConfigValue(x, w, List(items), ListOf([NoneT]), configPath, fuel) == Ok(List(items))
    ensures PreparseConfigValue(x, w, Dict(d), DictOf([k, NoneT]), configPath, fuel) == Ok(Dict(d))
  {
    NoneAnnHoldsNoReferences(w.schema, items, d);
    NoReferencesInItemsUnchanged(x, w, items, NoneT, configPath, fuel);
    NoReferencesInValuesUnchanged(x, w, d, NoneT, configPath, fuel);
  }

  // ---------------------------------------------------------------------------
  // Fuel

  /** More fuel never changes an outcome other than OutOfFuel: the fuel only bounds the
      depth of the reference chain and is not part of the behaviour. */
  lemma {:induction false} FuelIsOnlyABound(x: ConfigExpander, w: World, configPath: Path, model: string,
                                            fuel: nat, more: nat)
    requires fuel <= more
    ensures Expand(x, w, configPath, model, fuel) != Err(OutOfFuel) ==>
              Expand(x, w, configPath, model, more) == Expand(x, w, configPath, model, fuel)
    decreases fuel, 1, 0
  {
    var d := Loaders.LoadConfig(w.loaders, w.files, configPath, x.defaultSuffix);
    if d.Ok? {
      ConfigDictFuel(x, w, d.value, model, configPath, fuel, more);
    }
  }

  lemma {:induction false} ConfigDictFuel(x: ConfigExpander, w: World, d: Entries, model: string, configPath: Path,
                                          fuel: nat, more: nat)
    requires fuel <= more
    ensures PreparseConfigDict(x, w, d, model, configPath, fuel) != Err(OutOfFuel) ==>
              PreparseConfigDict(x, w, d, model, configPath, more) == PreparseConfigDict(x, w, d, model, configPath, fuel)
    decreases fuel, 0, SizeEntries(d)
  {
    if d != [] {
      var ann := FieldAnn(w.schema, model, d[0].0);
      if ann.Ok? {
        ConfigValueFuel(x, w, d[0].1, ann.value, configPath, fuel, more);
        ConfigDictFuel(x, w, d[1..], model, configPath, fuel, more);
      }
    }
  }

  lemma {:induction false} ConfigValueFuel(x: ConfigExpander, w: World, v: Value, fieldAnn: Ann, configPath: Path,
                                           fuel: nat, more: nat)
    requires fuel <= more
    ensures PreparseConfigValue(x, w, v, fieldAnn, configPath, fuel) != Err(OutOfFuel) ==>
              PreparseConfigValue(x, w, v, fieldAnn, configPath, more) ==
              PreparseConfigValue(x, w, v, fieldAnn, configPath, fuel)
    decreases fuel, 0, Size(v)
  {
    var ann := GetOptionalAnn(fieldAnn);
    if !IsContainer(v) {
    } else if v.Dict? && IsPydModel(ann) {
      ConfigDictFuel(x, w, v.entries, ann.name, configPath, fuel, more);
    } else if v.Str? && IsPydModel(ann) {
      PathStrFuel(x, w, v.s, ann.name, configPath, fuel, more);
    } else if v.List? && GetListValueAnn(ann).Some? {
      ItemsFuel(x, w, v.items, GetListValueAnn(ann).value, configPath, fuel, more);
    } else if v.Dict? && GetDictValueAnn(ann).Some? {
      DictValuesFuel(x, w, v.entries, GetDictValueAnn(ann).value, configPath, fuel, more);
    }
  }

  lemma {:induction false} ItemsFuel(x: ConfigExpander, w: World, items: seq<Value>, ann: Ann, configPath: Path,
                                     fuel: nat, more: nat)
    requires fuel <= more
    ensures PreparseItems(x, w, items, ann, configPath, fuel) != Err(OutOfFuel) ==>
              PreparseItems(x, w, items, ann, configPath, more) == PreparseItems(x, w, items, ann, configPath, fuel)
    decreases fuel, 0, SizeList(items)
  {
    if items != [] {
      ConfigValueFuel(x, w, items[0], ann, configPath, fuel, more);
      ItemsFuel(x, w, items[1..], ann, configPath, fuel, more);
    }
  }

  lemma {:induction false} DictValuesFuel(x: ConfigExpander, w: World, d: Entries, ann: Ann, configPath: Path,
                                          fuel: nat, more: nat)
    requires fuel <= more
    ensures PreparseDictValues(x, w, d, ann, configPath, fuel) != Err(OutOfFuel) ==>
              PreparseDictValues(x, w, d, ann, configPath, more) == PreparseDictValues(x, w, d, ann, configPath, fuel)
    decreases fuel, 0, SizeEntries(d)
  {
    if d != [] {
      ConfigValueFuel(x, w, d[0].1, ann, configPath, fuel, more);
      DictValuesFuel(x, w, d[1..], ann, configPath, fuel, more);
    }
  }

  lemma {:induction false} PathStrFuel(x: ConfigExpander, w: World, pathStr: string, model: string, parentPath: Path,
                                       fuel: nat, more: nat)
    requires fuel <= more
    ensures ParsePathStrIntoPydmodel(x, w, pathStr, model, parentPath, fuel) != Err(OutOfFuel) ==>
              ParsePathStrIntoPydmodel(x, w, pathStr, model, parentPath, more) ==
              ParsePathStrIntoPydmodel(x, w, pathStr, model, parentPath, fuel)
    decreases fuel, 0, 0
  {
    var path := ResolveRef(parentPath, pathStr);
    if path in w.files && fuel > 0 {
      FuelIsOnlyABound(x, w, path, model, fuel - 1, more - 1);
    }
  }
}
