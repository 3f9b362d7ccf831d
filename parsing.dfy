/** The older expander of the `nested_config` package: a five-way dispatch in
    which a string, an all-string list or an all-string dict standing where a
    model (or a list or dict of models) is expected names other config files,
    each of which becomes a validated model instance.  Inline dicts are not
    walked, and a list or dict with any non-string member is left as it is.

    As in the current expander, `fuel` bounds the depth of the reference chain
    (the code has no cycle guard) and `OutOfFuel` is the only outcome that
    more fuel can change (`FuelIsOnlyABound`). */
module Parsing {
  import opened PurePaths
  import opened ConfigModel
  import Loaders

  /** `_get_optional_ann`: only `Union[M, None, ...]` with `M` a model is unwrapped. */
  function GetOptionalAnn(a: Ann): (r: Ann)
    ensures r == a || (a.Union? && r == a.first)
    ensures r != a ==> IsPydModel(r) && a.second == NoneT
    ensures a.Union? && IsPydModel(a.first) && a.second == NoneT ==> r == a.first
  {
    if a.Union? && IsPydModel(a.first) && a.second == NoneT then a.first else a
  }

  /** `_get_list_value_ann`: the model of a `list[M]` annotation, if that is what it is. */
  function GetListValueAnn(a: Ann): (r: Option<Ann>)
    ensures r.Some? <==> a.ListOf? && |a.args| > 0 && IsPydModel(a.args[0])
    ensures r.Some? ==> r.value == a.args[0]
  {
    if a.ListOf? && |a.args| > 0 && IsPydModel(a.args[0]) then Some(a.args[0]) else None
  }

  /** `_get_dict_value_ann`: the model of a `dict[K, M]` annotation, if that is what it is. */
  function GetDictValueAnn(a: Ann): (r: Option<Ann>)
    ensures r.Some? <==> a.DictOf? && |a.args| > 1 && IsPydModel(a.args[1])
    ensures r.Some? ==> r.value == a.args[1]
  {
    if a.DictOf? && |a.args| > 1 && IsPydModel(a.args[1]) then Some(a.args[1]) else None
  }

  /** `validate_config` without its default suffix: load the file, preparse every
      top-level value against its field and validate the result into the model. */
  function ValidateConfig(w: World, configPath: Path, model: string, fuel: nat): (r: Result<Value>)
    ensures r.Ok? ==> r.value.Obj? && r.value.model == model
    ensures r.Ok? ==> Loaders.LoadConfig(w.loaders, w.files, configPath, None).Ok? &&
                      Keys(r.value.fields) == Keys(Loaders.LoadConfig(w.loaders, w.files, configPath, None).value)
    ensures Loaders.LoadConfig(w.loaders, w.files, configPath, None).Err? ==>
              r == Err(Loaders.LoadConfig(w.loaders, w.files, configPath, None).error)
    decreases fuel, 1, 0
  {
    var d :- Loaders.LoadConfig(w.loaders, w.files, configPath, None);
    var es :- PreparseFields(w, d, model, configPath, fuel);
    Ok(Obj(model, es))
  }

  /** The dict comprehension of `validate_config`: keys kept in order, each value
      preparsed against its field, an undeclared key a KeyError. */
  function PreparseFields(w: World, d: Entries, model: string, configPath: Path, fuel: nat)
    : (r: Result<Entries>)
    ensures r.Ok? ==> Keys(r.value) == Keys(d)
    ensures r.Ok? ==> forall i :: 0 <= i < |d| ==> Declared(w.schema, model, d[i].0)
    decreases fuel, 0, SizeEntries(d)
  {
    if d == [] then Ok([])
    else
      var ann :- FieldAnn(w.schema, model, d[0].0);
      var v :- PreparseConfigValue(w, d[0].1, ann, configPath, fuel);
      var rest :- PreparseFields(w, d[1..], model, configPath, fuel);
      Ok([(d[0].0, v)] + rest)
  }

  /** `_preparse_config_value`: the five-way dispatch. */
  function PreparseConfigValue(w: World, v: Value, fieldAnn: Ann, configPath: Path, fuel: nat)
    : (r: Result<Value>)
    ensures !IsContainer(v) ==> r == Ok(v)
    ensures v.Dict? && IsPydModel(GetOptionalAnn(fieldAnn)) ==> r == Ok(v)
    ensures v.List? && !AllStr(v.items) ==> r == Ok(v)
    ensures v.Dict? && !AllStrValues(v.entries) ==> r == Ok(v)
    ensures v.List? && GetListValueAnn(GetOptionalAnn(fieldAnn)).None? ==> r == Ok(v)
    ensures v.Dict? && GetDictValueAnn(GetOptionalAnn(fieldAnn)).None? ==> r == Ok(v)
    ensures v.Str? && IsPydModel(GetOptionalAnn(fieldAnn)) && r.Ok? ==>
              r.value.Obj? && r.value.model == GetOptionalAnn(fieldAnn).name
    ensures v.Str? && !IsPydModel(GetOptionalAnn(fieldAnn)) ==> r == Ok(v)
    ensures v.List? && r.Ok? ==> r.value.List? && |r.value.items| == |v.items|
    ensures v.Dict? && r.Ok? ==> r.value.Dict? && Keys(r.value.entries) == Keys(v.entries)
    decreases fuel, 0, Size(v)
  {
    var ann := GetOptionalAnn(fieldAnn);
    if !IsContainer(v) then Ok(v)
    else if v.Str? && IsPydModel(ann) then
      ParsePathStrIntoPydmodel(w, v.s, ann.name, configPath, fuel)
    else if v.List? && AllStr(v.items) && GetListValueAnn(ann).Some? then
      var objs :- ParsePathStrs(w, v.items, GetListValueAnn(ann).value.name, configPath, fuel);
      Ok(List(objs))
    else if v.Dict? && AllStrValues(v.entries) && GetDictValueAnn(ann).Some? then
      var es :- ParsePathStrValues(w, v.entries, GetDictValueAnn(ann).value.name, configPath, fuel);
      Ok(Dict(es))
    else Ok(v)
  }

  /** The list comprehension of case 3: every string in turn becomes a model instance. */
  function ParsePathStrs(w: World, items: seq<Value>, model: string, configPath: Path, fuel: nat)
    : (r: Result<seq<Value>>)
    requires AllStr(items)
    ensures r.Ok? ==> |r.value| == |items|
    ensures r.Ok? ==> forall i :: 0 <= i < |r.value| ==> r.value[i].Obj? && r.value[i].model == model
    decreases fuel, 0, SizeList(items)
  {
    if items == [] then Ok([])
    else
      var o :- ParsePathStrIntoPydmodel(w, items[0].s, model, configPath, fuel);
      var rest :- ParsePathStrs(w, items[1..], model, configPath, fuel);
      Ok([o] + rest)
  }

  /** The dict comprehension of case 4: every string value becomes a model instance. */
  function ParsePathStrValues(w: World, d: Entries, model: string, configPath: Path, fuel: nat)
    : (r: Result<Entries>)
    requires AllStrValues(d)
    ensures r.Ok? ==> Keys(r.value) == Keys(d)
    ensures r.Ok? ==> forall i :: 0 <= i < |r.value| ==> r.value[i].1.Obj? && r.value[i].1.model == model
    decreases fuel, 0, SizeEntries(d)
  {
    if d == [] then Ok([])
    else
      var o :- ParsePathStrIntoPydmodel(w, d[0].1.s, model, configPath, fuel);
      var rest :- ParsePathStrValues(w, d[1..], model, configPath, fuel);
      Ok([(d[0].0, o)] + rest)
  }

  /** `_parse_path_str_into_pydmodel`: resolve against the referencing file's directory,
      insist on an existing file, and validate it into the model. */
  function ParsePathStrIntoPydmodel(w: World, pathStr: string, model: string, parentPath: Path, fuel: nat)
    : (r: Result<Value>)
    ensures ResolveRef(parentPath, pathStr) !in w.files ==> r == Err(FileNotFound(parentPath, pathStr))
    ensures r.Ok? ==> ResolveRef(parentPath, pathStr) in w.files && r.value.Obj? && r.value.model == model
    ensures ResolveRef(parentPath, pathStr) in w.files && fuel > 0 ==>
              r == ValidateConfig(w, ResolveRef(parentPath, pathStr), model, fuel - 1)
    decreases fuel, 0, 0
  {
    var path := ResolveRef(parentPath, pathStr);
    if path !in w.files then Err(FileNotFound(parentPath, pathStr))
    else if fuel == 0 then Err(OutOfFuel)
    else ValidateConfig(w, path, model, fuel - 1)
  }

  // ---------------------------------------------------------------------------
  // The dispatch, case by case

  /** `Optional[T]` for a `T` that is not a model (such as `Optional[int]`) is not unwrapped,
      and neither is `Union[None, M]`. */
  lemma OnlyOptionalModelsUnwrapped(a: Ann)
    requires a.Union? && (!IsPydModel(a.first) || a.second != NoneT)
    ensures GetOptionalAnn(a) == a
  {
  }

  /** So a string under `Optional[int]` is left alone rather than taken for a path. */
  lemma OptionalScalarStringKept(w: World, s: string, rest: seq<Ann>, configPath: Path, fuel: nat)
    ensures PreparseConfigValue(w, Str(s), Union(Other("int"), NoneT, rest), configPath, fuel) == Ok(Str(s))
  {
  }

  /** The list and dict helpers accept only a bare model class, although their
      docstrings promise a maybe-optional model: all-string lists and dicts under
      `Optional[list[M]]`, `list[Optional[M]]`, `Optional[dict[K, M]]` and
      `dict[K, Optional[M]]` are left as they are. */
  lemma OptionalModelContainersKept(w: World, items: seq<Value>, d: Entries, m: string, k: Ann, rest: seq<Ann>,
                                    configPath: Path, fuel: nat)
    ensures PreparseConfigValue(w, List(items), Union(ListOf([ModelT(m)]), NoneT, rest), configPath, fuel) == Ok(List(items))
    ensures PreparseConfigValue(w, List(items), ListOf([Union(ModelT(m), NoneT, rest)]), configPath, fuel) == Ok(List(items))
    ensures PreparseConfigValue(w, Dict(d), Union(DictOf([k, ModelT(m)]), NoneT, rest), configPath, fuel) == Ok(Dict(d))
    ensures PreparseConfigValue(w, Dict(d), DictOf([k, Union(ModelT(m), NoneT, rest)]), configPath, fuel) == Ok(Dict(d))
  {
  }

  /** Case 2: a string where a model is expected is the model instance that the file it
      names validates into, that file being the anchor for the references inside it. */
  lemma PathStringIsValidated(w: World, s: string, fieldAnn: Ann, configPath: Path, fuel: nat)
    requires IsPydModel(GetOptionalAnn(fieldAnn))
    ensures var r := PreparseConfigValue(w, Str(s), fieldAnn, configPath, fuel);
            var path := ResolveRef(configPath, s);
            && (path !in w.files ==> r == Err(FileNotFound(configPath, s)))
            && (path in w.files && fuel > 0 ==> r == ValidateConfig(w, path, GetOptionalAnn(fieldAnn).name, fuel - 1))
  {
  }

  /** Case 3 at the dispatch: an all-string list under `list[M]` is exactly the list of
      the models its strings name, in order. */
  lemma StrListUnderListAnnIsParsed(w: World, items: seq<Value>, fieldAnn: Ann, configPath: Path, fuel: nat)
    requires AllStr(items) && GetListValueAnn(GetOptionalAnn(fieldAnn)).Some?
    ensures var r := PreparseConfigValue(w, List(items), fieldAnn, configPath, fuel);
            var inner := ParsePathStrs(w, items, GetListValueAnn(GetOptionalAnn(fieldAnn)).value.name, configPath, fuel);
            (r.Ok? <==> inner.Ok?) && (r.Ok? ==> r.value == List(inner.value)) &&
            (r.Err? ==> r.error == inner.error)
  {
  }

  /** Case 4 at the dispatch: an all-string dict under `dict[K, M]` is exactly the dict of
      the models its strings name, key by key. */
  lemma StrDictUnderDictAnnIsParsed(w: World, d: Entries, fieldAnn: Ann, configPath: Path, fuel: nat)
    requires AllStrValues(d) && GetDictValueAnn(GetOptionalAnn(fieldAnn)).Some?
    ensures var r := PreparseConfigValue(w, Dict(d), fieldAnn, configPath, fuel);
            var inner := ParsePathStrValues(w, d, GetDictValueAnn(GetOptionalAnn(fieldAnn)).value.name, configPath, fuel);
            (r.Ok? <==> inner.Ok?) && (r.Ok? ==> r.value == Dict(inner.value)) &&
            (r.Err? ==> r.error == inner.error)
  {
  }

  /** A value names other files exactly when it is a string under a model, or a
      non-empty all-string list or dict under a list or dict of models. */
  predicate HoldsReference(v: Value, fieldAnn: Ann) {
    var ann := GetOptionalAnn(fieldAnn);
    || (v.Str? && IsPydModel(ann))
    || (v.List? && v.items != [] && AllStr(v.items) && GetListValueAnn(ann).Some?)
    || (v.Dict? && v.entries != [] && AllStrValues(v.entries) && GetDictValueAnn(ann).Some?)
  }

  /** The dispatch leaves a value as it is exactly when it holds no reference: every
      other value, whatever the files and the fuel, comes back unchanged, and a
      reference never does (it fails, or it becomes model instances). */
  lemma {:induction false} UnchangedIffNoReference(w: World, v: Value, fieldAnn: Ann, configPath: Path, fuel: nat)
    ensures PreparseConfigValue(w, v, fieldAnn, configPath, fuel) == Ok(v) <==> !HoldsReference(v, fieldAnn)
  {
    var ann := GetOptionalAnn(fieldAnn);
    var r := PreparseConfigValue(w, v, fieldAnn, configPath, fuel);
    if v.List? && AllStr(v.items) && GetListValueAnn(ann).Some? {
      var model := GetListValueAnn(ann).value.name;
      if v.items == [] {
        assert ParsePathStrs(w, v.items, model, configPath, fuel) == Ok([]);
      } else if r.Ok? {
        assert r.value.items[0].Obj? && !v.items[0].Obj?;
      }
    } else if v.Dict? && AllStrValues(v.entries) && GetDictValueAnn(ann).Some? {
      var model := GetDictValueAnn(ann).value.name;
      if v.entries == [] {
        assert ParsePathStrValues(w, v.entries, model, configPath, fuel) == Ok([]);
      } else if r.Ok? {
        assert r.value.entries[0].1.Obj? && !v.entries[0].1.Obj?;
      }
    }
  }

  /** Case 3: an all-string list under `list[M]` expands exactly when every reference
      in it does ... */
  lemma {:induction false} StrListOkIffEveryReferenceOk(w: World, items: seq<Value>, model: string, configPath: Path,
                                                        fuel: nat)
    requires AllStr(items)
    ensures ParsePathStrs(w, items, model, configPath, fuel).Ok? <==>
            forall i :: 0 <= i < |items| ==> ParsePathStrIntoPydmodel(w, items[i].s, model, configPath, fuel).Ok?
    decreases |items|
  {
    if items != [] {
      var rest := items[1..];
      StrListOkIffEveryReferenceOk(w, rest, model, configPath, fuel);
      PathStrsStep(w, items, model, configPath, fuel);
      var head := ParsePathStrIntoPydmodel(w, items[0].s, model, configPath, fuel);
      var tail := ParsePathStrs(w, rest, model, configPath, fuel);
      if head.Ok? && tail.Ok? {
        forall i | 0 < i < |items|
          ensures ParsePathStrIntoPydmodel(w, items[i].s, model, configPath, fuel).Ok?
        {
          assert items[i] == rest[i - 1];
        }
      } else if head.Ok? {
        var j :| 0 <= j < |rest| && ParsePathStrIntoPydmodel(w, rest[j].s, model, configPath, fuel).Err?;
        assert rest[j] == items[j + 1];
      }
    }
  }

  /** ... and then it is, string by string and in order, the models those files
      validate into. */
  lemma {:induction false} StrListExpandedInOrder(w: World, items: seq<Value>, model: string, configPath: Path, fuel: nat)
    requires AllStr(items)
    ensures var r := ParsePathStrs(w, items, model, configPath, fuel);
            r.Ok? ==> forall i :: 0 <= i < |items| ==> ParsePathStrIntoPydmodel(w, items[i].s, model, configPath, fuel) == Ok(r.value[i])
    decreases |items|
  {
    if items != [] {
      var rest := items[1..];
      StrListExpandedInOrder(w, rest, model, configPath, fuel);
      PathStrsStep(w, items, model, configPath, fuel);
      var r := ParsePathStrs(w, items, model, configPath, fuel);
      var head := ParsePathStrIntoPydmodel(w, items[0].s, model, configPath, fuel);
      var tail := ParsePathStrs(w, rest, model, configPath, fuel);
      if r.Ok? {
        assert head.Ok? && tail.Ok? && r.value == [head.value] + tail.value;
        forall i | 0 <= i < |items|
          ensures ParsePathStrIntoPydmodel(w, items[i].s, model, configPath, fuel) == Ok(r.value[i])
        {
          if i > 0 {
            assert items[i] == rest[i - 1];
            assert r.value[i] == tail.value[i - 1];
          }
        }
      }
    }
  }

  /** ... and when it fails, it fails with the error of the first reference that does. */
  lemma {:induction false} StrListFailsAtFirstError(w: World, items: seq<Value>, model: string, configPath: Path, fuel: nat)
    requires AllStr(items)
    ensures var r := ParsePathStrs(w, items, model, configPath, fuel);
            r.Err? ==> exists i :: 0 <= i < |items| &&
                         ParsePathStrIntoPydmodel(w, items[i].s, model, configPath, fuel) == Err(r.error) &&
                         forall j :: 0 <= j < i ==> ParsePathStrIntoPydmodel(w, items[j].s, model, configPath, fuel).Ok?
    decreases |items|
  {
    if items != [] {
      StrListFailsAtFirstError(w, items[1..], model, configPath, fuel);
      PathStrsStep(w, items, model, configPath, fuel);
      var r := ParsePathStrs(w, items, model, configPath, fuel);
      var head := ParsePathStrIntoPydmodel(w, items[0].s, model, configPath, fuel);
      var tail := ParsePathStrs(w, items[1..], model, configPath, fuel);
      if head.Ok? && tail.Err? {
        var k :| 0 <= k < |items[1..]| &&
                 ParsePathStrIntoPydmodel(w, items[1..][k].s, model, configPath, fuel) == Err(tail.error) &&
                 forall j :: 0 <= j < k ==> ParsePathStrIntoPydmodel(w, items[1..][j].s, model, configPath, fuel).Ok?;
        assert items[1..][k] == items[k + 1];
        forall j | 0 < j <= k
          ensures ParsePathStrIntoPydmodel(w, items[j].s, model, configPath, fuel).Ok?
        {
          assert items[j] == items[1..][j - 1];
        }
        assert ParsePathStrIntoPydmodel(w, items[k + 1].s, model, configPath, fuel) == Err(r.error);
      }
    }
  }

  lemma PathStrsStep(w: World, items: seq<Value>, model: string, configPath: Path, fuel: nat)
    requires AllStr(items) && items != []
    ensures var r := ParsePathStrs(w, items, model, configPath, fuel);
            var head := ParsePathStrIntoPydmodel(w, items[0].s, model, configPath, fuel);
            var tail := ParsePathStrs(w, items[1..], model, configPath, fuel);
            && (head.Err? ==> r == Err(head.error))
            && (head.Ok? && tail.Err? ==> r == Err(tail.error))
            && (head.Ok? && tail.Ok? ==> r == Ok([head.value] + tail.value))
  {
  }

  /** Case 4: an all-string dict under `dict[K, M]` keeps its keys, each value the model
      its file validates into. */
  lemma {:induction false} StrDictExpandedByKey(w: World, d: Entries, model: string, configPath: Path, fuel: nat)
    requires AllStrValues(d)
    ensures var r := ParsePathStrValues(w, d, model, configPath, fuel);
            && (r.Ok? <==> forall i :: 0 <= i < |d| ==>
                             ParsePathStrIntoPydmodel(w, d[i].1.s, model, configPath, fuel).Ok?)
            && (r.Ok? ==> forall i :: 0 <= i < |d| ==>
                            r.value[i].0 == d[i].0 &&
                            ParsePathStrIntoPydmodel(w, d[i].1.s, model, configPath, fuel) == Ok(r.value[i].1))
    decreases |d|
  {
    if d != [] {
      StrDictExpandedByKey(w, d[1..], model, configPath, fuel);
      PathStrValuesStep(w, d, model, configPath, fuel);
      var r := ParsePathStrValues(w, d, model, configPath, fuel);
      var head := ParsePathStrIntoPydmodel(w, d[0].1.s, model, configPath, fuel);
      var tail := ParsePathStrValues(w, d[1..], model, configPath, fuel);
      if r.Ok? {
        forall i | 0 <= i < |d|
          ensures r.value[i].0 == d[i].0
          ensures ParsePathStrIntoPydmodel(w, d[i].1.s, model, configPath, fuel) == Ok(r.value[i].1)
        {
          if i > 0 {
            assert d[i] == d[1..][i - 1];
            assert r.value[i] == tail.value[i - 1];
          }
        }
      } else if head.Ok? {
        var j :| 0 <= j < |d[1..]| && !ParsePathStrIntoPydmodel(w, d[1..][j].1.s, model, configPath, fuel).Ok?;
        assert d[1..][j] == d[j + 1];
      }
    }
  }

  lemma PathStrValuesStep(w: World, d: Entries, model: string, configPath: Path, fuel: nat)
    requires AllStrValues(d) && d != []
    ensures var r := ParsePathStrValues(w, d, model, configPath, fuel);
            var head := ParsePathStrIntoPydmodel(w, d[0].1.s, model, configPath, fuel);
            var tail := ParsePathStrValues(w, d[1..], model, configPath, fuel);
            && (head.Err? ==> r == Err(head.error))
            && (head.Ok? && tail.Err? ==> r == Err(tail.error))
            && (head.Ok? && tail.Ok? ==> r == Ok([(d[0].0, head.value)] + tail.value))
  {
  }

  // ---------------------------------------------------------------------------
  // The top-level fields

  /** One field of the dict comprehension in `validate_config`: its annotation, then
      its value under it. */
  function FieldOutcome(w: World, field: (string, Value), model: string, configPath: Path, fuel: nat)
    : Result<Value>
  {
    var ann :- FieldAnn(w.schema, model, field.0);
    PreparseConfigValue(w, field.1, ann, configPath, fuel)
  }

  /** The preparsed fields hold, key by key, each value preparsed under its own field's
      annotation; the walk succeeds exactly when every field does. */
  lemma {:induction false} FieldsAreMappedFieldwise(w: World, d: Entries, model: string, configPath: Path, fuel: nat)
    ensures var r := PreparseFields(w, d, model, configPath, fuel);
            && (r.Ok? <==> forall i :: 0 <= i < |d| ==> FieldOutcome(w, d[i], model, configPath, fuel).Ok?)
            && (r.Ok? ==> forall i :: 0 <= i < |d| ==>
                            r.value[i].0 == d[i].0 &&
                            FieldOutcome(w, d[i], model, configPath, fuel) == Ok(r.value[i].1))
    decreases |d|
  {
    if d != [] {
      FieldsAreMappedFieldwise(w, d[1..], model, configPath, fuel);
      FieldsStep(w, d, model, configPath, fuel);
      assert forall i :: 0 < i < |d| ==> d[i] == d[1..][i - 1];
    }
  }

  /** ... and when it fails, it fails with the error of the first field that does. */
  lemma {:induction false} FieldsFailAtFirstError(w: World, d: Entries, model: string, configPath: Path, fuel: nat)
    ensures var r := PreparseFields(w, d, model, configPath, fuel);
            r.Err? ==> exists i :: 0 <= i < |d| &&
                         FieldOutcome(w, d[i], model, configPath, fuel) == Err(r.error) &&
                         forall j :: 0 <= j < i ==> FieldOutcome(w, d[j], model, configPath, fuel).Ok?
    decreases |d|
  {
    if d != [] {
      FieldsFailAtFirstError(w, d[1..], model, configPath, fuel);
      FieldsStep(w, d, model, configPath, fuel);
      var r := PreparseFields(w, d, model, configPath, fuel);
      var head := FieldOutcome(w, d[0], model, configPath, fuel);
      var tail := PreparseFields(w, d[1..], model, configPath, fuel);
      if head.Ok? && tail.Err? {
        var k :| 0 <= k < |d[1..]| &&
                 FieldOutcome(w, d[1..][k], model, configPath, fuel) == Err(tail.error) &&
                 forall j :: 0 <= j < k ==> FieldOutcome(w, d[1..][j], model, configPath, fuel).Ok?;
        assert d[1..][k] == d[k + 1];
        forall j | 0 < j <= k
          ensures FieldOutcome(w, d[j], model, configPath, fuel).Ok?
        {
          assert d[j] == d[1..][j - 1];
        }
        assert FieldOutcome(w, d[k + 1], model, configPath, fuel) == Err(r.error);
      }
    }
  }

  lemma FieldsStep(w: World, d: Entries, model: string, configPath: Path, fuel: nat)
    requires d != []
    ensures var r := PreparseFields(w, d, model, configPath, fuel);
            var head := FieldOutcome(w, d[0], model, configPath, fuel);
            var tail := PreparseFields(w, d[1..], model, configPath, fuel);
            && (head.Err? ==> r == Err(head.error))
            && (head.Ok? && tail.Err? ==> r == Err(tail.error))
            && (head.Ok? && tail.Ok? ==> r == Ok([(d[0].0, head.value)] + tail.value))
  {
  }

  /** `validate_config` is the field walk of the loaded dict, validated into the model:
      with `FieldsAreMappedFieldwise` and `FieldsFailAtFirstError` this gives every field
      of the result and every error it can end in. */
  lemma ValidateConfigWalksFields(w: World, configPath: Path, model: string, fuel: nat)
    ensures var load := Loaders.LoadConfig(w.loaders, w.files, configPath, None);
            var r := ValidateConfig(w, configPath, model, fuel);
            load.Ok? ==>
              var fields := PreparseFields(w, load.value, model, configPath, fuel);
              && (fields.Ok? ==> r == Ok(Obj(model, fields.value)))
              && (fields.Err? ==> r == Err(fields.error))
  {
  }

  /** A top-level key the model does not declare fails with a KeyError naming it. */
  lemma UndeclaredFieldFails(w: World, field: (string, Value), model: string, configPath: Path, fuel: nat)
    requires !Declared(w.schema, model, field.0)
    ensures FieldOutcome(w, field, model, configPath, fuel) == Err(UnknownField(model, field.0))
  {
  }

  // ---------------------------------------------------------------------------
  // Fuel

  /** More fuel never changes an outcome other than OutOfFuel. */
  lemma {:induction false} FuelIsOnlyABound(w: World, configPath: Path, model: string, fuel: nat, more: nat)
    requires fuel <= more
    ensures ValidateConfig(w, configPath, model, fuel) != Err(OutOfFuel) ==>
              ValidateConfig(w, configPath, model, more) == ValidateConfig(w, configPath, model, fuel)
    decreases fuel, 1, 0
  {
    var d := Loaders.LoadConfig(w.loaders, w.files, configPath, None);
    if d.Ok? {
      FieldsFuel(w, d.value, model, configPath, fuel, more);
    }
  }

  lemma {:induction false} FieldsFuel(w: World, d: Entries, model: string, configPath: Path, fuel: nat, more: nat)
    requires fuel <= more
    ensures PreparseFields(w, d, model, configPath, fuel) != Err(OutOfFuel) ==>
              PreparseFields(w, d, model, configPath, more) == PreparseFields(w, d, model, configPath, fuel)
    decreases fuel, 0, SizeEntries(d)
  {
    if d != [] {
      var ann := FieldAnn(w.schema, model, d[0].0);
      if ann.Ok? {
        ConfigValueFuel(w, d[0].1, ann.value, configPath, fuel, more);
        FieldsFuel(w, d[1..], model, configPath, fuel, more);
      }
    }
  }

  lemma {:induction false} ConfigValueFuel(w: World, v: Value, fieldAnn: Ann, configPath: Path, fuel: nat, more: nat)
    requires fuel <= more
    ensures PreparseConfigValue(w, v, fieldAnn, configPath, fuel) != Err(OutOfFuel) ==>
              PreparseConfigValue(w, v, fieldAnn, configPath, more) == PreparseConfigValue(w, v, fieldAnn, configPath, fuel)
    decreases fuel, 0, Size(v)
  {
    var ann := GetOptionalAnn(fieldAnn);
    if !IsContainer(v) {
    } else if v.Str? && IsPydModel(ann) {
      PathStrFuel(w, v.s, ann.name, configPath, fuel, more);
    } else if v.List? && AllStr(v.items) && GetListValueAnn(ann).Some? {
      PathStrsFuel(w, v.items, GetListValueAnn(ann).value.name, configPath, fuel, more);
    } else if v.Dict? && AllStrValues(v.entries) && GetDictValueAnn(ann).Some? {
      PathStrValuesFuel(w, v.entries, GetDictValueAnn(ann).value.name, configPath, fuel, more);
    }
  }

  lemma {:induction false} PathStrsFuel(w: World, items: seq<Value>, model: string, configPath: Path, fuel: nat, more: nat)
    requires fuel <= more && AllStr(items)
    ensures ParsePathStrs(w, items, model, configPath, fuel) != Err(OutOfFuel) ==>
              ParsePathStrs(w, items, model, configPath, more) == ParsePathStrs(w, items, model, configPath, fuel)
    decreases fuel, 0, SizeList(items)
  {
    if items != [] {
      PathStrFuel(w, items[0].s, model, configPath, fuel, more);
      PathStrsFuel(w, items[1..], model, configPath, fuel, more);
    }
  }

  lemma {:induction false} PathStrValuesFuel(w: World, d: Entries, model: string, configPath: Path, fuel: nat, more: nat)
    requires fuel <= more && AllStrValues(d)
    ensures ParsePathStrValues(w, d, model, configPath, fuel) != Err(OutOfFuel) ==>
              ParsePathStrValues(w, d, model, configPath, more) == ParsePathStrValues(w, d, model, configPath, fuel)
    decreases fuel, 0, SizeEntries(d)
  {
    if d != [] {
      PathStrFuel(w, d[0].1.s, model, configPath, fuel, more);
      PathStrValuesFuel(w, d[1..], model, configPath, fuel, more);
    }
  }

  lemma {:induction false} PathStrFuel(w: World, pathStr: string, model: string, parentPath: Path, fuel: nat, more: nat)
    requires fuel <= more
    ensures ParsePathStrIntoPydmodel(w, pathStr, model, parentPath, fuel) != Err(OutOfFuel) ==>
              ParsePathStrIntoPydmodel(w, pathStr, model, parentPath, more) ==
              ParsePathStrIntoPydmodel(w, pathStr, model, parentPath, fuel)
    decreases fuel, 0, 0
  {
    var path := ResolveRef(parentPath, pathStr);
    if path in w.files && fuel > 0 {
      FuelIsOnlyABound(w, path, model, fuel - 1, more - 1);
    }
  }
}
