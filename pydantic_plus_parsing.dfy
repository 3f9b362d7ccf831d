/** The oldest expander, from the `pydantic_plus` package.  The dispatch is the
    five-way one of the older `nested_config` expander, except that the
    non-container check comes before the optional annotation is normalised
    and that a reference is not checked for existence before it is loaded.

    Its path step ends in a call to `pydo_from_config`, a name no module
    defines, so as written every followed reference raises a NameError.
    `Target` selects between that behaviour (`AsWritten`) and the evidently
    intended one (`Intended`): load the file with the TOML parser, preparse
    it against the sub-model's fields and validate it, which is what the body
    of the module's entry point does for the top file.  The TOML parser is a
    parameter; its failures, a missing file included, escape unwrapped. */
module PydanticPlusParsing {
  import opened PurePaths
  import opened ConfigModel
  import Parsing

  datatype Target = AsWritten | Intended

  /** `_normalize_optional_annotation`: only `Union[M, None, ...]` with `M` a model is unwrapped. */
  function NormalizeOptionalAnnotation(a: Ann): (r: Ann)
    ensures r == a || (a.Union? && r == a.first)
    ensures r != a ==> IsPydModel(r) && a.second == NoneT
    ensures a.Union? && IsPydModel(a.first) && a.second == NoneT ==> r == a.first
  {
    if a.Union? && IsPydModel(a.first) && a.second == NoneT then a.first else a
  }

  /** `_list_model_annotation`: the model of a `list[M]` annotation, if that is what it is. */
  function ListModelAnnotation(a: Ann): (r: Option<Ann>)
    ensures r.Some? <==> a.ListOf? && |a.args| > 0 && IsPydModel(a.args[0])
    ensures r.Some? ==> r.value == a.args[0]
  {
    if a.ListOf? && |a.args| > 0 && IsPydModel(a.args[0]) then Some(a.args[0]) else None
  }

  /** `_dict_annotation`: the model of a `dict[K, M]` annotation, if that is what it is. */
  function DictAnnotation(a: Ann): (r: Option<Ann>)
    ensures r.Some? <==> a.DictOf? && |a.args| > 1 && IsPydModel(a.args[1])
    ensures r.Some? ==> r.value == a.args[1]
  {
    if a.DictOf? && |a.args| > 1 && IsPydModel(a.args[1]) then Some(a.args[1]) else None
  }

  /** The three annotation helpers classify every annotation exactly as the older
      `nested_config` expander's helpers do. */
  lemma AnnotationHelpersAgree(a: Ann)
    ensures NormalizeOptionalAnnotation(a) == Parsing.GetOptionalAnn(a)
    ensures ListModelAnnotation(a) == Parsing.GetListValueAnn(a)
    ensures DictAnnotation(a) == Parsing.GetDictValueAnn(a)
  {
  }

  /** `_preparse_config_obj` applied to the field table of `model`: keys kept in
      order, each value preparsed against its field, an undeclared key a KeyError. */
  function PreparseConfigObj(t: Target, w: World, toml: Loader, obj: Entries, model: string, configPath: Path, fuel: nat)
    : (r: Result<Entries>)
    ensures r.Ok? ==> Keys(r.value) == Keys(obj)
    ensures r.Ok? ==> forall i :: 0 <= i < |obj| ==> Declared(w.schema, model, obj[i].0)
    decreases fuel, 0, SizeEntries(obj)
  {
    if obj == [] then Ok([])
    else
      var ann :- FieldAnn(w.schema, model, obj[0].0);
      var v :- PreparseConfigVal(t, w, toml, obj[0].1, ann, configPath, fuel);
      var rest :- PreparseConfigObj(t, w, toml, obj[1..], model, configPath, fuel);
      Ok([(obj[0].0, v)] + rest)
  }

  /** `_preparse_configval`: anything that is not a str, list or dict is returned before
      the annotation is even looked at. */
  function PreparseConfigVal(t: Target, w: World, toml: Loader, v: Value, modelfieldAnn: Ann, configPath: Path, fuel: nat)
    : (r: Result<Value>)
    ensures !IsContainer(v) ==> r == Ok(v)
    ensures v.Dict? && IsPydModel(NormalizeOptionalAnnotation(modelfieldAnn)) ==> r == Ok(v)
    ensures v.List? && !AllStr(v.items) ==> r == Ok(v)
    ensures v.Dict? && !AllStrValues(v.entries) ==> r == Ok(v)
    ensures v.List? && ListModelAnnotation(NormalizeOptionalAnnotation(modelfieldAnn)).None? ==> r == Ok(v)
    ensures v.Dict? && DictAnnotation(NormalizeOptionalAnnotation(modelfieldAnn)).None? ==> r == Ok(v)
    ensures v.Str? && !IsPydModel(NormalizeOptionalAnnotation(modelfieldAnn)) ==> r == Ok(v)
    ensures v.List? && r.Ok? ==> r.value.List? && |r.value.items| == |v.items|
    ensures v.Dict? && r.Ok? ==> r.value.Dict? && Keys(r.value.entries) == Keys(v.entries)
    decreases fuel, 0, Size(v)
  {
    if !IsContainer(v) then Ok(v)
    else
      var ann := NormalizeOptionalAnnotation(modelfieldAnn);
      if v.Str? && IsPydModel(ann) then
        ConfigStrfieldToPydo(t, w, toml, v.s, ann.name, configPath, fuel)
      else if v.List? && AllStr(v.items) && ListModelAnnotation(ann).Some? then
        var items :- PreparseItems(t, w, toml, v.items, ListModelAnnotation(ann).value, configPath, fuel);
        Ok(List(items))
      else if v.Dict? && AllStrValues(v.entries) && DictAnnotation(ann).Some? then
        var es :- PreparseValues(t, w, toml, v.entries, DictAnnotation(ann).value, configPath, fuel);
        Ok(Dict(es))
      else Ok(v)
  }

  /** The list comprehension: every element preparsed again under the element model. */
  function PreparseItems(t: Target, w: World, toml: Loader, items: seq<Value>, ann: Ann, configPath: Path, fuel: nat)
    : (r: Result<seq<Value>>)
    ensures r.Ok? ==> |r.value| == |items|
    decreases fuel, 0, SizeList(items)
  {
    if items == [] then Ok([])
    else
      var v :- PreparseConfigVal(t, w, toml, items[0], ann, configPath, fuel);
      var rest :- PreparseItems(t, w, toml, items[1..], ann, configPath, fuel);
      Ok([v] + rest)
  }

  /** The dict comprehension: every value preparsed again under the value model. */
  function PreparseValues(t: Target, w: World, toml: Loader, d: Entries, ann: Ann, configPath: Path, fuel: nat)
    : (r: Result<Entries>)
    ensures r.Ok? ==> Keys(r.value) == Keys(d)
    decreases fuel, 0, SizeEntries(d)
  {
    if d == [] then Ok([])
    else
      var v :- PreparseConfigVal(t, w, toml, d[0].1, ann, configPath, fuel);
      var rest :- PreparseValues(t, w, toml, d[1..], ann, configPath, fuel);
      Ok([(d[0].0, v)] + rest)
  }

  /** `_config_strfield_to_pydo`: the reference is resolved against the directory of
      the referencing file, with no existence check; as written the next call is to
      an undefined name. */
  function ConfigStrfieldToPydo(t: Target, w: World, toml: Loader, fieldValue: string, fieldModel: string,
                                baseConfigPath: Path, fuel: nat)
    : (r: Result<Value>)
    ensures t == AsWritten ==> r == Err(NameError("pydo_from_config"))
    ensures t == Intended && fuel > 0 ==>
              r == PydoFromConfig(w, toml, ResolveRef(baseConfigPath, fieldValue), fieldModel, fuel - 1)
    decreases fuel, 0, 0
  {
    var fieldConfigPath := ResolveRef(baseConfigPath, fieldValue);
    if t == AsWritten then Err(NameError("pydo_from_config"))
    else if fuel == 0 then Err(OutOfFuel)
    else PydoFromConfig(w, toml, fieldConfigPath, fieldModel, fuel - 1)
  }

  /** The intended target of that call: parse the file with the TOML parser (a missing
      file or bad TOML raises, unwrapped), preparse it against the model's fields with
      the file's own path as the anchor, and validate it into the model. */
  function PydoFromConfig(w: World, toml: Loader, configPath: Path, model: string, fuel: nat)
    : (r: Result<Value>)
    ensures configPath !in w.files ==> r == Err(LoaderRaised(configPath))
    ensures r.Ok? ==> configPath in w.files && toml(w.files[configPath]).Loaded? &&
                      r.value.Obj? && r.value.model == model &&
                      Keys(r.value.fields) == Keys(toml(w.files[configPath]).entries)
    ensures configPath in w.files && toml(w.files[configPath]).Raised? ==> r == Err(LoaderRaised(configPath))
    decreases fuel, 1, 0
  {
    if configPath !in w.files then Err(LoaderRaised(configPath))
    else
      match toml(w.files[configPath])
      case Raised => Err(LoaderRaised(configPath))
      case Loaded(obj) =>
        var es :- PreparseConfigObj(Intended, w, toml, obj, model, configPath, fuel);
        Ok(Obj(model, es))
  }

  // ---------------------------------------------------------------------------
  // The undefined call, and what was meant

  /** As written, a string where a model is expected never gets past the path step:
      it raises a NameError whatever the files hold. */
  lemma AsWrittenReferenceFails(w: World, toml: Loader, s: string, fieldAnn: Ann, configPath: Path, fuel: nat)
    requires IsPydModel(NormalizeOptionalAnnotation(fieldAnn))
    ensures PreparseConfigVal(AsWritten, w, toml, Str(s), fieldAnn, configPath, fuel) ==
            Err(NameError("pydo_from_config"))
  {
  }

  /** As intended, the string is the validated model of the file it names, preparsed
      with that file as the new anchor; a missing file is the TOML parser's own error
      on the resolved path, since nothing checks for the file first. */
  lemma IntendedReferenceExpands(w: World, toml: Loader, s: string, fieldAnn: Ann, configPath: Path, fuel: nat)
    requires IsPydModel(NormalizeOptionalAnnotation(fieldAnn))
    requires fuel > 0
    ensures var r := PreparseConfigVal(Intended, w, toml, Str(s), fieldAnn, configPath, fuel);
            var path := ResolveRef(configPath, s);
            var model := NormalizeOptionalAnnotation(fieldAnn).name;
            && (path !in w.files ==> r == Err(LoaderRaised(path)))
            && (path in w.files && toml(w.files[path]).Raised? ==> r == Err(LoaderRaised(path)))
            && (path in w.files && toml(w.files[path]).Loaded? ==>
                  var inner := PreparseConfigObj(Intended, w, toml, toml(w.files[path]).entries, model, path, fuel - 1);
                  (r.Ok? <==> inner.Ok?) && (r.Ok? ==> r.value == Obj(model, inner.value)) &&
                  (r.Err? ==> r.error == inner.error))
  {
  }

  /** The intended entry point is the field walk of the parsed file, validated into the
      model: with `ConfigObjIsMappedFieldwise` and `ConfigObjFailsAtFirstError` this gives
      every field of the result and every error it can end in. */
  lemma PydoFromConfigWalksFields(w: World, toml: Loader, configPath: Path, model: string, fuel: nat)
    ensures var r := PydoFromConfig(w, toml, configPath, model, fuel);
            configPath in w.files && toml(w.files[configPath]).Loaded? ==>
              var inner := PreparseConfigObj(Intended, w, toml, toml(w.files[configPath]).entries, model, configPath, fuel);
              && (inner.Ok? ==> r == Ok(Obj(model, inner.value)))
              && (inner.Err? ==> r == Err(inner.error))
  {
  }

  /** One step of the field walk: the first field, then the rest, failing with the
      first failure. */
  lemma ConfigObjStep(t: Target, w: World, toml: Loader, obj: Entries, model: string, configPath: Path, fuel: nat)
    requires obj != []
    ensures var r := PreparseConfigObj(t, w, toml, obj, model, configPath, fuel);
            var ann := FieldAnn(w.schema, model, obj[0].0);
            var tail := PreparseConfigObj(t, w, toml, obj[1..], model, configPath, fuel);
            && (ann.Err? ==> r == Err(ann.error))
            && (ann.Ok? ==>
                  var head := PreparseConfigVal(t, w, toml, obj[0].1, ann.value, configPath, fuel);
                  && (head.Err? ==> r == Err(head.error))
                  && (head.Ok? && tail.Err? ==> r == Err(tail.error))
                  && (head.Ok? && tail.Ok? ==> r == Ok([(obj[0].0, head.value)] + tail.value)))
  {
  }

  /** Case 3 at the dispatch: an all-string list under `list[M]` is exactly the list of
      its strings preparsed under `M`, in order. */
  lemma StrListUnderListAnnIsWalked(t: Target, w: World, toml: Loader, items: seq<Value>, modelfieldAnn: Ann,
                                    configPath: Path, fuel: nat)
    requires AllStr(items) && ListModelAnnotation(NormalizeOptionalAnnotation(modelfieldAnn)).Some?
    ensures var r := PreparseConfigVal(t, w, toml, List(items), modelfieldAnn, configPath, fuel);
            var inner := PreparseItems(t, w, toml, items,
                                       ListModelAnnotation(NormalizeOptionalAnnotation(modelfieldAnn)).value, configPath, fuel);
            (r.Ok? <==> inner.Ok?) && (r.Ok? ==> r.value == List(inner.value)) &&
            (r.Err? ==> r.error == inner.error)
  {
  }

  /** Case 4 at the dispatch: an all-string dict under `dict[K, M]` is exactly the dict of
      its strings preparsed under `M`, key by key. */
  lemma StrDictUnderDictAnnIsWalked(t: Target, w: World, toml: Loader, d: Entries, modelfieldAnn: Ann,
                                    configPath: Path, fuel: nat)
    requires AllStrValues(d) && DictAnnotation(NormalizeOptionalAnnotation(modelfieldAnn)).Some?
    ensures var r := PreparseConfigVal(t, w, toml, Dict(d), modelfieldAnn, configPath, fuel);
            var inner := PreparseValues(t, w, toml, d,
                                        DictAnnotation(NormalizeOptionalAnnotation(modelfieldAnn)).value, configPath, fuel);
            (r.Ok? <==> inner.Ok?) && (r.Ok? ==> r.value == Dict(inner.value)) &&
            (r.Err? ==> r.error == inner.error)
  {
  }

  /** One field of `_preparse_config_obj`: its annotation, then its value under it. */
  function FieldOutcome(t: Target, w: World, toml: Loader, field: (string, Value), model: string,
                        configPath: Path, fuel: nat): Result<Value>
  {
    var ann :- FieldAnn(w.schema, model, field.0);
    PreparseConfigVal(t, w, toml, field.1, ann, configPath, fuel)
  }

  lemma FieldsStep(t: Target, w: World, toml: Loader, obj: Entries, model: string, configPath: Path, fuel: nat)
    requires obj != []
    ensures var r := PreparseConfigObj(t, w, toml, obj, model, configPath, fuel);
            var head := FieldOutcome(t, w, toml, obj[0], model, configPath, fuel);
            var tail := PreparseConfigObj(t, w, toml, obj[1..], model, configPath, fuel);
            && (head.Err? ==> r == Err(head.error))
            && (head.Ok? && tail.Err? ==> r == Err(tail.error))
            && (head.Ok? && tail.Ok? ==> r == Ok([(obj[0].0, head.value)] + tail.value))
  {
  }

  /** The preparsed document holds, key by key, each value preparsed under its own field's
      annotation; the walk succeeds exactly when every field does. */
  lemma {:induction false} ConfigObjIsMappedFieldwise(t: Target, w: World, toml: Loader, obj: Entries, model: string,
                                                      configPath: Path, fuel: nat)
    ensures var r := PreparseConfigObj(t, w, toml, obj, model, configPath, fuel);
            && (r.Ok? <==> forall i :: 0 <= i < |obj| ==> FieldOutcome(t, w, toml, obj[i], model, configPath, fuel).Ok?)
            && (r.Ok? ==> forall i :: 0 <= i < |obj| ==>
                            r.value[i].0 == obj[i].0 &&
                            FieldOutcome(t, w, toml, obj[i], model, configPath, fuel) == Ok(r.value[i].1))
    decreases |obj|
  {
    if obj != [] {
      ConfigObjIsMappedFieldwise(t, w, toml, obj[1..], model, configPath, fuel);
      FieldsStep(t, w, toml, obj, model, configPath, fuel);
      assert forall i :: 0 < i < |obj| ==> obj[i] == obj[1..][i - 1];
    }
  }

  /** ... and when it fails, it fails with the error of the first field that does. */
  lemma {:induction false} ConfigObjFailsAtFirstError(t: Target, w: World, toml: Loader, obj: Entries, model: string,
                                                      configPath: Path, fuel: nat)
    ensures var r := PreparseConfigObj(t, w, toml, obj, model, configPath, fuel);
            r.Err? ==> exists i :: 0 <= i < |obj| &&
                         FieldOutcome(t, w, toml, obj[i], model, configPath, fuel) == Err(r.error) &&
                         forall j :: 0 <= j < i ==> FieldOutcome(t, w, toml, obj[j], model, configPath, fuel).Ok?
    decreases |obj|
  {
    if obj != [] {
      ConfigObjFailsAtFirstError(t, w, toml, obj[1..], model, configPath, fuel);
      FieldsStep(t, w, toml, obj, model, configPath, fuel);
      var r := PreparseConfigObj(t, w, toml, obj, model, configPath, fuel);
      var head := FieldOutcome(t, w, toml, obj[0], model, configPath, fuel);
      var tail := PreparseConfigObj(t, w, toml, obj[1..], model, configPath, fuel);
      if head.Ok? && tail.Err? {
        var k :| 0 <= k < |obj[1..]| &&
                 FieldOutcome(t, w, toml, obj[1..][k], model, configPath, fuel) == Err(tail.error) &&
                 forall j :: 0 <= j < k ==> FieldOutcome(t, w, toml, obj[1..][j], model, configPath, fuel).Ok?;
        assert obj[1..][k] == obj[k + 1];
        forall j | 0 < j <= k
          ensures FieldOutcome(t, w, toml, obj[j], model, configPath, fuel).Ok?
        {
          assert obj[j] == obj[1..][j - 1];
        }
        assert FieldOutcome(t, w, toml, obj[k + 1], model, configPath, fuel) == Err(r.error);
      }
    }
  }

  /** A value holds no reference unless it is a string under a model, or a non-empty
      all-string list or dict under a list or dict of models. */
  predicate HoldsReference(v: Value, modelfieldAnn: Ann) {
    var ann := NormalizeOptionalAnnotation(modelfieldAnn);
    || (v.Str? && IsPydModel(ann))
    || (v.List? && v.items != [] && AllStr(v.items) && ListModelAnnotation(ann).Some?)
    || (v.Dict? && v.entries != [] && AllStrValues(v.entries) && DictAnnotation(ann).Some?)
  }

  /** As in the older module, only a bare model class is accepted inside a list or dict
      annotation, whatever the docstrings say: all-string lists and dicts under
      `Optional[list[M]]`, `list[Optional[M]]`, `Optional[dict[K, M]]` and
      `dict[K, Optional[M]]` are left as they are. */
  lemma OptionalModelContainersKept(t: Target, w: World, toml: Loader, items: seq<Value>, d: Entries, m: string,
                                    k: Ann, rest: seq<Ann>, configPath: Path, fuel: nat)
    ensures PreparseConfigVal(t, w, toml, List(items), Union(ListOf([ModelT(m)]), NoneT, rest), configPath, fuel)
         == Ok(List(items))
    ensures PreparseConfigVal(t, w, toml, List(items), ListOf([Union(ModelT(m), NoneT, rest)]), configPath, fuel)
         == Ok(List(items))
    ensures PreparseConfigVal(t, w, toml, Dict(d), Union(DictOf([k, ModelT(m)]), NoneT, rest), configPath, fuel)
         == Ok(Dict(d))
    ensures PreparseConfigVal(t, w, toml, Dict(d), DictOf([k, Union(ModelT(m), NoneT, rest)]), configPath, fuel)
         == Ok(Dict(d))
  {
  }

  /** A value that holds no reference comes back unchanged, under either target and
      whatever the files and the fuel. */
  lemma UnreferencedValueKept(t: Target, w: World, toml: Loader, v: Value, modelfieldAnn: Ann,
                              configPath: Path, fuel: nat)
    requires !HoldsReference(v, modelfieldAnn)
    ensures PreparseConfigVal(t, w, toml, v, modelfieldAnn, configPath, fuel) == Ok(v)
  {
    var ann := NormalizeOptionalAnnotation(modelfieldAnn);
    if v.List? && v.items == [] && ListModelAnnotation(ann).Some? {
      assert PreparseItems(t, w, toml, v.items, ListModelAnnotation(ann).value, configPath, fuel) == Ok([]);
    } else if v.Dict? && v.entries == [] && DictAnnotation(ann).Some? {
      assert PreparseValues(t, w, toml, v.entries, DictAnnotation(ann).value, configPath, fuel) == Ok([]);
    }
  }

  /** A document whose every key is declared and whose every value is neither a str,
      a list nor a dict passes through unchanged, under either target. */
  lemma {:induction false} ScalarFieldsKept(t: Target, w: World, toml: Loader, obj: Entries, model: string,
                                            configPath: Path, fuel: nat)
    requires forall i :: 0 <= i < |obj| ==> Declared(w.schema, model, obj[i].0) && !IsContainer(obj[i].1)
    ensures PreparseConfigObj(t, w, toml, obj, model, configPath, fuel) == Ok(obj)
    decreases |obj|
  {
    if obj != [] {
      assert forall i :: 0 < i < |obj| ==> obj[i] == obj[1..][i - 1];
      ScalarFieldsKept(t, w, toml, obj[1..], model, configPath, fuel);
      ConfigObjStep(t, w, toml, obj, model, configPath, fuel);
      assert obj == [(obj[0].0, obj[0].1)] + obj[1..];
    }
  }

  /** Case 3: an all-string list under `list[M]` is preparsed element by element, in
      order; it succeeds exactly when every element does. */
  lemma {:induction false} StrListExpandedInOrder(t: Target, w: World, toml: Loader, items: seq<Value>, ann: Ann,
                                                  configPath: Path, fuel: nat)
    ensures var r := PreparseItems(t, w, toml, items, ann, configPath, fuel);
            && (r.Ok? <==> forall i :: 0 <= i < |items| ==> PreparseConfigVal(t, w, toml, items[i], ann, configPath, fuel).Ok?)
            && (r.Ok? ==> forall i :: 0 <= i < |items| ==>
                            PreparseConfigVal(t, w, toml, items[i], ann, configPath, fuel) == Ok(r.value[i]))
    decreases |items|
  {
    if items != [] {
      StrListExpandedInOrder(t, w, toml, items[1..], ann, configPath, fuel);
      ItemsStep(t, w, toml, items, ann, configPath, fuel);
      assert forall i :: 0 < i < |items| ==> items[i] == items[1..][i - 1];
    }
  }

  /** ... and when it fails, it fails with the error of the first element that does. */
  lemma {:induction false} StrListFailsAtFirstError(t: Target, w: World, toml: Loader, items: seq<Value>, ann: Ann,
                                                    configPath: Path, fuel: nat)
    ensures var r := PreparseItems(t, w, toml, items, ann, configPath, fuel);
            r.Err? ==> exists i :: 0 <= i < |items| &&
                         PreparseConfigVal(t, w, toml, items[i], ann, configPath, fuel) == Err(r.error) &&
                         forall j :: 0 <= j < i ==> PreparseConfigVal(t, w, toml, items[j], ann, configPath, fuel).Ok?
    decreases |items|
  {
    if items != [] {
      StrListFailsAtFirstError(t, w, toml, items[1..], ann, configPath, fuel);
      ItemsStep(t, w, toml, items, ann, configPath, fuel);
      var r := PreparseItems(t, w, toml, items, ann, configPath, fuel);
      var head := PreparseConfigVal(t, w, toml, items[0], ann, configPath, fuel);
      var tail := PreparseItems(t, w, toml, items[1..], ann, configPath, fuel);
      if head.Ok? && tail.Err? {
        var k :| 0 <= k < |items[1..]| &&
                 PreparseConfigVal(t, w, toml, items[1..][k], ann, configPath, fuel) == Err(tail.error) &&
                 forall j :: 0 <= j < k ==> PreparseConfigVal(t, w, toml, items[1..][j], ann, configPath, fuel).Ok?;
        assert items[1..][k] == items[k + 1];
        forall j | 0 < j <= k
          ensures PreparseConfigVal(t, w, toml, items[j], ann, configPath, fuel).Ok?
        {
          assert items[j] == items[1..][j - 1];
        }
        assert PreparseConfigVal(t, w, toml, items[k + 1], ann, configPath, fuel) == Err(r.error);
      }
    }
  }

  lemma ItemsStep(t: Target, w: World, toml: Loader, items: seq<Value>, ann: Ann, configPath: Path, fuel: nat)
    requires items != []
    ensures var r := PreparseItems(t, w, toml, items, ann, configPath, fuel);
            var head := PreparseConfigVal(t, w, toml, items[0], ann, configPath, fuel);
            var tail := PreparseItems(t, w, toml, items[1..], ann, configPath, fuel);
            && (head.Err? ==> r == Err(head.error))
            && (head.Ok? && tail.Err? ==> r == Err(tail.error))
            && (head.Ok? && tail.Ok? ==> r == Ok([head.value] + tail.value))
  {
  }

  /** Case 4: an all-string dict under `dict[K, M]` keeps its keys, each value preparsed
      under the value model. */
  lemma {:induction false} StrDictExpandedByKey(t: Target, w: World, toml: Loader, d: Entries, ann: Ann,
                                                configPath: Path, fuel: nat)
    ensures var r := PreparseValues(t, w, toml, d, ann, configPath, fuel);
            && (r.Ok? <==> forall i :: 0 <= i < |d| ==> PreparseConfigVal(t, w, toml, d[i].1, ann, configPath, fuel).Ok?)
            && (r.Ok? ==> forall i :: 0 <= i < |d| ==>
                            r.value[i].0 == d[i].0 &&
                            PreparseConfigVal(t, w, toml, d[i].1, ann, configPath, fuel) == Ok(r.value[i].1))
    decreases |d|
  {
    if d != [] {
      StrDictExpandedByKey(t, w, toml, d[1..], ann, configPath, fuel);
      ValuesStep(t, w, toml, d, ann, configPath, fuel);
      assert forall i :: 0 < i < |d| ==> d[i] == d[1..][i - 1];
    }
  }

  lemma ValuesStep(t: Target, w: World, toml: Loader, d: Entries, ann: Ann, configPath: Path, fuel: nat)
    requires d != []
    ensures var r := PreparseValues(t, w, toml, d, ann, configPath, fuel);
            var head := PreparseConfigVal(t, w, toml, d[0].1, ann, configPath, fuel);
            var tail := PreparseValues(t, w, toml, d[1..], ann, configPath, fuel);
            && (head.Err? ==> r == Err(head.error))
            && (head.Ok? && tail.Err? ==> r == Err(tail.error))
            && (head.Ok? && tail.Ok? ==> r == Ok([(d[0].0, head.value)] + tail.value))
  {
  }

  // ---------------------------------------------------------------------------
  // Fuel

  /** More fuel never changes an outcome other than OutOfFuel, for the intended entry
      point as for the walk under either target. */
  lemma {:induction false} PydoFromConfigFuel(w: World, toml: Loader, configPath: Path, model: string,
                                              fuel: nat, more: nat)
    requires fuel <= more
    ensures PydoFromConfig(w, toml, configPath, model, fuel) != Err(OutOfFuel) ==>
              PydoFromConfig(w, toml, configPath, model, more) == PydoFromConfig(w, toml, configPath, model, fuel)
    decreases fuel, 1, 0
  {
    if configPath in w.files && toml(w.files[configPath]).Loaded? {
      ConfigObjFuel(Intended, w, toml, toml(w.files[configPath]).entries, model, configPath, fuel, more);
    }
  }

  lemma {:induction false} ConfigObjFuel(t: Target, w: World, toml: Loader, obj: Entries, model: string,
                                         configPath: Path, fuel: nat, more: nat)
    requires fuel <= more
    ensures PreparseConfigObj(t, w, toml, obj, model, configPath, fuel) != Err(OutOfFuel) ==>
              PreparseConfigObj(t, w, toml, obj, model, configPath, more) ==
              PreparseConfigObj(t, w, toml, obj, model, configPath, fuel)
    decreases fuel, 0, SizeEntries(obj)
  {
    if obj != [] {
      var ann := FieldAnn(w.schema, model, obj[0].0);
      if ann.Ok? {
        ConfigValFuel(t, w, toml, obj[0].1, ann.value, configPath, fuel, more);
        ConfigObjFuel(t, w, toml, obj[1..], model, configPath, fuel, more);
      }
    }
  }

  lemma {:induction false} ConfigValFuel(t: Target, w: World, toml: Loader, v: Value, modelfieldAnn: Ann,
                                         configPath: Path, fuel: nat, more: nat)
    requires fuel <= more
    ensures PreparseConfigVal(t, w, toml, v, modelfieldAnn, configPath, fuel) != Err(OutOfFuel) ==>
              PreparseConfigVal(t, w, toml, v, modelfieldAnn, configPath, more) ==
              PreparseConfigVal(t, w, toml, v, modelfieldAnn, configPath, fuel)
    decreases fuel, 0, Size(v)
  {
    var ann := NormalizeOptionalAnnotation(modelfieldAnn);
    if !IsContainer(v) {
    } else if v.Str? && IsPydModel(ann) {
      StrfieldFuel(t, w, toml, v.s, ann.name, configPath, fuel, more);
    } else if v.List? && AllStr(v.items) && ListModelAnnotation(ann).Some? {
      ItemsFuel(t, w, toml, v.items, ListModelAnnotation(ann).value, configPath, fuel, more);
    } else if v.Dict? && AllStrValues(v.entries) && DictAnnotation(ann).Some? {
      ValuesFuel(t, w, toml, v.entries, DictAnnotation(ann).value, configPath, fuel, more);
    }
  }

  lemma {:induction false} ItemsFuel(t: Target, w: World, toml: Loader, items: seq<Value>, ann: Ann,
                                     configPath: Path, fuel: nat, more: nat)
    requires fuel <= more
    ensures PreparseItems(t, w, toml, items, ann, configPath, fuel) != Err(OutOfFuel) ==>
              PreparseItems(t, w, toml, items, ann, configPath, more) ==
              PreparseItems(t, w, toml, items, ann, configPath, fuel)
    decreases fuel, 0, SizeList(items)
  {
    if items != [] {
      ConfigValFuel(t, w, toml, items[0], ann, configPath, fuel, more);
      ItemsFuel(t, w, toml, items[1..], ann, configPath, fuel, more);
    }
  }

  lemma {:induction false} ValuesFuel(t: Target, w: World, toml: Loader, d: Entries, ann: Ann,
                                      configPath: Path, fuel: nat, more: nat)
    requires fuel <= more
    ensures PreparseValues(t, w, toml, d, ann, configPath, fuel) != Err(OutOfFuel) ==>
              PreparseValues(t, w, toml, d, ann, configPath, more) ==
              PreparseValues(t, w, toml, d, ann, configPath, fuel)
    decreases fuel, 0, SizeEntries(d)
  {
    if d != [] {
      ConfigValFuel(t, w, toml, d[0].1, ann, configPath, fuel, more);
      ValuesFuel(t, w, toml, d[1..], ann, configPath, fuel, more);
    }
  }

  lemma {:induction false} StrfieldFuel(t: Target, w: World, toml: Loader, fieldValue: string, fieldModel: string,
                                        baseConfigPath: Path, fuel: nat, more: nat)
    requires fuel <= more
    ensures ConfigStrfieldToPydo(t, w, toml, fieldValue, fieldModel, baseConfigPath, fuel) != Err(OutOfFuel) ==>
              ConfigStrfieldToPydo(t, w, toml, fieldValue, fieldModel, baseConfigPath, more) ==
              ConfigStrfieldToPydo(t, w, toml, fieldValue, fieldModel, baseConfigPath, fuel)
    decreases fuel, 0, 0
  {
    if t == Intended && fuel > 0 {
      PydoFromConfigFuel(w, toml, ResolveRef(baseConfigPath, fieldValue), fieldModel, fuel - 1, more - 1);
    }
  }
}
