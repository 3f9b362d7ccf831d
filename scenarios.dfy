/** The package's sub-model tests, stated for any directory and any two distinct
    file stems: a house file whose `dimensions` field names the dimensions file
    beside it, the same house when that file does not exist, and the same
    documents under the three expanders. */
module Scenarios {
  import opened PurePaths
  import opened ConfigModel
  import Loaders
  import Expand
  import Parsing
  import PydanticPlusParsing

  /** A file stem: a name with neither separator nor dot. */
  predicate IsStem(s: string) {
    s != "" && '/' !in s && '.' !in s
  }

  /** The test layout: the house file and the dimensions file, two different stems. */
  predicate Layout(house: string, dims: string) {
    IsStem(house) && IsStem(dims) && house != dims
  }

  function TomlFile(dir: seq<string>, stem: string): Path {
    Path(true, dir + [stem + ".toml"])
  }

  /** How the house file names the dimensions file: relative, by its file name. */
  function Ref(stem: string): string {
    stem + ".toml"
  }

  const X := Expand.ConfigExpander(None)

  const DimsDoc: Entries := [("length", Scalar("40")), ("width", Scalar("20")), ("height", Scalar("10"))]

  function HouseDoc(reference: string): Entries {
    [("name", Str("my house")), ("dimensions", Str(reference))]
  }

  /** The house document once its reference is replaced by the referenced document. */
  const HouseExpanded: Entries := [("name", Str("my house")), ("dimensions", Dict(DimsDoc))]

  /** A stand-in for the TOML parser over the two documents. */
  function Toml(reference: string): Loader {
    text => if text == "house" then Loaded(HouseDoc(reference)) else if text == "dims" then Loaded(DimsDoc) else Raised
  }

  function HouseSchema(): Schema {
    map[
      "House" := [("name", Other("str")), ("dimensions", ModelT("Dimensions"))],
      "Dimensions" := [("length", Other("int")), ("width", Other("int")), ("height", Other("int"))]
    ]
  }

  /** The house file, and the dimensions file beside it when `dimsExists`. */
  function HouseWorld(dir: seq<string>, house: string, dims: string, dimsExists: bool): World {
    var files := map[TomlFile(dir, house) := "house"];
    World(HouseSchema(),
          if dimsExists then files[TomlFile(dir, dims) := "dims"] else files,
          map[".toml" := Toml(Ref(dims))])
  }

  // ---------------------------------------------------------------------------
  // The layout

  lemma StemsKeepFilesApart(dir: seq<string>, house: string, dims: string)
    requires Layout(house, dims)
    ensures TomlFile(dir, house) != TomlFile(dir, dims)
  {
    var a, b := house + ".toml", dims + ".toml";
    if |house| == |dims| {
      assert a[..|house|] == house && b[..|dims|] == dims;
    }
    assert a != b;
    assert TomlFile(dir, house).parts[|dir|] == a && TomlFile(dir, dims).parts[|dir|] == b;
  }

  /** A TOML file's suffix is `.toml`. */
  lemma TomlSuffix(dir: seq<string>, stem: string)
    requires IsStem(stem)
    ensures Suffix(TomlFile(dir, stem)) == ".toml"
  {
    SuffixOfName(dir, true, stem, "toml");
    assert stem + "." + "toml" == stem + ".toml";
  }

  /** A reference by bare file name names the file of that name beside the referrer. */
  lemma SiblingResolves(dir: seq<string>, house: string, dims: string)
    requires IsStem(dims)
    ensures ResolveRef(TomlFile(dir, house), Ref(dims)) == TomlFile(dir, dims)
  {
    var r := Ref(dims);
    assert r[0] == dims[0];
    assert IsPart(r);
    PartsOfPart(r);
    assert Parse(r) == Path(false, [r]);
    assert Parent(TomlFile(dir, house)) == Path(true, dir);
  }

  /** Both files carry the `.toml` suffix, they are different files, and the house
      file's reference names the dimensions file. */
  lemma LayoutResolves(dir: seq<string>, house: string, dims: string)
    requires Layout(house, dims)
    ensures Suffix(TomlFile(dir, house)) == ".toml" && Suffix(TomlFile(dir, dims)) == ".toml"
    ensures ResolveRef(TomlFile(dir, house), Ref(dims)) == TomlFile(dir, dims)
    ensures TomlFile(dir, house) != TomlFile(dir, dims)
  {
    TomlSuffix(dir, house);
    TomlSuffix(dir, dims);
    SiblingResolves(dir, house, dims);
    StemsKeepFilesApart(dir, house, dims);
  }

  /** The registry finds the TOML parser for the house file, which parses to the
      house document. */
  lemma HouseFileLoads(dir: seq<string>, house: string, dims: string, dimsExists: bool)
    requires Layout(house, dims)
    ensures var w := HouseWorld(dir, house, dims, dimsExists);
            && TomlFile(dir, house) in w.files && Toml(Ref(dims))(w.files[TomlFile(dir, house)]) == Loaded(HouseDoc(Ref(dims)))
            && Loaders.LoadConfig(w.loaders, w.files, TomlFile(dir, house), None) == Ok(HouseDoc(Ref(dims)))
  {
    var w := HouseWorld(dir, house, dims, dimsExists);
    var p := TomlFile(dir, house);
    assert p in w.files && w.files[p] == "house" by {
      StemsKeepFilesApart(dir, house, dims);
    }
    TomlSuffix(dir, house);
  }

  /** The same for the dimensions file, when it exists; when it does not, the table
      of files does not hold it. */
  lemma DimsFileLoads(dir: seq<string>, house: string, dims: string, dimsExists: bool)
    requires Layout(house, dims)
    ensures var w := HouseWorld(dir, house, dims, dimsExists);
            && (dimsExists ==> TomlFile(dir, dims) in w.files && Toml(Ref(dims))(w.files[TomlFile(dir, dims)]) == Loaded(DimsDoc))
            && (dimsExists ==> Loaders.LoadConfig(w.loaders, w.files, TomlFile(dir, dims), None) == Ok(DimsDoc))
            && (!dimsExists ==> TomlFile(dir, dims) !in w.files)
  {
    StemsKeepFilesApart(dir, house, dims);
    TomlSuffix(dir, dims);
  }

  /** The fields of the two models, looked up by name. */
  lemma HouseFieldAnns()
    ensures FieldAnn(HouseSchema(), "House", "name") == Ok(Other("str"))
    ensures FieldAnn(HouseSchema(), "House", "dimensions") == Ok(ModelT("Dimensions"))
    ensures FieldAnn(HouseSchema(), "Dimensions", "length") == Ok(Other("int"))
    ensures FieldAnn(HouseSchema(), "Dimensions", "width") == Ok(Other("int"))
    ensures FieldAnn(HouseSchema(), "Dimensions", "height") == Ok(Other("int"))
  {
  }

  // ---------------------------------------------------------------------------
  // The current expander

  /** The dimensions file holds scalars only. */
  lemma DimsHaveNoReferences()
    ensures Expand.NoReferencesInFields(HouseSchema(), DimsDoc, "Dimensions")
  {
    HouseFieldAnns();
    var d := DimsDoc;
    assert d[1..][1..] == [("height", Scalar("10"))];
    assert d[1..][1..][1..] == [];
    assert Expand.NoReferencesInFields(HouseSchema(), d[1..][1..], "Dimensions");
  }

  /** The dimensions file holds no reference, so it expands to itself, fuel or not. */
  lemma DimsExpandsToItself(dir: seq<string>, house: string, dims: string, fuel: nat)
    requires Layout(house, dims)
    ensures Expand.Expand(X, HouseWorld(dir, house, dims, true), TomlFile(dir, dims), "Dimensions", fuel) == Ok(DimsDoc)
  {
    DimsFileLoads(dir, house, dims, true);
    DimsHaveNoReferences();
    Expand.NoReferencesInFieldsUnchanged(X, HouseWorld(dir, house, dims, true), DimsDoc, "Dimensions",
                                         TomlFile(dir, dims), fuel);
  }

  /** The `dimensions` field is preparsed under the sub-model, so its string is a reference. */
  lemma DimensionsFieldIsReference(w: World, x: Expand.ConfigExpander, reference: string, path: Path, fuel: nat)
    requires w.schema == HouseSchema()
    ensures Expand.FieldOutcome(x, w, ("dimensions", Str(reference)), "House", path, fuel) ==
            Expand.PreparseConfigValue(x, w, Str(reference), ModelT("Dimensions"), path, fuel)
  {
    HouseFieldAnns();
  }

  /** The plain string field stays as it is. */
  lemma HouseNameKept(w: World, x: Expand.ConfigExpander, path: Path, fuel: nat)
    requires w.schema == HouseSchema()
    ensures Expand.FieldOutcome(x, w, ("name", Str("my house")), "House", path, fuel) == Ok(Str("my house"))
  {
    HouseFieldAnns();
  }

  /** The house file's reference expands to the dimensions file's document. */
  lemma DimensionsReferenceExpands(dir: seq<string>, house: string, dims: string)
    requires Layout(house, dims)
    ensures Expand.FieldOutcome(X, HouseWorld(dir, house, dims, true), ("dimensions", Str(Ref(dims))), "House",
                                TomlFile(dir, house), 1) == Ok(Dict(DimsDoc))
  {
    var w := HouseWorld(dir, house, dims, true);
    var p := TomlFile(dir, house);
    assert ResolveRef(p, Ref(dims)) == TomlFile(dir, dims) && TomlFile(dir, dims) in w.files by {
      LayoutResolves(dir, house, dims);
    }
    assert Expand.Expand(X, w, TomlFile(dir, dims), "Dimensions", 0) == Ok(DimsDoc) by {
      DimsExpandsToItself(dir, house, dims, 0);
    }
    DimensionsFieldIsReference(w, X, Ref(dims), p, 1);
    Expand.PathStringIsExpanded(X, w, Ref(dims), ModelT("Dimensions"), p, 1);
  }

  lemma SingleFieldStep(w: World, x: Expand.ConfigExpander, e: Entries, model: string, path: Path, fuel: nat, v: Value)
    requires |e| == 1
    requires Expand.FieldOutcome(x, w, e[0], model, path, fuel) == Ok(v)
    ensures Expand.PreparseConfigDict(x, w, e, model, path, fuel) == Ok([(e[0].0, v)])
  {
    assert e[1..] == [];
    assert Expand.PreparseConfigDict(x, w, e[1..], model, path, fuel) == Ok([]);
    Expand.ConfigDictStep(x, w, e, model, path, fuel);
    assert [(e[0].0, v)] + [] == [(e[0].0, v)];
  }

  /** The house document walks to itself with the reference replaced by the
      referenced document. */
  lemma HouseDocExpands(dir: seq<string>, house: string, dims: string)
    requires Layout(house, dims)
    ensures Expand.PreparseConfigDict(X, HouseWorld(dir, house, dims, true), HouseDoc(Ref(dims)), "House",
                                      TomlFile(dir, house), 1) == Ok(HouseExpanded)
  {
    var w := HouseWorld(dir, house, dims, true);
    var p := TomlFile(dir, house);
    var d := HouseDoc(Ref(dims));
    var expandedDims := [("dimensions", Dict(DimsDoc))];
    assert Expand.PreparseConfigDict(X, w, d[1..], "House", p, 1) == Ok(expandedDims) by {
      DimensionsReferenceExpands(dir, house, dims);
      SingleFieldStep(w, X, d[1..], "House", p, 1, Dict(DimsDoc));
    }
    HouseNameKept(w, X, p, 1);
    Expand.ConfigDictStep(X, w, d, "House", p, 1);
    assert [("name", Str("my house"))] + expandedDims == HouseExpanded;
  }

  /** `test_submodel`: the house validates with its dimensions read from the
      referenced file; one level of reference needs one unit of fuel. */
  lemma HouseWithReferencedDimensions(dir: seq<string>, house: string, dims: string)
    requires Layout(house, dims)
    ensures Expand.ValidateConfig(HouseWorld(dir, house, dims, true), TomlFile(dir, house), "House", None, 1) ==
            Ok(Obj("House", HouseExpanded))
  {
    HouseDocExpands(dir, house, dims);
    HouseFileLoads(dir, house, dims, true);
  }

  /** Without fuel the reference cannot be followed. */
  lemma ReferenceNeedsFuel(dir: seq<string>, house: string, dims: string)
    requires Layout(house, dims)
    ensures Expand.FieldOutcome(X, HouseWorld(dir, house, dims, true), ("dimensions", Str(Ref(dims))), "House",
                                TomlFile(dir, house), 0) == Err(OutOfFuel)
  {
    var w := HouseWorld(dir, house, dims, true);
    var p := TomlFile(dir, house);
    DimensionsFieldIsReference(w, X, Ref(dims), p, 0);
    assert ResolveRef(p, Ref(dims)) in w.files by {
      LayoutResolves(dir, house, dims);
    }
    assert Expand.ParsePathStrIntoPydmodel(X, w, Ref(dims), "Dimensions", p, 0) == Err(OutOfFuel);
  }

  /** ... so the house, with its one reference, does not validate without fuel. */
  lemma HouseNeedsFuel(dir: seq<string>, house: string, dims: string)
    requires Layout(house, dims)
    ensures Expand.ValidateConfig(HouseWorld(dir, house, dims, true), TomlFile(dir, house), "House", None, 0) ==
            Err(OutOfFuel)
  {
    var w := HouseWorld(dir, house, dims, true);
    var p := TomlFile(dir, house);
    var d := HouseDoc(Ref(dims));
    assert Expand.PreparseConfigDict(X, w, d, "House", p, 0) == Err(OutOfFuel) by {
      ReferenceNeedsFuel(dir, house, dims);
      HouseNameKept(w, X, p, 0);
      Expand.ConfigDictStep(X, w, d[1..], "House", p, 0);
      Expand.ConfigDictStep(X, w, d, "House", p, 0);
    }
    HouseFileLoads(dir, house, dims, true);
  }

  /** `test_submodel_toml_badpath`: a reference to a file that does not exist is a
      FileNotFoundError naming the referencing file and the reference, whatever the fuel. */
  lemma HouseWithMissingDimensions(dir: seq<string>, house: string, dims: string, fuel: nat)
    requires Layout(house, dims)
    ensures Expand.ValidateConfig(HouseWorld(dir, house, dims, false), TomlFile(dir, house), "House", None, fuel) ==
            Err(FileNotFound(TomlFile(dir, house), Ref(dims)))
  {
    var w := HouseWorld(dir, house, dims, false);
    var p := TomlFile(dir, house);
    var d := HouseDoc(Ref(dims));
    var e := FileNotFound(p, Ref(dims));
    assert Expand.FieldOutcome(X, w, d[1], "House", p, fuel) == Err(e) by {
      LayoutResolves(dir, house, dims);
      DimsFileLoads(dir, house, dims, false);
      DimensionsFieldIsReference(w, X, Ref(dims), p, fuel);
      Expand.PathStringIsExpanded(X, w, Ref(dims), ModelT("Dimensions"), p, fuel);
    }
    assert Expand.PreparseConfigDict(X, w, d, "House", p, fuel) == Err(e) by {
      HouseNameKept(w, X, p, fuel);
      Expand.ConfigDictStep(X, w, d[1..], "House", p, fuel);
      Expand.ConfigDictStep(X, w, d, "House", p, fuel);
    }
    HouseFileLoads(dir, house, dims, false);
  }

  // ---------------------------------------------------------------------------
  // The older and the oldest expander on the same files

  /** An inline table under a model field that itself holds a reference: the current
      expander walks into it and follows the reference, the older one hands the table
      over untouched, reference string and all. */
  lemma InlineTableWalkedOnlyByCurrentExpander(dir: seq<string>, house: string, dims: string)
    requires Layout(house, dims)
    ensures Expand.PreparseConfigValue(X, HouseWorld(dir, house, dims, true), Dict(HouseDoc(Ref(dims))), ModelT("House"),
                                       TomlFile(dir, house), 1) == Ok(Dict(HouseExpanded))
    ensures Parsing.PreparseConfigValue(HouseWorld(dir, house, dims, true), Dict(HouseDoc(Ref(dims))), ModelT("House"),
                                        TomlFile(dir, house), 1) == Ok(Dict(HouseDoc(Ref(dims))))
  {
    HouseDocExpands(dir, house, dims);
    Expand.InlineModelDictIsWalked(X, HouseWorld(dir, house, dims, true), HouseDoc(Ref(dims)), ModelT("House"),
                                   TomlFile(dir, house), 1);
  }

  /** Every field of the dimensions document is declared and holds a scalar. */
  lemma DimsDeclaredScalars(schema: Schema)
    requires schema == HouseSchema()
    ensures forall i :: 0 <= i < |DimsDoc| ==> Declared(schema, "Dimensions", DimsDoc[i].0) && !IsContainer(DimsDoc[i].1)
  {
    HouseFieldAnns();
  }

  /** The oldest expander, as intended, on the dimensions file: scalars only. */
  lemma OldestExpanderOnDims(dir: seq<string>, house: string, dims: string)
    requires Layout(house, dims)
    ensures PydanticPlusParsing.PydoFromConfig(HouseWorld(dir, house, dims, true), Toml(Ref(dims)), TomlFile(dir, dims),
                                               "Dimensions", 0) == Ok(Obj("Dimensions", DimsDoc))
  {
    var w := HouseWorld(dir, house, dims, true);
    var q := TomlFile(dir, dims);
    assert PydanticPlusParsing.PreparseConfigObj(PydanticPlusParsing.Intended, w, Toml(Ref(dims)), DimsDoc, "Dimensions",
                                                 q, 0) == Ok(DimsDoc) by {
      DimsDeclaredScalars(w.schema);
      PydanticPlusParsing.ScalarFieldsKept(PydanticPlusParsing.Intended, w, Toml(Ref(dims)), DimsDoc, "Dimensions", q, 0);
    }
    DimsFileLoads(dir, house, dims, true);
  }

  lemma ObjConsStep(t: PydanticPlusParsing.Target, w: World, toml: Loader, obj: Entries, model: string,
                    configPath: Path, fuel: nat, v: Value, rest: Entries)
    requires obj != [] && FieldAnn(w.schema, model, obj[0].0).Ok?
    requires PydanticPlusParsing.PreparseConfigVal(t, w, toml, obj[0].1, FieldAnn(w.schema, model, obj[0].0).value,
                                                   configPath, fuel) == Ok(v)
    requires PydanticPlusParsing.PreparseConfigObj(t, w, toml, obj[1..], model, configPath, fuel) == Ok(rest)
    ensures PydanticPlusParsing.PreparseConfigObj(t, w, toml, obj, model, configPath, fuel) == Ok([(obj[0].0, v)] + rest)
  {
    PydanticPlusParsing.ConfigObjStep(t, w, toml, obj, model, configPath, fuel);
  }

  /** The oldest expander, as intended, turns the reference into the dimensions model. */
  lemma OldestReferenceLoadsDims(dir: seq<string>, house: string, dims: string)
    requires Layout(house, dims)
    ensures PydanticPlusParsing.PreparseConfigVal(PydanticPlusParsing.Intended, HouseWorld(dir, house, dims, true),
                                                  Toml(Ref(dims)), Str(Ref(dims)), ModelT("Dimensions"),
                                                  TomlFile(dir, house), 1) == Ok(Obj("Dimensions", DimsDoc))
  {
    SiblingResolves(dir, house, dims);
    OldestExpanderOnDims(dir, house, dims);
  }

  /** The oldest expander, as intended, follows the house's reference into the
      dimensions model. */
  lemma OldestExpanderFollowsReference(dir: seq<string>, house: string, dims: string)
    requires Layout(house, dims)
    ensures PydanticPlusParsing.PreparseConfigObj(PydanticPlusParsing.Intended, HouseWorld(dir, house, dims, true),
                                                  Toml(Ref(dims)), HouseDoc(Ref(dims))[1..], "House",
                                                  TomlFile(dir, house), 1) ==
            Ok([("dimensions", Obj("Dimensions", DimsDoc))])
  {
    var t := PydanticPlusParsing.Intended;
    var w := HouseWorld(dir, house, dims, true);
    var p := TomlFile(dir, house);
    var e := HouseDoc(Ref(dims))[1..];
    var dimsObj := Obj("Dimensions", DimsDoc);
    assert FieldAnn(w.schema, "House", "dimensions") == Ok(ModelT("Dimensions")) by {
      HouseFieldAnns();
    }
    OldestReferenceLoadsDims(dir, house, dims);
    assert e[1..] == [];
    assert PydanticPlusParsing.PreparseConfigObj(t, w, Toml(Ref(dims)), e[1..], "House", p, 1) == Ok([]);
    ObjConsStep(t, w, Toml(Ref(dims)), e, "House", p, 1, dimsObj, []);
    assert [("dimensions", dimsObj)] + [] == [("dimensions", dimsObj)];
  }

  /** The oldest expander keeps the plain string field. */
  lemma OldestNameKept(t: PydanticPlusParsing.Target, w: World, toml: Loader, path: Path, fuel: nat)
    requires w.schema == HouseSchema()
    ensures FieldAnn(w.schema, "House", "name") == Ok(Other("str"))
    ensures PydanticPlusParsing.PreparseConfigVal(t, w, toml, Str("my house"), Other("str"), path, fuel) ==
            Ok(Str("my house"))
  {
    HouseFieldAnns();
  }

  /** The oldest expander, as intended, walks the house document into the
      dimensions model. */
  lemma OldestExpanderWalksHouse(dir: seq<string>, house: string, dims: string)
    requires Layout(house, dims)
    ensures PydanticPlusParsing.PreparseConfigObj(PydanticPlusParsing.Intended, HouseWorld(dir, house, dims, true),
                                                  Toml(Ref(dims)), HouseDoc(Ref(dims)), "House", TomlFile(dir, house), 1) ==
            Ok([("name", Str("my house")), ("dimensions", Obj("Dimensions", DimsDoc))])
  {
    var t := PydanticPlusParsing.Intended;
    var w := HouseWorld(dir, house, dims, true);
    var p := TomlFile(dir, house);
    var d := HouseDoc(Ref(dims));
    var rest := [("dimensions", Obj("Dimensions", DimsDoc))];
    assert d[0] == ("name", Str("my house"));
    OldestNameKept(t, w, Toml(Ref(dims)), p, 1);
    OldestExpanderFollowsReference(dir, house, dims);
    ObjConsStep(t, w, Toml(Ref(dims)), d, "House", p, 1, Str("my house"), rest);
    assert [("name", Str("my house"))] + rest == [("name", Str("my house")), ("dimensions", Obj("Dimensions", DimsDoc))];
  }

  /** The oldest expander on the house: with the call it evidently meant, the
      dimensions file is loaded and validated into the sub-model. */
  lemma OldestExpanderOnHouse(dir: seq<string>, house: string, dims: string)
    requires Layout(house, dims)
    ensures PydanticPlusParsing.PydoFromConfig(HouseWorld(dir, house, dims, true), Toml(Ref(dims)), TomlFile(dir, house),
                                               "House", 1) ==
            Ok(Obj("House", [("name", Str("my house")), ("dimensions", Obj("Dimensions", DimsDoc))]))
  {
    var w := HouseWorld(dir, house, dims, true);
    var p := TomlFile(dir, house);
    assert p in w.files && Toml(Ref(dims))(w.files[p]) == Loaded(HouseDoc(Ref(dims))) by {
      HouseFileLoads(dir, house, dims, true);
    }
    OldestExpanderWalksHouse(dir, house, dims);
  }

  /** ... and as written, the same house fails with a NameError at the reference,
      whatever the files and the parser. */
  lemma OldestExpanderFailsOnHouse(w: World, toml: Loader, reference: string, path: Path)
    requires w.schema == HouseSchema()
    ensures PydanticPlusParsing.PreparseConfigObj(PydanticPlusParsing.AsWritten, w, toml, HouseDoc(reference), "House",
                                                  path, 1) ==
            Err(NameError("pydo_from_config"))
  {
    var t := PydanticPlusParsing.AsWritten;
    var d := HouseDoc(reference);
    assert FieldAnn(w.schema, "House", "name") == Ok(Other("str")) &&
           FieldAnn(w.schema, "House", "dimensions") == Ok(ModelT("Dimensions")) by {
      HouseFieldAnns();
    }
    PydanticPlusParsing.AsWrittenReferenceFails(w, toml, reference, ModelT("Dimensions"), path, 1);
    PydanticPlusParsing.ConfigObjStep(t, w, toml, d[1..], "House", path, 1);
    PydanticPlusParsing.ConfigObjStep(t, w, toml, d, "House", path, 1);
  }
}
