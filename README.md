# nested-config expansion, modelled in Dafny

nested-config loads a configuration file (TOML, JSON or YAML) into a pydantic
model. Before validation it *expands* the loaded dict. A string that stands
where the model expects a sub-model is a path to another config file. The path
is resolved against the directory of the file that holds it, and the string is
replaced by that file's contents, expanded in turn. The same holds for a list or
a dict of such strings. The repository carries three generations of this expander:

- `src/nested_config/expand.py` is the current `ConfigExpander`, with a six-way dispatch. It also walks inline dicts and lists of any shape.
- `nested_config/parsing.py` is the older five-way dispatch, used for all-string lists and dicts only.
- `pydantic_plus/parsing.py` is the oldest version. Its path step calls a name that no module defines.

The two `nested_config` expanders rest on the loader registry of
`nested_config/loaders.py`. That is a table from file suffix to parser, with a
default-suffix fallback. It wraps every parser failure in a `ConfigLoaderError`.
`pydantic_plus` parses TOML directly and lets the parser's failures escape.

The model has these modules:

- `PurePaths` (`paths.dfy`): the part of POSIX `pathlib` the expanders use. That is parsing a string into a path, `str()` of a path, `.parent`, `/`, `.name` and `.suffix`.
- `ConfigModel` (`config_model.dfy`): loaded values, field annotations and the model schema, plus the errors and the `World` the expanders read (schema, files on disk, loader table). It also holds the reference-resolution rule.
- `Loaders` (`loaders.dfy`): the registry as a class whose `update` method changes its table in place, and the pure lookup and load steps.
- `Expand`, `Parsing` and `PydanticPlusParsing`: one module per expander.
- `Scenarios`: the package's sub-model tests, stated over any directory and any two distinct file stems.

The expanders are pure functions returning a `Result`. A Python exception becomes
an `Err`, and the first failure wins, as in the source's comprehensions. Pydantic
validation is out of scope: a validated instance is the opaque value
`Obj(model, fields)`. Reference chains have no cycle guard in the source, so each
expander takes a `fuel` bound on the nesting depth of file references.
`OutOfFuel` is the only outcome that more fuel can change (`FuelIsOnlyABound`).

Where the package's description and its code differ, the model follows the code:

- Only the current expander walks inline sub-model dicts. The two older ones pass them through as they are.
- A reference to a missing file raises Python's `FileNotFoundError` in the two `nested_config` expanders. The model calls it `FileNotFound`.
- Only `nested_config` wraps parser failures in `ConfigLoaderError`. `pydantic_plus` lets them escape as they are (`LoaderRaised`).
- `NoLoaderError` carries the path's own suffix, even when a default suffix was also tried.
- The docstrings of the list and dict helpers in both older expanders (`nested_config/parsing.py:148-149` and `:162-163`, `pydantic_plus/parsing.py:100-101` and `:114-115`) promise "a (maybe optional) Pydantic model". The code accepts only a bare model class, and the optional unwrapping applies only to `Optional[M]` itself. So all-string lists and dicts under `list[Optional[M]]`, `Optional[list[M]]`, `dict[K, Optional[M]]` and `Optional[dict[K, M]]` are kept as they are (`OptionalModelContainersKept` in both modules).

The code does not make the top-level path absolute. It uses `Path(config_path)`
as given, and relative references are joined onto its `.parent`. The model does
the same.

## Model

| member | source | states |
|---|---|---|
| PurePaths.Parse | src/nested_config/expand.py:149-150 | `Path(s)` holds only well-formed parts (no empty part, no `.`, no `/`), and it is absolute exactly when `s` starts with `/` |
| PurePaths.ParseFormat | src/nested_config/expand.py:149 | parsing the string form of a well-formed path gives the same path back |
| PurePaths.SplitAtFirstSlash | src/nested_config/expand.py:149-150 | the parts of any string: a slash-free segment is kept unless it is empty or `.`, and a string splits at its first `/` into that segment's part and the parts of the rest |
| PurePaths.DotSlashIsIgnored | src/nested_config/expand.py:149-152 | a leading `./` does not change a relative path, so `./dims.toml` names the same file as `dims.toml` |
| PurePaths.PartsOfJoinParts | src/nested_config/expand.py:149 | splitting the `/`-joined parts of a path gives those parts back |
| PurePaths.Parent | src/nested_config/expand.py:152 | `.parent` keeps absoluteness and drops exactly the last part; the root and `.` are their own parent |
| PurePaths.Join | src/nested_config/expand.py:152 | `p / q` is `q` when `q` is absolute, and otherwise `p`'s parts followed by `q`'s under `p`'s root; joining well-formed paths gives a well-formed path |
| PurePaths.ParentOfJoin | src/nested_config/expand.py:152 | the parent of `dir / name` is `dir` |
| PurePaths.Suffix | nested_config/loaders.py:76 | `.suffix` is empty or a dot followed by dot-free characters, and it is a proper tail of `.name` |
| PurePaths.SuffixOfName | nested_config/loaders.py:76 | a file named `stem.ext` with a dot-free `ext` has suffix `.ext` |
| ConfigModel.ResolveRef | src/nested_config/expand.py:149-152 | an absolute reference is used verbatim; a relative one lands under the referencing file's parent directory |
| ConfigModel.ResolveRefAnchorsAtParent | src/nested_config/expand.py:150-152 | two files in one directory resolve every reference alike; a relative reference stays under that directory |
| ConfigModel.RelativeReferencesChain | src/nested_config/expand.py:150-152 | each level re-anchors: `a/b` from the root file, then `../c` from there, gives `parent/a/../c` (`..` is kept, not collapsed) |
| ConfigModel.FieldAnn | src/nested_config/_pydantic.py:33-36 | a field's annotation is found exactly when the model declares the field; otherwise it is the KeyError of the field-table lookup, which carries the field name (the model adds the model's name, as `UnknownField(model, key)`) |
| ConfigModel.IsPydModel | pydantic_plus/parsing.py:16-18 | `ispydmodel` holds only for a class, and among annotations exactly for model classes |
| Loaders.InitialLoaders | nested_config/loaders.py:51-63 | the import-time table has `.toml` and `.json`, plus `.yaml` and `.yml` (the same parser) exactly when YAML is installed |
| Loaders.Registry.constructor | nested_config/loaders.py:51-63 | a new registry holds the import-time table |
| Loaders.Registry.UpdateLoaders | nested_config/loaders.py:66-69 | `update`: the new entries win, every other entry stays, and no key is lost |
| Loaders.GetLoader | nested_config/loaders.py:72-82 | the loader for the path's suffix; otherwise the default suffix's loader; otherwise a NoLoaderError naming the path's suffix (not the default) |
| Loaders.UpdateIsAdditive | nested_config/loaders.py:66-82 | after an update, a path that had a loader still has one, and a suffix named in the update resolves to the new loader |
| Loaders.LoadConfig | nested_config/loaders.py:85-113 | the only errors are NoLoaderError (unwrapped) and ConfigLoaderError tagged with the path; success means a loader was found, the file exists and parsed, and the result is what it parsed to |
| Expand.GetOptionalAnn | src/nested_config/expand.py:161-167 | `Union[X, None, ...]` unwraps to `X` whatever `X` is; every other annotation is kept |
| Expand.GetListValueAnn | src/nested_config/expand.py:170-176 | a list annotation with arguments yields its first argument, of any kind; everything else yields none |
| Expand.GetDictValueAnn | src/nested_config/expand.py:179-186 | a dict annotation with two arguments yields the value argument; everything else yields none |
| Expand.Expand | src/nested_config/expand.py:77-82 | a load failure is the result; a successful load is followed by the field walk of the loaded dict, anchored at this file, whose outcome is the result; success implies the file exists and the expanded dict has the loaded dict's keys in order |
| Expand.PreparseConfigDict | src/nested_config/expand.py:84-92 | on success the keys and their order are kept and every key is a declared field |
| Expand.PreparseConfigValue | src/nested_config/expand.py:94-142 | a non-container and a string under a non-model are returned unchanged; a reference under a model becomes a dict; a list keeps its length and a dict its keys |
| Expand.PreparseItems | src/nested_config/expand.py:129-132 | on success one result per element |
| Expand.PreparseDictValues | src/nested_config/expand.py:137-140 | on success the keys are kept in order |
| Expand.ParsePathStrIntoPydmodel | src/nested_config/expand.py:144-158 | a reference that resolves to no file is a FileNotFoundError naming the referencing file and the reference string; a reference to an existing file is the expansion of that file under the model, so the referenced file's own load and walk errors are the result; success implies the file exists |
| Expand.ValidateConfig | src/nested_config/expand.py:21-70 | the result is the model instance built from `expand_config`'s dict when that succeeds, and `expand_config`'s error otherwise; success yields an instance of the requested model whose fields are the keys of the loaded file |
| Expand.OptionalSameAsRequired | src/nested_config/expand.py:98-99 | a value under `Optional[A]` (and `Union[A, None, ...]`) expands exactly as under `A`, for any `A` that is not itself optional |
| Expand.OtherAnnotationsKept | src/nested_config/expand.py:161-167 | any annotation that is not a union with `None` second, such as `Union[None, M]`, is not unwrapped |
| Expand.InlineModelDictIsWalked | src/nested_config/expand.py:113-117 | case 2: an inline dict under a model is walked against that model's fields with the same anchor, succeeding and failing exactly as that walk does |
| Expand.PathStringIsExpanded | src/nested_config/expand.py:118-124 | case 3: a string under a model that resolves to no file is a FileNotFoundError naming referrer and reference; otherwise, given fuel, it is the expanded dict of the file it resolves to, and a failure there is the failure of the field |
| Expand.ListUnderListAnnIsWalked | src/nested_config/expand.py:125-132 | case 4 at the dispatch: a list under an annotation with an element type is exactly the element-by-element walk under that type |
| Expand.DictUnderDictAnnIsWalked | src/nested_config/expand.py:133-140 | case 5 at the dispatch: a dict under an annotation with a value type is exactly the value-by-value walk under that type |
| Expand.ListIsMappedElementwise | src/nested_config/expand.py:125-132 | case 4: the list succeeds iff every element does, and then element `i` is element `i` expanded |
| Expand.ListFailsAtFirstError | src/nested_config/expand.py:129-132 | a failing list fails with the error of its first failing element, every earlier one having succeeded |
| Expand.DictIsMappedValuewise | src/nested_config/expand.py:133-140 | case 5: the dict succeeds iff every value does, and then it keeps each key with its value expanded |
| Expand.ConfigDictIsMappedFieldwise | src/nested_config/expand.py:84-92 | the walk succeeds iff every field does, and then it keeps each key with its value expanded under that field's annotation |
| Expand.ConfigDictFailsAtFirstError | src/nested_config/expand.py:87-92 | a failing walk fails with the error of its first failing field |
| Expand.UndeclaredFieldFails | src/nested_config/_pydantic.py:33-36 | a key the model does not declare is the field-table KeyError on that key, recorded as `UnknownField(model, key)` |
| Expand.NoReferencesUnchanged | src/nested_config/expand.py:94-142 | a value with no string where the dispatch expects a model, at any depth, expands to itself whatever the files and the fuel |
| Expand.NoReferencesInFieldsUnchanged | src/nested_config/expand.py:84-92 | a dict holding no reference expands to itself |
| Expand.NoReferencesInItemsUnchanged | src/nested_config/expand.py:129-132 | a list holding no reference expands to itself |
| Expand.NoReferencesInValuesUnchanged | src/nested_config/expand.py:137-140 | a dict of values holding no reference expands to itself |
| Expand.NoneElementAnnotationKeeps | src/nested_config/expand.py:125-142 | a list under `list[None]` and a dict under `dict[K, None]` come back unchanged, whatever they hold, as the source's default case returns them |
| Expand.FuelIsOnlyABound | src/nested_config/expand.py:77-82 | more fuel never changes an outcome other than OutOfFuel |
| Expand.ConfigDictFuel | src/nested_config/expand.py:84-92 | the same for the field walk |
| Expand.ConfigValueFuel | src/nested_config/expand.py:94-142 | the same for one value |
| Expand.ItemsFuel | src/nested_config/expand.py:129-132 | the same for a list |
| Expand.DictValuesFuel | src/nested_config/expand.py:137-140 | the same for a dict's values |
| Expand.PathStrFuel | src/nested_config/expand.py:144-158 | the same for one reference |
| Parsing.GetOptionalAnn | nested_config/parsing.py:134-144 | only `Union[M, None, ...]` with `M` a model class is unwrapped |
| Parsing.GetListValueAnn | nested_config/parsing.py:147-158 | only a list annotation whose first argument is a model class yields that model |
| Parsing.GetDictValueAnn | nested_config/parsing.py:161-172 | only a dict annotation whose value argument is a model class yields that model |
| Parsing.ValidateConfig | nested_config/parsing.py:20-71 | a load failure is the result; success yields the model with the loaded keys as its fields |
| Parsing.PreparseFields | nested_config/parsing.py:64-69 | on success the keys and their order are kept and every key is a declared field |
| Parsing.PreparseConfigValue | nested_config/parsing.py:74-114 | non-containers, inline dicts under a model, lists or dicts with a non-string member, lists not under `list[M]`, dicts not under `dict[K, M]`, and strings under a non-model are returned unchanged; a string under a model becomes an instance of that model; lists keep length and dicts keys |
| Parsing.ParsePathStrs | nested_config/parsing.py:99-102 | on success one instance of the model per string |
| Parsing.ParsePathStrValues | nested_config/parsing.py:109-112 | on success the keys are kept, each with an instance of the model |
| Parsing.ParsePathStrIntoPydmodel | nested_config/parsing.py:117-131 | a reference to no file is FileNotFound naming referrer and reference; a reference to a file is `validate_config` of the resolved path, that file being the new anchor; success is an instance of the model |
| Parsing.ValidateConfigWalksFields | nested_config/parsing.py:60-71 | once the file loads, the result is the model instance holding the preparsed fields of the loaded dict, or the first error of that walk |
| Parsing.StrListUnderListAnnIsParsed | nested_config/parsing.py:93-102 | case 3 at the dispatch: an all-string list under a bare `list[M]` is the comprehension that validates each string's file into `M`: it succeeds exactly when that walk does, as the list of its instances, and otherwise fails with the walk's error |
| Parsing.StrDictUnderDictAnnIsParsed | nested_config/parsing.py:103-112 | case 4 at the dispatch: an all-string dict under a bare `dict[K, M]` is the comprehension that validates each value's file into `M`: it succeeds exactly when that walk does, as the dict of its entries, and otherwise fails with the walk's error |
| Parsing.FieldsAreMappedFieldwise | nested_config/parsing.py:64-69 | the top-level walk succeeds iff every field does, and then it keeps each key with its value preparsed under that field's annotation |
| Parsing.FieldsFailAtFirstError | nested_config/parsing.py:64-69 | a failing walk fails with the error of its first failing field |
| Parsing.UndeclaredFieldFails | nested_config/_compat.py:27-30 | a top-level key the model does not declare is the field-table KeyError on that key, recorded as `UnknownField(model, key)` |
| Parsing.PathStringIsValidated | nested_config/parsing.py:90-92 | case 2: a string under a model is FileNotFound for a missing file, and otherwise, given fuel, the model that the named file validates into |
| Parsing.UnchangedIffNoReference | nested_config/parsing.py:74-114 | a value comes back unchanged exactly when it holds no reference (a string under a model, or a non-empty all-string list or dict under a list or dict of models), whatever the files and the fuel |
| Parsing.OnlyOptionalModelsUnwrapped | nested_config/parsing.py:138-144 | `Optional[int]` and `Union[None, M]` are not unwrapped |
| Parsing.OptionalModelContainersKept | nested_config/parsing.py:134-170 | all-string lists and dicts under `Optional[list[M]]`, `list[Optional[M]]`, `Optional[dict[K, M]]` and `dict[K, Optional[M]]` come back unchanged, because the helpers accept only a bare model class |
| Parsing.OptionalScalarStringKept | nested_config/parsing.py:87-114 | a string under `Optional[int]` is kept, not taken for a path |
| Parsing.StrListOkIffEveryReferenceOk | nested_config/parsing.py:94-102 | case 3: an all-string list expands iff every reference in it does |
| Parsing.StrListExpandedInOrder | nested_config/parsing.py:99-102 | and then element `i` is the instance that reference `i` validates into |
| Parsing.StrListFailsAtFirstError | nested_config/parsing.py:99-102 | a failing list fails with the error of its first failing reference |
| Parsing.StrDictExpandedByKey | nested_config/parsing.py:104-112 | case 4: an all-string dict expands iff every reference does, and then it keeps each key with the instance its reference validates into |
| Parsing.FuelIsOnlyABound | nested_config/parsing.py:20-71 | more fuel never changes an outcome other than OutOfFuel |
| Parsing.FieldsFuel | nested_config/parsing.py:64-69 | the same for the field walk |
| Parsing.ConfigValueFuel | nested_config/parsing.py:74-114 | the same for one value |
| Parsing.PathStrsFuel | nested_config/parsing.py:99-102 | the same for a list of references |
| Parsing.PathStrValuesFuel | nested_config/parsing.py:109-112 | the same for a dict of references |
| Parsing.PathStrFuel | nested_config/parsing.py:117-131 | the same for one reference |
| PydanticPlusParsing.NormalizeOptionalAnnotation | pydantic_plus/parsing.py:86-96 | only `Union[M, None, ...]` with `M` a model class is unwrapped |
| PydanticPlusParsing.ListModelAnnotation | pydantic_plus/parsing.py:99-110 | only a list annotation whose first argument is a model yields it |
| PydanticPlusParsing.DictAnnotation | pydantic_plus/parsing.py:113-124 | only a dict annotation whose value argument is a model yields it |
| PydanticPlusParsing.AnnotationHelpersAgree | pydantic_plus/parsing.py:86-124 | the three helpers classify every annotation exactly as the older expander's helpers |
| PydanticPlusParsing.PreparseConfigObj | pydantic_plus/parsing.py:50-57 | on success the keys and their order are kept and every key is a declared field |
| PydanticPlusParsing.PreparseConfigVal | pydantic_plus/parsing.py:60-83 | a non-container is returned before the annotation is looked at. Inline dicts, lists or dicts with a non-string member, lists not under `list[M]`, dicts not under `dict[K, M]`, and strings under a non-model come back unchanged. Lists keep their length and dicts their keys |
| PydanticPlusParsing.PreparseItems | pydantic_plus/parsing.py:71 | on success one result per element |
| PydanticPlusParsing.PreparseValues | pydantic_plus/parsing.py:77-80 | on success the keys are kept |
| PydanticPlusParsing.ConfigStrfieldToPydo | pydantic_plus/parsing.py:127-137 | as written every reference is a NameError for `pydo_from_config`; as intended it loads the resolved path, with no existence check first |
| PydanticPlusParsing.PydoFromConfig | pydantic_plus/parsing.py:43-47 | a missing file is the parser's own unwrapped error, and so is a file the TOML parser rejects; success is an instance of the model with the parsed keys |
| PydanticPlusParsing.AsWrittenReferenceFails | pydantic_plus/parsing.py:137 | as written, a string under a model raises NameError whatever the files hold |
| PydanticPlusParsing.IntendedReferenceExpands | pydantic_plus/parsing.py:127-137 | as intended, a string under a model is the model of the file it names, preparsed with that file as the new anchor; a missing file is the loader's error on the resolved path, a file the parser rejects is the parser's error on that path, and any failure inside the referenced file is the failure of the field |
| PydanticPlusParsing.OptionalModelContainersKept | pydantic_plus/parsing.py:86-124 | under either target, all-string lists and dicts under `Optional[list[M]]`, `list[Optional[M]]`, `Optional[dict[K, M]]` and `dict[K, Optional[M]]` come back unchanged |
| PydanticPlusParsing.UnreferencedValueKept | pydantic_plus/parsing.py:60-83 | a value that is not a string under a model, nor a non-empty all-string list or dict under a list or dict of models, comes back unchanged under either target |
| PydanticPlusParsing.PydoFromConfigWalksFields | pydantic_plus/parsing.py:43-47 | once the file parses, the result is the model instance holding the preparsed fields of the parsed dict, or the error of that walk |
| PydanticPlusParsing.StrListUnderListAnnIsWalked | pydantic_plus/parsing.py:66-71 | an all-string list under `list[M]` is, at the dispatch, the element-by-element walk under `M`: its outcome and its error |
| PydanticPlusParsing.StrDictUnderDictAnnIsWalked | pydantic_plus/parsing.py:72-80 | an all-string dict under `dict[K, M]` is, at the dispatch, the value-by-value walk under `M`: its outcome and its error |
| PydanticPlusParsing.ConfigObjIsMappedFieldwise | pydantic_plus/parsing.py:50-57 | the field walk succeeds iff every field does (a declared field, and its value preparsed under that field's annotation), and then it keeps each key with that preparsed value |
| PydanticPlusParsing.ConfigObjFailsAtFirstError | pydantic_plus/parsing.py:54-57 | a failing field walk fails with the error of its first failing field |
| PydanticPlusParsing.PydoFromConfigFuel | pydantic_plus/parsing.py:43-47 | more fuel never changes an outcome other than OutOfFuel |
| PydanticPlusParsing.ConfigObjFuel | pydantic_plus/parsing.py:50-57 | the same for the field walk, under either target |
| PydanticPlusParsing.ConfigValFuel | pydantic_plus/parsing.py:60-83 | the same for one value |
| PydanticPlusParsing.ItemsFuel | pydantic_plus/parsing.py:71 | the same for a list |
| PydanticPlusParsing.ValuesFuel | pydantic_plus/parsing.py:77-80 | the same for a dict's values |
| PydanticPlusParsing.StrfieldFuel | pydantic_plus/parsing.py:127-137 | the same for one reference |
| PydanticPlusParsing.ScalarFieldsKept | pydantic_plus/parsing.py:50-62 | a document of declared keys holding no str, list or dict passes through unchanged |
| PydanticPlusParsing.StrListExpandedInOrder | pydantic_plus/parsing.py:66-71 | an all-string list expands iff every element does, and then element `i` is element `i` preparsed |
| PydanticPlusParsing.StrListFailsAtFirstError | pydantic_plus/parsing.py:71 | a failing list fails with the error of its first failing element |
| PydanticPlusParsing.StrDictExpandedByKey | pydantic_plus/parsing.py:72-80 | an all-string dict expands iff every value does, and then it keeps each key with its value preparsed |
| Scenarios.LayoutResolves | tests/parsing/test_sub_model.py:67-70 | in any directory, `house.toml` naming `dims.toml` resolves to the file beside it, both files have the `.toml` suffix, and the files differ |
| Scenarios.HouseWithReferencedDimensions | tests/parsing/test_sub_model.py:67-70 | `test_submodel`: the house validates with its dimensions read from the referenced file |
| Scenarios.HouseNeedsFuel | tests/parsing/test_sub_model.py:67-70 | one level of reference needs one unit of fuel |
| Scenarios.HouseWithMissingDimensions | tests/parsing/test_sub_model.py:102-105 | `test_submodel_toml_badpath`: a reference to a file that does not exist is a FileNotFoundError naming the house file and the reference |
| Scenarios.InlineTableWalkedOnlyByCurrentExpander | src/nested_config/expand.py:113-117 | an inline house table under a model field: the current expander follows the reference inside it, the older one keeps the string |
| Scenarios.OldestExpanderOnHouse | pydantic_plus/parsing.py:43-47 | the oldest expander as intended validates the same house into the nested models |
| Scenarios.OldestExpanderFailsOnHouse | pydantic_plus/parsing.py:137 | as written, the same house fails with a NameError |

## Left out

- The file-format parsers (TOML, JSON and YAML) are not modelled. A loader is a function from file contents to a parsed dict or a failure, and file contents are opaque strings.
- Real filesystem access is not modelled. `is_file()` and `open()` become membership in the `World`'s map of files. Directories, permissions and symlinks are not modelled.
- Pydantic validation and type coercion are not modelled, and neither is `ValidationError`. A validated instance is `Obj(model, fields)`, built from whatever the expander produced.
- Reference cycles are bounded by `fuel`. The source recurses until the interpreter's stack gives out; the model stops with `OutOfFuel`.
- Parsing.ValidateConfig: the `default_suffix` argument and its `set_default_loader` call (`nested_config/parsing.py:57-58`) are not modelled. The import at `nested_config/parsing.py:17` names `set_default_loader`, which `nested_config/loaders.py` does not define, so importing the module raises ImportError before any of its functions exist. The model reads the function bodies as if that import succeeded, and it always loads with no default.
- pydantic_plus's entry point `pyd_obj_from_config` (lines 21-47) declares no parameters, and its body reads the undefined `config_path`, `model` and `convert_strpaths`. The model gives its body the parameters that body uses, as `PydoFromConfig` with `convert_strpaths` true. `load_config_file` (`pydantic_plus/_config.py:12-13`) calls the `rtoml` parser, which is not part of this model; it is the `toml` loader parameter, and its failures escape unwrapped.
- The import at `pydantic_plus/parsing.py:11` is not modelled. It takes `model_fields` from `pydantic_plus/_compat.py`, which defines only `get_model_fields` (line 34), so importing the module raises ImportError before any of its functions exist. The model reads the function bodies as if that import succeeded. `model_fields(model)` becomes the model's field table in the `World` schema, and `parse_obj` becomes the `Obj` constructor.
- `ispydmodel` is modelled only with `BaseModel` as the base class, the only way any call site uses it.
- Windows paths are not modelled: drive letters, `\` separators, and a path with a root but no drive, which Windows does not count as absolute. `expand.py` line 149 builds the platform's concrete `Path`, and the model follows the POSIX rules.
- Paths starting with exactly two slashes (which POSIX `pathlib` keeps as `//`) are not modelled. Such a path is treated like one starting with a single `/`.
- A top-level document that is not a dict is not modelled; a loaded document is always an ordered dict.
- Concurrent registration of loaders during an expansion is not modelled. An expansion reads a snapshot of the registry's table.
- Falsy annotation arguments are not modelled as falsy. The walrus tests in `expand.py` lines 126-128 and 134-136 use truthiness, so the `None` in `list[None]` counts as no element annotation there. The model walks the list under `NoneT` instead, which keeps every value unchanged, just as the source's default case does (`NoneElementAnnotationKeeps`).
- The `base_model` classes, path validators and JSON patches of both packages are outside the expansion core and are not modelled.

## Findings

| source | as written | input that shows it | evidently intended | confidence | as-written member | corrected member |
|---|---|---|---|---|---|---|
| pydantic_plus/parsing.py:137 | `_config_strfield_to_pydo` calls `pydo_from_config`, a name no module defines, so every followed reference raises NameError | a `House` document whose `dimensions` field is the path string `dims.toml` | load the referenced file and validate it into the sub-model, as the entry point's body does for the top file | high; not executed | PydanticPlusParsing.AsWrittenReferenceFails | PydanticPlusParsing.IntendedReferenceExpands |
