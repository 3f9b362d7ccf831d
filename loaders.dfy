/** The process-wide table from file suffix to config loader, the lookup
    rule "exact suffix, else the default suffix, else NoLoaderError", and the
    load step that wraps every loader failure in a ConfigLoaderError. */
module Loaders {
  import opened PurePaths
  import opened ConfigModel

  /** The table as the module builds it at import time: TOML and JSON always,
      YAML under both `.yaml` and `.yml` only when a YAML library is installed. */
  function InitialLoaders(yamlInstalled: bool, toml: Loader, json: Loader, yaml: Loader)
    : (m: map<string, Loader>)
    ensures m.Keys == {".toml", ".json"} + (if yamlInstalled then {".yaml", ".yml"} else {})
    ensures m[".toml"] == toml && m[".json"] == json
    ensures yamlInstalled ==> m[".yaml"] == yaml && m[".yml"] == m[".yaml"]
  {
    var m := map[".toml" := toml, ".json" := json];
    if yamlInstalled then m[".yaml" := yaml][".yml" := yaml] else m
  }

  /** The mutable registry. */
  class Registry {
    var loaders: map<string, Loader>

    constructor (yamlInstalled: bool, toml: Loader, json: Loader, yaml: Loader)
      ensures loaders == InitialLoaders(yamlInstalled, toml, json, yaml)
    {
      var m: map<string, Loader> := map[".toml" := toml, ".json" := json];
      if yamlInstalled {
        m := m[".yaml" := yaml];
        m := m[".yml" := yaml];
      }
      loaders := m;
    }

    /** `_loaders.update(new_loaders)`: the new entries win, every other entry stays. */
    method UpdateLoaders(newLoaders: map<string, Loader>)
      modifies this
      ensures loaders.Keys == old(loaders).Keys + newLoaders.Keys
      ensures forall s :: s in newLoaders ==> loaders[s] == newLoaders[s]
      ensures forall s :: s in old(loaders) && s !in newLoaders ==> loaders[s] == old(loaders)[s]
    {
      loaders := loaders + newLoaders;
    }
  }

  /** `_get_loader`: the loader of the path's own suffix; failing that, the loader of
      the default suffix; failing that, a NoLoaderError naming the path's suffix. */
  function GetLoader(loaders: map<string, Loader>, path: Path, defaultSuffix: Option<string>)
    : (r: Result<Loader>)
    ensures Suffix(path) in loaders ==> r == Ok(loaders[Suffix(path)])
    ensures Suffix(path) !in loaders && defaultSuffix.Some? && defaultSuffix.value in loaders ==>
              r == Ok(loaders[defaultSuffix.value])
    ensures Suffix(path) !in loaders && (defaultSuffix.None? || defaultSuffix.value !in loaders) ==>
              r == Err(NoLoaderError(Suffix(path)))
  {
    var suffix := Suffix(path);
    if suffix in loaders then Ok(loaders[suffix])
    else if defaultSuffix.Some? && defaultSuffix.value in loaders then Ok(loaders[defaultSuffix.value])
    else Err(NoLoaderError(suffix))
  }

  /** Registering loaders only adds: a path that had a loader still has one, and a
      suffix named in the update resolves to the new loader whatever the default. */
  lemma UpdateIsAdditive(loaders: map<string, Loader>, newLoaders: map<string, Loader>,
                         path: Path, defaultSuffix: Option<string>)
    ensures GetLoader(loaders, path, defaultSuffix).Ok? ==>
              GetLoader(loaders + newLoaders, path, defaultSuffix).Ok?
    ensures Suffix(path) in newLoaders ==>
              GetLoader(loaders + newLoaders, path, defaultSuffix) == Ok(newLoaders[Suffix(path)])
    ensures Suffix(path) !in newLoaders && Suffix(path) in loaders ==>
              GetLoader(loaders + newLoaders, path, defaultSuffix) == GetLoader(loaders, path, defaultSuffix)
  {
  }

  /** `load_config`: pick the loader (a NoLoaderError escapes unwrapped), open the
      file and parse it; a missing file or a parse failure becomes a
      ConfigLoaderError tagged with the path. */
  function LoadConfig(loaders: map<string, Loader>, files: Files, path: Path, defaultSuffix: Option<string>)
    : (r: Result<Entries>)
    ensures r.Err? ==> r.error == NoLoaderError(Suffix(path)) || r.error == ConfigLoaderError(path)
    ensures r.Err? && r.error.NoLoaderError? <==> GetLoader(loaders, path, defaultSuffix).Err?
    ensures r.Ok? <==> GetLoader(loaders, path, defaultSuffix).Ok? && path in files &&
                       GetLoader(loaders, path, defaultSuffix).value(files[path]).Loaded?
    ensures r.Ok? ==> Loaded(r.value) == GetLoader(loaders, path, defaultSuffix).value(files[path])
  {
    var loader :- GetLoader(loaders, path, defaultSuffix);
    if path !in files then Err(ConfigLoaderError(path))
    else
      match loader(files[path])
      case Loaded(d) => Ok(d)
      case Raised => Err(ConfigLoaderError(path))
  }
}
