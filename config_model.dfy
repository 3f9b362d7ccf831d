/** The values a config loader produces, the field annotations of a target
    model, the errors the expanders raise and the world they read (the
    model schema and the files on disk). */
module ConfigModel {
  import opened PurePaths

  /** A loaded config value.  `Obj` is a validated model instance, which is
      neither a str, a list nor a dict. */
  datatype Value =
    | Scalar(literal: string)
    | Str(s: string)
    | List(items: seq<Value>)
    | Dict(entries: seq<(string, Value)>)
    | Obj(model: string, fields: seq<(string, Value)>)

  /** An ordered dict from key to value, as a loader returns it. */
  type Entries = seq<(string, Value)>

  /** `isinstance(v, (str, list, dict))`. */
  predicate IsContainer(v: Value) {
    v.Str? || v.List? || v.Dict?
  }

  function Keys(es: Entries): (ks: seq<string>)
    ensures |ks| == |es|
    ensures forall i :: 0 <= i < |es| ==> ks[i] == es[i].0
  {
    if es == [] then [] else [es[0].0] + Keys(es[1..])
  }

  /** Every value of a dict is a string: `all(isinstance(v, str) for v in d.values())`. */
  predicate AllStrValues(es: Entries) {
    forall i :: 0 <= i < |es| ==> es[i].1.Str?
  }

  /** Every element of a list is a string. */
  predicate AllStr(items: seq<Value>) {
    forall i :: 0 <= i < |items| ==> items[i].Str?
  }

  /** A field annotation.  `ModelT` is a model class, `NoneT` is `type(None)`,
      `Other` any other class; `Union`, `ListOf` and `DictOf` are the
      parameterised forms whose `typing.get_origin` is a union, `list` and
      `dict`.  Python collapses a one-member union, so a union always has at
      least two arguments. */
  datatype Ann =
    | ModelT(name: string)
    | NoneT
    | Other(cls: string)
    | Union(first: Ann, second: Ann, rest: seq<Ann>)
    | ListOf(args: seq<Ann>)
    | DictOf(args: seq<Ann>)

  /** The declared fields of each model, in declaration order. */
  type Schema = map<string, seq<(string, Ann)>>

  predicate IsClass(a: Ann) {
    a.ModelT? || a.NoneT? || a.Other?
  }

  /** `ispydmodel(a, BaseModel)`: `a` is a class and a subclass of the model base class;
      anything that is not a class gives false. */
  function IsPydModel(a: Ann): (r: bool)
    ensures r ==> IsClass(a)
    ensures r <==> a.ModelT?
  {
    match a
    case ModelT(_) => true
    case _ => false
  }

  datatype Option<T> = None | Some(value: T)

  datatype Error =
    | NoLoaderError(suffix: string)             // no loader for the suffix nor the default
    | ConfigLoaderError(path: Path)             // a registered loader raised, tagged with the path
    | LoaderRaised(path: Path)                  // a loader raised and nothing wrapped it
    | FileNotFound(parent: Path, reference: string)
    | UnknownField(model: string, key: string)  // KeyError from the model's field table
    | NameError(name: string)
    | OutOfFuel                                 // the reference chain is deeper than the fuel

  datatype Result<T> = Ok(value: T) | Err(error: Error) {
    predicate IsFailure() {
      Err?
    }

    function PropagateFailure<U>(): Result<U>
      requires Err?
    {
      Err(error)
    }

    function Extract(): T
      requires Ok?
    {
      value
    }
  }

  /** Looks a key up in a model's field table. */
  function Lookup(fields: seq<(string, Ann)>, key: string): (r: Option<Ann>)
    ensures r.Some? <==> exists i :: 0 <= i < |fields| && fields[i].0 == key
    ensures r.Some? ==> exists i :: 0 <= i < |fields| && fields[i] == (key, r.value)
  {
    if fields == [] then None
    else if fields[0].0 == key then Some(fields[0].1)
    else
      var r := Lookup(fields[1..], key);
      assert forall i :: 0 < i < |fields| ==> fields[i] == fields[1..][i - 1];
      r
  }

  /** The fields of a model; a name the schema does not know declares none. */
  function ModelFields(schema: Schema, model: string): seq<(string, Ann)>
  {
    if model in schema then schema[model] else []
  }

  predicate Declared(schema: Schema, model: string, key: string) {
    Lookup(ModelFields(schema, model), key).Some?
  }

  /** The annotation of a field, failing with a KeyError for an undeclared field. */
  function FieldAnn(schema: Schema, model: string, key: string): (r: Result<Ann>)
    ensures r.Ok? <==> Declared(schema, model, key)
    ensures r.Err? ==> r.error == UnknownField(model, key)
    ensures r.Ok? ==> exists i :: 0 <= i < |ModelFields(schema, model)| &&
                                  ModelFields(schema, model)[i] == (key, r.value)
  {
    match Lookup(ModelFields(schema, model), key)
    case Some(a) => Ok(a)
    case None => Err(UnknownField(model, key))
  }

  /** The contents of each regular file, by path. */
  type Files = map<Path, string>

  datatype LoadOutcome = Loaded(entries: Entries) | Raised

  /** A format parser: the text of a file to a dict, or an exception. */
  type Loader = string -> LoadOutcome

  /** Everything an expansion reads: the model schema, the files and the
      loader registry as it stands when the expansion starts. */
  datatype World = World(schema: Schema, files: Files, loaders: map<string, Loader>)

  /** The path a reference string in the file `parent` names: kept as it is when
      absolute, otherwise joined to the directory of `parent`. */
  function ResolveRef(parent: Path, reference: string): (p: Path)
    ensures Parse(reference).absolute ==> p == Parse(reference)
    ensures !Parse(reference).absolute ==>
              && p.absolute == parent.absolute
              && p.parts == Parent(parent).parts + Parse(reference).parts
  {
    Join(Parent(parent), Parse(reference))
  }

  /** A relative reference lands in the referencing file's directory, whatever the
      file's name; an absolute one does not depend on the referencing file at all. */
  lemma ResolveRefAnchorsAtParent(parent: Path, sibling: Path, reference: string)
    requires Parent(parent) == Parent(sibling)
    ensures ResolveRef(parent, reference) == ResolveRef(sibling, reference)
    ensures Parse(reference).absolute || Parent(parent).parts <= ResolveRef(parent, reference).parts
  {
  }

  /** References chain relative to one another: `a/b` names a file two levels below
      the referencing file's directory, and `../c` written in that file names a file
      beside `a/`, reached through a kept `..` part rather than a collapsed one. */
  lemma {:induction false} RelativeReferencesChain(root: Path, a: string, b: string, c: string)
    requires IsPart(a) && IsPart(b) && IsPart(c)
    ensures ResolveRef(root, a + "/" + b) == Path(root.absolute, Parent(root).parts + [a, b])
    ensures ResolveRef(ResolveRef(root, a + "/" + b), ".." + "/" + c) ==
            Path(root.absolute, Parent(root).parts + [a, "..", c])
  {
    PartsOfSlashJoin(a, b);
    PartsOfPart(b);
    assert (a + "/" + b)[0] == a[0];
    PartsOfSlashJoin("..", c);
    PartsOfPart(c);
    var first := Path(root.absolute, Parent(root).parts + [a, b]);
    assert Parent(first).parts == Parent(root).parts + [a];
    assert Parent(root).parts + [a] + ["..", c] == Parent(root).parts + [a, "..", c];
  }

  function Size(v: Value): (n: nat)
    ensures n >= 1
  {
    match v
    case List(items) => 1 + SizeList(items)
    case Dict(es) => 1 + SizeEntries(es)
    case Obj(_, es) => 1 + SizeEntries(es)
    case _ => 1
  }

  function SizeList(items: seq<Value>): (n: nat)
    ensures items != [] ==> n > Size(items[0]) && n > SizeList(items[1..])
  {
    if items == [] then 0 else 1 + Size(items[0]) + SizeList(items[1..])
  }

  function SizeEntries(es: Entries): (n: nat)
    ensures es != [] ==> n > SizeEntries(es[1..])
  {
    if es == [] then 0
    else
      var e := es[0];
      assert e.1 < e;
      1 + Size(e.1) + SizeEntries(es[1..])
  }
}
