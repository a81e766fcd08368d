/**
 * The haste-map worker: given one file's path and the outcome of reading it,
 * decide whether the file names a module, of which kind, and which modules it
 * depends on, or report the fault that stopped the analysis.
 */
module Worker {
  import opened Wrappers
  import opened Js
  import opened Paths
  import opened Faults

  /** `H.MODULE` and `H.PACKAGE`; their concrete encodings are irrelevant here. */
  datatype ModuleKind = Module | Package

  /** The `module` pair `[filePath, kind]`. */
  datatype ModuleDescriptor = ModuleDescriptor(path: string, kind: ModuleKind)

  /** What the callback receives: `{id, module, dependencies}` (an absent id
      is Undefined) or a normalised fault. */
  datatype Outcome =
    | Success(id: JsValue, descriptor: Option<ModuleDescriptor>, dependencies: Option<seq<string>>)
    | Fault(error: ErrorRecord)

  /** The code the worker calls but that is not part of this model.
      `parseJson` is `JSON.parse`; `extractDocblock`/`parseDocblock` are
      `docblock.extract` and `docblock.parse`; `extractRequires` scans for
      dependency references. `nullAccess` is not a library call: it is the
      engine's text for the TypeError thrown when a property of `null` is
      read. */
  datatype Collaborators = Collaborators(
    parseJson: string -> Completion<JsValue>,
    extractDocblock: string -> string,
    parseDocblock: string -> map<string, string>,
    extractRequires: string -> seq<string>,
    nullAccess: TypeErrorText)

  /** Which branch of the worker a path takes. */
  datatype FileClass = Manifest | OtherJson | Source

  /** The suffix tests of the worker, in their order: the manifest suffix
      first, then any other `.json` file, and everything else is source. */
  function Classify(filePath: string, sep: string): (k: FileClass)
    ensures k == Manifest <==> EndsWith(filePath, PackageJson(sep))
    ensures k == OtherJson <==> EndsWith(filePath, JsonExtension) && !EndsWith(filePath, PackageJson(sep))
    ensures k == Source <==> !EndsWith(filePath, JsonExtension)
  {
    if EndsWith(filePath, PackageJson(sep)) then
      PackageJsonIsJson(filePath, sep);
      Manifest
    else if !EndsWith(filePath, JsonExtension) then Source
    else OtherJson
  }

  /** The module identity a parsed docblock declares: `providesModule` when
      it is truthy, otherwise `provides` (whatever it is). */
  function DeclaredId(doc: map<string, string>): (id: JsValue)
    ensures Truthy(Lookup(doc, "providesModule")) ==> id == Str(doc["providesModule"])
    ensures !Truthy(Lookup(doc, "providesModule")) ==> id == Lookup(doc, "provides")
    ensures Truthy(id) <==> ("providesModule" in doc && doc["providesModule"] != "") || ("provides" in doc && doc["provides"] != "")
  {
    Or(Lookup(doc, "providesModule"), Lookup(doc, "provides"))
  }

  /** The manifest branch: parse the content as JSON and use a truthy
      `name` as a PACKAGE id. A parse failure throws, and so does reading
      `name` of a document that is `null` (or `undefined`, which `JSON.parse`
      never returns). */
  function AnalyzeManifest(filePath: string, content: string, c: Collaborators): (o: Outcome)
    ensures o.Fault? <==> c.parseJson(content).Abrupt? || c.parseJson(content).value.Null? || c.parseJson(content).value.Undefined?
    ensures c.parseJson(content).Abrupt? ==> o == Fault(FormatError(c.parseJson(content).thrown))
    ensures o.Success? ==> o.dependencies.None?
    ensures o.Success? ==> (o.descriptor.Some? <==> Truthy(o.id))
    ensures o.Success? && o.descriptor.Some? ==> o.descriptor.value == ModuleDescriptor(filePath, Package)
    ensures o.Success? && Truthy(o.id) ==> NameOf(c.parseJson(content).value, c.nullAccess) == Normal(o.id)
    ensures o.Success? && !Truthy(o.id) ==> o.id.Undefined?
    ensures c.parseJson(content).Normal? && NameOf(c.parseJson(content).value, c.nullAccess).Normal? ==>
      var name := NameOf(c.parseJson(content).value, c.nullAccess).value;
      o == if Truthy(name) then Success(name, Some(ModuleDescriptor(filePath, Package)), None)
           else Success(Undefined, None, None)
    ensures c.parseJson(content).Normal? && NameOf(c.parseJson(content).value, c.nullAccess).Abrupt? ==>
      o == Fault(FormatError(TypeError(c.nullAccess)))
  {
    match c.parseJson(content)
    case Abrupt(e) => Fault(FormatError(e))
    case Normal(fileData) =>
      match NameOf(fileData, c.nullAccess)
      case Abrupt(e) => Fault(FormatError(e))
      case Normal(name) =>
        if Truthy(name) then Success(name, Some(ModuleDescriptor(filePath, Package)), None)
        else Success(Undefined, None, None)
  }

  /** The source branch: the id comes from the docblock, dependencies are
      always extracted from the whole content, and a MODULE descriptor is
      attached only for a truthy id. It never faults. */
  function AnalyzeSource(filePath: string, content: string, c: Collaborators): (o: Outcome)
    ensures o.Success?
    ensures o.id == DeclaredId(c.parseDocblock(c.extractDocblock(content)))
    ensures o.dependencies == Some(c.extractRequires(content))
    ensures o.descriptor.Some? <==> Truthy(o.id)
    ensures o.descriptor.Some? ==> o.descriptor.value == ModuleDescriptor(filePath, Module)
  {
    var doc := c.parseDocblock(c.extractDocblock(content));
    var id := DeclaredId(doc);
    Success(id, if Truthy(id) then Some(ModuleDescriptor(filePath, Module)) else None,
            Some(c.extractRequires(content)))
  }

  /** The worker (`module.exports`): one outcome for one file. `sep` is the
      platform path separator and `read` the result of reading the file. */
  function Analyze(filePath: string, sep: string, read: Completion<string>, c: Collaborators): (o: Outcome)
    ensures read.Abrupt? ==> o == Fault(FormatError(read.thrown))
    ensures o.Fault? ==> read.Abrupt? || EndsWith(filePath, PackageJson(sep))
    ensures o.Success? ==> (o.descriptor.Some? <==> Truthy(o.id))
    ensures o.Success? && o.descriptor.Some? ==> o.descriptor.value.path == filePath
    ensures o.Success? && o.descriptor.Some? ==> (o.descriptor.value.kind == Package <==> EndsWith(filePath, PackageJson(sep)))
    ensures o.Success? ==> (o.dependencies.Some? <==> !EndsWith(filePath, JsonExtension))
    ensures o.Fault? <==>
      || read.Abrupt?
      || (&& EndsWith(filePath, PackageJson(sep))
          && (|| c.parseJson(read.value).Abrupt?
              || NameOf(c.parseJson(read.value).value, c.nullAccess).Abrupt?))
    ensures read.Normal? && EndsWith(filePath, PackageJson(sep)) ==> o == AnalyzeManifest(filePath, read.value, c)
    ensures read.Normal? && EndsWith(filePath, JsonExtension) && !EndsWith(filePath, PackageJson(sep)) ==>
      o == Success(Undefined, None, None)
    ensures read.Normal? && !EndsWith(filePath, JsonExtension) ==> o == AnalyzeSource(filePath, read.value, c)
  {
    match read
    case Abrupt(e) => Fault(FormatError(e))
    case Normal(content) =>
      match Classify(filePath, sep)
      case Manifest => AnalyzeManifest(filePath, content, c)
      case OtherJson => Success(Undefined, None, None)
      case Source => AnalyzeSource(filePath, content, c)
  }

  /** A manifest whose parsed `name` is truthy yields that name as id, a
      PACKAGE descriptor for the path, and no dependencies. */
  lemma ManifestWithName(filePath: string, sep: string, content: string, c: Collaborators, name: JsValue)
    requires EndsWith(filePath, PackageJson(sep))
    requires c.parseJson(content).Normal?
    requires NameOf(c.parseJson(content).value, c.nullAccess) == Normal(name)
    requires Truthy(name)
    ensures Analyze(filePath, sep, Normal(content), c)
         == Success(name, Some(ModuleDescriptor(filePath, Package)), None)
  {
  }

  /** A manifest that parses to a value other than `null` but has no truthy
      `name` is a Success carrying nothing, not a fault. */
  lemma ManifestWithoutName(filePath: string, sep: string, content: string, c: Collaborators)
    requires EndsWith(filePath, PackageJson(sep))
    requires c.parseJson(content).Normal?
    requires NameOf(c.parseJson(content).value, c.nullAccess).Normal?
    requires !Truthy(NameOf(c.parseJson(content).value, c.nullAccess).value)
    ensures Analyze(filePath, sep, Normal(content), c) == Success(Undefined, None, None)
  {
  }

  /** Any other `.json` file yields a Success carrying nothing, whatever its
      content and whatever the collaborators would have said about it: the
      docblock is not parsed and requires are not extracted. */
  lemma OtherJsonIgnoresContent(filePath: string, sep: string, content1: string, content2: string,
                                c1: Collaborators, c2: Collaborators)
    requires EndsWith(filePath, JsonExtension)
    requires !EndsWith(filePath, PackageJson(sep))
    ensures Analyze(filePath, sep, Normal(content1), c1) == Success(Undefined, None, None)
    ensures Analyze(filePath, sep, Normal(content1), c1) == Analyze(filePath, sep, Normal(content2), c2)
  {
  }

  /** A bare relative `package.json` has no separator in front of the file
      name, so with a non-empty separator it is treated as an ordinary JSON
      file and names no package. */
  lemma BarePackageJsonIsOtherJson(sep: string, content: string, c: Collaborators)
    requires sep != ""
    ensures Classify("package.json", sep) == OtherJson
    ensures Analyze("package.json", sep, Normal(content), c) == Success(Undefined, None, None)
  {
    ShortPathIsNotPackageJson("package.json", sep);
  }

  /** A source file always gets `extractRequires(content)` as dependencies,
      the docblock's declared id (`providesModule` before `provides`), and a
      MODULE descriptor exactly when that id is truthy. */
  lemma SourceOutcome(filePath: string, sep: string, content: string, c: Collaborators)
    requires !EndsWith(filePath, JsonExtension)
    ensures var doc := c.parseDocblock(c.extractDocblock(content));
            var o := Analyze(filePath, sep, Normal(content), c);
            && o.Success?
            && o.dependencies == Some(c.extractRequires(content))
            && (Truthy(Lookup(doc, "providesModule")) ==> o.id == Lookup(doc, "providesModule"))
            && (!Truthy(Lookup(doc, "providesModule")) ==> o.id == Lookup(doc, "provides"))
            && (o.descriptor.Some? <==> Truthy(o.id))
            && (o.descriptor.Some? ==> o.descriptor.value == ModuleDescriptor(filePath, Module))
  {
  }

  /** The dependencies of a source file depend on its content and on
      `extractRequires` only, not on what the docblock declares. */
  lemma SourceDependenciesIgnoreDocblock(filePath: string, sep: string, content: string,
                                         c1: Collaborators, c2: Collaborators)
    requires !EndsWith(filePath, JsonExtension)
    requires c1.extractRequires == c2.extractRequires
    ensures Analyze(filePath, sep, Normal(content), c1).dependencies
         == Analyze(filePath, sep, Normal(content), c2).dependencies
  {
  }

  /** A corollary of the contract of `Analyze`: the analysis faults exactly
      when the read fails, or when the file is a manifest whose content does
      not parse or parses to `null`. It adds which value each manifest fault
      carries: the normalised parse error, or the normalised null-access
      TypeError, whose type is therefore `'Error'`. */
  lemma FaultExactly(filePath: string, sep: string, read: Completion<string>, c: Collaborators)
    ensures Analyze(filePath, sep, read, c).Fault? <==>
      || read.Abrupt?
      || (&& EndsWith(filePath, PackageJson(sep))
          && (|| c.parseJson(read.value).Abrupt?
              || NameOf(c.parseJson(read.value).value, c.nullAccess).Abrupt?))
    ensures read.Normal? && EndsWith(filePath, PackageJson(sep)) && c.parseJson(read.value).Abrupt? ==>
      Analyze(filePath, sep, read, c) == Fault(FormatError(c.parseJson(read.value).thrown))
    ensures (&& read.Normal? && EndsWith(filePath, PackageJson(sep)) && c.parseJson(read.value).Normal?
             && NameOf(c.parseJson(read.value).value, c.nullAccess).Abrupt?) ==>
      Analyze(filePath, sep, read, c) == Fault(FormatError(TypeError(c.nullAccess)))
    ensures (&& read.Normal? && EndsWith(filePath, PackageJson(sep)) && c.parseJson(read.value).Normal?
             && NameOf(c.parseJson(read.value).value, c.nullAccess).Abrupt?) ==>
      Analyze(filePath, sep, read, c).error.errorType == DefaultErrorType
  {
  }

  /** A manifest example: `/repo/foo/package.json` whose JSON is
      `{"name": "foo"}` names the package `foo`. */
  lemma ManifestExample(c: Collaborators, content: string)
    requires c.parseJson(content) == Normal(Object(map["name" := Str("foo")]))
    ensures Analyze("/repo/foo/package.json", "/", Normal(content), c)
         == Success(Str("foo"), Some(ModuleDescriptor("/repo/foo/package.json", Package)), None)
  {
  }

  /** A file whose name merely ends in `package.json`, such as
      `/repo/mypackage.json`, is not a manifest: it is other JSON. */
  lemma LookalikeManifestIsOtherJson(content: string, c: Collaborators)
    ensures Classify("/repo/mypackage.json", "/") == OtherJson
    ensures Analyze("/repo/mypackage.json", "/", Normal(content), c) == Success(Undefined, None, None)
  {
    var path := "/repo/mypackage.json";
    assert path[|path| - |PackageJson("/")|] == 'y' != PackageJson("/")[0];
    assert path[|path| - |JsonExtension|..] == JsonExtension;
  }
}
