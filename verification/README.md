# jest-haste-map worker, modelled in Dafny

This project models the per-file analysis step of Jest's haste map
(`packages/jest-haste-map/src/worker.js`). The worker is given a file path and
delivers one outcome. It reads the file and classifies it by suffix:

- A path ending in `<sep>package.json` is a package manifest. It is parsed as
  JSON, and a truthy `name` becomes the module id with a `PACKAGE` descriptor.
- Any other `.json` file yields nothing.
- Every other file is source. Its docblock's `providesModule` (or, failing
  that, `provides`) pragma gives the id. Its dependencies are always extracted.
  A `MODULE` descriptor is attached when the id is truthy.

Anything thrown on the way is normalised by `formatError` into a fault record
`{stack, message, type}`.

Modules:

- `Wrappers` (`wrappers.dfy`) holds `Option`.
- `Js` (`js.dfy`) holds JavaScript values, truthiness, `a || b`, reading
  `v.name` (which throws on `null`), thrown values and completions
  (normal or abrupt).
- `Paths` (`paths.dfy`) holds `endsWith`, `JSON_EXTENSION` and `PACKAGE_JSON`.
- `Faults` (`faults.dfy`) holds `formatError`.
- `Worker` (`worker.dfy`) holds the classifier, the two branches, the whole
  worker as `Analyze`, and lemmas about it.

Some parts are parameters rather than code:

- Reading the file is the `read` parameter, either content or a thrown value.
- `path.sep` is the `sep` parameter.
- `JSON.parse`, `docblock.extract`, `docblock.parse` and `extractRequires` are
  function-valued fields of a `Collaborators` record. The same record carries
  the engine's message and stack for the TypeError thrown when a property of
  `null` is read. That error is an Error with no `type` property.
- `H.MODULE` and `H.PACKAGE` are the two constructors of `ModuleKind`.

Behaviour of the code worth noting:

- A manifest is named only when its `name` is *truthy*, not merely present.
  So `"name": ""` or `"name": 0` gives no id. A non-string truthy `name` is
  used as the id unchanged.
- A manifest whose JSON is `null` faults, because reading `null.name` throws a
  TypeError.
- The source-branch id is `providesModule || provides`. So a present but empty
  `provides` gives the id `""` with no descriptor.
- A fault's message is whatever the thrown value carried. Nothing in the
  worker makes it non-empty.
- Dependencies are attached to every non-JSON file, with or without an id.
  They are never attached to manifests.

## Model

| member | source | states |
|---|---|---|
| Js.Truthy | packages/jest-haste-map/src/worker.js:59-67 | a value is falsy exactly when it is `undefined`, `null`, `false`, `NaN`, `""` or zero, as the `if` and `\|\|` tests of the worker treat it |
| Js.Or | packages/jest-haste-map/src/worker.js:65 | `a \|\| b` is truthy iff either operand is; it is the left operand when that is truthy and the right one otherwise |
| Js.TypeError | packages/jest-haste-map/src/worker.js:59 | the error thrown on reading a property of `null` is an Error carrying the engine's message and stack and no truthy `type` |
| Js.NameOf | packages/jest-haste-map/src/worker.js:59 | reading `name` throws exactly on `null`/`undefined`, and what it throws is a TypeError with no `type`; a non-undefined result is the object's own `name` entry |
| Js.Lookup | packages/jest-haste-map/src/worker.js:65 | reading a pragma from the parsed docblock is undefined exactly when the pragma is absent, and truthy exactly when it is present and non-empty |
| Paths.EndsWith | packages/jest-haste-map/src/worker.js:57-63 | the end-first character comparison of `endsWith` holds exactly when the suffix fits and the last characters of the path equal it |
| Paths.PackageJson | packages/jest-haste-map/src/worker.js:24-25 | `PACKAGE_JSON` is the separator followed by `package.json` |
| Paths.PackageJsonIsJson | packages/jest-haste-map/src/worker.js:57-63 | every path ending in `PACKAGE_JSON` also ends in `.json`, which is why the manifest test must come first |
| Paths.ShortPathIsNotPackageJson | packages/jest-haste-map/src/worker.js:25 | with a non-empty separator, no path of at most twelve characters ends in `PACKAGE_JSON` |
| Faults.FormatError | packages/jest-haste-map/src/worker.js:33-47 | the message is always the thrown message; a string gets no stack and type `'Error'`; an Error keeps its stack and keeps its type only when truthy; the type is always truthy |
| Faults.FormatErrorIdempotent | packages/jest-haste-map/src/worker.js:33-47 | normalising a fault record re-thrown as an Error gives back the same record |
| Worker.Classify | packages/jest-haste-map/src/worker.js:57-70 | manifest iff the path ends in `PACKAGE_JSON`; other JSON iff it ends in `.json` but not `PACKAGE_JSON`; source iff it does not end in `.json` |
| Worker.DeclaredId | packages/jest-haste-map/src/worker.js:64-65 | the id is `providesModule` when truthy, otherwise `provides`; it is truthy iff either pragma is present and non-empty |
| Worker.AnalyzeManifest | packages/jest-haste-map/src/worker.js:57-62 | faults iff parsing throws or the document is null/undefined, with the parse error or the null-access TypeError normalised; otherwise a truthy `name` gives that id and a PACKAGE descriptor for the path, and a falsy one gives an empty Success; never carries dependencies |
| Worker.AnalyzeSource | packages/jest-haste-map/src/worker.js:63-69 | never faults; dependencies are always the extracted requires; the id is the docblock's declared id; a MODULE descriptor for the path exists iff the id is truthy |
| Worker.Analyze | packages/jest-haste-map/src/worker.js:49-76 | a failed read gives the normalised fault; the outcome is a fault iff the read fails or the path is a manifest whose parse or `name` read throws; a manifest path takes the manifest branch, other JSON gives an empty Success, and any other path takes the source branch; a descriptor exists iff the id is truthy and names the input path, with kind PACKAGE iff the path is a manifest; dependencies are present iff the path does not end in `.json` |
| Worker.ManifestWithName | packages/jest-haste-map/src/worker.js:57-62 | a manifest with a truthy `name` gives Success with that id, a PACKAGE descriptor and no dependencies |
| Worker.ManifestWithoutName | packages/jest-haste-map/src/worker.js:57-62 | a manifest that parses to a value other than `null` but has no truthy `name` gives a Success with no id, descriptor or dependencies, and no fault |
| Worker.OtherJsonIgnoresContent | packages/jest-haste-map/src/worker.js:57-72 | any other `.json` file gives an empty Success; the content and all collaborators cannot change that outcome |
| Worker.BarePackageJsonIsOtherJson | packages/jest-haste-map/src/worker.js:24-25 | with a non-empty separator, the relative path `package.json` is classified as other JSON and yields an empty Success |
| Worker.SourceOutcome | packages/jest-haste-map/src/worker.js:63-69 | for a non-JSON path: a Success whose dependencies are the extracted requires, whose id prefers `providesModule` over `provides`, with a MODULE descriptor for the path iff the id is truthy |
| Worker.SourceDependenciesIgnoreDocblock | packages/jest-haste-map/src/worker.js:63-66 | a source file's dependencies depend only on its content and the requires extractor, not on the docblock |
| Worker.FaultExactly | packages/jest-haste-map/src/worker.js:49-76 | a corollary of `Analyze`'s fault if-and-only-if, adding the value of each manifest fault: each fault is the normalised thrown value, and the null-access fault has type `'Error'` |
| Worker.ManifestExample | packages/jest-haste-map/src/worker.js:57-62 | `/repo/foo/package.json` with JSON `{"name": "foo"}` gives id `foo`, a PACKAGE descriptor for that path and no dependencies |
| Worker.LookalikeManifestIsOtherJson | packages/jest-haste-map/src/worker.js:57-63 | `/repo/mypackage.json` does not match the separator-prefixed manifest suffix, so it is other JSON and yields an empty Success |

## Left out

- File reading (`fs.readFileSync`) is an input. It is either the content or the value it threw.
- The internals of `JSON.parse` are left out, because it is a library call. It is an abstract function returning a value or a thrown value.
- The internals of `docblock.extract`, `docblock.parse` and `extractRequires` are left out. `./lib/docblock` and `./lib/extractRequires` are not part of this model, so they are abstract functions. No property is claimed about pragma precedence inside a docblock (such as "the last occurrence wins") or about dependency order.
- These collaborators are modelled as never throwing. An exception from inside them would reach the same `formatError` boundary.
- The values of `H.PACKAGE`, `H.MODULE` and `path.sep` are left out. `./constants` and `./fastpath` are not part of this model.
- Delivery through `callback` and the worker process is modelled as a function that returns one outcome. This leaves out the case where a throwing `callback` at line 72 is caught and the callback is then called a second time with the fault.
- Thrown values that are neither strings nor Error-like objects are left out. On `null` or `undefined`, `formatError` itself throws when it reads `error.stack`. On any other value, such as `42` or `{}`, it returns a record whose stack and message are `undefined` and whose type is `'Error'`.
- JavaScript numbers are modelled as reals plus a separate NaN. Floating-point rounding is irrelevant to truthiness.
- An absent `stack` is `None`, which stands for both `null` and `undefined`.
