# dirmap: the directory-to-tree builder and its value converter, in Dafny

This project models the core of a Terraform provider data source. The data
source reads a directory of YAML and JSON files and returns them as one
nested document.

- `buildMap` (provider/dirmap.go) walks the base directory and handles each
  entry in turn. It skips hidden entries and prunes hidden directories,
  applies the optional glob filter to file names, reads each file and decodes
  it by extension. It then splits the file's relative path into directory
  segments and a key. Finally it walks a cursor down a nested
  `map[string]interface{}`, creating missing maps, and stores the document
  under the key, refusing a key that is already taken.
- `convertToAttrValueSingle` and `convertToAttrValue`
  (provider/data_source_dirmap.go) turn that dynamic value into the
  framework's dynamic values. They refuse any runtime type other than the six
  they know, and refuse a top level that is not a string-keyed map.

Modules:

| file | module | what it holds |
|---|---|---|
| wrappers.dfy | `Wrappers` | `Option` and `Result` |
| values.dfy | `Values` | the decoders' dynamic value: `Null`, `Bool`, `Str`, `Float`, `List`, `StrMap`, `Other` |
| paths.dfy | `Paths` | `strings.HasPrefix`/`TrimSuffix`/`Split`, `filepath.Ext`, with their laws |
| tree.dfy | `Tree` | the result map, path lookup, the cursor (`Descend`), write-back (`Graft`), `Insert` and its laws |
| dirmap.dfy | `DirMap` | the callback's decisions (`Classify`), the walk (`Visited`, `Fold`, `Build`) and the imperative `Builder` class and `BuildMap` method proved against them |
| dirmap_laws.dfy | `DirMapLaws` | what whole walks promise: filtering, pruning, first error wins, no shared destination, accepted files are in the result |
| walk_order.dfy | `WalkOrder` | a three-entry walk whose outcome depends on visiting order |
| convert.dfy | `Convert` | the converter, its inverse and its laws |

The walk is a pre-order sequence of entries. Each entry carries its depth
below the base directory, its relative path and base name, whether it is a
directory, the error the walk reports for it, and what reading it yields.
`Visited` drops a directory that the callback answers `SkipDir`, and the
entries below it, as `filepath.Walk` does: the call on the directory itself
leaves the map unchanged, and its subtree is never handed to the callback.
`Build` folds the callback over the visited entries. The imperative `DirMap.BuildMap` is proved to return exactly
`Build`. Inside it, `DirMap.Builder.Place` runs the cursor loop of
dirmap.go:77-89 on the builder's `result` field, and it is proved to do
exactly what `Tree.Insert` specifies.

Four behaviours of the code worth knowing when reading the model:

- **No key normalisation.** Nothing in the code converts YAML's
  `map[interface{}]interface{}` to string keys. `yaml.v2` yields such maps for
  every YAML mapping, and plain `int` for integers. Both reach the converter as
  `Values.Other` and are refused with "Unsupported value type".
- **The result depends on the order of the walk.** A file whose document is a
  JSON object is stored as `map[string]interface{}`. The cursor's type
  assertion accepts it, so later files can be inserted inside that document.
  `WalkOrder.WalkOrderMatters` proves the consequence:
  - `a.json` holding `{}` followed by `a/b.json` succeeds;
  - the directory `a` first, which is the lexical order `filepath.Walk` uses,
    fails with a unique key violation.

  The model allows any order. `filepath.Walk`'s lexical order always visits a
  directory `K` before a file `K.ext`, so the program itself only ever takes
  the failing order. For the same reason it never reaches the panic that
  `StructuralConflict` stands for (below).
  Two files that resolve to the same destination are still refused in either
  order (`DirMapLaws.SameDestinationFails`).
- **A structural conflict is a panic in the code.** When a directory segment
  already holds a value that is not a string-keyed map, the unchecked type
  assertion at dirmap.go:82 panics. The model returns
  `StructuralConflict(relPath)` instead. No map was created on the way to that
  segment, because a segment that has to be created leads only to fresh empty
  maps, so the model's unchanged `result` matches the code.
- **The file is read before its extension is checked** (dirmap.go:45-61).
  An unreadable file with any extension aborts the build.

## Model

| member | source | states |
|---|---|---|
| `Paths.TrimSuffix` | provider/dirmap.go:74 | if `s` ends with the suffix, the result followed by the suffix is `s`; otherwise the result is `s` |
| `Paths.Split` | provider/dirmap.go:72 | there is at least one part, no part contains the separator, and joining the parts with it gives the input back |
| `Paths.SplitJoin` | provider/dirmap.go:72 | splitting the join of separator-free parts gives the same parts: split and join are inverse |
| `Paths.Ext` | provider/dirmap.go:51 | a non-empty extension starts with '.', is a suffix of the path, and holds no other '.' and no '/'; it is empty exactly when every '.' of the path has a '/' after it |
| `Tree.DescendSound` | provider/dirmap.go:77-83 | the cursor stops at segment `i` only when the path up to and including `i` holds a non-map and no shorter prefix does; otherwise it stands at the map found at `dirs`, or at a fresh empty map when `dirs` is absent |
| `Tree.InsertOutcome` | provider/dirmap.go:77-89 | insertion conflicts exactly when a prefix of `dirs` holds a non-map, naming the first such segment; the key is taken exactly when there is no conflict and `dirs + [key]` is present; a successful insertion found `dirs + [key]` absent |
| `Tree.GraftLookup` | provider/dirmap.go:77-83 | writing the cursor's map back replaces what lies under `dirs`, turns every strict prefix into a map that gains exactly the next segment, and leaves every other path as it was |
| `Tree.InsertLookup` | provider/dirmap.go:77-89 | after a successful insertion every path through `dirs + [key]` reads inside the new document; every map on the way gains exactly the next segment as a key; every other path reads as before |
| `Tree.InsertPreserves` | provider/dirmap.go:79-89 | a successful insertion keeps every path that was present, and every value there that is not a string-keyed map is unchanged |
| `DirMap.Visit` | provider/dirmap.go:24-30 | the callback answers SkipDir exactly for a hidden directory that the walk reports without error |
| `DirMap.SubtreeLen` | provider/dirmap.go:26-27 | the length of the run of deeper entries right after a directory, which is the subtree that SkipDir removes |
| `DirMap.Builder.Place` | provider/dirmap.go:77-89 | the cursor loop over `result` returns exactly `Insert` of the old map, and `result` becomes the new tree only on success |
| `DirMap.Builder.Callback` | provider/dirmap.go:19-93 | the callback's answer (nil, SkipDir or an error) and its effect on `result` are exactly one step of `Visit` |
| `DirMap.BuildMap` | provider/dirmap.go:16-100 | the imperative walk, with its SkipDir handling and early error return, returns exactly `Build`: the fold of the callback over the visited entries |
| `DirMapLaws.ClassifyAccepts` | provider/dirmap.go:20-65 | a file is accepted exactly when: no walk error, visible name, the filter is absent or matches, the file is readable, the extension is .yaml, .yml or .json, and its decoder succeeds |
| `DirMapLaws.ClassifyIgnores` | provider/dirmap.go:25-61 | an entry is passed over without error exactly when it is a hidden file, a visible directory, a file the filter rejects, or a readable file with another extension |
| `DirMapLaws.ClassifyAborts` | provider/dirmap.go:20-65 | a walk error, a malformed pattern and a failed read of a visible file that passes the filter abort with that error; a recognised file whose decoder fails aborts with a parse failure naming its path and carrying the decoder's error, and every parse failure arises that way |
| `DirMapLaws.AcceptedLocation` | provider/dirmap.go:51-75 | an accepted file goes to the directory segments and key of its relative path, holding exactly what its decoder produced |
| `DirMapLaws.LeafSplit` | provider/dirmap.go:72-75 | the directory segments are all segments but the last, in order; the key is the last segment less exactly the extension, so that the segments, the key and the extension rebuild the relative path |
| `DirMapLaws.HiddenSubtreeSkipped` | provider/dirmap.go:25-28 | a hidden directory and its whole subtree contribute no visited entry |
| `DirMapLaws.HiddenBaseGivesEmptyMap` | provider/dirmap.go:25-28 | a hidden base directory, such as ".", gives an empty map without error |
| `DirMapLaws.FoldAppend` | provider/dirmap.go:95-99 | a run over two stretches of entries is the second run from the first one's map, and a failure in the first is the final result: no partial map is returned |
| `DirMapLaws.FailingEntryEndsBuild` | provider/dirmap.go:95-97 | the first failing callback's error is the build's result |
| `DirMapLaws.FoldKeeps` | provider/dirmap.go:77-89 | a successful run keeps every path of its starting map, and every non-map value there |
| `DirMapLaws.TakenDestinationFails` | provider/dirmap.go:85-87 | an accepted file whose destination is already present makes the run fail |
| `DirMapLaws.SameDestinationFails` | provider/dirmap.go:85-87 | two accepted files with the same directory segments and key make the run fail, whichever comes first |
| `DirMapLaws.AcceptedInTree` | provider/dirmap.go:77-89 | after a successful run each accepted file's destination is present, and holds exactly its document when that is not a string-keyed map |
| `DirMapLaws.BuildRejectsSharedDestination` | provider/dirmap.go:85-89 | `buildMap` fails whenever two visited files share a destination, so `a.yaml` and `a.json` in one directory are refused |
| `DirMapLaws.FoldOnlyAccepted` | provider/dirmap.go:77-89 | after a successful run every present path was present before, or leads to the destination of an accepted entry, or lies inside its document |
| `DirMapLaws.BuildOnlyAccepted` | provider/dirmap.go:72-89 | the map `buildMap` returns holds nothing but the accepted files: every path other than the root leads to, or lies inside, the destination of a visited file the callback accepts |
| `DirMapLaws.BuildContainsAccepted` | provider/dirmap.go:72-89 | every file `buildMap` accepts is found in the map it returns, at the segments and key of its relative path |
| `WalkOrder.WalkOrderMatters` | provider/dirmap.go:77-89 | the same three entries in two orders: success with `a.b` set, and a unique key violation for `a.json` |
| `Convert.ConvertSingle` | provider/data_source_dirmap.go:108-148 | the conversion succeeds exactly when every node is a map, list, string, number, bool or null, and otherwise fails with "Unsupported value type" |
| `Convert.Convert` | provider/data_source_dirmap.go:152-165 | anything but a string-keyed map fails with "Invalid top-level type"; a map converts to a map with the same keys exactly when all its nodes are supported |
| `Convert.ConvertMap` | provider/data_source_dirmap.go:112-122 | a map converts to a map with the same key set, each value converted on its own |
| `Convert.ConvertList` | provider/data_source_dirmap.go:123-133 | a list converts to a list of the same length, index by index |
| `Convert.UnconvertConvert` | provider/data_source_dirmap.go:108-148 | the converted value determines the original: the inverse gives it back |
| `Convert.ConvertUnconvert` | provider/data_source_dirmap.go:134-141 | converting the inverse image of any framework value gives that value back; with `Convert.UnconvertConvert`, strings, numbers, bools and null map one to one, and the conversion is a bijection onto the framework values |
| `Convert.UnsupportedBelowFails` | provider/data_source_dirmap.go:112-147 | one unsupported value at any key path inside the map makes the whole conversion fail |

## Left out

- The filesystem: `filepath.Walk`, `ioutil.ReadFile` and `os.FileInfo` are inputs. The walk is a sequence of entries in any order, each with its read result. The model does not fix the lexical order the library uses.
- `filepath.Rel` (dirmap.go:67-70): each entry's relative path is given, so the error branch for a path outside the base is not modelled.
- The path separator is fixed to '/' (`Paths.Separator`). On Windows `filepath.Separator` is `\`, and `filepath.Ext` also stops at either separator; the model covers only Unix-style paths.
- `filepath.Match`: glob matching is the parameter `globMatch`, which returns a match or a pattern error.
- `yaml.Unmarshal` and `json.Unmarshal`: the decoders are parameters that return a value or an error message.
- Error texts: each error is a constructor that carries the parts the message names ("failed to parse <path>" carries the path and the decoder's error; "unique key violation" carries the relative path). The formatting itself is left out.
- Numbers are opaque 64-bit patterns carried through unchanged. `big.NewFloat` panics on NaN (data_source_dirmap.go:137), and YAML can decode `.nan`; the model converts every number.
- `Convert.ConvertSingle`: the message detail naming the Go type (`%T`) is not modelled. Go's map iteration order decides which nested error is reported first, and the model only states that one is reported. The framework's `types.MapValueMust` and `types.ListValueMust` (data_source_dirmap.go:122, 133) are taken never to fail: a panic they might raise when an element does not match the `types.DynamicType` element type is not modelled, and the claim that conversion succeeds exactly when every node is supported rests on that.
- `DirMap.Builder.Place`: the Go loop moves `currMap` through nested maps that alias parts of `result`. The model computes the map at the cursor as a value and writes the path back with `Tree.Graft`.
- `Read`, `Metadata`, `Schema` and `NewDirmapDataSource` in provider/data_source_dirmap.go, and provider/provider.go: framework plumbing, configuration and state handling, and logging.
