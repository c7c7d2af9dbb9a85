# json-lib in Dafny

A model of the document wrapper `JsonLib` of theSimpleCloud's json-lib, a
fluent layer over Gson, and of its `JsonObject.getOrNull` extension. The model
covers how the wrapper edits and navigates a JSON tree:

- `append` (all four overloads) sets one member of the wrapped object node in
  place and returns the same wrapper, or fails with an
  UnsupportedOperationException on any other node. The stored member is a
  new tree of its own, so later edits to the appended value are not seen.
- `getProperty` looks up one member. It returns absent, never an error, on a
  node that is not an object. The child wrapper it returns shares the child
  node, so edits made through it are seen from the parent.
- `getPath` splits its argument on `.` the way Kotlin's `split` does, keeping
  empty pieces, and follows the pieces with `getProperty`.
- The typed getters (`getInt` … `getString`, `getAsJsonArray`) fail on a
  non-object node. They are absent for a missing member or an explicit JSON
  null, and otherwise coerce the member.
- `getObject(property, clazz)` delegates to `getProperty` for the wrapper
  class.
- `fromJsonString` tries to parse as an object, then as an array, then as a
  primitive, and fails with an IllegalArgumentException only when all three
  fail.

Files and modules:

| file | module | contents |
|---|---|---|
| `wrappers.dfy` | `Wrappers` | `Option` (a Kotlin `null`) and `Result` (a thrown exception) |
| `json_tree.dfy` | `JsonTree` | Gson's tree: `JsonObject` and `JsonArray` are classes updated in place, primitives and null are values; `Json` value documents and `Build`, which turns one into fresh nodes |
| `json_object_extension.dfy` | `JsonObjectExtension` | `getOrNull` |
| `path_split.dfy` | `PathSplit` | `split(".")` and its inverse `Join` |
| `json_library.dfy` | `JsonLibrary` | the `JsonLib` wrapper, the engine `Gson`, `append`, lookups, getters, `empty`, `fromJsonString` |
| `json_library_properties.dfy` | `JsonLibraryProperties` | path composition, the explicit-null rule, the error asymmetry, edits through shared nodes |

The engine is a value of type `Gson` passed explicitly. Its three parsers are
function fields whose behaviour is left open. The typed getters' coercions
(`asInt`, `asString`, …) and `getObject`'s decoder are function parameters.
Nothing performs I/O.

## Model

| member | source | states |
|---|---|---|
| `JsonObjectExtension.GetOrNull` | src/main/kotlin/eu/thesimplecloud/jsonlib/JsonObjectExtension.kt:13-16 | absent exactly when the key is missing or maps to an explicit JSON null; otherwise the stored node itself; reads the object and changes nothing |
| `JsonTree.AsJsonArray` | src/main/kotlin/eu/thesimplecloud/jsonlib/JsonLib.kt:111 | succeeds exactly on an array node and returns that same array, otherwise an IllegalStateException |
| `JsonTree.Build` | src/main/kotlin/eu/thesimplecloud/jsonlib/JsonLib.kt:239-256 | a document becomes a tree of freshly allocated object and array nodes that holds exactly that document, with no node at two positions (no container inside its own child, no node shared by two children) |
| `JsonTree.BuildArray` | src/main/kotlin/eu/thesimplecloud/jsonlib/JsonLib.kt:244-246 | an array document becomes a new array node whose elements are fresh, pairwise node-disjoint trees for the items in order |
| `JsonTree.BuildObject` | src/main/kotlin/eu/thesimplecloud/jsonlib/JsonLib.kt:240-242 | an object document becomes a new object node with exactly its keys, each member a fresh tree for its document, no two members sharing a node |
| `JsonLibrary.JsonLib.Append` | src/main/kotlin/eu/thesimplecloud/jsonlib/JsonLib.kt:31-57 | on a non-object node: UnsupportedOperationException and nothing changes; on an object node: `property` is added or overwritten with a freshly built, unshared tree holding the argument's document (a Kotlin `null` gives an explicit JSON null), every other member is kept, and the same wrapper is returned |
| `JsonLibrary.JsonLib.GetProperty` | src/main/kotlin/eu/thesimplecloud/jsonlib/JsonLib.kt:62-66 | absent exactly when the node is not an object or lacks the member; otherwise a wrapper of that very child node with the same engine |
| `JsonLibrary.JsonLib.Navigate` | src/main/kotlin/eu/thesimplecloud/jsonlib/JsonLib.kt:72-82 | following segments with `getProperty` never changes the engine of the wrapper reached |
| `JsonLibrary.JsonLib.GetPath` | src/main/kotlin/eu/thesimplecloud/jsonlib/JsonLib.kt:72-82 | the segment loop returns exactly the fold of `getProperty` over the dot-separated pieces of the path, absent at the first missing piece |
| `JsonLibrary.JsonLib.GetTyped` | src/main/kotlin/eu/thesimplecloud/jsonlib/JsonLib.kt:84-117 | shared rule of the typed getters: UnsupportedOperationException on a non-object node; absent for a missing member or an explicit null; otherwise the coercion of the member, whose failure propagates |
| `JsonLibrary.JsonLib.GetAsJsonArray` | src/main/kotlin/eu/thesimplecloud/jsonlib/JsonLib.kt:109-112 | UnsupportedOperationException on a non-object node; absent exactly for a missing member or explicit null on an object; a member array node is returned itself (and any result is the member's own array node); on an object, any other member shape is an IllegalStateException |
| `JsonLibrary.JsonLib.GetObject` | src/main/kotlin/eu/thesimplecloud/jsonlib/JsonLib.kt:120-126 | fails on a non-object node; absent for a missing member; for the wrapper class a wrapper of the member node (an explicit null included); for another class the decoder's result on the member |
| `JsonLibrary.Empty` | src/main/kotlin/eu/thesimplecloud/jsonlib/JsonLib.kt:194-195 | a wrapper of a new object node with no members and the given engine |
| `JsonLibrary.Parse` | src/main/kotlin/eu/thesimplecloud/jsonlib/JsonLib.kt:239-256 | succeeds exactly when one of the object, array and primitive parses succeeds, and then gives the first successful one in that order; otherwise an IllegalArgumentException naming the text |
| `JsonLibrary.FromJsonString` | src/main/kotlin/eu/thesimplecloud/jsonlib/JsonLib.kt:238-256 | succeeds exactly when the fallback parse does, with fresh, unshared nodes holding the parsed document and the given engine; otherwise the same IllegalArgumentException |
| `PathSplit.Split` | src/main/kotlin/eu/thesimplecloud/jsonlib/JsonLib.kt:73 | at least one piece, no piece contains a dot, and joining the pieces with dots gives the path back |
| `PathSplit.SplitJoin` | src/main/kotlin/eu/thesimplecloud/jsonlib/JsonLib.kt:73 | splitting the join of dot-free pieces gives the pieces back, so split and join are inverse |
| `PathSplit.SplitDotFree` | src/main/kotlin/eu/thesimplecloud/jsonlib/JsonLib.kt:73 | a path without a dot is a single piece |
| `PathSplit.SplitConcat` | src/main/kotlin/eu/thesimplecloud/jsonlib/JsonLib.kt:73 | the pieces of `p + "." + q` are those of `p` followed by those of `q` |
| `JsonLibraryProperties.NavigateConcat` | src/main/kotlin/eu/thesimplecloud/jsonlib/JsonLib.kt:74-81 | navigating along `a + b` is navigating along `a` and then along `b` from the result, absent if either is |
| `JsonLibraryProperties.NavigateStopsAtAbsent` | src/main/kotlin/eu/thesimplecloud/jsonlib/JsonLib.kt:75-79 | once a prefix of the segments is absent, the whole lookup is absent |
| `JsonLibraryProperties.ResolveSingleSegment` | src/main/kotlin/eu/thesimplecloud/jsonlib/JsonLib.kt:72-82 | a path with no dot resolves exactly like `getProperty` |
| `JsonLibraryProperties.ResolveConcat` | src/main/kotlin/eu/thesimplecloud/jsonlib/JsonLib.kt:72-82 | `getPath(p + "." + q)` is `getPath(p)` followed by `getPath(q)` on its result, absent if either step is |
| `JsonLibraryProperties.ResolveOnNonObject` | src/main/kotlin/eu/thesimplecloud/jsonlib/JsonLib.kt:62-82 | on a node that is not an object every path is absent |
| `JsonLibraryProperties.NonObjectAsymmetry` | src/main/kotlin/eu/thesimplecloud/jsonlib/JsonLib.kt:62-126 | on a non-object node `getProperty` and `getPath` are absent while the typed getters and `getObject` throw |
| `JsonLibraryProperties.ExplicitNullIsAbsent` | src/main/kotlin/eu/thesimplecloud/jsonlib/JsonLib.kt:84-126 | a member holding an explicit null is absent for every typed getter, yet `getProperty` and `getObject` for the wrapper class return a wrapper of the null |
| `JsonLibraryProperties.ObjectParseWins` | src/main/kotlin/eu/thesimplecloud/jsonlib/JsonLib.kt:240-242 | text that parses as an object is returned as that object, whatever the other parsers would say |
| `JsonLibraryProperties.AppendNullThenGet` | src/main/kotlin/eu/thesimplecloud/jsonlib/JsonLib.kt:31-36 | `append(k, v)` with any argument whose document is null (a `null` through any overload) keeps `k` present with an explicit null, and a typed getter for `k` then returns absent |
| `JsonLibraryProperties.AppendThroughChild` | src/main/kotlin/eu/thesimplecloud/jsonlib/JsonLib.kt:31-66 | an append through a child wrapper from `getProperty` is seen from the parent along `name.key`, which reaches the child's new member holding the appended document |
| `JsonLibraryProperties.SplitThree` | src/main/kotlin/eu/thesimplecloud/jsonlib/JsonLib.kt:73 | a path of three dot-free pieces joined by dots splits into exactly those three pieces |
| `JsonLibraryProperties.NavigateThree` | src/main/kotlin/eu/thesimplecloud/jsonlib/JsonLib.kt:74-81 | following three segments is three `getProperty` steps, absent at the first absent one |
| `JsonLibraryProperties.NestedDocPaths` | src/main/kotlin/eu/thesimplecloud/jsonlib/JsonLib.kt:72-82 | whatever nodes hold `{"b": {"c": 5}}` under member `a`, `getPath("a.b.c")` is a wrapper of the number 5 and `getPath("a.x.c")` is absent |
| `JsonLibraryProperties.NestedPathExample` | src/main/kotlin/eu/thesimplecloud/jsonlib/JsonLib.kt:31-82 | on `{"a": {"b": {"c": 5}}}` made with `empty` and `append`, `getPath("a.b.c")` is a wrapper of the number 5 and `getPath("a.x.c")` is absent |

## Left out

- File and stream I/O are not modelled: `saveAsFile`, `saveJsonElementAsFile` (including its `false` on success), `fromJsonFile`, `fromInputStream`, `loadFromInputStream` and `loadFile`.
- Text serialisation by the engine is not modelled: `getAsJsonString`, `getJsonStringAsBytes`, `toString`, `getObject(clazz)`, `getObjectOrNull` and `fromObject`.
- The engine's `toJsonTree` conversion of an arbitrary value inside `append(property, value: Any?)` is not modelled. `TreeValue` carries the document it produces, and `append` stores a fresh copy of it. With an engine built by `GsonCreator` (the `JsonLib` adapter and `serializeNulls`), this is the document the appended wrapper or node held at that moment. Another engine may produce a different document: without `serializeNulls` it drops null members, and without the `JsonLib` adapter it serialises the wrapper field by field. `TreeValue` then carries that document.
- The coercions `asInt`, `asLong`, `asDouble`, `asFloat`, `asBoolean` and `asString` follow Gson's rules and involve floating point. They are the `convert` parameter of `GetTyped`. A `convert` function sees a node but not the elements of an array node, so Gson's coercion of a one-element array through its element cannot be expressed.
- Numbers are kept as their decimal text. No arithmetic or range is modelled.
- The process-wide default engine `GSON` and `setDefaultGson` are not modelled. Every operation takes the engine explicitly. The no-engine overloads (`empty()`, `fromJsonString(string)`) are the same operations given the default engine. `fromJsonElement` is the `JsonLib` constructor itself.
- Gson keeps object members in insertion order. That order only shows in serialisation, and the model keeps members in an unordered map.
- The parsers return absent on failure. Gson's `null` result for empty text (which would wrap a null element) is not modelled.
- The exceptions carry only a message. The IllegalArgumentException of `fromJsonString` carries no cause.
- AsJsonArray: the IllegalStateException message is simplified to "Not a JSON Array"; Gson appends the element's serialised text, and serialisation is not modelled.
- GetObject: the engine's decoder `fromJson` for another class is a function of the member node alone. It cannot read the node's members or elements, so a decoder whose result depends on the contents of an object or array member, or on later edits to it, cannot be expressed. The same holds for the `convert` coercion of `GetTyped`.
- `GsonCreator`, the annotation exclusion strategy, `JsonLibSerializer` and the Bukkit item and location serializers are engine configuration and adapters with no navigation or edit logic.
