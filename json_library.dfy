/**
 * The `JsonLib` document wrapper: a JSON tree node paired with the engine
 * that produced it, with member edits, single and dotted-path lookups, typed
 * getters and the string factory's parse fallback.
 *
 * The engine (`Gson`) is passed explicitly instead of read from a
 * process-wide default; its parsing and value coercion stay opaque.
 */
module JsonLibrary {
  import opened Wrappers
  import opened JsonTree
  import opened JsonObjectExtension
  import opened PathSplit

  const AppendMessage: string := "Can't append element to JsonPrimitive."
  const GetMessage: string := "Can't get element from JsonPrimitive."

  /**
   * The engine's parsers, one per target type; `None` stands for the
   * exception the engine throws when the text is not of that shape.
   */
  datatype Gson = Gson(
    parseObject: string -> Option<map<string, Json>>,
    parseArray: string -> Option<seq<Json>>,
    parsePrimitive: string -> Option<Primitive>)

  /**
   * The argument of one of the four `append` overloads. `TreeValue` carries
   * the document the engine's `toJsonTree` makes of an arbitrary value.
   */
  datatype Appendable =
    | StringValue(s: Option<string>)
    | NumberValue(n: Option<Number>)
    | BooleanValue(b: Option<bool>)
    | TreeValue(doc: Json)
  {
    /** The document stored for this argument: a Kotlin `null` becomes an explicit JSON null. */
    function Document(): (r: Json) {
      match this
      case StringValue(s) => if s.Some? then JPrimitive(PString(s.value)) else JNull
      case NumberValue(n) => if n.Some? then JPrimitive(PNumber(n.value)) else JNull
      case BooleanValue(b) => if b.Some? then JPrimitive(PBoolean(b.value)) else JNull
      case TreeValue(doc) => doc
    }
  }

  /** The class argument of `getObject(property, clazz)`. */
  datatype TargetClass<T> =
    | JsonLibClass
    | OtherClass(fromJson: JsonElement -> Result<Option<T>, Exception>)

  /** What `getObject(property, clazz)` hands back: a wrapper, or a decoded value. */
  datatype Fetched<T> = Wrapped(lib: JsonLib) | Decoded(value: T)

  /** A wrapper: the node it wraps (never replaced) and the engine it carries. */
  datatype JsonLib = JsonLib(jsonElement: JsonElement, gson: Gson)
  {
    /** The object node that edits and lookups touch, if the wrapped node is an object. */
    function Target(): (r: set<JsonObject>) {
      if jsonElement.ObjectNode? then {jsonElement.obj} else {}
    }

    /**
     * `append`, all four overloads: on an object node, sets `property` to a
     * fresh tree for the argument's document (overwriting any previous
     * value) and returns the same wrapper; on any other node, fails and
     * changes nothing. `nodes` are the containers of the stored tree.
     */
    method Append(property: string, value: Appendable) returns (r: Result<JsonLib, Exception>, ghost nodes: set<object>)
      modifies Target()
      ensures !jsonElement.ObjectNode? ==> r == Failure(UnsupportedOperation(AppendMessage))
      ensures jsonElement.ObjectNode? ==>
        && r == Success(this)
        && property in jsonElement.obj.members
        && jsonElement.obj.members == old(jsonElement.obj.members)[property := jsonElement.obj.members[property]]
        && fresh(nodes)
        && Denotes(jsonElement.obj.members[property], value.Document(), nodes)
        && Unshared(jsonElement.obj.members[property], value.Document(), nodes)
    {
      if !jsonElement.ObjectNode? {
        return Failure(UnsupportedOperation(AppendMessage)), {};
      }
      var tree;
      tree, nodes := Build(value.Document());
      jsonElement.obj.members := jsonElement.obj.members[property := tree];
      return Success(this), nodes;
    }

    /**
     * `getProperty`: absent (never an error) when the node is not an object
     * or has no such member; otherwise a wrapper of exactly that child node,
     * sharing it, with the same engine.
     */
    function GetProperty(name: string): (r: Option<JsonLib>)
      reads Target()
      ensures r.None? <==> !jsonElement.ObjectNode? || name !in jsonElement.obj.members
      ensures r.Some? ==> r.value == JsonLib(jsonElement.obj.members[name], gson)
    {
      if !jsonElement.ObjectNode? then None
      else if name in jsonElement.obj.members then Some(JsonLib(jsonElement.obj.members[name], gson))
      else None
    }

    /**
     * Follows `segments` one `GetProperty` at a time, stopping at the first
     * absent step. The engine is carried along unchanged.
     */
    function Navigate(segments: seq<string>): (r: Option<JsonLib>)
      reads *
      ensures r.Some? ==> r.value.gson == gson
      decreases |segments|
    {
      if segments == [] then Some(this)
      else
        match GetProperty(segments[0])
        case None => None
        case Some(child) => child.Navigate(segments[1..])
    }

    /** What `getPath(path)` denotes: navigation along the dot-separated pieces of `path`. */
    function ResolvePath(path: string): (r: Option<JsonLib>)
      reads *
    {
      Navigate(Split(path))
    }

    /** `getPath`: the segment loop, returning absent as soon as a segment is missing. */
    method GetPath(path: string) returns (r: Option<JsonLib>)
      ensures r == ResolvePath(path)
    {
      var segments := Split(path);
      var current := this;
      var i := 0;
      while i < |segments|
        invariant 0 <= i <= |segments|
        invariant Navigate(segments) == current.Navigate(segments[i..])
      {
        assert segments[i..][0] == segments[i] && segments[i..][1..] == segments[i + 1..];
        var next := current.GetProperty(segments[i]);
        if next.None? {
          return None;
        }
        current := next.value;
        i := i + 1;
      }
      return Some(current);
    }

    /**
     * The shape/absent/null rule shared by `getInt`, `getLong`, `getDouble`,
     * `getFloat`, `getBoolean`, `getString` and `getAsJsonArray`: fails on a
     * non-object node, is absent for a missing member or an explicit JSON
     * null, and otherwise applies the engine's coercion `convert` to the
     * member, whose own failure propagates.
     */
    function GetTyped<T>(property: string, convert: JsonElement -> Result<T, Exception>): (r: Result<Option<T>, Exception>)
      reads Target()
      ensures !jsonElement.ObjectNode? ==> r == Failure(UnsupportedOperation(GetMessage))
      ensures jsonElement.ObjectNode? && (property !in jsonElement.obj.members || jsonElement.obj.members[property] == NullNode)
              ==> r == Success(None)
      ensures jsonElement.ObjectNode? && property in jsonElement.obj.members && jsonElement.obj.members[property] != NullNode
              ==> match convert(jsonElement.obj.members[property])
                  case Success(x) => r == Success(Some(x))
                  case Failure(e) => r == Failure(e)
    {
      if !jsonElement.ObjectNode? then Failure(UnsupportedOperation(GetMessage))
      else if property !in jsonElement.obj.members then Success(None)
      else
        match GetOrNull(jsonElement.obj, property)
        case None => Success(None)
        case Some(e) =>
          match convert(e)
          case Success(x) => Success(Some(x))
          case Failure(err) => Failure(err)
    }

    /** `getAsJsonArray`: the member array node itself, shared, or an IllegalStateException for another node. */
    function GetAsJsonArray(property: string): (r: Result<Option<JsonArray>, Exception>)
      reads Target()
      ensures !jsonElement.ObjectNode? ==> r == Failure(UnsupportedOperation(GetMessage))
      ensures r == Success(None) <==>
        jsonElement.ObjectNode? && (property !in jsonElement.obj.members || jsonElement.obj.members[property] == NullNode)
      ensures jsonElement.ObjectNode? && property in jsonElement.obj.members && jsonElement.obj.members[property].ArrayNode?
              ==> r == Success(Some(jsonElement.obj.members[property].arr))
      ensures r.Success? && r.value.Some? ==>
        && jsonElement.ObjectNode? && property in jsonElement.obj.members
        && jsonElement.obj.members[property] == ArrayNode(r.value.value)
      ensures r.Failure? && jsonElement.ObjectNode? ==> r.error.IllegalState?
    {
      GetTyped(property, AsJsonArray)
    }

    /**
     * `getObject(property, clazz)`: fails on a non-object node; for the
     * wrapper class it is `getProperty`, so an explicit JSON null comes back
     * as a wrapper of that null; for any other class the present member,
     * null or not, goes to the engine's decoder.
     */
    function GetObject<T>(property: string, clazz: TargetClass<T>): (r: Result<Option<Fetched<T>>, Exception>)
      reads Target()
      ensures !jsonElement.ObjectNode? ==> r == Failure(UnsupportedOperation(GetMessage))
      ensures jsonElement.ObjectNode? && property !in jsonElement.obj.members ==> r == Success(None)
      ensures jsonElement.ObjectNode? && property in jsonElement.obj.members && clazz.JsonLibClass? ==>
        r == Success(Some(Wrapped(JsonLib(jsonElement.obj.members[property], gson))))
      ensures jsonElement.ObjectNode? && property in jsonElement.obj.members && clazz.OtherClass? ==>
        match clazz.fromJson(jsonElement.obj.members[property])
        case Success(v) => r == Success(if v.Some? then Some(Decoded(v.value)) else None)
        case Failure(e) => r == Failure(e)
    {
      if !jsonElement.ObjectNode? then Failure(UnsupportedOperation(GetMessage))
      else if clazz.JsonLibClass? then
        match GetProperty(property)
        case None => Success(None)
        case Some(child) => Success(Some(Wrapped(child)))
      else if property !in jsonElement.obj.members then Success(None)
      else
        match clazz.fromJson(jsonElement.obj.members[property])
        case Success(v) => Success(if v.Some? then Some(Decoded(v.value)) else None)
        case Failure(e) => Failure(e)
    }
  }

  /** `empty(gson)`: a wrapper of a new object node with no members. */
  method Empty(gson: Gson) returns (lib: JsonLib)
    ensures lib.gson == gson && lib.jsonElement.ObjectNode?
    ensures fresh(lib.jsonElement.obj) && lib.jsonElement.obj.members == map[]
  {
    var o := new JsonObject();
    lib := JsonLib(ObjectNode(o), gson);
  }

  /** The three parse attempts of `fromJsonString`, in the order they are tried. */
  function Attempts(gson: Gson, s: string): (a: seq<Option<Json>>)
    ensures |a| == 3
  {
    [ match gson.parseObject(s) case Some(m) => Some(JObject(m)) case None => None,
      match gson.parseArray(s) case Some(xs) => Some(JArray(xs)) case None => None,
      match gson.parsePrimitive(s) case Some(p) => Some(JPrimitive(p)) case None => None ]
  }

  /**
   * The try-chain of `fromJsonString`: parse as an object, else as an
   * array, else as a primitive, else fail with an IllegalArgumentException
   * naming the text. The result is the first attempt that succeeds.
   */
  function Parse(gson: Gson, s: string): (r: Result<Json, Exception>)
    ensures r.Success? <==> exists i :: 0 <= i < 3 && Attempts(gson, s)[i].Some?
    ensures r.Success? ==> exists i :: 0 <= i < 3 && Attempts(gson, s)[i] == Some(r.value)
                                     && forall j :: 0 <= j < i ==> Attempts(gson, s)[j].None?
    ensures r.Failure? ==> r.error == IllegalArgument("Can't parse string " + s)
  {
    var attempts := Attempts(gson, s);
    match gson.parseObject(s)
    case Some(m) =>
      assert attempts[0] == Some(JObject(m));
      Success(JObject(m))
    case None =>
      match gson.parseArray(s)
      case Some(xs) =>
        assert attempts[1] == Some(JArray(xs));
        Success(JArray(xs))
      case None =>
        match gson.parsePrimitive(s)
        case Some(p) =>
          assert attempts[2] == Some(JPrimitive(p));
          Success(JPrimitive(p))
        case None => Failure(IllegalArgument("Can't parse string " + s))
  }

  /**
   * `fromJsonString(string, gson)`: the first successful parse, turned into
   * fresh tree nodes and wrapped with the given engine.
   */
  method FromJsonString(s: string, gson: Gson) returns (r: Result<JsonLib, Exception>, ghost nodes: set<object>)
    ensures r.Success? <==> Parse(gson, s).Success?
    ensures r.Failure? ==> r.error == Parse(gson, s).error
    ensures r.Success? ==>
      && r.value.gson == gson && fresh(nodes)
      && Denotes(r.value.jsonElement, Parse(gson, s).value, nodes)
      && Unshared(r.value.jsonElement, Parse(gson, s).value, nodes)
  {
    match Parse(gson, s)
    case Failure(e) =>
      r, nodes := Failure(e), {};
    case Success(v) =>
      var root, built := Build(v);
      r, nodes := Success(JsonLib(root, gson)), built;
  }
}
