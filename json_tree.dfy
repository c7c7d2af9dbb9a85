/**
 * The JSON tree of the underlying engine (Gson), as far as the library uses it.
 *
 * Gson's JsonObject and JsonArray are mutable containers, so they are classes
 * here; JsonPrimitive and JsonNull never change, so they are values. A
 * `JsonElement` is one of the four. `Json` is a plain value tree: the form in
 * which the engine hands over a freshly parsed document before it is turned
 * into heap nodes by `Build`.
 */
module JsonTree {
  import opened Wrappers

  /**
   * A JSON number, kept as its decimal text: the text of a parsed number, or
   * the rendering of the `Number` object a caller appends.
   */
  datatype Number = Number(text: string)

  datatype Primitive = PBoolean(b: bool) | PNumber(n: Number) | PString(s: string)

  /**
   * The exceptions the library throws or lets through. `EngineError` stands
   * for whatever the engine's own coercions and decoders throw (a
   * NumberFormatException, a JsonSyntaxException, ...), which reach the
   * caller through the `convert` and `fromJson` parameters unchanged.
   */
  datatype Exception =
    | UnsupportedOperation(message: string)
    | IllegalState(message: string)
    | IllegalArgument(message: string)
    | EngineError(message: string)

  /** A JSON object node: a string-keyed map of child nodes, updated in place. */
  class JsonObject {
    var members: map<string, JsonElement>

    constructor ()
      ensures members == map[]
    {
      members := map[];
    }
  }

  /** A JSON array node: a list of child nodes. */
  class JsonArray {
    var elements: seq<JsonElement>

    constructor ()
      ensures elements == []
    {
      elements := [];
    }
  }

  /** One node of the tree; object and array nodes are shared by reference. */
  datatype JsonElement =
    | ObjectNode(obj: JsonObject)
    | ArrayNode(arr: JsonArray)
    | PrimitiveNode(value: Primitive)
    | NullNode

  /**
   * `JsonElement.getAsJsonArray`: the node itself when it is an array,
   * otherwise an IllegalStateException.
   */
  function AsJsonArray(e: JsonElement): (r: Result<JsonArray, Exception>)
    ensures r.Success? <==> e.ArrayNode?
    ensures r.Success? ==> e == ArrayNode(r.value)
    ensures !e.ArrayNode? ==> r == Failure(IllegalState("Not a JSON Array"))
  {
    if e.ArrayNode? then Success(e.arr) else Failure(IllegalState("Not a JSON Array"))
  }

  /** A JSON document as a value, with no sharing and no identity. */
  datatype Json =
    | JNull
    | JPrimitive(p: Primitive)
    | JArray(items: seq<Json>)
    | JObject(fields: map<string, Json>)

  /**
   * The heap tree rooted at `e`, whose container nodes all lie in `nodes`,
   * holds exactly the document `v`.
   */
  ghost predicate Denotes(e: JsonElement, v: Json, nodes: set<object>)
    reads nodes
    decreases v
  {
    match v
    case JNull => e == NullNode
    case JPrimitive(p) => e == PrimitiveNode(p)
    case JArray(items) =>
      && e.ArrayNode? && e.arr in nodes
      && |e.arr.elements| == |items|
      && forall i :: 0 <= i < |items| ==> Denotes(e.arr.elements[i], items[i], nodes)
    case JObject(fields) =>
      && e.ObjectNode? && e.obj in nodes
      && e.obj.members.Keys == fields.Keys
      && forall k :: k in fields ==> Denotes(e.obj.members[k], fields[k], nodes)
  }

  /** The container nodes of the tree rooted at `e` that denotes `v`: its own and those of every descendant. */
  ghost function Footprint(e: JsonElement, v: Json, nodes: set<object>): (r: set<object>)
    requires Denotes(e, v, nodes)
    reads nodes
    ensures r <= nodes
    ensures v.JArray? ==> e.arr in r
    ensures v.JObject? ==> e.obj in r
    decreases v
  {
    match v
    case JNull => {}
    case JPrimitive(_) => {}
    case JArray(items) =>
      {e.arr} + (set i, o | 0 <= i < |items| && o in Footprint(e.arr.elements[i], items[i], nodes) :: o)
    case JObject(fields) =>
      {e.obj} + (set k, o | k in fields && o in Footprint(e.obj.members[k], fields[k], nodes) :: o)
  }

  /**
   * No node occurs twice in the tree rooted at `e`: a container is not
   * inside any of its children, and two different children share no node.
   * Each position of the document is then a node of its own, so an edit at
   * one position is seen nowhere else.
   */
  ghost predicate Unshared(e: JsonElement, v: Json, nodes: set<object>)
    requires Denotes(e, v, nodes)
    reads nodes
    decreases v
  {
    match v
    case JNull => true
    case JPrimitive(_) => true
    case JArray(items) =>
      && (forall i :: 0 <= i < |items| ==>
            e.arr !in Footprint(e.arr.elements[i], items[i], nodes) && Unshared(e.arr.elements[i], items[i], nodes))
      && (forall i, j :: 0 <= i < j < |items| ==>
            Footprint(e.arr.elements[i], items[i], nodes) !! Footprint(e.arr.elements[j], items[j], nodes))
    case JObject(fields) =>
      && (forall k :: k in fields ==>
            e.obj !in Footprint(e.obj.members[k], fields[k], nodes) && Unshared(e.obj.members[k], fields[k], nodes))
      && (forall k, k' :: k in fields && k' in fields && k != k' ==>
            Footprint(e.obj.members[k], fields[k], nodes) !! Footprint(e.obj.members[k'], fields[k'], nodes))
  }

  /**
   * Enlarging the set of nodes that may be read keeps a tree denoting the
   * same document, with the same footprint and without sharing if it had none.
   */
  lemma {:induction false} DenotesGrow(e: JsonElement, v: Json, nodes: set<object>, more: set<object>)
    requires nodes <= more
    requires Denotes(e, v, nodes)
    ensures Denotes(e, v, more)
    ensures Footprint(e, v, more) == Footprint(e, v, nodes)
    ensures Unshared(e, v, nodes) ==> Unshared(e, v, more)
    decreases v
  {
    match v
    case JNull =>
    case JPrimitive(p) =>
    case JArray(items) =>
      forall i | 0 <= i < |items|
        ensures Denotes(e.arr.elements[i], items[i], more)
        ensures Footprint(e.arr.elements[i], items[i], more) == Footprint(e.arr.elements[i], items[i], nodes)
        ensures Unshared(e.arr.elements[i], items[i], nodes) ==> Unshared(e.arr.elements[i], items[i], more)
      {
        DenotesGrow(e.arr.elements[i], items[i], nodes, more);
      }
    case JObject(fields) =>
      forall k | k in fields
        ensures Denotes(e.obj.members[k], fields[k], more)
        ensures Footprint(e.obj.members[k], fields[k], more) == Footprint(e.obj.members[k], fields[k], nodes)
        ensures Unshared(e.obj.members[k], fields[k], nodes) ==> Unshared(e.obj.members[k], fields[k], more)
      {
        DenotesGrow(e.obj.members[k], fields[k], nodes, more);
      }
  }

  /**
   * `elems` are trees, none shared, for the documents `items` in order, and
   * no two of them share a node: the children of an array under construction.
   */
  ghost predicate Forest(elems: seq<JsonElement>, items: seq<Json>, nodes: set<object>)
    reads nodes
  {
    && |elems| == |items|
    && (forall j :: 0 <= j < |items| ==> Denotes(elems[j], items[j], nodes) && Unshared(elems[j], items[j], nodes))
    && (forall j, j' :: 0 <= j < j' < |items| ==> Footprint(elems[j], items[j], nodes) !! Footprint(elems[j'], items[j'], nodes))
  }

  /** `Forest` survives enlarging the node set, with every footprint kept. */
  lemma ForestGrow(elems: seq<JsonElement>, items: seq<Json>, nodes: set<object>, more: set<object>)
    requires nodes <= more && Forest(elems, items, nodes)
    ensures Forest(elems, items, more)
    ensures forall j :: 0 <= j < |items| ==> Footprint(elems[j], items[j], more) <= nodes
  {
    forall j | 0 <= j < |items|
      ensures Denotes(elems[j], items[j], more) && Unshared(elems[j], items[j], more)
      ensures Footprint(elems[j], items[j], more) == Footprint(elems[j], items[j], nodes)
    {
      DenotesGrow(elems[j], items[j], nodes, more);
    }
  }

  /** A tree built from nodes disjoint from a forest's extends the forest by one. */
  lemma ForestAppend(elems: seq<JsonElement>, items: seq<Json>, nodes: set<object>,
                     child: JsonElement, v: Json, childNodes: set<object>)
    requires Forest(elems, items, nodes)
    requires Denotes(child, v, childNodes) && Unshared(child, v, childNodes)
    requires nodes !! childNodes
    ensures Forest(elems + [child], items + [v], nodes + childNodes)
  {
    var more := nodes + childNodes;
    ForestGrow(elems, items, nodes, more);
    DenotesGrow(child, v, childNodes, more);
    var es, vs := elems + [child], items + [v];
    assert forall j :: 0 <= j < |items| ==> es[j] == elems[j] && vs[j] == items[j];
  }

  /** A fresh array node holding a forest denotes the array of its documents, unshared. */
  lemma ForestClose(a: JsonArray, items: seq<Json>, nodes: set<object>)
    requires a !in nodes && Forest(a.elements, items, nodes)
    ensures Denotes(ArrayNode(a), JArray(items), {a} + nodes) && Unshared(ArrayNode(a), JArray(items), {a} + nodes)
  {
    ForestGrow(a.elements, items, nodes, {a} + nodes);
  }

  /**
   * `members` are trees, none shared, for the documents `fields` gives their
   * keys, and no two of them share a node: an object under construction.
   */
  ghost predicate Members(members: map<string, JsonElement>, fields: map<string, Json>, nodes: set<object>)
    reads nodes
  {
    && members.Keys <= fields.Keys
    && (forall k :: k in members ==> Denotes(members[k], fields[k], nodes) && Unshared(members[k], fields[k], nodes))
    && (forall k, k' :: k in members && k' in members && k != k' ==>
          Footprint(members[k], fields[k], nodes) !! Footprint(members[k'], fields[k'], nodes))
  }

  /** `Members` survives enlarging the node set, with every footprint kept. */
  lemma MembersGrow(members: map<string, JsonElement>, fields: map<string, Json>, nodes: set<object>, more: set<object>)
    requires nodes <= more && Members(members, fields, nodes)
    ensures Members(members, fields, more)
    ensures forall k :: k in members ==> Footprint(members[k], fields[k], more) <= nodes
  {
    forall k | k in members
      ensures Denotes(members[k], fields[k], more) && Unshared(members[k], fields[k], more)
      ensures Footprint(members[k], fields[k], more) == Footprint(members[k], fields[k], nodes)
    {
      DenotesGrow(members[k], fields[k], nodes, more);
    }
  }

  /** A tree built from nodes disjoint from the members so far adds one member. */
  lemma MembersAdd(members: map<string, JsonElement>, fields: map<string, Json>, nodes: set<object>,
                   key: string, child: JsonElement, childNodes: set<object>)
    requires Members(members, fields, nodes) && key in fields && key !in members
    requires Denotes(child, fields[key], childNodes) && Unshared(child, fields[key], childNodes)
    requires nodes !! childNodes
    ensures Members(members[key := child], fields, nodes + childNodes)
  {
    var more := nodes + childNodes;
    MembersGrow(members, fields, nodes, more);
    DenotesGrow(child, fields[key], childNodes, more);
  }

  /** A fresh object node holding all members of `fields` denotes that object, unshared. */
  lemma MembersClose(o: JsonObject, fields: map<string, Json>, nodes: set<object>)
    requires o !in nodes && Members(o.members, fields, nodes) && o.members.Keys == fields.Keys
    ensures Denotes(ObjectNode(o), JObject(fields), {o} + nodes) && Unshared(ObjectNode(o), JObject(fields), {o} + nodes)
  {
    MembersGrow(o.members, fields, nodes, {o} + nodes);
  }

  /**
   * Turns a document into fresh heap nodes, as Gson's tree reader and
   * `toJsonTree` do: every object and array node of the result is newly
   * allocated, and no node is used at two positions.
   */
  method Build(v: Json) returns (e: JsonElement, ghost nodes: set<object>)
    ensures fresh(nodes)
    ensures Denotes(e, v, nodes) && Unshared(e, v, nodes)
    decreases v, 1
  {
    match v
    case JNull =>
      e, nodes := NullNode, {};
    case JPrimitive(p) =>
      e, nodes := PrimitiveNode(p), {};
    case JArray(items) =>
      e, nodes := BuildArray(items);
    case JObject(fields) =>
      e, nodes := BuildObject(fields);
  }

  /** `Build` for an array: a new array node filled with a fresh tree per item, in order. */
  method BuildArray(items: seq<Json>) returns (e: JsonElement, ghost nodes: set<object>)
    ensures fresh(nodes)
    ensures Denotes(e, JArray(items), nodes) && Unshared(e, JArray(items), nodes)
    decreases JArray(items), 0
  {
    var a := new JsonArray();
    ghost var kids: set<object> := {};
    var i := 0;
    while i < |items|
      invariant 0 <= i <= |items|
      invariant fresh(kids) && a !in kids
      invariant Forest(a.elements, items[..i], kids)
    {
      var child, childNodes := Build(items[i]);
      ForestAppend(a.elements, items[..i], kids, child, items[i], childNodes);
      assert items[..i] + [items[i]] == items[..i + 1];
      a.elements := a.elements + [child];
      kids := kids + childNodes;
      i := i + 1;
    }
    assert items[..i] == items;
    ForestClose(a, items, kids);
    e, nodes := ArrayNode(a), {a} + kids;
  }

  /** `Build` for an object: a new object node with a fresh tree per member. */
  method BuildObject(fields: map<string, Json>) returns (e: JsonElement, ghost nodes: set<object>)
    ensures fresh(nodes)
    ensures Denotes(e, JObject(fields), nodes) && Unshared(e, JObject(fields), nodes)
    decreases JObject(fields), 0
  {
    var o := new JsonObject();
    ghost var kids: set<object> := {};
    var todo := fields.Keys;
    while todo != {}
      invariant todo <= fields.Keys
      invariant fresh(kids) && o !in kids
      invariant o.members.Keys == fields.Keys - todo
      invariant Members(o.members, fields, kids)
      decreases todo
    {
      var key :| key in todo;
      var child, childNodes := Build(fields[key]);
      MembersAdd(o.members, fields, kids, key, child, childNodes);
      o.members := o.members[key := child];
      kids := kids + childNodes;
      todo := todo - {key};
    }
    MembersClose(o, fields, kids);
    e, nodes := ObjectNode(o), {o} + kids;
  }
}
