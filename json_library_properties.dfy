/**
 * Properties of the `JsonLib` wrapper that relate several operations:
 * how dotted paths compose, the explicit-null rule, the error asymmetry
 * between lookups and typed getters, and edits seen through shared nodes.
 */
module JsonLibraryProperties {
  import opened Wrappers
  import opened JsonTree
  import opened PathSplit
  import opened JsonLibrary

  /** Navigating along `a + b` is navigating along `a`, then along `b` from where that ends. */
  lemma {:induction false} NavigateConcat(lib: JsonLib, a: seq<string>, b: seq<string>)
    ensures lib.Navigate(a + b) ==
      match lib.Navigate(a)
      case None => None
      case Some(mid) => mid.Navigate(b)
    decreases |a|
  {
    if a != [] {
      assert (a + b)[0] == a[0] && (a + b)[1..] == a[1..] + b;
      match lib.GetProperty(a[0])
      case None =>
      case Some(child) => NavigateConcat(child, a[1..], b);
    } else {
      assert a + b == b;
    }
  }

  /** Once a prefix of the segments resolves to absent, the whole navigation is absent. */
  lemma NavigateStopsAtAbsent(lib: JsonLib, segments: seq<string>, i: nat)
    requires i <= |segments| && lib.Navigate(segments[..i]).None?
    ensures lib.Navigate(segments).None?
  {
    NavigateConcat(lib, segments[..i], segments[i..]);
    assert segments[..i] + segments[i..] == segments;
  }

  /** A path without a dot is a single `getProperty`. */
  lemma ResolveSingleSegment(lib: JsonLib, p: string)
    requires Dot !in p
    ensures lib.ResolvePath(p) == lib.GetProperty(p)
  {
    SplitDotFree(p);
    assert [p][1..] == [];
    match lib.GetProperty(p)
    case None =>
    case Some(child) => assert child.Navigate([]) == Some(child);
  }

  /**
   * Paths compose: `p + "." + q` resolves like `p` followed by `q` on the
   * result, and is absent if either step is.
   */
  lemma ResolveConcat(lib: JsonLib, p: string, q: string)
    ensures lib.ResolvePath(p + [Dot] + q) ==
      match lib.ResolvePath(p)
      case None => None
      case Some(mid) => mid.ResolvePath(q)
  {
    SplitConcat(p, q);
    NavigateConcat(lib, Split(p), Split(q));
  }

  /** On a node that is not an object, every path is absent (the first segment already is). */
  lemma ResolveOnNonObject(lib: JsonLib, path: string)
    requires !lib.jsonElement.ObjectNode?
    ensures lib.ResolvePath(path).None?
  {
  }

  /**
   * The error asymmetry: on a node that is not an object, `getProperty` and
   * `getPath` are absent, while the typed getters and `getObject` fail.
   */
  lemma NonObjectAsymmetry<T>(lib: JsonLib, property: string, convert: JsonElement -> Result<T, Exception>, clazz: TargetClass<T>)
    requires !lib.jsonElement.ObjectNode?
    ensures lib.GetProperty(property).None? && lib.ResolvePath(property).None?
    ensures lib.GetTyped(property, convert) == Failure(UnsupportedOperation(GetMessage))
    ensures lib.GetObject(property, clazz) == Failure(UnsupportedOperation(GetMessage))
  {
  }

  /**
   * A member holding an explicit JSON null is present, yet every typed
   * getter reports it as absent; `getProperty` and `getObject` for the
   * wrapper class still return a wrapper of the null.
   */
  lemma ExplicitNullIsAbsent<T>(lib: JsonLib, property: string, convert: JsonElement -> Result<T, Exception>)
    requires lib.jsonElement.ObjectNode?
    requires property in lib.jsonElement.obj.members && lib.jsonElement.obj.members[property] == NullNode
    ensures lib.GetTyped(property, convert) == Success(None)
    ensures lib.GetAsJsonArray(property) == Success(None)
    ensures lib.GetProperty(property) == Some(JsonLib(NullNode, lib.gson))
    ensures lib.GetObject<T>(property, JsonLibClass) == Success(Some(Wrapped(JsonLib(NullNode, lib.gson))))
  {
  }

  /** The first successful parse wins: a text that parses as an object is never read as an array or primitive. */
  lemma ObjectParseWins(gson: Gson, s: string)
    requires gson.parseObject(s).Some?
    ensures Parse(gson, s) == Success(JObject(gson.parseObject(s).value))
  {
  }

  /**
   * `append(property, null)`, through any overload, stores an explicit null
   * rather than removing the member, and a typed getter then reports the
   * member as absent.
   */
  method AppendNullThenGet<T>(lib: JsonLib, property: string, value: Appendable, convert: JsonElement -> Result<T, Exception>)
    returns (appended: Result<JsonLib, Exception>, got: Result<Option<T>, Exception>)
    requires lib.jsonElement.ObjectNode? && value.Document() == JNull
    modifies lib.Target()
    ensures appended == Success(lib)
    ensures property in lib.jsonElement.obj.members && lib.jsonElement.obj.members[property] == NullNode
    ensures got == Success(None)
  {
    ghost var nodes;
    appended, nodes := lib.Append(property, value);
    got := lib.GetTyped(property, convert);
  }

  /**
   * A wrapper returned by `getProperty` shares its node with the parent: an
   * edit made through the child is seen from the parent along the path
   * `name + "." + key`.
   */
  method AppendThroughChild(parent: JsonLib, name: string, key: string, value: Appendable)
    returns (r: Result<JsonLib, Exception>, ghost nodes: set<object>)
    requires Dot !in name && Dot !in key
    requires parent.jsonElement.ObjectNode? && name in parent.jsonElement.obj.members
    requires parent.jsonElement.obj.members[name].ObjectNode?
    requires parent.jsonElement.obj.members[name].obj != parent.jsonElement.obj
    modifies parent.jsonElement.obj.members[name].obj
    ensures r.Success?
    ensures var child := parent.jsonElement.obj.members[name].obj;
      && key in child.members
      && parent.ResolvePath(name + [Dot] + key) == Some(JsonLib(child.members[key], parent.gson))
      && fresh(nodes) && Denotes(child.members[key], value.Document(), nodes)
  {
    var child := parent.GetProperty(name).value;
    r, nodes := child.Append(key, value);
    SplitPrefix(name, key);
    SplitDotFree(key);
    assert Split(name + [Dot] + key) == [name, key];
    var leaf := JsonLib(child.jsonElement.obj.members[key], parent.gson);
    assert child.GetProperty(key) == Some(leaf);
    assert leaf.Navigate([]) == Some(leaf);
    assert [key][1..] == [];
    assert child.Navigate([key]) == Some(leaf);
    assert parent.GetProperty(name) == Some(child);
    assert [name, key][1..] == [key];
  }

  /** A path of three dot-free pieces splits into exactly those pieces. */
  lemma SplitThree(x: string, y: string, z: string)
    requires Dot !in x && Dot !in y && Dot !in z
    ensures Split(x + [Dot] + y + [Dot] + z) == [x, y, z]
  {
    var yz := y + [Dot] + z;
    SplitPrefix(y, z);
    SplitDotFree(z);
    assert Split(yz) == [y, z];
    SplitPrefix(x, yz);
    assert x + [Dot] + y + [Dot] + z == x + [Dot] + yz;
    assert [x] + [y, z] == [x, y, z];
  }

  /** Navigating three segments is three `getProperty` steps. */
  lemma NavigateThree(lib: JsonLib, x: string, y: string, z: string)
    ensures lib.Navigate([x, y, z]) ==
      match lib.GetProperty(x)
      case None => None
      case Some(l1) =>
        match l1.GetProperty(y)
        case None => None
        case Some(l2) => l2.GetProperty(z)
  {
    assert [x, y, z] == [x] + [y] + [z];
    NavigateConcat(lib, [x], [y] + [z]);
    match lib.GetProperty(x)
    case None =>
    case Some(l1) =>
      assert l1.Navigate([]) == Some(l1);
      NavigateConcat(l1, [y], [z]);
      match l1.GetProperty(y)
      case None =>
      case Some(l2) =>
        assert l2.Navigate([]) == Some(l2);
        match l2.GetProperty(z)
        case None =>
        case Some(l3) => assert l3.Navigate([]) == Some(l3);
  }

  /** The document {"b": {"c": 5}}. */
  function NestedDoc(): (r: Json) {
    JObject(map["b" := JObject(map["c" := JPrimitive(PNumber(Number("5")))])])
  }

  /**
   * Whatever nodes hold {"b": {"c": 5}} under the member "a" of `root`, the
   * path "a.b.c" finds the number 5 and "a.x.c" is absent.
   */
  lemma NestedDocPaths(root: JsonLib, nodes: set<object>)
    requires root.jsonElement.ObjectNode? && "a" in root.jsonElement.obj.members
    requires Denotes(root.jsonElement.obj.members["a"], NestedDoc(), nodes)
    ensures root.ResolvePath("a.b.c") == Some(JsonLib(PrimitiveNode(PNumber(Number("5"))), root.gson))
    ensures root.ResolvePath("a.x.c") == None
  {
    var five := JPrimitive(PNumber(Number("5")));
    var inner := JObject(map["c" := five]);
    var ea := root.jsonElement.obj.members["a"];
    assert NestedDoc().fields["b"] == inner;
    var eb := ea.obj.members["b"];
    assert Denotes(eb, inner, nodes);
    assert inner.fields["c"] == five;
    assert Denotes(eb.obj.members["c"], five, nodes);

    var la, lb := JsonLib(ea, root.gson), JsonLib(eb, root.gson);
    assert root.GetProperty("a") == Some(la);
    assert la.GetProperty("b") == Some(lb);
    assert la.GetProperty("x") == None;
    assert lb.GetProperty("c") == Some(JsonLib(PrimitiveNode(PNumber(Number("5"))), root.gson));

    SplitThree("a", "b", "c");
    SplitThree("a", "x", "c");
    NavigateThree(root, "a", "b", "c");
    NavigateThree(root, "a", "x", "c");
    assert "a.b.c" == "a" + [Dot] + "b" + [Dot] + "c";
    assert "a.x.c" == "a" + [Dot] + "x" + [Dot] + "c";
  }

  /**
   * On {"a": {"b": {"c": 5}}}, made by appending {"b": {"c": 5}} to an
   * `empty` wrapper, `getPath("a.b.c")` finds the number 5 and
   * `getPath("a.x.c")` is absent.
   */
  method NestedPathExample(gson: Gson) returns (found: Option<JsonLib>, missing: Option<JsonLib>)
    ensures found == Some(JsonLib(PrimitiveNode(PNumber(Number("5"))), gson))
    ensures missing == None
  {
    var root := Empty(gson);
    var appended;
    ghost var nodes;
    appended, nodes := root.Append("a", TreeValue(NestedDoc()));
    NestedDocPaths(root, nodes);
    found := root.GetPath("a.b.c");
    missing := root.GetPath("a.x.c");
  }
}
