/** The `JsonObject.getOrNull` extension function. */
module JsonObjectExtension {
  import opened Wrappers
  import opened JsonTree

  /**
   * Looks `property` up in `o`, treating an explicit JSON null like a
   * missing member. Being a function, it cannot change `o`.
   */
  function GetOrNull(o: JsonObject, property: string): (r: Option<JsonElement>)
    reads o
    ensures r.None? <==> property !in o.members || o.members[property] == NullNode
    ensures r.Some? ==> r.value == o.members[property] && r.value != NullNode
  {
    var e := if property in o.members then Some(o.members[property]) else None;
    if e.Some? && e.value.NullNode? then None else e
  }
}
