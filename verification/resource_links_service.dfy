/** Relative resource links and the resource items built with them
    (resource-links.service.ts). */
module ResourceLinksService {
  import opened Wrappers
  import opened Text
  import opened Json

  datatype ResourceLinks = ResourceLinks(self: string, update: string, delete: string)

  /** `/${resourceType}s/${resourceId}`: the plural collection path
      followed by the id. */
  function ResourcePath(resourceId: string, resourceType: string): (r: string)
    ensures |r| > |resourceId| && r[0] == '/'
    ensures r[|r| - |resourceId|..] == resourceId
  {
    "/" + resourceType + "s/" + resourceId
  }

  /** `generateResourceLinks(resourceId, resourceType)`: self, update and
      delete all point at the resource's own path. */
  function GenerateResourceLinks(resourceId: string, resourceType: string): (l: ResourceLinks)
    ensures l.self == l.update == l.delete
    ensures Split(l.self, '/')[0] == ""
  {
    var p := ResourcePath(resourceId, resourceType);
    assert p == "" + ['/'] + (resourceType + "s/" + resourceId);
    SplitOfConcat("", resourceType + "s/" + resourceId, '/');
    ResourceLinks(p, p, p)
  }

  /** The path reads back: its segments are the empty root, the plural
      type, then the id's own segments. */
  lemma ResourcePathSegments(resourceId: string, resourceType: string)
    requires '/' !in resourceType
    ensures Split(ResourcePath(resourceId, resourceType), '/') == ["", resourceType + "s"] + Split(resourceId, '/')
    ensures Join(Split(ResourcePath(resourceId, resourceType), '/')[2..], '/') == resourceId
  {
    var p := ResourcePath(resourceId, resourceType);
    assert p == "" + ['/'] + ((resourceType + "s") + ['/'] + resourceId);
    SplitOfConcat("", (resourceType + "s") + ['/'] + resourceId, '/');
    SplitOfConcat(resourceType + "s", resourceId, '/');
    var parts := Split(p, '/');
    assert parts[2..] == Split(resourceId, '/');
    JoinSplit(resourceId, '/');
  }

  /** Two resources whose type holds no `/` share a path only when they
      have the same type and id. */
  lemma ResourcePathInjective(id1: string, type1: string, id2: string, type2: string)
    requires '/' !in type1 && '/' !in type2
    requires ResourcePath(id1, type1) == ResourcePath(id2, type2)
    ensures type1 == type2 && id1 == id2
  {
    ResourcePathSegments(id1, type1);
    ResourcePathSegments(id2, type2);
    var parts := Split(ResourcePath(id1, type1), '/');
    assert parts[1] == type1 + "s" && parts[1] == type2 + "s";
    assert type1 == (type1 + "s")[..|type1|];
  }

  /** A resource item: the given type, the item's id, the rest of the item
      as attributes, and the item's links. */
  datatype ResourceItem = ResourceItem(
    resourceType: string,
    id: Option<Json>,
    attributes: Fields,
    links: ResourceLinks)

  /** `transformToResourceItem(item, resourceType)`. Destructuring `null`
      throws a `TypeError`. */
  function TransformToResourceItem(item: Json, resourceType: string): (r: Result<ResourceItem>)
    ensures r.Failure? <==> item == JNull
  {
    if item == JNull then Failure("Cannot destructure 'item' as it is null.")
    else
      var id := Get(item, "id");
      Success(ResourceItem(resourceType, id, Omit(OwnEntries(item), {"id"}),
                           GenerateResourceLinks(JsStringOpt(id), resourceType)))
  }

  /** The item keeps its id, takes the given type, and loses nothing: its
      id together with its attributes read back every property of the
      input, and its links are built from the id. */
  lemma TransformToResourceItemKeepsItem(item: Json, resourceType: string, k: string)
    requires item != JNull
    ensures var r := TransformToResourceItem(item, resourceType).value;
      && r.resourceType == resourceType
      && r.id == Get(item, "id")
      && Lookup(r.attributes, "id") == None
      && (k != "id" ==> Lookup(r.attributes, k) == Get(item, k))
      && r.links == GenerateResourceLinks(JsStringOpt(Get(item, "id")), resourceType)
  {
  }

  /** `transformToResourceItems(items, resourceType)`: one item per input,
      in order; a `null` input makes the whole call throw. */
  function TransformToResourceItems(items: seq<Json>, resourceType: string): (r: Result<seq<ResourceItem>>)
    ensures r.Failure? <==> JNull in items
    ensures r.Success? ==> |r.value| == |items|
    ensures r.Success? ==> forall i :: 0 <= i < |items| ==>
      TransformToResourceItem(items[i], resourceType) == Success(r.value[i])
  {
    MapResult((item: Json) => TransformToResourceItem(item, resourceType), items)
  }
}
