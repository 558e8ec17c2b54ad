/** The per-route interceptor that decorates resources with the links and
    relationships declared for the route (resource-links.interceptor.ts).
    It runs inside the document assembler, so it sees the handler's raw
    result first. */
module LinkInterceptor {
  import opened Wrappers
  import opened Json
  import opened Requests
  import opened LinkDefs
  import opened LinkGen

  /** The route metadata the interceptor reads: the declared links and
      relationships, each possibly absent. */
  datatype Route = Route(
    links: Option<seq<LinkDefinition>>,
    relationships: Option<seq<RelationshipDefinition>>)

  /** Relationships are generated only for a non-empty declared list. */
  predicate DeclaresRelationships(route: Route) {
    route.relationships.Some? && |route.relationships.value| > 0
  }

  /** The keys `extractAttributes` strips; `meta` is not among them. */
  const ItemKeys: set<string> := {"type", "id", "links", "relationships"}

  /** `extractAttributes`: every own field except type, id, links and
      relationships. */
  function ExtractAttributes(item: Json): (r: Fields)
    ensures forall k :: k in ItemKeys ==> Lookup(r, k) == None
    ensures forall k :: k !in ItemKeys ==> Lookup(r, k) == Get(item, k)
    ensures forall p :: p in r ==> p in OwnEntries(item)
  {
    Omit(OwnEntries(item), ItemKeys)
  }

  /** `item.constructor.name.toLowerCase()` for a plain (deserialised) value;
      the `Dto` suffix rule and the later fallbacks never apply to these. */
  function ConstructorType(item: Json): (r: string)
    ensures r != ""
    ensures r == "object" <==> item.JObj?
  {
    match item
    case JObj(_) => "object"
    case JArr(_) => "array"
    case JStr(_) => "string"
    case JInt(_) => "number"
    case JBool(_) => "boolean"
    case JNull => "null"
  }

  /** A resource the interceptor decorates: an object with truthy `type` and `id`. */
  predicate IsTypedResource(j: Json) {
    j.JObj? && TruthyOpt(Get(j, "type")) && TruthyOpt(Get(j, "id"))
  }

  /** `{...prior, ...added}` as an object. */
  function Merge(prior: Option<Json>, added: Fields): Json {
    JObj(Assign(Spread(prior), added))
  }

  /** In the merge, an added key wins and every other prior key survives. */
  lemma MergeLookup(prior: Option<Json>, added: Fields, name: string)
    requires UniqueKeys(added)
    ensures Merge(prior, added).JObj?
    ensures Lookup(Merge(prior, added).fields, name) ==
      if Lookup(added, name).Some? then Lookup(added, name) else Lookup(Spread(prior), name)
  {
    AssignLookup(Spread(prior), added, name);
  }

  /** Merges `added` into member `key` of `item`, writing nothing when
      nothing was added. */
  function MergeInto(item: Json, key: string, added: Fields): Json {
    if |added| > 0 then SetField(item, key, Merge(Get(item, key), added)) else item
  }

  /** Merging into one member leaves every other member and the object
      shape alone; the merged member holds the added fields over the old. */
  lemma MergeIntoGet(item: Json, key: string, added: Fields, k: string)
    requires UniqueKeys(added)
    ensures MergeInto(item, key, added).JObj? <==> item.JObj?
    ensures k != key ==> Get(MergeInto(item, key, added), k) == Get(item, k)
    ensures |added| == 0 ==> Get(MergeInto(item, key, added), key) == Get(item, key)
    ensures item.JObj? && |added| > 0 ==>
      var merged := Get(MergeInto(item, key, added), key);
      && merged.Some? && merged.value.JObj?
      && (Lookup(merged.value.fields, k) ==
            if Lookup(added, k).Some? then Lookup(added, k) else Lookup(Spread(Get(item, key)), k))
  {
    if item.JObj? && |added| > 0 {
      SetFieldGet(item, key, Merge(Get(item, key), added), k);
      SetFieldGet(item, key, Merge(Get(item, key), added), key);
      MergeLookup(Get(item, key), added, k);
    }
  }

  /** The first half of `addLinksAndRelationships`: generated links merged
      over the existing `links` member. */
  function AddLinks(item: Json, route: Route, req: Request): Json {
    MergeInto(item, "links", GenerateLinks(item, route.links, Some(req)))
  }

  /** `addLinksAndRelationships`: merges generated links, then generated
      relationships (computed on the item as updated), into a typed resource;
      anything else is returned as it is. */
  function AddLinksAndRelationships(item: Json, route: Route, req: Request): (r: Json)
    ensures !IsTypedResource(item) ==> r == item
  {
    if !IsTypedResource(item) then item
    else
      var item1 := AddLinks(item, route, req);
      if DeclaresRelationships(route) then
        MergeInto(item1, "relationships", GenerateRelationships(item1, route.relationships.value, req))
      else item1
  }

  lemma GeneratedLinksUnique(item: Json, route: Route, req: Request)
    ensures UniqueKeys(GenerateLinks(item, route.links, Some(req)))
  {
    if route.links.Some? {
      CollectUniqueKeys(LinkCandidates(item, route.links.value, req));
    }
  }

  lemma GeneratedRelationshipsUnique(item: Json, route: Route, req: Request)
    requires DeclaresRelationships(route)
    ensures UniqueKeys(GenerateRelationships(item, route.relationships.value, req))
  {
    CollectUniqueKeys(RelCandidates(item, route.relationships.value, req));
  }

  /** Decoration touches only `links` and `relationships`, and keeps an
      object an object. */
  lemma AddLinksAndRelationshipsFrame(item: Json, route: Route, req: Request, k: string)
    ensures AddLinksAndRelationships(item, route, req).JObj? <==> item.JObj?
    ensures k != "links" && k != "relationships" ==> Get(AddLinksAndRelationships(item, route, req), k) == Get(item, k)
  {
    if IsTypedResource(item) {
      var added := GenerateLinks(item, route.links, Some(req));
      GeneratedLinksUnique(item, route, req);
      MergeIntoGet(item, "links", added, k);
      var item1 := AddLinks(item, route, req);
      if DeclaresRelationships(route) {
        GeneratedRelationshipsUnique(item1, route, req);
        MergeIntoGet(item1, "relationships", GenerateRelationships(item1, route.relationships.value, req), k);
      }
    }
  }

  /** Generated links are merged over the old ones: a generated name holds
      its generated value, every other old link survives, and nothing is
      written when nothing was generated. */
  lemma AddedLinksMerge(item: Json, route: Route, req: Request, name: string)
    requires IsTypedResource(item)
    ensures var added := GenerateLinks(item, route.links, Some(req));
      var merged := Get(AddLinksAndRelationships(item, route, req), "links");
      && (|added| == 0 ==> merged == Get(item, "links"))
      && (|added| > 0 ==>
            && merged.Some? && merged.value.JObj?
            && Lookup(merged.value.fields, name) ==
                 if Lookup(added, name).Some? then Lookup(added, name) else Lookup(Spread(Get(item, "links")), name))
  {
    var added := GenerateLinks(item, route.links, Some(req));
    GeneratedLinksUnique(item, route, req);
    MergeIntoGet(item, "links", added, name);
    MergeIntoGet(item, "links", added, "links");
    var item1 := AddLinks(item, route, req);
    if DeclaresRelationships(route) {
      GeneratedRelationshipsUnique(item1, route, req);
      MergeIntoGet(item1, "relationships", GenerateRelationships(item1, route.relationships.value, req), "links");
    }
  }

  /** Relationships are merged the same way, generated against the item as
      it stands after the links step; without declared relationships the
      member is left alone. */
  lemma AddedRelationshipsMerge(item: Json, route: Route, req: Request, name: string)
    requires IsTypedResource(item)
    ensures !DeclaresRelationships(route) ==>
      Get(AddLinksAndRelationships(item, route, req), "relationships") == Get(item, "relationships")
    ensures DeclaresRelationships(route) ==>
      var added := GenerateRelationships(AddLinks(item, route, req), route.relationships.value, req);
      var merged := Get(AddLinksAndRelationships(item, route, req), "relationships");
      && (|added| == 0 ==> merged == Get(item, "relationships"))
      && (|added| > 0 ==>
            && merged.Some? && merged.value.JObj?
            && Lookup(merged.value.fields, name) ==
                 if Lookup(added, name).Some? then Lookup(added, name) else Lookup(Spread(Get(item, "relationships")), name))
  {
    GeneratedLinksUnique(item, route, req);
    MergeIntoGet(item, "links", GenerateLinks(item, route.links, Some(req)), "relationships");
    var item1 := AddLinks(item, route, req);
    assert item1.JObj? && Get(item1, "relationships") == Get(item, "relationships");
    if DeclaresRelationships(route) {
      GeneratedRelationshipsUnique(item1, route, req);
      MergeIntoGet(item1, "relationships", GenerateRelationships(item1, route.relationships.value, req), name);
    }
  }

  /** The canonical resource fields, in order: type, id when defined,
      attributes, links, and relationships when generated. */
  function ResourceFields(t: Json, id: Option<Json>, attrs: Fields, links: Fields, rels: Option<Fields>): Fields {
    [("type", t)]
    + (if id.Some? then [("id", id.value)] else [])
    + [("attributes", JObj(attrs)), ("links", JObj(links))]
    + (if rels.Some? then [("relationships", JObj(rels.value))] else [])
  }

  lemma ResourceFieldsLookup(t: Json, id: Option<Json>, attrs: Fields, links: Fields, rels: Option<Fields>)
    ensures var fs := ResourceFields(t, id, attrs, links, rels);
      && Lookup(fs, "type") == Some(t)
      && Lookup(fs, "id") == id
      && Lookup(fs, "attributes") == Some(JObj(attrs))
      && Lookup(fs, "links") == Some(JObj(links))
      && Lookup(fs, "relationships") == if rels.Some? then Some(JObj(rels.value)) else None
  {
    var a: Fields := [("type", t)] + (if id.Some? then [("id", id.value)] else []);
    var b: Fields := [("attributes", JObj(attrs)), ("links", JObj(links))];
    var c: Fields := if rels.Some? then [("relationships", JObj(rels.value))] else [];
    assert ResourceFields(t, id, attrs, links, rels) == (a + b) + c;
    LookupConcat(a + b, c, "type");
    LookupConcat(a + b, c, "id");
    LookupConcat(a + b, c, "attributes");
    LookupConcat(a + b, c, "links");
    LookupConcat(a + b, c, "relationships");
    LookupConcat(a, b, "type");
    LookupConcat(a, b, "id");
    LookupConcat(a, b, "attributes");
    LookupConcat(a, b, "links");
    LookupConcat(a, b, "relationships");
  }

  /** `transformResourceItem`: the canonical resource built from a raw item;
      reading `type` off `null` throws. An undefined `id` is left out, as
      serialisation does. */
  function TransformResourceItem(item: Json, route: Route, req: Request): (r: Result<Json>)
    ensures r.Failure? <==> item == JNull
    ensures r.Success? ==> r.value.JObj?
  {
    if item == JNull then Failure("Cannot read properties of null (reading 'type')")
    else
      Success(JObj(ResourceFields(
        OrElse(Get(item, "type"), JStr(ConstructorType(item))),
        Get(item, "id"),
        ExtractAttributes(item),
        GenerateLinks(item, route.links, Some(req)),
        if DeclaresRelationships(route) then Some(GenerateRelationships(item, route.relationships.value, req)) else None)))
  }

  /** The resource's `type` is the item's truthy `type`, else the inferred
      one; `id` is the item's; `attributes` are the extracted ones; `links`
      are always present; `relationships` are present exactly when the
      route declares some. */
  lemma TransformResourceItemFields(item: Json, route: Route, req: Request)
    requires item != JNull
    ensures var r := TransformResourceItem(item, route, req).value;
      && Get(r, "type") == Some(OrElse(Get(item, "type"), JStr(ConstructorType(item))))
      && Get(r, "id") == Get(item, "id")
      && Get(r, "attributes") == Some(JObj(ExtractAttributes(item)))
      && Get(r, "links") == Some(JObj(GenerateLinks(item, route.links, Some(req))))
      && (Has(r, "relationships") <==> DeclaresRelationships(route))
      && (DeclaresRelationships(route) ==>
            Get(r, "relationships") == Some(JObj(GenerateRelationships(item, route.relationships.value, req))))
  {
    ResourceFieldsLookup(
      OrElse(Get(item, "type"), JStr(ConstructorType(item))),
      Get(item, "id"),
      ExtractAttributes(item),
      GenerateLinks(item, route.links, Some(req)),
      if DeclaresRelationships(route) then Some(GenerateRelationships(item, route.relationships.value, req)) else None);
  }

  /** `items.map(transformResourceItem)`: fails on a `null` element,
      otherwise one resource per element, in order. */
  function TransformAll(xs: seq<Json>, route: Route, req: Request): (r: Result<seq<Json>>)
    ensures r.Failure? <==> JNull in xs
    ensures r.Success? ==> |r.value| == |xs|
    ensures r.Success? ==> forall i :: 0 <= i < |xs| ==> Success(r.value[i]) == TransformResourceItem(xs[i], route, req)
  {
    MapResult(item => TransformResourceItem(item, route, req), xs)
  }

  /** A document already produced by the assembler: `data.jsonapi.version === '1.1'`. */
  predicate IsDocument(data: Json) {
    var v := Get(data, "jsonapi");
    TruthyOpt(v) && Get(v.value, "version") == Some(JStr("1.1"))
  }

  /** `{data: [...]}` with a truthy array. */
  predicate IsWrappedArray(data: Json) {
    TruthyOpt(Get(data, "data")) && Get(data, "data").value.JArr?
  }

  /** `{data: x}` with a truthy non-array `x`. */
  predicate IsWrappedSingle(data: Json) {
    TruthyOpt(Get(data, "data")) && !Get(data, "data").value.JArr?
  }

  /** `data.type && data.id`. */
  predicate IsDirectResource(data: Json) {
    TruthyOpt(Get(data, "type")) && TruthyOpt(Get(data, "id"))
  }

  /** `{...data, data: d}`. */
  function ReplaceData(data: Json, d: Json): Json {
    JObj(Set(Spread(Some(data)), "data", d))
  }

  /** The dispatch of `intercept`, tried in this order: falsy data, an
      assembled document (its resources are decorated in place), a wrapped
      array, a wrapped single resource, a direct resource, anything else.
      The only way it throws is a `null` element in a wrapped array. */
  function Intercept(data: Json, route: Route, req: Request): (r: Result<Json>)
    ensures !Truthy(data) ==> r == Success(data)
    ensures r.Failure? ==> !IsDocument(data) && IsWrappedArray(data) && JNull in Get(data, "data").value.elems
  {
    if !Truthy(data) then Success(data)
    else if IsDocument(data) then
      var d := Get(data, "data");
      if !TruthyOpt(d) then Success(data)
      else
        match d.value
        case JArr(xs) =>
          Success(SetField(data, "data", JArr(seq(|xs|, i requires 0 <= i < |xs| => AddLinksAndRelationships(xs[i], route, req)))))
        case JObj(_) => Success(SetField(data, "data", AddLinksAndRelationships(d.value, route, req)))
        case _ => Success(data)
    else if IsWrappedArray(data) then
      var ys :- TransformAll(Get(data, "data").value.elems, route, req);
      Success(ReplaceData(data, JArr(ys)))
    else if IsWrappedSingle(data) then
      Success(ReplaceData(data, TransformResourceItem(Get(data, "data").value, route, req).value))
    else if IsDirectResource(data) then TransformResourceItem(data, route, req)
    else Success(data)
  }

  /** Inside an assembled document every resource of an array `data` is
      decorated, keeping length and order; an object `data` is decorated
      itself; every other member of the document is untouched. */
  lemma InterceptDocument(data: Json, route: Route, req: Request, k: string)
    requires Truthy(data) && IsDocument(data)
    ensures var r := Intercept(data, route, req);
      && r.Success?
      && (k != "data" ==> Get(r.value, k) == Get(data, k))
      && (IsWrappedArray(data) ==>
            var xs := Get(data, "data").value.elems;
            var out := Get(r.value, "data");
            out.Some? && out.value.JArr? && |out.value.elems| == |xs|
            && forall i :: 0 <= i < |xs| ==> out.value.elems[i] == AddLinksAndRelationships(xs[i], route, req))
      && (IsWrappedSingle(data) && Get(data, "data").value.JObj? ==>
            Get(r.value, "data") == Some(AddLinksAndRelationships(Get(data, "data").value, route, req)))
  {
    if !data.JObj? {
      NamedKeyNotOnIndexedValue(data, "jsonapi");
    }
  }

  /** A wrapped array becomes `{...data, data: resources}`: it throws iff an
      element is `null`, and otherwise holds one resource per element, in
      order, next to the wrapper's other members. */
  lemma InterceptWrappedArray(data: Json, route: Route, req: Request, k: string)
    requires Truthy(data) && !IsDocument(data) && IsWrappedArray(data)
    ensures var r := Intercept(data, route, req);
      var xs := Get(data, "data").value.elems;
      && (r.Failure? <==> JNull in xs)
      && (r.Success? ==>
            && r.value.JObj?
            && (k != "data" ==> Lookup(r.value.fields, k) == Lookup(Spread(Some(data)), k))
            && var out := Lookup(r.value.fields, "data");
               out.Some? && out.value.JArr? && |out.value.elems| == |xs|
               && forall i :: 0 <= i < |xs| ==> Success(out.value.elems[i]) == TransformResourceItem(xs[i], route, req))
  {
  }

  /** A wrapped single resource becomes `{...data, data: resource}`; it
      never throws. */
  lemma InterceptWrappedSingle(data: Json, route: Route, req: Request, k: string)
    requires Truthy(data) && !IsDocument(data) && IsWrappedSingle(data)
    ensures var r := Intercept(data, route, req);
      && r.Success? && r.value.JObj?
      && (k != "data" ==> Lookup(r.value.fields, k) == Lookup(Spread(Some(data)), k))
      && Success(Lookup(r.value.fields, "data").value) == TransformResourceItem(Get(data, "data").value, route, req)
  {
  }

  /** A bare typed resource is transformed directly; a payload that fits no
      shape passes through unchanged. */
  lemma InterceptOtherwise(data: Json, route: Route, req: Request)
    requires Truthy(data) && !IsDocument(data) && !IsWrappedArray(data) && !IsWrappedSingle(data)
    ensures Intercept(data, route, req) ==
      if IsDirectResource(data) then TransformResourceItem(data, route, req) else Success(data)
  {
  }
}
