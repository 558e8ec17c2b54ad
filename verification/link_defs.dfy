/** Declarative link and relationship definitions attached to a route, and
    the builders that construct the common ones (resource-links.decorator.ts). */
module LinkDefs {
  import opened Wrappers
  import opened Text
  import opened Json
  import opened Requests

  datatype Method = GET | POST | PUT | PATCH | DELETE

  function MethodName(m: Method): string {
    match m
    case GET => "GET"
    case POST => "POST"
    case PUT => "PUT"
    case PATCH => "PATCH"
    case DELETE => "DELETE"
  }

  /** A visibility predicate, evaluated against the resource and the request. */
  type Condition = (Json, Request) -> bool

  /** A literal URL, or a resolver that may decline with `None` (`null`). */
  datatype Href = Literal(url: string) | Resolver(resolve: (Json, Request) -> Option<string>)

  datatype LinkDefinition = LinkDefinition(
    name: string,
    href: Href,
    verb: Option<Method>,
    title: Option<string>,
    description: Option<string>,
    condition: Option<Condition>)

  /** A relationship href: a literal, or a resolver that always yields a URL. */
  datatype RelHref = RelLiteral(url: string) | RelResolver(resolve: (Json, Request) -> string)

  datatype RelationshipDefinition = RelationshipDefinition(
    name: string,
    resourceType: string,
    href: RelHref,
    condition: Option<Condition>)

  /** The trailing path of a nested link: literal, or computed from the resource. */
  datatype NestedPath = PathLiteral(path: string) | PathFn(compute: Json -> string)

  function ResolveHref(h: Href, res: Json, req: Request): Option<string> {
    match h
    case Literal(u) => Some(u)
    case Resolver(f) => f(res, req)
  }

  function ResolveRelHref(h: RelHref, res: Json, req: Request): string {
    match h
    case RelLiteral(u) => u
    case RelResolver(f) => f(res, req)
  }

  function PathOf(p: NestedPath, res: Json): string {
    match p
    case PathLiteral(s) => s
    case PathFn(f) => f(res)
  }

  /** Two optional conditions decide alike on every resource and request. */
  ghost predicate SameCondition(a: Option<Condition>, b: Option<Condition>) {
    a.Some? == b.Some? && (a.Some? ==> forall res, req :: a.value(res, req) == b.value(res, req))
  }

  /** `resourceType || resource.type || 'resource'`, rendered into a URL. */
  function TypeSegment(resourceType: Option<string>, res: Json): string {
    if Given(resourceType) then resourceType.value
    else if TruthyOpt(Get(res, "type")) then JsString(Get(res, "type").value)
    else "resource"
  }

  /** `${baseUrl}/${type}/${resource.id}`. */
  function MemberUrl(resourceType: Option<string>, res: Json, req: Request): string {
    BaseUrl(req) + "/" + TypeSegment(resourceType, res) + "/" + JsStringOpt(Get(res, "id"))
  }

  /** The shared shape of `selfLink`, `updateLink` and `deleteLink`. */
  function MemberLink(name: string, resourceType: Option<string>, m: Method, title: string): LinkDefinition {
    LinkDefinition(name, Resolver((res: Json, req: Request) => Some(MemberUrl(resourceType, res, req))),
                   Some(m), Some(title), None, None)
  }

  /** A member link always resolves, to the resource's own URL. */
  ghost predicate ResolvesToMember(d: LinkDefinition, resourceType: Option<string>) {
    forall res, req :: ResolveHref(d.href, res, req) == Some(MemberUrl(resourceType, res, req))
  }

  function SelfLink(resourceType: Option<string>): (d: LinkDefinition)
    ensures d.name == "self" && d.verb == Some(GET) && d.title == Some("Self")
    ensures d.description.None? && d.condition.None?
    ensures ResolvesToMember(d, resourceType)
  {
    MemberLink("self", resourceType, GET, "Self")
  }

  function UpdateLink(resourceType: Option<string>): (d: LinkDefinition)
    ensures d.name == "update" && d.verb == Some(PATCH) && d.title == Some("Update")
    ensures d.description.None? && d.condition.None?
    ensures ResolvesToMember(d, resourceType)
  {
    MemberLink("update", resourceType, PATCH, "Update")
  }

  function DeleteLink(resourceType: Option<string>): (d: LinkDefinition)
    ensures d.name == "delete" && d.verb == Some(DELETE) && d.title == Some("Delete")
    ensures d.description.None? && d.condition.None?
    ensures ResolvesToMember(d, resourceType)
  {
    MemberLink("delete", resourceType, DELETE, "Delete")
  }

  /** The three member builders agree on the href for the same inputs, and
      the type segment is the explicit argument, else the resource's own
      `type`, else `resource`; the URL ends with the rendered id. */
  lemma MemberLinksShareHref(resourceType: Option<string>, res: Json, req: Request)
    ensures ResolveHref(SelfLink(resourceType).href, res, req) == ResolveHref(UpdateLink(resourceType).href, res, req)
    ensures ResolveHref(UpdateLink(resourceType).href, res, req) == ResolveHref(DeleteLink(resourceType).href, res, req)
    ensures Given(resourceType) ==>
      ResolveHref(SelfLink(resourceType).href, res, req) ==
        Some(BaseUrl(req) + "/" + resourceType.value + "/" + JsStringOpt(Get(res, "id")))
    ensures !Given(resourceType) && TruthyOpt(Get(res, "type")) ==>
      ResolveHref(SelfLink(resourceType).href, res, req) ==
        Some(BaseUrl(req) + "/" + JsString(Get(res, "type").value) + "/" + JsStringOpt(Get(res, "id")))
    ensures !Given(resourceType) && !TruthyOpt(Get(res, "type")) ==>
      ResolveHref(SelfLink(resourceType).href, res, req) ==
        Some(BaseUrl(req) + "/" + "resource" + "/" + JsStringOpt(Get(res, "id")))
  {
    assert SelfLink(resourceType).href.resolve(res, req) == Some(MemberUrl(resourceType, res, req));
    assert UpdateLink(resourceType).href.resolve(res, req) == Some(MemberUrl(resourceType, res, req));
    assert DeleteLink(resourceType).href.resolve(res, req) == Some(MemberUrl(resourceType, res, req));
  }

  /** `relatedLink(name, resourceType, condition)`: the href depends on the
      request only, never on the resource. */
  function RelatedLink(name: string, resourceType: string, condition: Option<Condition>): (d: LinkDefinition)
    ensures d.name == name && d.verb == Some(GET) && d.title == Some("Related " + resourceType)
    ensures d.description.None? && SameCondition(d.condition, condition)
    ensures forall res, req :: ResolveHref(d.href, res, req) == Some(BaseUrl(req) + "/" + resourceType)
    ensures forall res1, res2, req :: ResolveHref(d.href, res1, req) == ResolveHref(d.href, res2, req)
  {
    LinkDefinition(name, Resolver((res: Json, req: Request) => Some(BaseUrl(req) + "/" + resourceType)),
                   Some(GET), Some("Related " + resourceType), None, condition)
  }

  /** `nestedLink(name, nestedPath, method = 'GET', condition)`. */
  function NestedLink(name: string, nestedPath: NestedPath, verb: Option<Method>, condition: Option<Condition>)
    : (d: LinkDefinition)
    ensures d.name == name && d.verb == Some(verb.GetOr(GET)) && d.title == Some(Capitalize(name))
    ensures d.description.None? && SameCondition(d.condition, condition)
    ensures forall res, req ::
      (ResolveHref(d.href, res, req) ==
         Some(BaseUrl(req) + "/" + JsStringOpt(Get(res, "type")) + "/" + JsStringOpt(Get(res, "id"))
              + "/" + PathOf(nestedPath, res)))
  {
    LinkDefinition(
      name,
      Resolver((res: Json, req: Request) =>
        Some(BaseUrl(req) + "/" + JsStringOpt(Get(res, "type")) + "/" + JsStringOpt(Get(res, "id"))
             + "/" + PathOf(nestedPath, res))),
      Some(verb.GetOr(GET)), Some(Capitalize(name)), None, condition)
  }

  /** A relationship href is truthy unless it is the empty literal. */
  predicate RelHrefGiven(h: Option<RelHref>) {
    h.Some? && !(h.value.RelLiteral? && h.value.url == "")
  }

  /** `relationship(name, resourceType, href, condition)`: the caller's href
      when truthy, otherwise `${baseUrl}/${resourceType}`. */
  function Relationship(name: string, resourceType: string, href: Option<RelHref>, condition: Option<Condition>)
    : (d: RelationshipDefinition)
    ensures d.name == name && d.resourceType == resourceType && SameCondition(d.condition, condition)
    ensures RelHrefGiven(href) ==>
      forall res, req :: ResolveRelHref(d.href, res, req) == ResolveRelHref(href.value, res, req)
    ensures !RelHrefGiven(href) ==>
      forall res, req :: ResolveRelHref(d.href, res, req) == BaseUrl(req) + "/" + resourceType
  {
    var h := if RelHrefGiven(href) then href.value
             else RelResolver((res: Json, req: Request) => BaseUrl(req) + "/" + resourceType);
    RelationshipDefinition(name, resourceType, h, condition)
  }
}
