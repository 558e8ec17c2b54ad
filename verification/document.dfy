/** The document assembler (jsonapi.interceptor.ts): classifies a handler
    result by its shape and wraps it in a JSON:API 1.1 top-level document. */
module Document {
  import opened Wrappers
  import opened Text
  import opened Json
  import opened Requests
  import Pagination

  /** The `jsonapi` member of every document. */
  const JsonApiObject: Json := JObj([("version", JStr("1.1"))])

  /** The route metadata the assembler reads: the declared resource type
      (`@JsonApiType`) and the serialize flag (`@JsonApiSerialize`), each
      possibly absent. */
  datatype RouteMeta = RouteMeta(declaredType: Option<string>, serialize: Option<bool>)

  // ---------------------------------------------------------------------
  // Resource type

  /** The first non-empty string of a list. */
  function FirstNonEmpty(parts: seq<string>): (r: Option<string>)
    ensures r.Some? ==> r.value != "" && r.value in parts
    ensures r.None? <==> forall i :: 0 <= i < |parts| ==> parts[i] == ""
    decreases |parts|
  {
    if |parts| == 0 then None
    else if parts[0] != "" then Some(parts[0])
    else
      var r := FirstNonEmpty(parts[1..]);
      assert forall i :: 1 <= i < |parts| ==> parts[i] == parts[1..][i - 1];
      r
  }

  /** The string found is the first non-empty one: everything before it is empty. */
  lemma {:induction false} FirstNonEmptyIsFirst(parts: seq<string>)
    requires FirstNonEmpty(parts).Some?
    ensures exists i :: 0 <= i < |parts| && parts[i] == FirstNonEmpty(parts).value
                        && forall j :: 0 <= j < i ==> parts[j] == ""
    decreases |parts|
  {
    if parts[0] == "" {
      FirstNonEmptyIsFirst(parts[1..]);
      var i :| 0 <= i < |parts[1..]| && parts[1..][i] == FirstNonEmpty(parts[1..]).value
               && forall j :: 0 <= j < i ==> parts[1..][j] == "";
      assert parts[i + 1] == FirstNonEmpty(parts).value;
      assert forall j :: 0 <= j < i + 1 ==> parts[j] == "" by {
        forall j | 0 <= j < i + 1
          ensures parts[j] == ""
        {
          if j > 0 {
            assert parts[j] == parts[1..][j - 1];
          }
        }
      }
    }
  }

  /** `request.path || request.url`, split on `/`. */
  function PathSegments(req: Request): seq<string> {
    Split(OrDefault(req.path, req.url), '/')
  }

  /** `inferResourceType`: the first non-empty path segment, else a truthy
      `data.type`, else `resources`. */
  function InferResourceType(req: Request, data: Json): (r: Json)
    ensures Truthy(r)
  {
    var seg := FirstNonEmpty(PathSegments(req));
    if seg.Some? then JStr(seg.value)
    else if Truthy(data) && TruthyOpt(Get(data, "type")) then Get(data, "type").value
    else JStr("resources")
  }

  /** The declared type when given, else the inferred one. */
  function ResourceType(route: RouteMeta, req: Request, data: Json): (r: Json)
    ensures Truthy(r)
  {
    if Given(route.declaredType) then JStr(route.declaredType.value) else InferResourceType(req, data)
  }

  /** The precedence of the resource type: declared type, first non-empty
      path segment (a single segment, holding no `/`), the payload's own
      truthy `type`, then `resources`. */
  lemma ResourceTypePrecedence(route: RouteMeta, req: Request, data: Json)
    requires Truthy(data)
    ensures Given(route.declaredType) ==> ResourceType(route, req, data) == JStr(route.declaredType.value)
    ensures !Given(route.declaredType) && FirstNonEmpty(PathSegments(req)).Some? ==>
      var seg := FirstNonEmpty(PathSegments(req)).value;
      && ResourceType(route, req, data) == JStr(seg)
      && seg != "" && '/' !in seg
      && exists i :: 0 <= i < |PathSegments(req)| && PathSegments(req)[i] == seg
                     && forall j :: 0 <= j < i ==> PathSegments(req)[j] == ""
    ensures !Given(route.declaredType) && FirstNonEmpty(PathSegments(req)).None? ==>
      ResourceType(route, req, data) == OrElse(Get(data, "type"), JStr("resources"))
  {
    if FirstNonEmpty(PathSegments(req)).Some? {
      FirstNonEmptyIsFirst(PathSegments(req));
    }
  }

  // ---------------------------------------------------------------------
  // Resources

  /** The keys a raw item's destructuring names; the rest are attributes. */
  const ResourceKeys: set<string> := {"id", "type", "links", "relationships", "meta"}

  /** `const { id, type, links, relationships, meta, ...attributes } = item`. */
  function Attributes(item: Json): Fields {
    Omit(OwnEntries(item), ResourceKeys)
  }

  /** `if (v) resource[k] = v`, as a field list. */
  function OptField(k: string, v: Option<Json>): Fields {
    if TruthyOpt(v) then [(k, v.value)] else []
  }

  /** The resource object built from a raw item, in the source's key order. */
  function ResourceOf(t: Json, id: string, attrs: Fields, links: Option<Json>, rels: Option<Json>, meta: Option<Json>)
    : Fields
  {
    [("type", t), ("id", JStr(id))]
    + (if |attrs| > 0 then [("attributes", JObj(attrs))] else [])
    + OptField("links", links) + OptField("relationships", rels) + OptField("meta", meta)
  }

  lemma OptFieldLookup(k: string, v: Option<Json>, key: string)
    ensures Lookup(OptField(k, v), key) == if k == key && TruthyOpt(v) then v else None
  {
  }

  /** What the resource object holds under each key: the given type and id,
      the attributes when there are any, the truthy optional members, and
      nothing else. */
  lemma ResourceOfLookup(t: Json, id: string, attrs: Fields, links: Option<Json>, rels: Option<Json>, meta: Option<Json>, k: string)
    ensures Lookup(ResourceOf(t, id, attrs, links, rels, meta), k) ==
      if k == "type" then Some(t)
      else if k == "id" then Some(JStr(id))
      else if k == "attributes" then (if |attrs| > 0 then Some(JObj(attrs)) else None)
      else if k == "links" then (if TruthyOpt(links) then links else None)
      else if k == "relationships" then (if TruthyOpt(rels) then rels else None)
      else if k == "meta" then (if TruthyOpt(meta) then meta else None)
      else None
  {
    var a: Fields := [("type", t), ("id", JStr(id))];
    var b: Fields := if |attrs| > 0 then [("attributes", JObj(attrs))] else [];
    var c := OptField("links", links);
    var d := OptField("relationships", rels);
    var e := OptField("meta", meta);
    assert ResourceOf(t, id, attrs, links, rels, meta) == (((a + b) + c) + d) + e;
    LookupConcat(((a + b) + c) + d, e, k);
    LookupConcat((a + b) + c, d, k);
    LookupConcat(a + b, c, k);
    LookupConcat(a, b, k);
    OptFieldLookup("links", links, k);
    OptFieldLookup("relationships", rels, k);
    OptFieldLookup("meta", meta, k);
  }

  /** An item already in resource shape: truthy `type` and `id`, and an
      `attributes` member that is not `undefined`. */
  predicate IsFormatted(item: Json) {
    TruthyOpt(Get(item, "type")) && TruthyOpt(Get(item, "id")) && Has(item, "attributes")
  }

  /** `transformToResource`: falsy and primitive items pass through, as do
      items already in resource shape; any other item becomes a resource
      object. */
  function TransformToResource(item: Json, rt: Json): (r: Json)
    ensures r == item || r.JObj?
  {
    if !Truthy(item) || !IsObjectLike(item) || IsFormatted(item) then item
    else
      JObj(ResourceOf(OrElse(Get(item, "type"), rt), JsStringOpt(Get(item, "id")), Attributes(item),
                      Get(item, "links"), Get(item, "relationships"), Get(item, "meta")))
  }

  /** A raw item's resource: `type` is the item's truthy type else the route
      type, `id` is `String(item.id)`, `attributes` holds exactly the item's
      unreserved members (and is left out when there are none), and the
      truthy `links`, `relationships` and `meta` are copied; nothing is lost
      or renamed. */
  lemma TransformedResource(item: Json, rt: Json, k: string)
    requires Truthy(item) && IsObjectLike(item) && !IsFormatted(item)
    ensures var r := TransformToResource(item, rt);
      && Get(r, "type") == Some(OrElse(Get(item, "type"), rt))
      && Get(r, "id") == Some(JStr(JsStringOpt(Get(item, "id"))))
      && (Has(r, "attributes") <==> exists i :: 0 <= i < |OwnEntries(item)| && OwnEntries(item)[i].0 !in ResourceKeys)
      && (Has(r, "attributes") && k !in ResourceKeys ==> Get(Get(r, "attributes").value, k) == Get(item, k))
      && (Has(r, "attributes") && k in ResourceKeys ==> Get(Get(r, "attributes").value, k) == None)
      && (k in {"links", "relationships", "meta"} ==> Get(r, k) == if TruthyOpt(Get(item, k)) then Get(item, k) else None)
      && (k !in ResourceKeys && k != "attributes" ==> Get(r, k) == None)
  {
    var attrs := Attributes(item);
    var t := OrElse(Get(item, "type"), rt);
    var id := JsStringOpt(Get(item, "id"));
    ResourceOfLookup(t, id, attrs, Get(item, "links"), Get(item, "relationships"), Get(item, "meta"), k);
    ResourceOfLookup(t, id, attrs, Get(item, "links"), Get(item, "relationships"), Get(item, "meta"), "type");
    ResourceOfLookup(t, id, attrs, Get(item, "links"), Get(item, "relationships"), Get(item, "meta"), "id");
    ResourceOfLookup(t, id, attrs, Get(item, "links"), Get(item, "relationships"), Get(item, "meta"), "attributes");
  }

  /** An already formatted item, a falsy item and a primitive pass through untouched. */
  lemma TransformPassesThrough(item: Json, rt: Json)
    requires !Truthy(item) || !IsObjectLike(item) || IsFormatted(item)
    ensures TransformToResource(item, rt) == item
  {
  }

  /** A field list in which no key can be found is empty. */
  lemma NoKeysMeansEmpty(fs: Fields)
    ensures (forall k :: Lookup(fs, k).None?) ==> fs == []
  {
    if |fs| > 0 {
      assert Lookup(fs, fs[0].0).Some?;
    }
  }

  /** Keeping only a truthy value changes nothing `OptField` writes. */
  lemma OptFieldOfKept(k: string, v: Option<Json>)
    ensures OptField(k, if TruthyOpt(v) then v else None) == OptField(k, v)
  {
  }

  /** A resource object without attributes is rebuilt as itself. */
  lemma RetransformBare(t: Json, id: string, links: Option<Json>, rels: Option<Json>, meta: Option<Json>, rt2: Json)
    requires Truthy(t) && id != ""
    ensures var r := JObj(ResourceOf(t, id, [], links, rels, meta));
      TransformToResource(r, rt2) == r
  {
    var r := JObj(ResourceOf(t, id, [], links, rels, meta));
    ResourceOfLookup(t, id, [], links, rels, meta, "type");
    ResourceOfLookup(t, id, [], links, rels, meta, "id");
    ResourceOfLookup(t, id, [], links, rels, meta, "attributes");
    ResourceOfLookup(t, id, [], links, rels, meta, "links");
    ResourceOfLookup(t, id, [], links, rels, meta, "relationships");
    ResourceOfLookup(t, id, [], links, rels, meta, "meta");
    forall k
      ensures Lookup(Attributes(r), k).None?
    {
      ResourceOfLookup(t, id, [], links, rels, meta, k);
    }
    NoKeysMeansEmpty(Attributes(r));
    OptFieldOfKept("links", links);
    OptFieldOfKept("relationships", rels);
    OptFieldOfKept("meta", meta);
  }

  /** A resource object with attributes is already formatted. */
  lemma RetransformFull(t: Json, id: string, attrs: Fields, links: Option<Json>, rels: Option<Json>, meta: Option<Json>, rt2: Json)
    requires Truthy(t) && id != "" && |attrs| > 0
    ensures var r := JObj(ResourceOf(t, id, attrs, links, rels, meta));
      TransformToResource(r, rt2) == r
  {
    ResourceOfLookup(t, id, attrs, links, rels, meta, "type");
    ResourceOfLookup(t, id, attrs, links, rels, meta, "id");
    ResourceOfLookup(t, id, attrs, links, rels, meta, "attributes");
  }

  /** Transforming twice is transforming once, whatever route type the second
      pass is given, as long as the route type and the rendered id are
      truthy. */
  lemma TransformIdempotent(item: Json, rt: Json, rt2: Json)
    requires Truthy(rt)
    requires JsStringOpt(Get(item, "id")) != ""
    ensures TransformToResource(TransformToResource(item, rt), rt2) == TransformToResource(item, rt)
  {
    if Truthy(item) && IsObjectLike(item) && !IsFormatted(item) {
      var attrs := Attributes(item);
      var t := OrElse(Get(item, "type"), rt);
      var id := JsStringOpt(Get(item, "id"));
      if |attrs| == 0 {
        RetransformBare(t, id, Get(item, "links"), Get(item, "relationships"), Get(item, "meta"), rt2);
      } else {
        RetransformFull(t, id, attrs, Get(item, "links"), Get(item, "relationships"), Get(item, "meta"), rt2);
      }
    }
  }

  /** `items.map(item => transformToResource(item, resourceType))`. */
  function TransformAll(xs: seq<Json>, rt: Json): (r: seq<Json>)
    ensures |r| == |xs|
  {
    seq(|xs|, i requires 0 <= i < |xs| => TransformToResource(xs[i], rt))
  }

  // ---------------------------------------------------------------------
  // Top-level documents

  /** `createJsonApiDocument`: `jsonapi`, `data`, the meta when truthy, and
      the self link (which is never empty, so always set). */
  function CreateDocument(data: Json, req: Request, meta: Option<Json>): (r: Json)
    ensures r.JObj? && UniqueKeys(r.fields)
  {
    var fs := [("jsonapi", JsonApiObject), ("data", data)] + OptField("meta", meta)
              + [("links", JObj([("self", JStr(SelfUrl(req)))]))];
    assert Keys(fs) == ["jsonapi", "data"] + (if TruthyOpt(meta) then ["meta"] else []) + ["links"];
    JObj(fs)
  }

  /** The assembled document holds `jsonapi.version` 1.1, the given data,
      the meta exactly when one truthy was passed, and the request's absolute
      URL as `links.self`; no other member. */
  lemma CreateDocumentFields(data: Json, req: Request, meta: Option<Json>, k: string)
    ensures var doc := CreateDocument(data, req, meta);
      && Get(doc, "jsonapi") == Some(JsonApiObject)
      && Get(doc, "data") == Some(data)
      && Get(doc, "meta") == (if TruthyOpt(meta) then meta else None)
      && Get(doc, "links") == Some(JObj([("self", JStr(SelfUrl(req)))]))
      && (k !in {"jsonapi", "data", "meta", "links"} ==> Get(doc, k) == None)
    ensures SelfUrl(req) != ""
  {
    var a: Fields := [("jsonapi", JsonApiObject), ("data", data)];
    var b := OptField("meta", meta);
    var c: Fields := [("links", JObj([("self", JStr(SelfUrl(req)))]))];
    forall key
      ensures Lookup(a + b + c, key) ==
        if key == "jsonapi" then Some(JsonApiObject) else if key == "data" then Some(data)
        else if key == "meta" then (if TruthyOpt(meta) then meta else None)
        else if key == "links" then Some(JObj([("self", JStr(SelfUrl(req)))])) else None
    {
      LookupConcat(a + b, c, key);
      LookupConcat(a, b, key);
      OptFieldLookup("meta", meta, key);
    }
    assert |BaseUrl(req)| >= 3;
  }

  // ---------------------------------------------------------------------
  // Pagination

  /** `Math.ceil(a / b)` on JSON values as it serialises: `NaN` and the
      infinities become `null`. */
  function CeilDivJs(a: Json, b: Json): Json {
    var x := JsNum(Some(a));
    var y := JsNum(Some(b));
    if x.Some? && y.Some? && y.value != 0 then JInt(Pagination.CeilDiv(x.value, y.value)) else JNull
  }

  /** The `meta.page` object of a paginated document. */
  function PageMeta(meta: Json): (r: Json)
    ensures r.JObj? && UniqueKeys(r.fields)
    ensures Get(meta, "total") == None && Get(meta, "limit") == None && Get(meta, "totalPages") == None ==>
            r == JObj([("total", JInt(0)), ("size", JInt(10)), ("number", OrElse(Get(meta, "page"), JInt(1))),
                       ("totalPages", JInt(0))])
  {
    var total := OrElse(Get(meta, "total"), JInt(0));
    var size := OrElse(Get(meta, "limit"), JInt(10));
    var r := PageObject(total, size, OrElse(Get(meta, "page"), JInt(1)), OrElse(Get(meta, "totalPages"), CeilDivJs(total, size)));
    assert Keys(r.fields) == ["total", "size", "number", "totalPages"];
    r
  }

  function PageObject(total: Json, size: Json, number: Json, totalPages: Json): Json {
    JObj([("total", total), ("size", size), ("number", number), ("totalPages", totalPages)])
  }

  lemma PageObjectFields(total: Json, size: Json, number: Json, totalPages: Json)
    ensures var p := PageObject(total, size, number, totalPages);
      Get(p, "total") == Some(total) && Get(p, "size") == Some(size)
      && Get(p, "number") == Some(number) && Get(p, "totalPages") == Some(totalPages)
  {
    var fs := PageObject(total, size, number, totalPages).fields;
    var fs1 := [("size", size), ("number", number), ("totalPages", totalPages)];
    var fs2 := [("number", number), ("totalPages", totalPages)];
    var fs3 := [("totalPages", totalPages)];
    assert fs[1..] == fs1 && fs1[1..] == fs2 && fs2[1..] == fs3;
    LookupCons(fs, "total");
    LookupCons(fs, "size");
    LookupCons(fs, "number");
    LookupCons(fs, "totalPages");
    LookupCons(fs1, "size");
    LookupCons(fs1, "number");
    LookupCons(fs1, "totalPages");
    LookupCons(fs2, "number");
    LookupCons(fs2, "totalPages");
    LookupCons(fs3, "totalPages");
  }

  /** `meta.page` echoes total (default 0), limit as size (default 10) and
      page as number (default 1); `totalPages` is the given one when truthy. */
  lemma PageMetaFields(meta: Json)
    ensures var p := PageMeta(meta);
      && Get(p, "total") == Some(OrElse(Get(meta, "total"), JInt(0)))
      && Get(p, "size") == Some(OrElse(Get(meta, "limit"), JInt(10)))
      && Get(p, "number") == Some(OrElse(Get(meta, "page"), JInt(1)))
      && (TruthyOpt(Get(meta, "totalPages")) ==> Get(p, "totalPages") == Get(meta, "totalPages"))
      && (!TruthyOpt(Get(meta, "totalPages")) ==>
            Get(p, "totalPages") == Some(CeilDivJs(OrElse(Get(meta, "total"), JInt(0)), OrElse(Get(meta, "limit"), JInt(10)))))
  {
    var total := OrElse(Get(meta, "total"), JInt(0));
    var size := OrElse(Get(meta, "limit"), JInt(10));
    PageObjectFields(total, size, OrElse(Get(meta, "page"), JInt(1)), OrElse(Get(meta, "totalPages"), CeilDivJs(total, size)));
  }

  /** Without a given `totalPages`, a positive integer size and an integer
      total give the ceiling of total over size; no total gives 0. */
  lemma CeilDivJsPages(total: Json, size: Json)
    ensures total == JInt(0) && Truthy(size) ==> CeilDivJs(total, size) == JInt(0) || JsNum(Some(size)) == Some(0) || JsNum(Some(size)).None?
    ensures total.JInt? && size.JInt? && size.n > 0 ==>
      exists c :: CeilDivJs(total, size) == JInt(c) && (c - 1) * size.n < total.n <= c * size.n
  {
    if total.JInt? && size.JInt? && size.n > 0 {
      assert CeilDivJs(total, size) == JInt(Pagination.CeilDiv(total.n, size.n));
    }
  }

  /** `request.path || request.url.split('?')[0]`. */
  function PaginationPath(req: Request): string {
    OrDefault(req.path, BeforeFirst(req.url, '?'))
  }

  /** `buildUrl(pageNum)`: the page URL with `page` and `limit` set. */
  function PageUrl(req: Request, pageText: string, limit: Option<Json>): string {
    BaseUrl(req) + PaginationPath(req) + "?page=" + pageText + "&limit=" + JsString(OrElse(limit, JInt(10)))
  }

  /** `page > 1`, `page < totalPages` and `totalPages > 1`. */
  predicate HasPrevPage(page: Option<Json>) { JsLess(Some(JInt(1)), page) }
  predicate HasNextPage(page: Option<Json>, totalPages: Option<Json>) { JsLess(page, totalPages) }
  predicate HasSeveralPages(totalPages: Option<Json>) { JsLess(Some(JInt(1)), totalPages) }

  /** A pagination link set in the source's key order. */
  function LinkSet(self: string, ends: Option<(string, string)>, next: Option<string>, prev: Option<string>): Fields {
    [("self", JStr(self))]
    + (if ends.Some? then [("first", JStr(ends.value.0)), ("last", JStr(ends.value.1))] else [])
    + (if next.Some? then [("next", JStr(next.value))] else [])
    + (if prev.Some? then [("prev", JStr(prev.value))] else [])
  }

  /** A link set is an object of distinct string-valued links led by `self`. */
  lemma LinkSetWellFormed(self: string, ends: Option<(string, string)>, next: Option<string>, prev: Option<string>)
    ensures var r := LinkSet(self, ends, next, prev);
      && UniqueKeys(r) && Lookup(r, "self").Some?
      && forall i :: 0 <= i < |r| ==> r[i].1.JStr?
  {
  }

  lemma LinkSetLookup(self: string, ends: Option<(string, string)>, next: Option<string>, prev: Option<string>, k: string)
    ensures Lookup(LinkSet(self, ends, next, prev), k) ==
      if k == "self" then Some(JStr(self))
      else if k == "first" then (if ends.Some? then Some(JStr(ends.value.0)) else None)
      else if k == "last" then (if ends.Some? then Some(JStr(ends.value.1)) else None)
      else if k == "next" then (if next.Some? then Some(JStr(next.value)) else None)
      else if k == "prev" then (if prev.Some? then Some(JStr(prev.value)) else None)
      else None
  {
    var a: Fields := [("self", JStr(self))];
    var b: Fields := if ends.Some? then [("first", JStr(ends.value.0)), ("last", JStr(ends.value.1))] else [];
    var c: Fields := if next.Some? then [("next", JStr(next.value))] else [];
    var d: Fields := if prev.Some? then [("prev", JStr(prev.value))] else [];
    assert LinkSet(self, ends, next, prev) == ((a + b) + c) + d;
    LookupConcat((a + b) + c, d, k);
    LookupConcat(a + b, c, k);
    LookupConcat(a, b, k);
  }

  /** `generatePaginationLinks`: `self`, then `first`/`last`, `next` and
      `prev` when their guards hold. */
  function PaginationLinks(meta: Json, req: Request): (r: Fields)
    ensures UniqueKeys(r) && Lookup(r, "self").Some?
    ensures forall i :: 0 <= i < |r| ==> r[i].1.JStr?
  {
    var page := Get(meta, "page");
    var limit := Get(meta, "limit");
    var totalPages := Get(meta, "totalPages");
    var self := PageUrl(req, JsString(OrElse(page, JInt(1))), limit);
    var ends := if HasSeveralPages(totalPages)
      then Some((PageUrl(req, "1", limit), PageUrl(req, JsString(totalPages.value), limit))) else None;
    var next := if HasNextPage(page, totalPages) then Some(PageUrl(req, IntToString(JsNum(page).value + 1), limit)) else None;
    var prev := if HasPrevPage(page) then Some(PageUrl(req, IntToString(JsNum(page).value - 1), limit)) else None;
    LinkSetWellFormed(self, ends, next, prev);
    LinkSet(self, ends, next, prev)
  }

  /** Every pagination link carries the limit: `self` points at the current
      page (default 1) and is always there; `first` (page 1) and `last` (page
      totalPages) appear iff totalPages > 1; `next` (page + 1) iff page <
      totalPages; `prev` (page - 1) iff page > 1; no other link appears. */
  lemma PaginationLinksShape(meta: Json, req: Request, k: string)
    ensures var links := PaginationLinks(meta, req);
      var page := Get(meta, "page");
      var limit := Get(meta, "limit");
      var totalPages := Get(meta, "totalPages");
      && Lookup(links, "self") == Some(JStr(PageUrl(req, JsString(OrElse(page, JInt(1))), limit)))
      && Lookup(links, "first") == (if HasSeveralPages(totalPages) then Some(JStr(PageUrl(req, "1", limit))) else None)
      && Lookup(links, "last") ==
           (if HasSeveralPages(totalPages) then Some(JStr(PageUrl(req, JsString(totalPages.value), limit))) else None)
      && Lookup(links, "next") ==
           (if HasNextPage(page, totalPages) then Some(JStr(PageUrl(req, IntToString(JsNum(page).value + 1), limit)))
            else None)
      && Lookup(links, "prev") ==
           (if HasPrevPage(page) then Some(JStr(PageUrl(req, IntToString(JsNum(page).value - 1), limit))) else None)
      && (k !in {"self", "first", "last", "next", "prev"} ==> Lookup(links, k) == None)
  {
    var page := Get(meta, "page");
    var limit := Get(meta, "limit");
    var totalPages := Get(meta, "totalPages");
    var self := PageUrl(req, JsString(OrElse(page, JInt(1))), limit);
    var ends := if HasSeveralPages(totalPages) then Some((PageUrl(req, "1", limit), PageUrl(req, JsString(totalPages.value), limit)))
                else None;
    var next := if HasNextPage(page, totalPages) then Some(PageUrl(req, IntToString(JsNum(page).value + 1), limit)) else None;
    var prev := if HasPrevPage(page) then Some(PageUrl(req, IntToString(JsNum(page).value - 1), limit)) else None;
    LinkSetLookup(self, ends, next, prev, "self");
    LinkSetLookup(self, ends, next, prev, "first");
    LinkSetLookup(self, ends, next, prev, "last");
    LinkSetLookup(self, ends, next, prev, "next");
    LinkSetLookup(self, ends, next, prev, "prev");
    LinkSetLookup(self, ends, next, prev, k);
  }

  /** A paginated document in the source's key order. */
  function PagedDocument(resources: Json, meta: Option<Json>, links: Option<Json>): Json {
    JObj([("data", resources), ("jsonapi", JsonApiObject)]
         + (if meta.Some? then [("meta", meta.value)] else [])
         + (if links.Some? then [("links", links.value)] else []))
  }

  lemma PagedDocumentUnique(resources: Json, meta: Option<Json>, links: Option<Json>)
    ensures UniqueKeys(PagedDocument(resources, meta, links).fields)
  {
    assert Keys(PagedDocument(resources, meta, links).fields) == ["data", "jsonapi"]
      + (if meta.Some? then ["meta"] else []) + (if links.Some? then ["links"] else []);
  }

  lemma PagedDocumentLookup(resources: Json, meta: Option<Json>, links: Option<Json>, k: string)
    ensures Get(PagedDocument(resources, meta, links), k) ==
      if k == "data" then Some(resources)
      else if k == "jsonapi" then Some(JsonApiObject)
      else if k == "meta" then meta
      else if k == "links" then links
      else None
  {
    var a: Fields := [("data", resources), ("jsonapi", JsonApiObject)];
    var b: Fields := if meta.Some? then [("meta", meta.value)] else [];
    var c: Fields := if links.Some? then [("links", links.value)] else [];
    LookupConcat(a + b, c, k);
    LookupConcat(a, b, k);
  }

  /** The document for a paginated payload: `data` (the transformed array,
      or `[]` for a non-array `data`), `jsonapi`, `meta.page`, and the
      caller's truthy `links` or else the generated pagination links. */
  function PaginatedDocument(data: Json, rt: Json, req: Request): (r: Json)
    ensures r.JObj? && UniqueKeys(r.fields)
  {
    var d := Get(data, "data");
    var meta := Get(data, "meta");
    var resources := if d.Some? && d.value.JArr? then JArr(TransformAll(d.value.elems, rt)) else JArr([]);
    var pageMeta := if TruthyOpt(meta) then Some(JObj([("page", PageMeta(meta.value))])) else None;
    var links := if TruthyOpt(Get(data, "links")) then Get(data, "links")
      else if TruthyOpt(meta) then Some(JObj(PaginationLinks(meta.value, req)))
      else None;
    PagedDocumentUnique(resources, pageMeta, links);
    PagedDocument(resources, pageMeta, links)
  }

  /** The members of a paginated document. */
  lemma PaginatedDocumentFields(data: Json, rt: Json, req: Request, k: string)
    requires TruthyOpt(Get(data, "meta"))
    ensures var doc := PaginatedDocument(data, rt, req);
      var d := Get(data, "data");
      && Get(doc, "jsonapi") == Some(JsonApiObject)
      && Get(doc, "data") ==
           Some(if d.Some? && d.value.JArr? then JArr(TransformAll(d.value.elems, rt)) else JArr([]))
      && Get(doc, "meta") == Some(JObj([("page", PageMeta(Get(data, "meta").value))]))
      && Get(doc, "links") ==
           Some(if TruthyOpt(Get(data, "links")) then Get(data, "links").value
                else JObj(PaginationLinks(Get(data, "meta").value, req)))
      && (k !in {"data", "jsonapi", "meta", "links"} ==> Get(doc, k) == None)
  {
    var d := Get(data, "data");
    var meta := Get(data, "meta");
    var resources := if d.Some? && d.value.JArr? then JArr(TransformAll(d.value.elems, rt)) else JArr([]);
    var m := Some(JObj([("page", PageMeta(meta.value))]));
    var l := if TruthyOpt(Get(data, "links")) then Get(data, "links") else Some(JObj(PaginationLinks(meta.value, req)));
    PagedDocumentLookup(resources, m, l, "data");
    PagedDocumentLookup(resources, m, l, "jsonapi");
    PagedDocumentLookup(resources, m, l, "meta");
    PagedDocumentLookup(resources, m, l, "links");
    PagedDocumentLookup(resources, m, l, k);
  }

  // ---------------------------------------------------------------------
  // Classification

  /** The shapes `transformToJsonApi` tells apart. `NullData` is only
      produced by the corrected classifier. */
  datatype Shape = Paginated | WrappedSingle | WrappedArray | NullData | DirectResource | BareArray | Fallback

  /** `'page' in meta || 'total' in meta`: `in` throws on a primitive. */
  function MetaHasPageOrTotal(meta: Json): Result<bool> {
    if IsObjectLike(meta) then Success(Has(meta, "page") || Has(meta, "total"))
    else Failure("Cannot use 'in' operator to search for 'page' in " + JsString(meta))
  }

  /** The probe reaches `'page' in meta` with a primitive meta. */
  predicate ProbeThrows(data: Json) {
    Truthy(data) && IsObjectLike(data) && Has(data, "data") && TruthyOpt(Get(data, "meta"))
    && !IsObjectLike(Get(data, "meta").value)
  }

  /** `isPaginatedResponse`. */
  function IsPaginated(data: Json): (r: Result<bool>)
    ensures r.Failure? <==> ProbeThrows(data)
    ensures r == Success(true) ==> Has(data, "data") && TruthyOpt(Get(data, "meta"))
  {
    if Truthy(data) && IsObjectLike(data) && Has(data, "data") && Has(data, "meta") && TruthyOpt(Get(data, "meta"))
    then MetaHasPageOrTotal(Get(data, "meta").value)
    else Success(false)
  }

  /** `data.data && !Array.isArray(data.data)` and its array counterpart. */
  predicate WrapsSingle(data: Json) {
    TruthyOpt(Get(data, "data")) && !Get(data, "data").value.JArr?
  }

  predicate WrapsArray(data: Json) {
    TruthyOpt(Get(data, "data")) && Get(data, "data").value.JArr?
  }

  /** `isResource`: an object (or array) with an `id` member. */
  predicate IsResource(data: Json) {
    Truthy(data) && IsObjectLike(data) && Has(data, "id")
  }

  /** The first-match classification of `transformToJsonApi`. */
  function Classify(data: Json): (r: Result<Shape>)
    ensures r.Failure? <==> ProbeThrows(data)
    ensures r != Success(NullData)
  {
    var paginated :- IsPaginated(data);
    if paginated then Success(Paginated)
    else if WrapsSingle(data) then Success(WrappedSingle)
    else if WrapsArray(data) then Success(WrappedArray)
    else if IsResource(data) then Success(DirectResource)
    else if data.JArr? then Success(BareArray)
    else Success(Fallback)
  }

  /** `{data: null}` outside the paginated shape. */
  predicate WrapsNull(data: Json) {
    Get(data, "data") == Some(JNull)
  }

  /** The corrected classification: a payload wrapping `data: null` is its
      own shape, checked after the wrapped shapes and before the direct
      resource. */
  function ClassifyFixed(data: Json): (r: Result<Shape>)
    ensures r.Failure? <==> ProbeThrows(data)
  {
    var shape :- Classify(data);
    if shape in {DirectResource, BareArray, Fallback} && WrapsNull(data) then Success(NullData) else Success(shape)
  }

  /** The two classifiers agree on every payload but a non-paginated one
      wrapping `data: null`. */
  lemma ClassifyFixedAgrees(data: Json)
    requires !WrapsNull(data) || Classify(data) == Success(Paginated)
    ensures ClassifyFixed(data) == Classify(data)
  {
  }

  /** The elements of an array; nothing for any other value. */
  function Elements(j: Json): seq<Json> {
    if j.JArr? then j.elems else []
  }

  /** The document for a classified payload. */
  function Assemble(shape: Shape, data: Json, rt: Json, req: Request): Json {
    match shape
    case Paginated => PaginatedDocument(data, rt, req)
    case WrappedSingle => CreateDocument(TransformToResource(Get(data, "data").GetOr(JNull), rt), req, Get(data, "meta"))
    case WrappedArray =>
      CreateDocument(JArr(TransformAll(Elements(Get(data, "data").GetOr(JNull)), rt)), req, Get(data, "meta"))
    case NullData => CreateDocument(JNull, req, Get(data, "meta"))
    case DirectResource => CreateDocument(TransformToResource(data, rt), req, None)
    case BareArray => CreateDocument(JArr(TransformAll(Elements(data), rt)), req, None)
    case Fallback => CreateDocument(data, req, None)
  }

  /** `transformToJsonApi` as written. */
  function TransformToJsonApi(data: Json, route: RouteMeta, req: Request): (r: Result<Json>)
    ensures r.Failure? <==> ProbeThrows(data)
  {
    var shape :- Classify(data);
    Success(Assemble(shape, data, ResourceType(route, req, data), req))
  }

  /** `transformToJsonApi` with the corrected classifier. */
  function TransformToJsonApiFixed(data: Json, route: RouteMeta, req: Request): (r: Result<Json>)
    ensures r.Failure? <==> ProbeThrows(data)
  {
    var shape :- ClassifyFixed(data);
    Success(Assemble(shape, data, ResourceType(route, req, data), req))
  }

  /** `intercept`: an explicit `false` serialize flag bypasses the
      assembler; a falsy payload becomes the empty document; anything else
      is assembled, and the only way that throws is the meta probe. */
  function Intercept(data: Json, route: RouteMeta, req: Request): (r: Result<Json>)
    ensures route.serialize == Some(false) ==> r == Success(data)
    ensures r.Failure? <==> route.serialize != Some(false) && ProbeThrows(data)
  {
    if route.serialize == Some(false) then Success(data)
    else if !Truthy(data) then Success(CreateDocument(JNull, req, None))
    else TransformToJsonApi(data, route, req)
  }

  /** `intercept` with the corrected classifier. */
  function InterceptFixed(data: Json, route: RouteMeta, req: Request): (r: Result<Json>)
    ensures route.serialize == Some(false) ==> r == Success(data)
    ensures r.Failure? <==> route.serialize != Some(false) && ProbeThrows(data)
  {
    if route.serialize == Some(false) then Success(data)
    else if !Truthy(data) then Success(CreateDocument(JNull, req, None))
    else TransformToJsonApiFixed(data, route, req)
  }

  // ---------------------------------------------------------------------
  // What each shape is assembled into

  /** The self link every non-paginated document carries. */
  function SelfLinks(req: Request): Json {
    JObj([("self", JStr(SelfUrl(req)))])
  }

  /** A falsy payload becomes `{jsonapi, data: null, links: {self}}`, with no meta. */
  lemma InterceptFalsy(data: Json, route: RouteMeta, req: Request)
    requires route.serialize != Some(false) && !Truthy(data)
    ensures Intercept(data, route, req).Success?
    ensures var doc := Intercept(data, route, req).value;
      && Get(doc, "jsonapi") == Some(JsonApiObject) && Get(doc, "data") == Some(JNull)
      && Get(doc, "meta") == None && Get(doc, "links") == Some(SelfLinks(req))
  {
    CreateDocumentFields(JNull, req, None, "");
  }

  /** Every serialized document carries `jsonapi.version` 1.1. */
  lemma InterceptCarriesVersion(data: Json, route: RouteMeta, req: Request)
    requires route.serialize != Some(false) && Intercept(data, route, req).Success?
    ensures Get(Intercept(data, route, req).value, "jsonapi") == Some(JsonApiObject)
  {
    var rt := ResourceType(route, req, data);
    if Truthy(data) {
      var shape := Classify(data).value;
      assert Intercept(data, route, req) == Success(Assemble(shape, data, rt, req));
      AssembleCarriesVersion(shape, data, rt, req);
    } else {
      CreateDocumentFields(JNull, req, None, "");
    }
  }

  lemma AssembleCarriesVersion(shape: Shape, data: Json, rt: Json, req: Request)
    ensures Get(Assemble(shape, data, rt, req), "jsonapi") == Some(JsonApiObject)
  {
    var doc := Assemble(shape, data, rt, req);
    if shape == Paginated {
      assert doc.JObj? && doc.fields[0].0 == "data" && doc.fields[1] == ("jsonapi", JsonApiObject);
      LookupCons(doc.fields, "jsonapi");
      LookupCons(doc.fields[1..], "jsonapi");
    } else {
      assert doc.JObj? && doc.fields[0] == ("jsonapi", JsonApiObject);
      LookupCons(doc.fields, "jsonapi");
    }
  }

  /** Neither paginated nor throwing. */
  predicate NotPaginated(data: Json) {
    IsPaginated(data) == Success(false)
  }

  /** A paginated payload: transformed array data, `meta.page`, and the
      caller's links or the generated ones. */
  lemma InterceptPaginated(data: Json, route: RouteMeta, req: Request)
    requires route.serialize != Some(false) && IsPaginated(data) == Success(true)
    ensures Intercept(data, route, req).Success?
    ensures var doc := Intercept(data, route, req).value;
      var rt := ResourceType(route, req, data);
      var d := Get(data, "data");
      && Get(doc, "data") ==
           Some(if d.Some? && d.value.JArr? then JArr(TransformAll(d.value.elems, rt)) else JArr([]))
      && Get(doc, "meta") == Some(JObj([("page", PageMeta(Get(data, "meta").value))]))
      && Get(doc, "links") ==
           Some(if TruthyOpt(Get(data, "links")) then Get(data, "links").value
                else JObj(PaginationLinks(Get(data, "meta").value, req)))
  {
    PaginatedDocumentFields(data, ResourceType(route, req, data), req, "");
  }

  /** `{data: x}` with a truthy non-array `x`: the document's data is the
      transformed `x`, and the wrapper's truthy meta is carried over. */
  lemma InterceptWrappedSingle(data: Json, route: RouteMeta, req: Request)
    requires route.serialize != Some(false) && Truthy(data) && NotPaginated(data) && WrapsSingle(data)
    ensures Intercept(data, route, req).Success?
    ensures var doc := Intercept(data, route, req).value;
      && Get(doc, "data") == Some(TransformToResource(Get(data, "data").value, ResourceType(route, req, data)))
      && Get(doc, "meta") == (if TruthyOpt(Get(data, "meta")) then Get(data, "meta") else None)
      && Get(doc, "links") == Some(SelfLinks(req))
  {
    var rt := ResourceType(route, req, data);
    var doc := CreateDocument(TransformToResource(Get(data, "data").value, rt), req, Get(data, "meta"));
    assert Classify(data) == Success(WrappedSingle);
    assert Intercept(data, route, req) == Success(doc);
    CreateDocumentFields(TransformToResource(Get(data, "data").value, rt), req, Get(data, "meta"), "");
  }

  /** `{data: [...]}`: one transformed resource per element, in order, and
      the wrapper's truthy meta carried over. */
  lemma InterceptWrappedArray(data: Json, route: RouteMeta, req: Request)
    requires route.serialize != Some(false) && Truthy(data) && NotPaginated(data) && WrapsArray(data)
    ensures Intercept(data, route, req).Success?
    ensures var doc := Intercept(data, route, req).value;
      var xs := Get(data, "data").value.elems;
      var out := Get(doc, "data");
      && out.Some? && out.value.JArr? && |out.value.elems| == |xs|
      && (forall i :: 0 <= i < |xs| ==> out.value.elems[i] == TransformToResource(xs[i], ResourceType(route, req, data)))
      && Get(doc, "meta") == (if TruthyOpt(Get(data, "meta")) then Get(data, "meta") else None)
      && Get(doc, "links") == Some(SelfLinks(req))
  {
    var xs := Get(data, "data").value.elems;
    var rt := ResourceType(route, req, data);
    assert Classify(data) == Success(WrappedArray);
    assert Intercept(data, route, req) == Success(CreateDocument(JArr(TransformAll(xs, rt)), req, Get(data, "meta")));
    CreateDocumentFields(JArr(TransformAll(xs, rt)), req, Get(data, "meta"), "");
  }

  /** An object with an `id` and no truthy `data`: the payload itself is
      transformed, and no meta is attached. */
  lemma InterceptDirectResource(data: Json, route: RouteMeta, req: Request)
    requires route.serialize != Some(false) && NotPaginated(data)
    requires !TruthyOpt(Get(data, "data")) && IsResource(data)
    ensures Intercept(data, route, req).Success?
    ensures var doc := Intercept(data, route, req).value;
      && Get(doc, "data") == Some(TransformToResource(data, ResourceType(route, req, data)))
      && Get(doc, "meta") == None && Get(doc, "links") == Some(SelfLinks(req))
  {
    var rt := ResourceType(route, req, data);
    DirectResourceDocument(data, route, req);
    CreateDocumentFields(TransformToResource(data, rt), req, None, "");
  }

  lemma DirectResourceDocument(data: Json, route: RouteMeta, req: Request)
    requires route.serialize != Some(false) && NotPaginated(data)
    requires !TruthyOpt(Get(data, "data")) && IsResource(data)
    ensures Intercept(data, route, req) ==
      Success(CreateDocument(TransformToResource(data, ResourceType(route, req, data)), req, None))
  {
    assert Classify(data) == Success(DirectResource);
  }

  /** A bare array: one transformed resource per element, in order. */
  lemma InterceptBareArray(data: Json, route: RouteMeta, req: Request)
    requires route.serialize != Some(false) && Truthy(data) && data.JArr?
    ensures Intercept(data, route, req).Success?
    ensures var doc := Intercept(data, route, req).value;
      var out := Get(doc, "data");
      && out.Some? && out.value.JArr? && |out.value.elems| == |data.elems|
      && (forall i :: 0 <= i < |data.elems| ==>
            out.value.elems[i] == TransformToResource(data.elems[i], ResourceType(route, req, data)))
      && Get(doc, "meta") == None && Get(doc, "links") == Some(SelfLinks(req))
  {
    NamedKeyNotOnIndexedValue(data, "data");
    NamedKeyNotOnIndexedValue(data, "id");
    NamedKeyNotOnIndexedValue(data, "meta");
    var rt := ResourceType(route, req, data);
    assert Classify(data) == Success(BareArray);
    assert Intercept(data, route, req) == Success(CreateDocument(JArr(TransformAll(data.elems, rt)), req, None));
    CreateDocumentFields(JArr(TransformAll(data.elems, rt)), req, None, "");
  }

  /** Any other truthy payload is wrapped as it is under `data`. */
  lemma InterceptFallback(data: Json, route: RouteMeta, req: Request)
    requires route.serialize != Some(false) && Truthy(data) && NotPaginated(data)
    requires !TruthyOpt(Get(data, "data")) && !IsResource(data) && !data.JArr?
    ensures Intercept(data, route, req).Success?
    ensures var doc := Intercept(data, route, req).value;
      Get(doc, "data") == Some(data) && Get(doc, "meta") == None && Get(doc, "links") == Some(SelfLinks(req))
  {
    assert Classify(data) == Success(Fallback);
    assert Intercept(data, route, req) == Success(CreateDocument(data, req, None));
    CreateDocumentFields(data, req, None, "");
  }

  // ---------------------------------------------------------------------
  // The `{data: null, meta}` payload

  /** What a deletion handler returns: `{data: null, meta}`. */
  function DeletedPayload(meta: Json): Json {
    JObj([("data", JNull), ("meta", meta)])
  }

  /** The deletion payload wraps `null` data and its meta, and has no `id`. */
  lemma DeletedPayloadShape(meta: Json) returns (data: Json)
    ensures data == DeletedPayload(meta)
    ensures Get(data, "data") == Some(JNull) && Get(data, "meta") == Some(meta) && Get(data, "id") == None
  {
    data := DeletedPayload(meta);
    LookupCons(data.fields, "data");
    LookupCons(data.fields, "meta");
    LookupCons(data.fields, "id");
    LookupCons(data.fields[1..], "meta");
    LookupCons(data.fields[1..], "id");
  }

  /** As written, a deletion payload whose meta has neither `page` nor
      `total` falls through to the fallback: the whole payload becomes the
      document's data and the top-level meta is lost. */
  lemma DeletedPayloadAsWritten(meta: Json, route: RouteMeta, req: Request)
    requires route.serialize != Some(false)
    requires meta.JObj? && !Has(meta, "page") && !Has(meta, "total")
    ensures Intercept(DeletedPayload(meta), route, req).Success?
    ensures var doc := Intercept(DeletedPayload(meta), route, req).value;
      Get(doc, "data") == Some(DeletedPayload(meta)) && Get(doc, "meta") == None
  {
    var data := DeletedPayloadShape(meta);
    assert Classify(data) == Success(Fallback);
    assert Intercept(data, route, req) == Success(CreateDocument(data, req, None));
    CreateDocumentFields(data, req, None, "");
  }

  /** With the corrected classifier, the same payload gives `data: null`
      and carries the meta. */
  lemma DeletedPayloadFixed(meta: Json, route: RouteMeta, req: Request)
    requires route.serialize != Some(false)
    requires meta.JObj? && !Has(meta, "page") && !Has(meta, "total")
    ensures InterceptFixed(DeletedPayload(meta), route, req).Success?
    ensures var doc := InterceptFixed(DeletedPayload(meta), route, req).value;
      Get(doc, "data") == Some(JNull) && Get(doc, "meta") == Some(meta)
  {
    var data := DeletedPayloadShape(meta);
    assert ClassifyFixed(data) == Success(NullData);
    assert InterceptFixed(data, route, req) == Success(CreateDocument(JNull, req, Some(meta)));
    CreateDocumentFields(JNull, req, Some(meta), "");
  }

  /** The corrected assembler answers every non-paginated `{data: null}`
      payload with `data: null` and the payload's truthy meta, and agrees
      with the source on every other payload. */
  lemma InterceptFixedIntended(data: Json, route: RouteMeta, req: Request)
    ensures Truthy(data) && route.serialize != Some(false) && NotPaginated(data) && WrapsNull(data) ==>
      && InterceptFixed(data, route, req).Success?
      && Get(InterceptFixed(data, route, req).value, "data") == Some(JNull)
      && Get(InterceptFixed(data, route, req).value, "meta") ==
           (if TruthyOpt(Get(data, "meta")) then Get(data, "meta") else None)
    ensures !WrapsNull(data) ==> InterceptFixed(data, route, req) == Intercept(data, route, req)
  {
    if Truthy(data) && route.serialize != Some(false) && NotPaginated(data) && WrapsNull(data) {
      assert ClassifyFixed(data) == Success(NullData);
      assert InterceptFixed(data, route, req) == Success(CreateDocument(JNull, req, Get(data, "meta")));
      CreateDocumentFields(JNull, req, Get(data, "meta"), "");
    }
  }
}
