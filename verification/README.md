# JSON:API response pipeline — a Dafny model

This project models how the NestJS application `learn-nestjs` shapes its HTTP
answers into JSON:API 1.1 documents. It covers the following parts.

- **Document** models the global `JsonApiInterceptor`. It sorts a handler's
  result into one of several shapes: paginated, `{data: x}`, `{data: [...]}`,
  a bare resource, a bare array, or anything else. It then builds the
  top-level document (`jsonapi`, `data`, `meta`, `links`), turns raw records
  into resource objects, and derives the pagination meta and links.
- **LinkInterceptor**, **LinkGen** and **LinkDefs** model the per-controller
  `ResourceLinksInterceptor`. That interceptor turns records into resource
  items and attaches the links and relationships declared with
  `@ResourceLinks` and `@ResourceRelationships`. The definition helpers
  (`selfLink`, `updateLink`, `deleteLink`, `relatedLink`, `nestedLink`,
  `relationship`) come from `resource-links.decorator.ts`.
- **Pagination** models `PaginationService`: `generateMeta`, plus
  `generateLinks` over a model of the `URLSearchParams` `set` operation.
- **PageQuery** models the `@Pagination()` parameter decorator. That covers
  `parseInt`, the defaults and the clamping.
- **ResourceLinksService** models the relative resource links and resource
  items.
- **ErrorFilter** models the catch-all `JsonApiErrorFilter`.
- **Requests** models the URL pieces of `RequestContextService`. The
  interceptors and the filter compute the same pieces.
- **Pipeline** models one request end to end. The order is taken from the
  way the end-to-end test wires the application:
  1. The handler's outcome goes through the controller's
     `ResourceLinksInterceptor`, which is the inner interceptor.
  2. It then goes through the global `JsonApiInterceptor`, the outer one.
  3. Anything thrown on the way reaches `JsonApiErrorFilter`.

JSON values are the `Json` datatype. Objects keep their keys in insertion
order (JavaScript's own order for keys that are not array indices, see Left
out), and JavaScript's `undefined` is an absent key. The checks JavaScript
performs (truthiness, `typeof`, `in`, `String(x)`, `Math.ceil`, and `<` on
numbers, `null` and booleans) are written out in `json.dfy`; a string
operand of `<`, `/`, `+ 1` or `- 1` is treated as NaN (see Left out). A `TypeError` the source would throw is a
`Failure` carrying the engine's message.

The pipeline uses the corrected assembler, `Document.InterceptFixed` (see
Findings). `Pipeline.PlainRecordsServedAsObjects` proves one consequence of
the code as written: on a controller that uses the links interceptor, a
record with no `type` is typed from its constructor's name. For a
deserialised plain object that name is `object`. The assembler then treats
the item as an already-formatted resource and leaves it alone, so the
route's path-derived type (for example `examples`, which the end-to-end test
expects) never reaches it.

`hasPrev` in `PaginationService` is `page > 1` and looks at nothing else, so
a listing with no rows requested at page 3 still gets a `prev` link, while
`first`, `last` and `next` are absent. `Pagination.EmptyListingLinks` states
this.

## Model

| member | source | states |
|---|---|---|
| Document.FirstNonEmpty | src/interceptors/jsonapi.interceptor.ts:276-281 | the segment found is non-empty and one of the path's segments; nothing is found exactly when every segment is empty |
| Document.FirstNonEmptyIsFirst | src/interceptors/jsonapi.interceptor.ts:276-281 | the segment found is the first non-empty one: every segment before it is empty |
| Document.InferResourceType | src/interceptors/jsonapi.interceptor.ts:273-290 | the inferred type is always truthy, thanks to the `resources` fallback |
| Document.ResourceType | src/interceptors/jsonapi.interceptor.ts:62-66 | the resource type used for a payload is always truthy |
| Document.ResourceTypePrecedence | src/interceptors/jsonapi.interceptor.ts:273-290 | a declared type wins; otherwise the first non-empty path segment, which holds no `/`; otherwise the payload's truthy `type`, then `resources` |
| Document.TransformToResource | src/interceptors/jsonapi.interceptor.ts:129-166 | the result is the item itself or an object |
| Document.TransformedResource | src/interceptors/jsonapi.interceptor.ts:138-165 | a raw item's resource has the item's truthy `type` (else the route's), `String(id)`, an `attributes` member exactly when the item has a key outside the five reserved ones (holding exactly those keys), the truthy links/relationships/meta, and nothing else |
| Document.TransformPassesThrough | src/interceptors/jsonapi.interceptor.ts:129-136 | falsy items, primitives and already formatted resources are returned unchanged |
| Document.RetransformBare | src/interceptors/jsonapi.interceptor.ts:134-165 | a resource built without attributes is rebuilt as itself by a second pass, whatever the second route type |
| Document.RetransformFull | src/interceptors/jsonapi.interceptor.ts:134-136 | a resource built with attributes counts as already formatted |
| Document.TransformIdempotent | src/interceptors/jsonapi.interceptor.ts:129-166 | transforming twice equals transforming once, for an item whose `id` does not render empty |
| Document.CreateDocument | src/interceptors/jsonapi.interceptor.ts:244-271 | the top-level document is an object with no member name twice (its members are stated by `Document.CreateDocumentFields`) |
| Document.CreateDocumentFields | src/interceptors/jsonapi.interceptor.ts:244-271 | the document holds `jsonapi.version` 1.1, the data, the meta only when truthy, and `links.self` set to the absolute request URL, and no other member |
| Document.PageMeta | src/interceptors/jsonapi.interceptor.ts:187-198 | `meta.page` is an object with no member name twice; for a meta such as `{page: 2}`, with no total, limit or totalPages, it is `{total: 0, size: 10, number: <page, default 1>, totalPages: 0}` |
| Document.PageMetaFields | src/interceptors/jsonapi.interceptor.ts:187-198 | `meta.page` echoes total (default 0), limit as size (default 10), page as number (default 1), and the given `totalPages`, else the ceiling of total/size |
| Document.CeilDivJsPages | src/interceptors/jsonapi.interceptor.ts:194-196 | for integer total and positive integer size, the computed page count is the least number of pages holding the total |
| Document.PaginationLinks | src/interceptors/jsonapi.interceptor.ts:212-242 | the generated links are distinct names, each a URL string, and `self` is always among them |
| Document.LinkSetWellFormed | src/interceptors/jsonapi.interceptor.ts:219-241 | a link set led by `self` and extended by `first`/`last`, `next` and `prev` never repeats a name and holds only strings |
| Document.PaginationLinksShape | src/interceptors/jsonapi.interceptor.ts:212-242 | `self` points at the page (default 1); `first`/`last` appear iff `totalPages > 1`; `next` iff `page < totalPages`; `prev` iff `page > 1` under JavaScript's comparison; every URL carries the limit (default 10); no other key |
| Document.PaginatedDocument | src/interceptors/jsonapi.interceptor.ts:168-210 | the paginated document is an object with no member name twice (its members are stated by `Document.PaginatedDocumentFields`) |
| Document.PaginatedDocumentFields | src/interceptors/jsonapi.interceptor.ts:168-210 | a paginated document holds the transformed array (empty for a non-array), `meta.page`, the payload's own truthy links or else generated ones, and nothing else |
| Document.IsPaginated | src/interceptors/jsonapi.interceptor.ts:110-119 | the probe throws exactly on a truthy primitive meta; a positive answer implies `data` is present and `meta` truthy |
| Document.Classify | src/interceptors/jsonapi.interceptor.ts:69-107 | classification fails exactly when the paginated probe throws, and never yields the null-data shape |
| Document.ClassifyFixed | src/interceptors/jsonapi.interceptor.ts:69-107 | the corrected classification fails exactly where the original does |
| Document.ClassifyFixedAgrees | src/interceptors/jsonapi.interceptor.ts:69-107 | the corrected classification equals the original one except on a non-paginated `{data: null}` |
| Document.TransformToJsonApi | src/interceptors/jsonapi.interceptor.ts:55-108 | the transformation throws exactly when the paginated probe throws |
| Document.TransformToJsonApiFixed | src/interceptors/jsonapi.interceptor.ts:55-108 | the corrected transformation throws exactly where the original does |
| Document.Intercept | src/interceptors/jsonapi.interceptor.ts:34-52 | an explicit `false` serialize flag returns the payload untouched; otherwise it fails only when the probe throws |
| Document.InterceptFixed | src/interceptors/jsonapi.interceptor.ts:34-52 | the corrected interceptor keeps the same bypass and the same failure condition |
| Document.InterceptFalsy | src/interceptors/jsonapi.interceptor.ts:46-48 | a falsy payload becomes `{jsonapi, data: null, links: {self}}` with no meta |
| Document.InterceptCarriesVersion | src/interceptors/jsonapi.interceptor.ts:44-51 | every serialized document carries `jsonapi.version` 1.1, whatever its shape |
| Document.InterceptPaginated | src/interceptors/jsonapi.interceptor.ts:69-71 | a paginated payload gets the transformed array, `meta.page` and the given or generated links |
| Document.InterceptWrappedSingle | src/interceptors/jsonapi.interceptor.ts:74-77 | `{data: x}` gives the transformed `x`, the truthy meta and the self link |
| Document.InterceptWrappedArray | src/interceptors/jsonapi.interceptor.ts:80-90 | `{data: [...]}` gives one transformed resource per element, in order, with the truthy meta and the self link |
| Document.InterceptDirectResource | src/interceptors/jsonapi.interceptor.ts:93-96 | an object with an `id` and no truthy `data` is itself transformed, with no meta |
| Document.InterceptBareArray | src/interceptors/jsonapi.interceptor.ts:99-104 | a bare array gives one transformed resource per element, in order, with no meta |
| Document.InterceptFallback | src/interceptors/jsonapi.interceptor.ts:107 | any other truthy payload is the document's data as it is |
| Document.DeletedPayloadAsWritten | src/interceptors/jsonapi.interceptor.ts:69-107 | as written, `{data: null, meta}` without page/total becomes data of its own document and its meta is lost |
| Document.DeletedPayloadFixed | src/interceptors/jsonapi.interceptor.ts:69-107 | corrected, the same payload gives `data: null` and keeps the meta |
| Document.InterceptFixedIntended | src/interceptors/jsonapi.interceptor.ts:74-77 | corrected, every non-paginated `{data: null}` answers `data: null` with its truthy meta; every other payload is answered as the source does |
| LinkDefs.SelfLink | src/decorators/resource-links.decorator.ts:38-47 | named `self`, GET, titled `Self`, unconditional, always resolving to the resource's member URL |
| LinkDefs.UpdateLink | src/decorators/resource-links.decorator.ts:52-61 | named `update`, PATCH, titled `Update`, unconditional, always resolving to the member URL |
| LinkDefs.DeleteLink | src/decorators/resource-links.decorator.ts:66-75 | named `delete`, DELETE, titled `Delete`, unconditional, always resolving to the member URL |
| LinkDefs.MemberLinksShareHref | src/decorators/resource-links.decorator.ts:38-75 | the three member links resolve alike; the type segment is the given type, else the resource's truthy type, else `resource` |
| LinkDefs.RelatedLink | src/decorators/resource-links.decorator.ts:80-93 | GET, titled `Related <type>`, keeps its condition, and resolves to `<base>/<type>` independently of the resource |
| LinkDefs.NestedLink | src/decorators/resource-links.decorator.ts:98-114 | the method defaults to GET, the title is the capitalised name, and the URL is `<base>/<type>/<id>/<path>` |
| Text.Capitalize | src/decorators/resource-links.decorator.ts:112 | `charAt(0).toUpperCase() + slice(1)`: same length, the first letter upper-cased (ASCII) and the rest unchanged; the empty name stays empty |
| LinkDefs.Relationship | src/decorators/resource-links.decorator.ts:119-134 | the caller's truthy href is kept; otherwise the href resolves to `<base>/<type>` |
| LinkGen.CollectUniqueKeys | src/interceptors/resource-links.interceptor.ts:158-186 | the generated object never holds a name twice |
| LinkGen.CollectKeys | src/interceptors/resource-links.interceptor.ts:158-186 | the keys are the names that produced a value, in order of first production |
| LinkGen.CollectHas | src/interceptors/resource-links.interceptor.ts:158-186 | a name is present iff some definition of that name produced a value |
| LinkGen.CollectLastWins | src/interceptors/resource-links.interceptor.ts:177-184 | a name holds the value of the last definition of that name that produced one |
| LinkGen.CollectProvenance | src/interceptors/resource-links.interceptor.ts:158-186 | every generated member was produced by some definition |
| LinkGen.LinkValue | src/interceptors/resource-links.interceptor.ts:176-185 | without method, title or description the link is the bare href; otherwise an object holding `href` and exactly the truthy extras |
| LinkGen.LinkObject | src/interceptors/resource-links.interceptor.ts:177-182 | the link object's keys are `href` and the truthy extras, in that order, with their values |
| LinkGen.Emitted | src/interceptors/resource-links.interceptor.ts:159-185 | a definition emits iff its condition admits the resource and its href is not `null`, and then emits its link value |
| LinkGen.GenerateLinks | src/interceptors/resource-links.interceptor.ts:154-156 | without definitions or without a request, no links are generated |
| LinkGen.GenerateLinksKeys | src/interceptors/resource-links.interceptor.ts:147-189 | link names are unique, and a name is present iff a definition of that name emits |
| LinkGen.GenerateLinksOrderAndOverride | src/interceptors/resource-links.interceptor.ts:158-186 | keys follow declaration order, and the last emitting definition of a name wins |
| LinkGen.RelValueLinks | src/interceptors/resource-links.interceptor.ts:209-216 | a relationship's `self` and `related` links are the same href |
| LinkGen.GenerateRelationshipsShape | src/interceptors/resource-links.interceptor.ts:191-220 | names are unique; a name is present iff some admitted definition has it; every relationship's `self` equals its `related` |
| LinkInterceptor.ExtractAttributes | src/interceptors/resource-links.interceptor.ts:237-240 | the attributes are every own member except type, id, links and relationships (meta is kept), with their values |
| LinkInterceptor.MergeLookup | src/interceptors/resource-links.interceptor.ts:108 | in `{...prior, ...added}` an added key wins and every other prior key survives |
| LinkInterceptor.MergeIntoGet | src/interceptors/resource-links.interceptor.ts:107-115 | merging into one member changes no other member, and nothing when nothing was generated |
| LinkInterceptor.AddLinksAndRelationships | src/interceptors/resource-links.interceptor.ts:99-104 | anything but an object with truthy `type` and `id` is returned unchanged |
| LinkInterceptor.AddLinksAndRelationshipsFrame | src/interceptors/resource-links.interceptor.ts:99-119 | decoration changes only `links` and `relationships`, and an object stays an object |
| LinkInterceptor.AddedLinksMerge | src/interceptors/resource-links.interceptor.ts:105-109 | a generated link name holds the generated link; every other old link survives |
| LinkInterceptor.AddedRelationshipsMerge | src/interceptors/resource-links.interceptor.ts:111-116 | relationships change only when the route declares some, and then merge the same way |
| LinkInterceptor.ConstructorType | src/interceptors/resource-links.interceptor.ts:222-226 | the inferred type is never empty, and it is `object` exactly for a plain object |
| LinkInterceptor.TransformResourceItem | src/interceptors/resource-links.interceptor.ts:122-145 | the item fails exactly when it is `null` (a TypeError reading `type`), and otherwise becomes an object |
| LinkInterceptor.TransformResourceItemFields | src/interceptors/resource-links.interceptor.ts:128-142 | the item's truthy `type`, else the constructor name; its `id`; its attributes; its generated links; and relationships only for a declared list |
| LinkInterceptor.TransformAll | src/interceptors/resource-links.interceptor.ts:59-61 | mapping fails iff an element is `null`; otherwise one transformed item per element, in order |
| LinkInterceptor.Intercept | src/interceptors/resource-links.interceptor.ts:33-89 | a falsy payload passes through; a failure comes only from a `null` element of a wrapped array |
| LinkInterceptor.InterceptDocument | src/interceptors/resource-links.interceptor.ts:37-53 | in an assembled document every resource of `data` is decorated in place, and nothing else changes |
| LinkInterceptor.InterceptWrappedArray | src/interceptors/resource-links.interceptor.ts:56-63 | `{data: [...]}` becomes `{...data, data: items}`: it throws iff an element is `null`, and every other member is kept |
| LinkInterceptor.InterceptWrappedSingle | src/interceptors/resource-links.interceptor.ts:66-76 | `{data: x}` becomes `{...data, data: item(x)}` |
| LinkInterceptor.InterceptOtherwise | src/interceptors/resource-links.interceptor.ts:79-88 | a bare typed resource is transformed directly; any other payload is returned unchanged |
| Pagination.CeilDiv | src/services/pagination.service.ts:11 | the ceiling of `a / b`: the least `r` with `a <= r * b`, for either sign of `b` |
| Pagination.GenerateMeta | src/services/pagination.service.ts:10-21 | echoes total, page and limit; `totalPages` is the least page count holding the total; `hasNext` iff `page < totalPages`; `hasPrev` iff `page > 1` |
| Pagination.GenerateMetaPages | src/services/pagination.service.ts:10-21 | no rows means no pages, some rows mean at least one page, and a page holding rows is within the page count |
| Pagination.SetParam | src/services/pagination.service.ts:36-38 | after `set`, the name reads back the value just set |
| Pagination.SetParamSpec | src/services/pagination.service.ts:36-38 | `set` replaces the first pair of the name in place and drops the later ones, or appends when the name is absent |
| Pagination.SetParamFacts | src/services/pagination.service.ts:36-38 | after `set`, the name occurs once with the new value, and every other pair is as before |
| Pagination.BuildUrl | src/services/pagination.service.ts:35-40 | a built link is on the given path and its `limit` parameter reads back the limit |
| Pagination.BuildUrlLinksTo | src/services/pagination.service.ts:35-40 | a built link is on the current path, with one `page` reading back as the page number, one `limit`, and the additional parameters kept in order |
| Pagination.RenderStripsToPath | src/services/pagination.service.ts:39 | a rendered link cut at its first `?` is its path |
| Pagination.GenerateLinks | src/services/pagination.service.ts:23-60 | `self` is on the current path; `first` and `last` are present iff there is more than one page, `next` iff `hasNext`, `prev` iff `hasPrev` (targets in `Pagination.GenerateLinksTargets`) |
| Pagination.GenerateLinksTargets | src/services/pagination.service.ts:23-60 | `self` links to the current page; `first`/`last` appear iff there is more than one page and link to 1 and the last page; `next`/`prev` follow the meta flags and link to the neighbours |
| Pagination.GeneratedLinksRenderOnCurrentPath | src/services/pagination.service.ts:32-39 | every rendered link's path is the request's current path |
| Pagination.GeneratedLinksStayInRange | src/services/pagination.service.ts:10-60 | for generated meta with a page holding rows, every link targets a page from 1 to the page count |
| Pagination.EmptyListingLinks | src/services/pagination.service.ts:10-60 | with no rows, `first`, `last` are never emitted, `next` only for a negative page, and `prev` exactly when the page is beyond 1 |
| PageQuery.TrimStart | src/decorators/pagination.decorator.ts:9-10 | only leading white space is removed |
| PageQuery.DigitPrefix | src/decorators/pagination.decorator.ts:9-10 | the longest prefix of digits |
| PageQuery.ParseIntDecimal | src/decorators/pagination.decorator.ts:9-10 | `parseInt` yields a number iff a digit follows the white space and sign |
| PageQuery.ParseIntDecimalOfIntToString | src/decorators/pagination.decorator.ts:9-10 | `parseInt` reads back every integer's decimal rendering |
| PageQuery.AtLeastOne | src/decorators/pagination.decorator.ts:13 | `Math.max(1, n)` is at least 1, keeps values already at least 1, and keeps NaN |
| PageQuery.ClampLimit | src/decorators/pagination.decorator.ts:14 | the limit is between 1 and 100, in-range values are kept, and NaN stays NaN |
| PageQuery.ReadPagination | src/decorators/pagination.decorator.ts:4-16 | a page, when a number, is at least 1, and a limit is between 1 and 100 |
| PageQuery.ReadPaginationDefaults | src/decorators/pagination.decorator.ts:9-10 | absent or empty parameters default to 1 and 10; a present one is NaN iff `parseInt` finds no digit |
| PageQuery.ReadPaginationInRange | src/decorators/pagination.decorator.ts:9-15 | in-range decimal values pass unchanged |
| PageQuery.ReadPaginationClamps | src/decorators/pagination.decorator.ts:13-14 | out-of-range values are clamped to the nearest bound |
| PageQuery.ReadPaginationIdempotent | src/decorators/pagination.decorator.ts:9-15 | reading the decorator's own result back changes nothing |
| ResourceLinksService.GenerateResourceLinks | src/services/resource-links.service.ts:9-18 | self, update and delete are the same relative path starting at the root |
| ResourceLinksService.ResourcePath | src/services/resource-links.service.ts:11 | the path starts with `/`, is longer than the id, and ends with the id |
| ResourceLinksService.ResourcePathSegments | src/services/resource-links.service.ts:11 | the path's segments are the root, the plural type, and the id's own segments, which rejoin to the id |
| ResourceLinksService.ResourcePathInjective | src/services/resource-links.service.ts:11 | two resources share a path only when type and id agree, for types without `/` |
| ResourceLinksService.TransformToResourceItem | src/services/resource-links.service.ts:20-32 | fails exactly when the item is `null` |
| ResourceLinksService.TransformToResourceItemKeepsItem | src/services/resource-links.service.ts:24-31 | the item keeps its id, takes the given type and its links, and its attributes are every other member |
| ResourceLinksService.TransformToResourceItems | src/services/resource-links.service.ts:34-39 | fails iff an item is `null`; otherwise one transformed item per input, in order |
| ErrorFilter.EntryFor | src/filters/jsonapi-error.filter.ts:82-100 | an element fails exactly when it is `null`; every entry carries the status in decimal |
| ErrorFilter.Kept | src/filters/jsonapi-error.filter.ts:82-101 | exactly the string and `object`-typed elements are kept |
| ErrorFilter.FromMessagesIsEntryPerKeptElement | src/filters/jsonapi-error.filter.ts:81-101 | the loop yields one entry per kept element, in order, and fails iff an element is `null` |
| ErrorFilter.HttpErrors | src/filters/jsonapi-error.filter.ts:74-113 | on an object payload, building the entries fails only when `message` is an array holding `null`, and every entry carries the status in decimal |
| ErrorFilter.Errors | src/filters/jsonapi-error.filter.ts:22-59 | a primitive HTTP payload, a plain `Error` and any other thrown value give exactly one entry, and every entry carries the status the filter answers with |
| ErrorFilter.ErrorDocument | src/filters/jsonapi-error.filter.ts:61-69 | the error document is an object with no member name twice (its members are stated by `ErrorFilter.ErrorDocumentFields`) |
| ErrorFilter.ErrorJsonReadsBack | src/filters/jsonapi-error.filter.ts:61-71 | no error object is lost in its JSON form |
| ErrorFilter.Catch | src/filters/jsonapi-error.filter.ts:17-72 | the filter throws only on a `null` message element; otherwise it answers with the exception's status (500 for non-HTTP errors) |
| ErrorFilter.FromMessagesFailsOnNullOnly | src/filters/jsonapi-error.filter.ts:81-101 | building the entries fails iff a `message` array holds `null` |
| ErrorFilter.ErrorsCarryStatus | src/filters/jsonapi-error.filter.ts:22-59 | every entry carries the response status in decimal, and the list is empty only for a `message` array none of whose elements is a string or object-typed |
| ErrorFilter.EntryDefaults | src/filters/jsonapi-error.filter.ts:83-99 | a string element is its own detail under the `error` or `Validation Error` title; an object element takes its own title, detail, or source, with the filter's fallbacks to the message and to the element's serialisation |
| ErrorFilter.SingleEntryPayload | src/filters/jsonapi-error.filter.ts:102-110 | an object payload without a `message` array gives one entry with the `Error` and `An error occurred` fallbacks and its `source` |
| ErrorFilter.NonObjectExceptions | src/filters/jsonapi-error.filter.ts:34-58 | a primitive payload, a plain `Error` or any other thrown value gives exactly one entry: the exception's message over the rendered payload; `Internal Server Error` over the error's message with status 500; `Unknown Error` over `An unknown error occurred` with status 500 |
| ErrorFilter.ErrorDocumentFields | src/filters/jsonapi-error.filter.ts:61-69 | the document holds `jsonapi.version` 1.1, one JSON error per entry in order, and `links.about` set to the request URL |
| Requests.BaseUrl | src/services/request-context.service.ts:13-17 | the protocol and host used are never empty; the base URL starts with `<protocol>://` and ends with the host |
| Requests.CurrentPath | src/services/request-context.service.ts:19-22 | the current path holds no `?` and is a prefix of the request URL |
| Requests.FullBaseUrl | src/services/request-context.service.ts:24-26 | the full base URL extends the base URL, and holds no `?` when protocol and host hold none |
| Requests.BaseUrlFallbacks | src/services/request-context.service.ts:13-17 | the base URL is `<protocol>://<host>`, falling back to `http` and `localhost:3000` exactly when they are missing or empty |
| Requests.CurrentPathStripsQuery | src/services/request-context.service.ts:19-22 | the current path holds no `?` and is the request URL up to its first `?` |
| Requests.CurrentPathPrefersOriginalUrl | src/services/request-context.service.ts:19-22 | a non-empty `originalUrl` wins over `url` |
| Requests.FullBaseUrlIsSelfUrlWithoutQuery | src/services/request-context.service.ts:24-26 | the full base URL is the absolute request URL without its query |
| Pipeline.Serve | test/jsonapi.e2e-spec.ts:14-28 | a thrown exception is answered by the filter; the answer fails only on a `null` message element |
| Pipeline.InterceptorFailureIs500 | src/filters/jsonapi-error.filter.ts:43-50 | an exception inside either interceptor is answered 500 with one `Internal Server Error` entry; otherwise the route's status and the assembled document |
| Pipeline.SerializeOffBypassesAssembler | src/interceptors/jsonapi.interceptor.ts:40-42 | with serialization off, the answer is the payload as the links interceptor left it |
| Pipeline.FalsyPayloadServedAsEmptyDocument | src/interceptors/jsonapi.interceptor.ts:46-48 | a falsy payload is answered with `data: null`, no meta and the self link, with or without the links interceptor |
| Pipeline.LinkedItemKeepsInferredType | src/interceptors/resource-links.interceptor.ts:222-226 | a plain record without `type` is typed `object` by the links interceptor, and the assembler then leaves it as it is |
| Pipeline.WrappedRecordsLinked | src/interceptors/resource-links.interceptor.ts:56-63 | `{data: records}` becomes one linked item per record, in order, with no meta |
| Pipeline.PlainRecordsServedAsObjects | src/interceptors/resource-links.interceptor.ts:222-226 | every plain record of `{data: records}` is served with type `object`, whatever type the route declares |

## Left out

- The HTTP response object, `response.status(...).json(...)` and rxjs observables are left out. An answer is the returned status and body.
- The Reflector's handler-over-class metadata lookup is left out. A route's metadata is given directly as `Document.RouteMeta` or `LinkInterceptor.Route`.
- `JSON.stringify` is a parameter of the error filter (`stringify`), because its output depends on a serialiser the model does not define.
- Conditions and href resolvers in link definitions are uninterpreted functions of the resource and request, because user code supplies them.
- Percent-encoding and WHATWG URL normalisation are not modelled. `new URL(...)` and `URLSearchParams.toString()` are plain concatenation; query pairs are kept unencoded.
- Numbers are integers. Floating point and non-integer pages are not modelled. NaN is `None` where it can arise (`parseInt`, `Math.ceil` on missing values).
- Document.PaginationLinks: a string `page` or `totalPages` counts as NaN in `<`, `+ 1` and `- 1`, because `JsNum` does not parse strings. JavaScript converts a numeric string for `<` and `-` and concatenates for `+`. So for the example handler's meta `{total: 100, page: "2", limit: "5", totalPages: 20}` (it echoes the raw query strings of `GET /examples?page=2&limit=5`) the source emits `next` with `page=21` and `prev` with `page=1`, and the model emits neither.
- Document.PageMeta: when `totalPages` is not given, a string `total` or `limit` counts as NaN in `Math.ceil(total / limit)`, so `CeilDivJs(JStr("100"), JStr("5"))` is `JNull` where the source computes 20.
- PageQuery.ParseIntDecimal: only the ASCII white space that `parseInt` skips is modelled, not the Unicode space separators, because strings here carry no Unicode classes.
- PageQuery.ReadPagination: query parameters arrive as strings. Array-valued parameters (`?page=1&page=2`) are not modelled, because the model of the request query has one value per name.
- Pagination.GenerateMeta: requires `limit >= 1`. With limit 0 the source computes `Infinity` or `NaN`, which the integer model cannot represent. The decorator never produces such a limit from a numeric query.
- LinkInterceptor.ConstructorType: an object is typed `object` and an array `array`. Class instances, the `Dto` suffix stripping and the `tableName` fallback are not modelled, because handler results here are plain deserialised values.
- `undefined` members are modelled as absent keys, so a member explicitly set to `undefined` is indistinguishable from a missing one. The source's `in` tests do see such members: `{data: undefined, meta: {page: 1}}` is paginated in the source (empty `data`, `meta.page` and generated links), while the model classifies it as having no `data` and serves it through the fallback.
- LinkDefs.NestedLink: the title upper-cases only an ASCII first letter (`Text.Capitalize`). `toUpperCase` also maps other letters, `é` to `É` and `ß` to `SS`; for such names the model keeps the letter, and the source's title can be one character longer.
- Text.Capitalize: ASCII only, as above; its length-preserving ensures does not hold of `toUpperCase` on `ß`.
- LinkGen.CollectKeys: keys follow insertion order. JavaScript lists array-index names (`"0"`, `"12"`) first, in ascending numeric order, before the other names; a link or relationship named like an array index is placed differently by the source.
- LinkGen.GenerateLinksOrderAndOverride: the same key-order caveat; the last-wins part holds for every name.
- The application module's own global interceptor and filter (Zod serialisation and an HTTP exception filter) are not part of this model. The pipeline order is the one the end-to-end test registers.

## Findings

| source | as written | input that shows it | evidently intended | confidence | as-written member | corrected member |
|---|---|---|---|---|---|---|
| src/interceptors/jsonapi.interceptor.ts:69-107 | `{data: null, meta}` matches neither wrapped shape (its `data` is falsy) and has no `id`, so it falls through to the fallback: the whole payload becomes the document's `data` and the top-level meta is lost | the DELETE handler's `{data: null, meta: {deleted: true, deletedAt: ...}}` | `data: null` with the payload's meta at top level, as the handler's own comment and the end-to-end DELETE test expect | not executed | Document.DeletedPayloadAsWritten | Document.DeletedPayloadFixed |
