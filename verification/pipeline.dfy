/** One request through the response pipeline: the handler's outcome passes
    the controller's links interceptor (when the controller declares it,
    the inner interceptor), then the global document assembler (the outer
    one); whatever is thrown on the way, by the handler or by an
    interceptor, reaches the error filter. The assembler is the corrected
    one (see `Document.InterceptFixed`). */
module Pipeline {
  import opened Wrappers
  import opened Json
  import opened Requests
  import Text
  import LinkInterceptor
  import Document
  import ErrorFilter

  /** What the handler did: returned a payload or threw. */
  datatype Outcome = Returned(value: Json) | Raised(ex: ErrorFilter.Exception)

  /** What a route declares: the links interceptor's metadata when its
      controller uses that interceptor, the assembler's metadata, and the
      status of a successful answer (200, or 201 for a POST). */
  datatype Endpoint = Endpoint(
    links: Option<LinkInterceptor.Route>,
    doc: Document.RouteMeta,
    successStatus: int)

  /** The inner interceptor, when declared. */
  function Linked(v: Json, ep: Endpoint, req: Request): Result<Json> {
    if ep.links.Some? then LinkInterceptor.Intercept(v, ep.links.value, req) else Success(v)
  }

  /** The status and body sent for one request. An exception thrown inside
      an interceptor is an ordinary `Error` to the filter. */
  function Serve(outcome: Outcome, ep: Endpoint, req: Request, stringify: Json -> string)
    : (r: Result<(int, Json)>)
    ensures outcome.Raised? ==> r == ErrorFilter.Catch(outcome.ex, req, stringify)
    ensures r.Failure? ==> outcome.Raised? && ErrorFilter.MessageHasNull(outcome.ex)
  {
    match outcome
    case Raised(ex) => ErrorFilter.Catch(ex, req, stringify)
    case Returned(v) =>
      match Linked(v, ep, req)
      case Failure(msg) => ErrorFilter.Catch(ErrorFilter.PlainError(msg), req, stringify)
      case Success(v1) =>
        match Document.InterceptFixed(v1, ep.doc, req)
        case Failure(msg) => ErrorFilter.Catch(ErrorFilter.PlainError(msg), req, stringify)
        case Success(doc) => Success((ep.successStatus, doc))
  }

  /** The error document for an `Error` with this message. */
  function InternalError(msg: string, req: Request): Json {
    ErrorFilter.ErrorDocument([ErrorFilter.ErrorObject("500", JStr("Internal Server Error"), JStr(msg), None)], req)
  }

  /** When an interceptor throws, the answer is a 500 carrying one
      `Internal Server Error` entry with the thrown message; otherwise the
      answer has the route's success status and the assembled document. */
  lemma InterceptorFailureIs500(v: Json, ep: Endpoint, req: Request, stringify: Json -> string)
    ensures var r := Serve(Returned(v), ep, req, stringify);
      var linked := Linked(v, ep, req);
      && r.Success?
      && (linked.Failure? ==> r.value == (500, InternalError(linked.error, req)))
      && (linked.Success? && Document.InterceptFixed(linked.value, ep.doc, req).Failure? ==>
            r.value == (500, InternalError(Document.InterceptFixed(linked.value, ep.doc, req).error, req)))
      && (linked.Success? && Document.InterceptFixed(linked.value, ep.doc, req).Success? ==>
            r.value == (ep.successStatus, Document.InterceptFixed(linked.value, ep.doc, req).value))
  {
    var linked := Linked(v, ep, req);
    if linked.Failure? {
      PlainErrorIs500(linked.error, req, stringify);
    } else {
      var assembled := Document.InterceptFixed(linked.value, ep.doc, req);
      if assembled.Failure? {
        PlainErrorIs500(assembled.error, req, stringify);
      }
    }
  }

  /** The filter answers an `Error` with 500 and its message. */
  lemma PlainErrorIs500(msg: string, req: Request, stringify: Json -> string)
    ensures ErrorFilter.Catch(ErrorFilter.PlainError(msg), req, stringify) == Success((500, InternalError(msg, req)))
  {
    assert Text.IntToString(500) == "500";
    assert ErrorFilter.Errors(ErrorFilter.PlainError(msg), stringify)
        == Success([ErrorFilter.ErrorObject("500", JStr("Internal Server Error"), JStr(msg), None)]);
  }

  /** A route that switches serialization off answers with the payload as
      the links interceptor left it. */
  lemma SerializeOffBypassesAssembler(v: Json, ep: Endpoint, req: Request, stringify: Json -> string)
    requires ep.doc.serialize == Some(false) && Linked(v, ep, req).Success?
    ensures Serve(Returned(v), ep, req, stringify) == Success((ep.successStatus, Linked(v, ep, req).value))
    ensures ep.links.None? ==> Serve(Returned(v), ep, req, stringify) == Success((ep.successStatus, v))
  {
  }

  /** A falsy payload is answered with `data: null`, no meta and the self
      link, with or without the links interceptor. */
  lemma FalsyPayloadServedAsEmptyDocument(v: Json, ep: Endpoint, req: Request, stringify: Json -> string)
    requires !Truthy(v) && ep.doc.serialize != Some(false)
    ensures var r := Serve(Returned(v), ep, req, stringify);
      && r.Success? && r.value.0 == ep.successStatus
      && Get(r.value.1, "data") == Some(JNull) && Get(r.value.1, "meta") == None
      && Get(r.value.1, "links") == Some(Document.SelfLinks(req))
  {
    Document.CreateDocumentFields(JNull, req, None, "");
  }

  /** A plain record with an `id` and no `type` is typed by the links
      interceptor from its constructor, `object`, and the assembler then
      leaves it as it is: the route's declared type never reaches it. */
  lemma LinkedItemKeepsInferredType(item: Json, route: LinkInterceptor.Route, req: Request, rt: Json)
    requires item.JObj? && !TruthyOpt(Get(item, "type")) && TruthyOpt(Get(item, "id"))
    ensures var linked := LinkInterceptor.TransformResourceItem(item, route, req);
      && linked.Success?
      && Get(linked.value, "type") == Some(JStr("object"))
      && Document.TransformToResource(linked.value, rt) == linked.value
  {
    LinkInterceptor.TransformResourceItemFields(item, route, req);
    var linked := LinkInterceptor.TransformResourceItem(item, route, req).value;
    assert OrElse(Get(item, "type"), JStr(LinkInterceptor.ConstructorType(item))) == JStr("object");
    assert Document.IsFormatted(linked);
    Document.TransformPassesThrough(linked, rt);
  }

  /** The links interceptor on `{data: records}`: the records become
      resources, in order, and no meta appears. */
  lemma WrappedRecordsLinked(xs: seq<Json>, route: LinkInterceptor.Route, req: Request)
    requires forall i :: 0 <= i < |xs| ==> xs[i].JObj?
    ensures var r := LinkInterceptor.Intercept(JObj([("data", JArr(xs))]), route, req);
      && r.Success? && Get(r.value, "meta") == None
      && Get(r.value, "data").Some? && Get(r.value, "data").value.JArr?
      && |Get(r.value, "data").value.elems| == |xs|
      && forall i :: 0 <= i < |xs| ==>
           Success(Get(r.value, "data").value.elems[i]) == LinkInterceptor.TransformResourceItem(xs[i], route, req)
  {
    var v := JObj([("data", JArr(xs))]);
    LookupCons(v.fields, "data");
    LookupCons(v.fields, "jsonapi");
    LookupCons(v.fields, "meta");
    assert JNull !in xs by {
      forall i | 0 <= i < |xs| ensures xs[i] != JNull { }
    }
    LinkInterceptor.InterceptWrappedArray(v, route, req, "meta");
    AssignLookup([], v.fields, "meta");
  }

  /** `{data: records}` on a controller with the links interceptor: every
      record of the answer has type `object`, whatever type the route
      declares. */
  lemma PlainRecordsServedAsObjects(xs: seq<Json>, ep: Endpoint, req: Request, stringify: Json -> string)
    requires ep.links.Some? && ep.doc.serialize != Some(false)
    requires forall i :: 0 <= i < |xs| ==>
      xs[i].JObj? && !TruthyOpt(Get(xs[i], "type")) && TruthyOpt(Get(xs[i], "id"))
    ensures var r := Serve(Returned(JObj([("data", JArr(xs))])), ep, req, stringify);
      && r.Success? && r.value.0 == ep.successStatus
      && var out := Get(r.value.1, "data");
         && out.Some? && out.value.JArr? && |out.value.elems| == |xs|
         && forall i :: 0 <= i < |xs| ==> Get(out.value.elems[i], "type") == Some(JStr("object"))
  {
    var v := JObj([("data", JArr(xs))]);
    var route := ep.links.value;
    WrappedRecordsLinked(xs, route, req);
    var v1 := LinkInterceptor.Intercept(v, route, req).value;
    var ys := Get(v1, "data").value.elems;
    assert !Document.WrapsNull(v1);
    Document.InterceptFixedIntended(v1, ep.doc, req);
    assert Document.NotPaginated(v1);
    Document.InterceptWrappedArray(v1, ep.doc, req);
    var rt := Document.ResourceType(ep.doc, req, v1);
    forall i | 0 <= i < |xs|
      ensures Document.TransformToResource(ys[i], rt) == ys[i]
      ensures Get(ys[i], "type") == Some(JStr("object"))
    {
      LinkedItemKeepsInferredType(xs[i], route, req, rt);
    }
  }
}
