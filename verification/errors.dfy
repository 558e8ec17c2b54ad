/** The catch-all exception filter (jsonapi-error.filter.ts): turns whatever
    was thrown into an HTTP status and a JSON:API 1.1 error document. */
module ErrorFilter {
  import opened Wrappers
  import opened Text
  import opened Json
  import opened Requests
  import Document

  /** What reaches the filter: an `HttpException` (its status, its
      `getResponse()` payload and its `message`), any other `Error`, or a
      thrown value that is not an `Error`. */
  datatype Exception =
    | HttpException(status: int, response: Json, message: string)
    | PlainError(message: string)
    | Thrown(value: Json)

  /** One JSON:API error object; `source` is left out when undefined. */
  datatype ErrorObject = ErrorObject(status: string, title: Json, detail: Json, source: Option<Json>)

  /** The HTTP status the filter answers with. */
  function StatusOf(ex: Exception): int {
    if ex.HttpException? then ex.status else 500
  }

  /** A `message` array element that yields an entry: `typeof` is
      `'string'` or `'object'` (which includes arrays and `null`). */
  predicate YieldsEntry(msg: Json) {
    msg.JStr? || msg.JObj? || msg.JArr? || msg.JNull?
  }

  /** `exceptionResponse.error || 'Validation Error'`. */
  function ValidationTitle(resp: Json): Json {
    OrElse(Get(resp, "error"), JStr("Validation Error"))
  }

  /** `{ pointer: '/data/attributes/' + property }`. */
  function AttributePointer(property: Json): Json {
    JObj([("pointer", JStr("/data/attributes/" + JsString(property)))])
  }

  /** `msg.source || (msg.property ? pointer : undefined)`. */
  function SourceOf(msg: Json): Option<Json> {
    if TruthyOpt(Get(msg, "source")) then Get(msg, "source")
    else if TruthyOpt(Get(msg, "property")) then Some(AttributePointer(Get(msg, "property").value))
    else None
  }

  /** The entry for one element of a `message` array. A `null` element
      throws a `TypeError` when its `title` is read. `stringify` stands for
      `JSON.stringify`. */
  function EntryFor(msg: Json, resp: Json, status: int, stringify: Json -> string): (r: Result<ErrorObject>)
    requires YieldsEntry(msg)
    ensures r.Failure? <==> msg == JNull
    ensures r.Success? ==> r.value.status == IntToString(status)
  {
    match msg
    case JStr(s) => Success(ErrorObject(IntToString(status), ValidationTitle(resp), JStr(s), None))
    case JNull => Failure("Cannot read properties of null (reading 'title')")
    case _ =>
      Success(ErrorObject(
        IntToString(status),
        OrElse(Get(msg, "title"), ValidationTitle(resp)),
        OrElse(Get(msg, "detail"), OrElse(Get(msg, "message"), JStr(stringify(msg)))),
        SourceOf(msg)))
  }

  /** The elements of a `message` array that yield an entry, in order. */
  function Kept(msgs: seq<Json>): (ks: seq<Json>)
    ensures forall i :: 0 <= i < |ks| ==> YieldsEntry(ks[i])
    ensures forall m :: m in ks <==> m in msgs && YieldsEntry(m)
    decreases |msgs|
  {
    if |msgs| == 0 then []
    else if YieldsEntry(msgs[0]) then [msgs[0]] + Kept(msgs[1..])
    else Kept(msgs[1..])
  }

  /** The `forEach` over a `message` array, pushing one entry per string or
      object element. */
  function FromMessages(msgs: seq<Json>, resp: Json, status: int, stringify: Json -> string)
    : Result<seq<ErrorObject>>
    decreases |msgs|
  {
    if |msgs| == 0 then Success([])
    else if !YieldsEntry(msgs[0]) then FromMessages(msgs[1..], resp, status, stringify)
    else
      match EntryFor(msgs[0], resp, status, stringify)
      case Failure(e) => Failure(e)
      case Success(entry) =>
        match FromMessages(msgs[1..], resp, status, stringify)
        case Failure(e) => Failure(e)
        case Success(rest) => Success([entry] + rest)
  }

  /** The loop yields exactly one entry per kept element, in order, each
      the entry for that element; it throws exactly when an element is
      `null`. Numbers and booleans are dropped. */
  lemma {:induction false} FromMessagesIsEntryPerKeptElement(
    msgs: seq<Json>, resp: Json, status: int, stringify: Json -> string)
    ensures var r := FromMessages(msgs, resp, status, stringify);
      var ks := Kept(msgs);
      && (r.Failure? <==> JNull in msgs)
      && (r.Success? ==> |r.value| == |ks|)
      && (r.Success? ==>
            forall i :: 0 <= i < |ks| ==> EntryFor(ks[i], resp, status, stringify) == Success(r.value[i]))
    decreases |msgs|
  {
    if |msgs| > 0 {
      var rest := msgs[1..];
      FromMessagesIsEntryPerKeptElement(rest, resp, status, stringify);
      assert msgs == [msgs[0]] + rest;
      var t := FromMessages(rest, resp, status, stringify);
      if !YieldsEntry(msgs[0]) {
        assert Kept(msgs) == Kept(rest);
        assert FromMessages(msgs, resp, status, stringify) == t;
      } else {
        var ks := Kept(msgs);
        assert ks == [msgs[0]] + Kept(rest);
        var e := EntryFor(msgs[0], resp, status, stringify);
        if e.Success? && t.Success? {
          var r := [e.value] + t.value;
          assert FromMessages(msgs, resp, status, stringify) == Success(r);
          forall i | 0 <= i < |ks|
            ensures EntryFor(ks[i], resp, status, stringify) == Success(r[i])
          {
            if i > 0 {
              assert ks[i] == Kept(rest)[i - 1];
            }
          }
        }
      }
    }
  }

  /** `transformHttpExceptionToJsonApiErrors` on an object-like payload. */
  function HttpErrors(resp: Json, status: int, stringify: Json -> string): (r: Result<seq<ErrorObject>>)
    ensures r.Failure? ==>
      var m := Get(resp, "message"); m.Some? && m.value.JArr? && JNull in m.value.elems
    ensures r.Success? ==> forall i :: 0 <= i < |r.value| ==> r.value[i].status == IntToString(status)
  {
    var m := Get(resp, "message");
    if m.Some? && m.value.JArr? then
      FromMessagesIsEntryPerKeptElement(m.value.elems, resp, status, stringify);
      FromMessages(m.value.elems, resp, status, stringify)
    else
      Success([ErrorObject(IntToString(status), OrElse(Get(resp, "error"), JStr("Error")),
                           OrElse(m, JStr("An error occurred")), Get(resp, "source"))])
  }

  /** The error entries for any exception. */
  function Errors(ex: Exception, stringify: Json -> string): (r: Result<seq<ErrorObject>>)
    ensures !(ex.HttpException? && IsObjectLike(ex.response)) ==> r.Success? && |r.value| == 1
    ensures r.Success? ==> forall i :: 0 <= i < |r.value| ==> r.value[i].status == IntToString(StatusOf(ex))
  {
    match ex
    case HttpException(status, resp, message) =>
      if IsObjectLike(resp) then HttpErrors(resp, status, stringify)
      else Success([ErrorObject(IntToString(status), JStr(message), JStr(JsString(resp)), None)])
    case PlainError(message) =>
      Success([ErrorObject(IntToString(500), JStr("Internal Server Error"), JStr(message), None)])
    case Thrown(_) =>
      Success([ErrorObject(IntToString(500), JStr("Unknown Error"), JStr("An unknown error occurred"), None)])
  }

  /** The filter throws only on a `null` element of a `message` array. */
  predicate MessageHasNull(ex: Exception) {
    && ex.HttpException?
    && IsObjectLike(ex.response)
    && Get(ex.response, "message").Some?
    && Get(ex.response, "message").value.JArr?
    && JNull in Get(ex.response, "message").value.elems
  }

  /** One error object as JSON: `status`, `title`, `detail`, then `source`
      when defined. */
  function ErrorJson(e: ErrorObject): Json {
    JObj([("status", JStr(e.status)), ("title", e.title), ("detail", e.detail)]
         + (if e.source.Some? then [("source", e.source.value)] else []))
  }

  /** Reads an error object back from its JSON form. */
  function ReadErrorJson(j: Json): Option<ErrorObject> {
    var status := Get(j, "status");
    var title := Get(j, "title");
    var detail := Get(j, "detail");
    if status.Some? && status.value.JStr? && title.Some? && detail.Some?
    then Some(ErrorObject(status.value.s, title.value, detail.value, Get(j, "source")))
    else None
  }

  /** No error object is lost in its JSON form. */
  lemma ErrorJsonReadsBack(e: ErrorObject)
    ensures ReadErrorJson(ErrorJson(e)) == Some(e)
  {
    var fs := ErrorJson(e).fields;
    LookupCons(fs, "status");
    LookupCons(fs, "title");
    LookupCons(fs, "detail");
    LookupCons(fs, "source");
    LookupCons(fs[1..], "title");
    LookupCons(fs[1..], "detail");
    LookupCons(fs[1..], "source");
    LookupCons(fs[2..], "detail");
    LookupCons(fs[2..], "source");
    assert fs[3..] == if e.source.Some? then [("source", e.source.value)] else [];
  }

  /** The error document: `jsonapi`, `errors`, and the request's absolute
      URL as `links.about`. */
  function ErrorDocument(errors: seq<ErrorObject>, req: Request): (r: Json)
    ensures r.JObj? && UniqueKeys(r.fields)
  {
    var r := JObj([("jsonapi", Document.JsonApiObject),
                   ("errors", JArr(seq(|errors|, i requires 0 <= i < |errors| => ErrorJson(errors[i])))),
                   ("links", JObj([("about", JStr(SelfUrl(req)))]))]);
    assert Keys(r.fields) == ["jsonapi", "errors", "links"];
    r
  }

  /** `catch(exception, host)`: the status passed to `response.status` and
      the document passed to `json`. */
  function Catch(ex: Exception, req: Request, stringify: Json -> string): (r: Result<(int, Json)>)
    ensures r.Failure? <==> MessageHasNull(ex)
    ensures r.Success? ==> r.value.0 == StatusOf(ex)
  {
    if MessageHasNull(ex) then
      FromMessagesIsEntryPerKeptElement(Get(ex.response, "message").value.elems, ex.response, ex.status, stringify);
      Failure(Errors(ex, stringify).error)
    else
      FromMessagesFailsOnNullOnly(ex, stringify);
      var errors := Errors(ex, stringify).value;
      Success((StatusOf(ex), ErrorDocument(errors, req)))
  }

  lemma FromMessagesFailsOnNullOnly(ex: Exception, stringify: Json -> string)
    ensures Errors(ex, stringify).Failure? <==> MessageHasNull(ex)
  {
    if ex.HttpException? && IsObjectLike(ex.response) {
      var m := Get(ex.response, "message");
      if m.Some? && m.value.JArr? {
        FromMessagesIsEntryPerKeptElement(m.value.elems, ex.response, ex.status, stringify);
      }
    }
  }

  /** Every entry's `status` is the response status in decimal, and there
      is at least one entry unless the payload's `message` array yields
      none. */
  lemma ErrorsCarryStatus(ex: Exception, stringify: Json -> string)
    ensures var r := Errors(ex, stringify);
      && (r.Success? ==> forall i :: 0 <= i < |r.value| ==> r.value[i].status == IntToString(StatusOf(ex)))
      && (r.Success? && |r.value| == 0 ==>
            ex.HttpException? && IsObjectLike(ex.response) && Get(ex.response, "message").Some?
            && Get(ex.response, "message").value.JArr? && Kept(Get(ex.response, "message").value.elems) == [])
  {
    if ex.HttpException? && IsObjectLike(ex.response) {
      var m := Get(ex.response, "message");
      if m.Some? && m.value.JArr? {
        FromMessagesIsEntryPerKeptElement(m.value.elems, ex.response, ex.status, stringify);
      }
    }
  }

  /** A string element is detailed by itself under the payload's `error`
      title, defaulting to `Validation Error`; an object element prefers
      its own title, its own `detail`, then its `message`, then its
      serialisation, and points at `/data/attributes/<property>` when it
      names a property but gives no source. */
  lemma EntryDefaults(msg: Json, resp: Json, status: int, stringify: Json -> string)
    requires YieldsEntry(msg) && msg != JNull
    ensures var e := EntryFor(msg, resp, status, stringify).value;
      && (msg.JStr? ==> e.detail == msg && e.source.None?)
      && (msg.JStr? && !TruthyOpt(Get(resp, "error")) ==> e.title == JStr("Validation Error"))
      && (!msg.JStr? && !TruthyOpt(Get(msg, "title")) && !TruthyOpt(Get(resp, "error")) ==>
            e.title == JStr("Validation Error"))
      && (!msg.JStr? && TruthyOpt(Get(msg, "title")) ==> e.title == Get(msg, "title").value)
      && (!msg.JStr? && !TruthyOpt(Get(msg, "detail")) && !TruthyOpt(Get(msg, "message")) ==>
            e.detail == JStr(stringify(msg)))
      && (!msg.JStr? && !TruthyOpt(Get(msg, "source")) && TruthyOpt(Get(msg, "property")) ==>
            e.source == Some(AttributePointer(Get(msg, "property").value)))
      && (!msg.JStr? && !TruthyOpt(Get(msg, "source")) && !TruthyOpt(Get(msg, "property")) ==>
            e.source.None?)
  {
  }

  /** An object-like payload without a `message` array gives exactly one
      entry, titled by its `error` or `Error`, detailed by its `message` or
      `An error occurred`, with its `source` copied. */
  lemma SingleEntryPayload(status: int, resp: Json, message: string, stringify: Json -> string)
    requires IsObjectLike(resp)
    requires !(Get(resp, "message").Some? && Get(resp, "message").value.JArr?)
    ensures var r := Errors(HttpException(status, resp, message), stringify);
      && r.Success? && |r.value| == 1
      && r.value[0].title == OrElse(Get(resp, "error"), JStr("Error"))
      && r.value[0].detail == OrElse(Get(resp, "message"), JStr("An error occurred"))
      && r.value[0].source == Get(resp, "source")
  {
  }

  /** A primitive payload gives one entry titled by the exception's
      message and detailed by the payload as text; a plain `Error` gives
      500 `Internal Server Error` with its message; anything else gives 500
      `Unknown Error`. */
  lemma NonObjectExceptions(ex: Exception, stringify: Json -> string)
    requires !(ex.HttpException? && IsObjectLike(ex.response))
    ensures var r := Errors(ex, stringify);
      && r.Success? && |r.value| == 1
      && (ex.HttpException? ==> r.value[0].title == JStr(ex.message) && r.value[0].detail == JStr(JsString(ex.response)))
      && (ex.PlainError? ==> StatusOf(ex) == 500 && r.value[0] == ErrorObject("500", JStr("Internal Server Error"), JStr(ex.message), None))
      && (ex.Thrown? ==> StatusOf(ex) == 500 && r.value[0].title == JStr("Unknown Error")
                         && r.value[0].detail == JStr("An unknown error occurred"))
  {
  }

  /** The document holds `jsonapi.version` 1.1, one JSON error object per
      entry in order, and `links.about` pointing at the request. */
  lemma ErrorDocumentFields(errors: seq<ErrorObject>, req: Request)
    ensures var doc := ErrorDocument(errors, req);
      && Get(doc, "jsonapi") == Some(Document.JsonApiObject)
      && Get(doc, "links") == Some(JObj([("about", JStr(SelfUrl(req)))]))
      && Get(doc, "errors").Some? && Get(doc, "errors").value.JArr?
      && |Get(doc, "errors").value.elems| == |errors|
      && forall i :: 0 <= i < |errors| ==> ReadErrorJson(Get(doc, "errors").value.elems[i]) == Some(errors[i])
  {
    var fs := ErrorDocument(errors, req).fields;
    LookupCons(fs, "jsonapi");
    LookupCons(fs, "errors");
    LookupCons(fs, "links");
    LookupCons(fs[1..], "errors");
    LookupCons(fs[1..], "links");
    LookupCons(fs[2..], "links");
    forall i | 0 <= i < |errors|
      ensures ReadErrorJson(Get(ErrorDocument(errors, req), "errors").value.elems[i]) == Some(errors[i])
    {
      ErrorJsonReadsBack(errors[i]);
    }
  }
}
