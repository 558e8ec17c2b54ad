/** The pagination calculator (pagination.service.ts): page metadata from a
    row count, and the self/first/last/next/prev link set over the current
    path. A link is its path and its ordered query parameters; rendering
    joins them with `?`, `=` and `&` and leaves percent-encoding out. */
module Pagination {
  import opened Wrappers
  import opened Text
  import opened Requests

  /** JavaScript's `Math.ceil(a / b)` on integers. */
  function CeilDiv(a: int, b: int): (r: int)
    requires b != 0
    ensures b > 0 ==> (r - 1) * b < a <= r * b
    ensures b < 0 ==> r * b <= a < (r - 1) * b
  {
    if b > 0 then
      var q := (-a) / b;
      assert -a == q * b + (-a) % b;
      -q
    else
      var q := a / (-b);
      assert a == q * (-b) + a % (-b);
      -q
  }

  datatype PaginationMeta = PaginationMeta(
    total: int,
    page: int,
    limit: int,
    totalPages: int,
    hasNext: bool,
    hasPrev: bool)

  /** `generateMeta(total, page, limit)`: the page count is the least one
      that covers `total` rows, and the inputs are echoed. */
  function GenerateMeta(total: int, page: int, limit: int): (m: PaginationMeta)
    requires limit >= 1
    ensures m.total == total && m.page == page && m.limit == limit
    ensures (m.totalPages - 1) * limit < total <= m.totalPages * limit
    ensures m.hasNext <==> page < m.totalPages
    ensures m.hasPrev <==> page > 1
  {
    var totalPages := CeilDiv(total, limit);
    PaginationMeta(total, page, limit, totalPages, page < totalPages, page > 1)
  }

  /** No rows means no pages; some rows mean at least one page, and a page
      number within the count leaves room for its neighbours exactly when
      it is not the last. */
  lemma GenerateMetaPages(total: int, page: int, limit: int)
    requires limit >= 1
    ensures total == 0 ==> GenerateMeta(total, page, limit).totalPages == 0
    ensures total > 0 ==> GenerateMeta(total, page, limit).totalPages >= 1
    ensures total >= 0 ==> GenerateMeta(total, page, limit).totalPages >= 0
    ensures 1 <= page && (page - 1) * limit < total ==>
      page <= GenerateMeta(total, page, limit).totalPages &&
      (GenerateMeta(total, page, limit).hasNext <==> page * limit < total)
  {
    var m := GenerateMeta(total, page, limit);
    if 1 <= page && (page - 1) * limit < total {
      if page < m.totalPages {
        assert page * limit <= (m.totalPages - 1) * limit;
      } else {
        assert m.totalPages * limit <= page * limit;
      }
    }
  }

  // ---------------------------------------------------------------------
  // Query parameters (`URLSearchParams`)

  /** An ordered list of name/value pairs; a name may repeat. */
  type Params = seq<(string, string)>

  /** How many pairs carry the name `k`. */
  function Occurrences(ps: Params, k: string): nat
    decreases |ps|
  {
    if |ps| == 0 then 0 else (if ps[0].0 == k then 1 else 0) + Occurrences(ps[1..], k)
  }

  /** `params.get(k)`: the value of the first pair named `k`. */
  function FindParam(ps: Params, k: string): Option<string>
    decreases |ps|
  {
    if |ps| == 0 then None else if ps[0].0 == k then Some(ps[0].1) else FindParam(ps[1..], k)
  }

  /** The pairs not named `k`, in their order. */
  function Without(ps: Params, k: string): Params
    decreases |ps|
  {
    if |ps| == 0 then [] else if ps[0].0 == k then Without(ps[1..], k) else [ps[0]] + Without(ps[1..], k)
  }

  /** `params.set(k, v)`: the first pair named `k` takes the value and the
      later ones go; with no such pair, the pair is appended. */
  function SetParam(ps: Params, k: string, v: string): (r: Params)
    ensures FindParam(r, k) == Some(v)
    decreases |ps|
  {
    if |ps| == 0 then [(k, v)]
    else if ps[0].0 == k then [(k, v)] + Without(ps[1..], k)
    else [ps[0]] + SetParam(ps[1..], k, v)
  }

  /** Removing `k` leaves no `k` and changes nothing about any other name. */
  lemma {:induction false} WithoutFacts(ps: Params, k: string, k': string)
    ensures Occurrences(Without(ps, k), k) == 0
    ensures k' != k ==> Occurrences(Without(ps, k), k') == Occurrences(ps, k')
    ensures k' != k ==> FindParam(Without(ps, k), k') == FindParam(ps, k')
    decreases |ps|
  {
    if |ps| > 0 {
      WithoutFacts(ps[1..], k, k');
      if ps[0].0 != k {
        assert ([ps[0]] + Without(ps[1..], k))[1..] == Without(ps[1..], k);
      }
    }
  }

  /** Removing two names is the same in either order. */
  lemma {:induction false} WithoutCommutes(ps: Params, a: string, b: string)
    ensures Without(Without(ps, a), b) == Without(Without(ps, b), a)
    decreases |ps|
  {
    if |ps| > 0 {
      WithoutCommutes(ps[1..], a, b);
      var t := [ps[0]] + Without(ps[1..], a);
      assert t[0] == ps[0] && t[1..] == Without(ps[1..], a);
      var u := [ps[0]] + Without(ps[1..], b);
      assert u[0] == ps[0] && u[1..] == Without(ps[1..], b);
    }
  }

  /** Removing a name no pair carries changes nothing. */
  lemma {:induction false} WithoutAbsent(ps: Params, k: string)
    requires forall i :: 0 <= i < |ps| ==> ps[i].0 != k
    ensures Without(ps, k) == ps
    decreases |ps|
  {
    if |ps| > 0 {
      WithoutAbsent(ps[1..], k);
    }
  }

  /** `set` as the URL Standard defines it: the pairs before the first `k`
      stay, that pair takes the new value, the later `k`s go; without a `k`
      the pair is appended. */
  lemma {:induction false} SetParamSpec(ps: Params, k: string, v: string, i: int)
    requires 0 <= i <= |ps|
    requires forall j :: 0 <= j < i ==> ps[j].0 != k
    ensures i < |ps| && ps[i].0 == k ==> SetParam(ps, k, v) == ps[..i] + [(k, v)] + Without(ps[i + 1..], k)
    ensures i == |ps| ==> SetParam(ps, k, v) == ps + [(k, v)]
    decreases i
  {
    if i > 0 {
      SetParamSpec(ps[1..], k, v, i - 1);
      assert ps[1..][..i - 1] == ps[1..i];
      assert ps[..i] == [ps[0]] + ps[1..i];
      if i < |ps| {
        assert ps[1..][i..] == ps[i + 1..];
      }
    } else if |ps| > 0 && ps[0].0 == k {
      assert ps[..0] == [];
    }
  }

  /** After `set`, the name occurs once with the new value, and removing it
      gives what removing it gave before: the other pairs keep their values
      and their order. */
  lemma {:induction false} SetParamFacts(ps: Params, k: string, v: string)
    ensures Occurrences(SetParam(ps, k, v), k) == 1
    ensures FindParam(SetParam(ps, k, v), k) == Some(v)
    ensures Without(SetParam(ps, k, v), k) == Without(ps, k)
    decreases |ps|
  {
    if |ps| == 0 {
      assert [(k, v)][1..] == [];
    } else if ps[0].0 == k {
      var r := [(k, v)] + Without(ps[1..], k);
      assert r[1..] == Without(ps[1..], k);
      WithoutFacts(ps[1..], k, k);
      WithoutIdempotent(ps[1..], k);
    } else {
      SetParamFacts(ps[1..], k, v);
      var r := [ps[0]] + SetParam(ps[1..], k, v);
      assert r[1..] == SetParam(ps[1..], k, v);
    }
  }

  lemma {:induction false} WithoutIdempotent(ps: Params, k: string)
    ensures Without(Without(ps, k), k) == Without(ps, k)
    decreases |ps|
  {
    if |ps| > 0 {
      WithoutIdempotent(ps[1..], k);
      if ps[0].0 != k {
        assert ([ps[0]] + Without(ps[1..], k))[1..] == Without(ps[1..], k);
      }
    }
  }

  /** `params.toString()` without percent-encoding. */
  function Serialize(ps: Params): string {
    if |ps| == 0 then ""
    else Join(seq(|ps|, i requires 0 <= i < |ps| => ps[i].0 + "=" + ps[i].1), '&')
  }

  // ---------------------------------------------------------------------
  // Links

  /** A page URL: the path and the query it carries. */
  datatype PageLink = PageLink(path: string, query: Params)

  /** `${currentPath}?${urlParams.toString()}`. */
  function Render(u: PageLink): string {
    u.path + "?" + Serialize(u.query)
  }

  /** `buildUrl(pageNum)`: the additional parameters with `page` and then
      `limit` set. */
  function BuildUrl(path: string, extra: Params, limit: int, pageNum: int): (u: PageLink)
    ensures u.path == path
    ensures FindParam(u.query, "limit") == Some(IntToString(limit))
  {
    PageLink(path, SetParam(SetParam(extra, "page", IntToString(pageNum)), "limit", IntToString(limit)))
  }

  /** The integer a link's `page` parameter reads back as, if any. */
  function PageNumber(u: PageLink): Option<int> {
    var p := FindParam(u.query, "page");
    if p.Some? && |p.value| >= 1 && (AllDigits(p.value) || (p.value[0] == '-' && AllDigits(p.value[1..])))
    then Some(ParseInt(p.value))
    else None
  }

  /** A link to page `n` of the current listing: on `path`, with one `page`
      reading back as `n`, one `limit`, and every other additional
      parameter kept in order. */
  ghost predicate LinksTo(u: PageLink, path: string, extra: Params, limit: int, n: int) {
    && u.path == path
    && PageNumber(u) == Some(n)
    && Occurrences(u.query, "page") == 1
    && Occurrences(u.query, "limit") == 1
    && FindParam(u.query, "limit") == Some(IntToString(limit))
    && Without(Without(u.query, "page"), "limit") == Without(Without(extra, "page"), "limit")
  }

  lemma BuildUrlLinksTo(path: string, extra: Params, limit: int, n: int)
    ensures LinksTo(BuildUrl(path, extra, limit, n), path, extra, limit, n)
  {
    var q1 := SetParam(extra, "page", IntToString(n));
    var q := SetParam(q1, "limit", IntToString(limit));
    SetParamFacts(extra, "page", IntToString(n));
    SetParamFacts(q1, "limit", IntToString(limit));
    WithoutFacts(q, "limit", "page");
    WithoutFacts(q1, "limit", "page");
    WithoutCommutes(q, "page", "limit");
    WithoutCommutes(q1, "page", "limit");
    IntToStringRoundTrip(n);
  }

  /** A rendered link reads back to its path at the first `?`. */
  lemma RenderStripsToPath(u: PageLink)
    requires '?' !in u.path
    ensures BeforeFirst(Render(u), '?') == u.path
  {
    var rest := "?" + Serialize(u.query);
    assert Render(u) == u.path + rest;
    BeforeFirstOfConcat(u.path, rest, '?');
    assert rest[0] == '?';
    assert Split(rest, '?')[0] == "";
  }

  datatype PaginationLinks = PaginationLinks(
    self: PageLink,
    first: Option<PageLink>,
    last: Option<PageLink>,
    next: Option<PageLink>,
    prev: Option<PageLink>)

  /** `generateLinks(meta, request, additionalParams)`. */
  function GenerateLinks(meta: PaginationMeta, req: Request, extra: Params): (r: PaginationLinks)
    ensures r.self.path == CurrentPath(req)
    ensures r.first.Some? <==> meta.totalPages > 1
    ensures r.last.Some? <==> meta.totalPages > 1
    ensures r.next.Some? <==> meta.hasNext
    ensures r.prev.Some? <==> meta.hasPrev
  {
    var path := CurrentPath(req);
    PaginationLinks(
      BuildUrl(path, extra, meta.limit, meta.page),
      if meta.totalPages > 1 then Some(BuildUrl(path, extra, meta.limit, 1)) else None,
      if meta.totalPages > 1 then Some(BuildUrl(path, extra, meta.limit, meta.totalPages)) else None,
      if meta.hasNext then Some(BuildUrl(path, extra, meta.limit, meta.page + 1)) else None,
      if meta.hasPrev then Some(BuildUrl(path, extra, meta.limit, meta.page - 1)) else None)
  }

  /** `self` is always there and links to the current page; `first` and
      `last` are there exactly when there is more than one page and link to
      page 1 and the last page; `next` and `prev` follow the meta flags and
      link to the neighbouring pages. Every link is on the current path
      and carries `limit` and the additional parameters. */
  lemma GenerateLinksTargets(meta: PaginationMeta, req: Request, extra: Params)
    ensures var links := GenerateLinks(meta, req, extra);
      var path := CurrentPath(req);
      && LinksTo(links.self, path, extra, meta.limit, meta.page)
      && (links.first.Some? <==> meta.totalPages > 1)
      && (links.last.Some? <==> meta.totalPages > 1)
      && (links.next.Some? <==> meta.hasNext)
      && (links.prev.Some? <==> meta.hasPrev)
      && (links.first.Some? ==> LinksTo(links.first.value, path, extra, meta.limit, 1))
      && (links.last.Some? ==> LinksTo(links.last.value, path, extra, meta.limit, meta.totalPages))
      && (links.next.Some? ==> LinksTo(links.next.value, path, extra, meta.limit, meta.page + 1))
      && (links.prev.Some? ==> LinksTo(links.prev.value, path, extra, meta.limit, meta.page - 1))
  {
    var path := CurrentPath(req);
    BuildUrlLinksTo(path, extra, meta.limit, meta.page);
    BuildUrlLinksTo(path, extra, meta.limit, 1);
    BuildUrlLinksTo(path, extra, meta.limit, meta.totalPages);
    BuildUrlLinksTo(path, extra, meta.limit, meta.page + 1);
    BuildUrlLinksTo(path, extra, meta.limit, meta.page - 1);
  }

  /** Every rendered link, cut at its first `?`, is the request's current
      path. */
  lemma GeneratedLinksRenderOnCurrentPath(meta: PaginationMeta, req: Request, extra: Params)
    ensures var links := GenerateLinks(meta, req, extra);
      && BeforeFirst(Render(links.self), '?') == CurrentPath(req)
      && (links.first.Some? ==> BeforeFirst(Render(links.first.value), '?') == CurrentPath(req))
      && (links.last.Some? ==> BeforeFirst(Render(links.last.value), '?') == CurrentPath(req))
      && (links.next.Some? ==> BeforeFirst(Render(links.next.value), '?') == CurrentPath(req))
      && (links.prev.Some? ==> BeforeFirst(Render(links.prev.value), '?') == CurrentPath(req))
  {
    var links := GenerateLinks(meta, req, extra);
    CurrentPathStripsQuery(req);
    RenderStripsToPath(links.self);
    if meta.totalPages > 1 {
      RenderStripsToPath(links.first.value);
      RenderStripsToPath(links.last.value);
    }
    if meta.hasNext {
      RenderStripsToPath(links.next.value);
    }
    if meta.hasPrev {
      RenderStripsToPath(links.prev.value);
    }
  }

  /** For meta built by `generateMeta` with a page inside the listing,
      every link points at a page between 1 and the page count. */
  lemma GeneratedLinksStayInRange(total: int, page: int, limit: int, req: Request, extra: Params)
    requires limit >= 1
    requires 1 <= page && (page - 1) * limit < total
    ensures var m := GenerateMeta(total, page, limit);
      var links := GenerateLinks(m, req, extra);
      && (links.next.Some? ==> PageNumber(links.next.value).Some? && PageNumber(links.next.value).value <= m.totalPages)
      && (links.prev.Some? ==> PageNumber(links.prev.value).Some? && PageNumber(links.prev.value).value >= 1)
      && PageNumber(links.self).Some? && 1 <= PageNumber(links.self).value <= m.totalPages
      && (links.last.Some? ==> PageNumber(links.last.value) == Some(m.totalPages))
  {
    var m := GenerateMeta(total, page, limit);
    GenerateMetaPages(total, page, limit);
    GenerateLinksTargets(m, req, extra);
  }

  /** With no rows there is no page count: `first`, `last` and `next` are
      never emitted, and `prev` is emitted exactly when the requested page
      is beyond 1 — so only `self` remains for page 1. */
  lemma EmptyListingLinks(page: int, limit: int, req: Request, extra: Params)
    requires limit >= 1
    ensures var links := GenerateLinks(GenerateMeta(0, page, limit), req, extra);
      && links.first.None? && links.last.None?
      && (links.next.Some? <==> page < 0)
      && (links.prev.Some? <==> page > 1)
  {
    GenerateMetaPages(0, page, limit);
  }
}
