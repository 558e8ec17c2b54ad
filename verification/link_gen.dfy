/** Evaluation of the declared link and relationship lists against one
    resource and the current request (`generateLinks` and
    `generateRelationships` of resource-links.interceptor.ts). */
module LinkGen {
  import opened Wrappers
  import opened Json
  import opened Requests
  import opened LinkDefs

  // ---------------------------------------------------------------------
  // Ordered collection of named candidates

  /** A definition's name and what it produced for this resource, if anything. */
  type Candidate = (string, Option<Json>)

  /** The `for` loop shared by both generators: every candidate that produced
      a value is assigned in declaration order, so a later candidate of the
      same name overwrites the earlier value in place. */
  function Collect(cs: seq<Candidate>): Fields
    decreases |cs|
  {
    if |cs| == 0 then []
    else
      var acc := Collect(cs[..|cs| - 1]);
      var c := cs[|cs| - 1];
      if c.1.None? then acc else Set(acc, c.0, c.1.value)
  }

  /** Collecting never duplicates a name. */
  lemma {:induction false} CollectUniqueKeys(cs: seq<Candidate>)
    ensures UniqueKeys(Collect(cs))
    decreases |cs|
  {
    if |cs| > 0 {
      var n := |cs| - 1;
      CollectUniqueKeys(cs[..n]);
      if cs[n].1.Some? {
        SetKeepsKeysUnique(Collect(cs[..n]), cs[n].0, cs[n].1.value);
      }
    }
  }

  /** Names of the candidates that produced a value, in order. */
  function PresentNames(cs: seq<Candidate>): seq<string>
    decreases |cs|
  {
    if |cs| == 0 then []
    else
      var init := PresentNames(cs[..|cs| - 1]);
      if cs[|cs| - 1].1.Some? then init + [cs[|cs| - 1].0] else init
  }

  /** The first occurrence of every element, in order. */
  function Dedup(ks: seq<string>): seq<string>
    decreases |ks|
  {
    if |ks| == 0 then []
    else
      var init := Dedup(ks[..|ks| - 1]);
      if ks[|ks| - 1] in init then init else init + [ks[|ks| - 1]]
  }

  lemma {:induction false} DedupMembers(ks: seq<string>, k: string)
    ensures k in Dedup(ks) <==> k in ks
    decreases |ks|
  {
    if |ks| > 0 {
      var n := |ks| - 1;
      DedupMembers(ks[..n], k);
      assert ks == ks[..n] + [ks[n]];
    }
  }

  /** No later candidate of the same name produced a value. */
  ghost predicate LastPresent(cs: seq<Candidate>, i: int)
    requires 0 <= i < |cs|
  {
    forall j :: i < j < |cs| && cs[j].0 == cs[i].0 ==> cs[j].1.None?
  }

  /** The collected keys are the names that produced a value, each once, in
      the order of their first appearance. */
  lemma {:induction false} CollectKeys(cs: seq<Candidate>)
    ensures Keys(Collect(cs)) == Dedup(PresentNames(cs))
    decreases |cs|
  {
    if |cs| > 0 {
      var n := |cs| - 1;
      CollectKeys(cs[..n]);
      if cs[n].1.Some? {
        DedupMembers(PresentNames(cs[..n]), cs[n].0);
      }
    }
  }

  /** One step of the loop: the last candidate wins for its own name and
      leaves every other name as it was. */
  lemma CollectStep(cs: seq<Candidate>, k: string)
    requires |cs| > 0
    ensures var n := |cs| - 1;
      Lookup(Collect(cs), k) ==
        if cs[n].0 == k && cs[n].1.Some? then cs[n].1 else Lookup(Collect(cs[..n]), k)
  {
  }

  /** A name is collected iff some candidate of that name produced a value. */
  lemma {:induction false} CollectHas(cs: seq<Candidate>, k: string)
    ensures Lookup(Collect(cs), k).Some? <==> exists i :: 0 <= i < |cs| && cs[i].0 == k && cs[i].1.Some?
    decreases |cs|
  {
    if |cs| > 0 {
      var n := |cs| - 1;
      var init := cs[..n];
      CollectStep(cs, k);
      CollectHas(init, k);
      if exists i :: 0 <= i < |cs| && cs[i].0 == k && cs[i].1.Some? {
        var i :| 0 <= i < |cs| && cs[i].0 == k && cs[i].1.Some?;
        if i < n {
          assert init[i] == cs[i];
        }
      }
      if Lookup(Collect(init), k).Some? {
        var i :| 0 <= i < n && init[i].0 == k && init[i].1.Some?;
        assert cs[i] == init[i];
      }
    }
  }

  /** A collected name holds the value of the last candidate of that name
      that produced one. */
  lemma {:induction false} CollectLastWins(cs: seq<Candidate>, k: string, i: int)
    requires 0 <= i < |cs| && cs[i].0 == k && cs[i].1.Some? && LastPresent(cs, i)
    ensures Lookup(Collect(cs), k) == cs[i].1
    decreases |cs|
  {
    var n := |cs| - 1;
    var init := cs[..n];
    CollectStep(cs, k);
    if i < n {
      assert init[i] == cs[i];
      forall j | i < j < |init| && init[j].0 == init[i].0
        ensures init[j].1.None?
      {
        assert init[j] == cs[j];
      }
      CollectLastWins(init, k, i);
    }
  }

  /** Every collected field was produced by some candidate. */
  lemma {:induction false} CollectProvenance(cs: seq<Candidate>, p: (string, Json))
    requires p in Collect(cs)
    ensures exists i :: 0 <= i < |cs| && cs[i] == (p.0, Some(p.1))
    decreases |cs|
  {
    var n := |cs| - 1;
    var init := cs[..n];
    if cs[n].1.Some? {
      SetProvenance(Collect(init), cs[n].0, cs[n].1.value);
    }
    if p in Collect(init) {
      CollectProvenance(init, p);
      var i :| 0 <= i < n && init[i] == (p.0, Some(p.1));
      assert cs[i] == init[i];
    } else {
      assert cs[n] == (p.0, Some(p.1));
    }
  }

  // ---------------------------------------------------------------------
  // Links

  /** A definition without a condition always applies. */
  predicate Admits(cond: Option<Condition>, res: Json, req: Request) {
    cond.None? || cond.value(res, req)
  }

  /** `linkDef.method || linkDef.title || linkDef.description`. */
  predicate HasExtras(d: LinkDefinition) {
    d.verb.Some? || Given(d.title) || Given(d.description)
  }

  /** The field names of a rich link object: `href`, then exactly the truthy
      ones among method, title and description. */
  function ExtraKeys(d: LinkDefinition): seq<string> {
    ["href"]
    + (if d.verb.Some? then ["method"] else [])
    + (if Given(d.title) then ["title"] else [])
    + (if Given(d.description) then ["description"] else [])
  }

  /** What one emitted definition contributes: the bare href, or a link object
      built as `{href, ...(method && {method}), ...(title && {title}),
      ...(description && {description})}`. */
  function LinkValue(d: LinkDefinition, href: string): (v: Json)
    ensures !HasExtras(d) ==> v == JStr(href)
    ensures HasExtras(d) ==> v.JObj? && Keys(v.fields) == ExtraKeys(d)
    ensures HasExtras(d) ==> Lookup(v.fields, "href") == Some(JStr(href))
    ensures HasExtras(d) && d.verb.Some? ==> Lookup(v.fields, "method") == Some(JStr(MethodName(d.verb.value)))
    ensures HasExtras(d) && Given(d.title) ==> Lookup(v.fields, "title") == Some(JStr(d.title.value))
    ensures HasExtras(d) && Given(d.description) ==> Lookup(v.fields, "description") == Some(JStr(d.description.value))
  {
    if HasExtras(d) then JObj(LinkObject(d, href)) else JStr(href)
  }

  function LinkObject(d: LinkDefinition, href: string): (fs: Fields)
    ensures Keys(fs) == ExtraKeys(d)
    ensures Lookup(fs, "href") == Some(JStr(href))
    ensures d.verb.Some? ==> Lookup(fs, "method") == Some(JStr(MethodName(d.verb.value)))
    ensures Given(d.title) ==> Lookup(fs, "title") == Some(JStr(d.title.value))
    ensures Given(d.description) ==> Lookup(fs, "description") == Some(JStr(d.description.value))
  {
    var f0: Fields := [("href", JStr(href))];
    assert Keys(f0) == ["href"];
    assert Lookup(f0, "href") == Some(JStr(href));
    var f1 := SetIf(f0, d.verb.Some?, "method", JStr(MethodName(d.verb.GetOr(GET))));
    assert Keys(f1) == ["href"] + (if d.verb.Some? then ["method"] else []);
    assert "title" !in Keys(f1);
    var f2 := SetIf(f1, Given(d.title), "title", JStr(d.title.GetOr("")));
    assert "description" !in Keys(f2);
    var f3 := SetIf(f2, Given(d.description), "description", JStr(d.description.GetOr("")));
    f3
  }

  /** One loop iteration: skip on a failing condition or a `null` href (an
      empty href is kept). */
  function Emitted(d: LinkDefinition, res: Json, req: Request): (r: Option<Json>)
    ensures r.Some? <==> Admits(d.condition, res, req) && ResolveHref(d.href, res, req).Some?
    ensures r.Some? ==> r.value == LinkValue(d, ResolveHref(d.href, res, req).value)
  {
    if !Admits(d.condition, res, req) then None
    else match ResolveHref(d.href, res, req)
      case None => None
      case Some(h) => Some(LinkValue(d, h))
  }

  function LinkCandidates(res: Json, defs: seq<LinkDefinition>, req: Request): (cs: seq<Candidate>)
    ensures |cs| == |defs|
    ensures forall i :: 0 <= i < |defs| ==> cs[i] == (defs[i].name, Emitted(defs[i], res, req))
  {
    seq(|defs|, i requires 0 <= i < |defs| => (defs[i].name, Emitted(defs[i], res, req)))
  }

  /** `generateLinks(resource, linkDefinitions, request)`: `{}` without
      definitions or without a request. */
  function GenerateLinks(res: Json, defs: Option<seq<LinkDefinition>>, req: Option<Request>): (r: Fields)
    ensures defs.None? || req.None? ==> r == []
  {
    if defs.None? || req.None? then [] else Collect(LinkCandidates(res, defs.value, req.value))
  }

  /** No link name occurs twice, and a name is emitted iff some definition of
      that name passes its condition and resolves to a non-null href. */
  lemma GenerateLinksKeys(res: Json, defs: seq<LinkDefinition>, req: Request)
    ensures UniqueKeys(GenerateLinks(res, Some(defs), Some(req)))
    ensures forall k :: k in Keys(GenerateLinks(res, Some(defs), Some(req))) <==>
      exists i :: 0 <= i < |defs| && defs[i].name == k && Emitted(defs[i], res, req).Some?
  {
    var cs := LinkCandidates(res, defs, req);
    CollectUniqueKeys(cs);
    forall k
      ensures k in Keys(Collect(cs)) <==>
        exists i :: 0 <= i < |defs| && defs[i].name == k && Emitted(defs[i], res, req).Some?
    {
      CollectHas(cs, k);
    }
  }

  /** Keys follow declaration order (first emission), and a later definition
      of the same name overwrites the earlier value. */
  lemma GenerateLinksOrderAndOverride(res: Json, defs: seq<LinkDefinition>, req: Request, k: string)
    ensures Keys(GenerateLinks(res, Some(defs), Some(req))) == Dedup(PresentNames(LinkCandidates(res, defs, req)))
    ensures forall i :: 0 <= i < |defs| && defs[i].name == k && Emitted(defs[i], res, req).Some?
                        && (forall j :: i < j < |defs| && defs[j].name == k ==> Emitted(defs[j], res, req).None?) ==>
      Lookup(GenerateLinks(res, Some(defs), Some(req)), k) == Emitted(defs[i], res, req)
  {
    var cs := LinkCandidates(res, defs, req);
    CollectKeys(cs);
    forall i | 0 <= i < |defs| && defs[i].name == k && Emitted(defs[i], res, req).Some?
               && (forall j :: i < j < |defs| && defs[j].name == k ==> Emitted(defs[j], res, req).None?)
      ensures Lookup(Collect(cs), k) == Emitted(defs[i], res, req)
    {
      assert LastPresent(cs, i);
      CollectLastWins(cs, k, i);
    }
  }

  // ---------------------------------------------------------------------
  // Relationships

  /** `{links: {self: href, related: href}}`. */
  function RelValue(href: string): Json {
    JObj([("links", JObj([("self", JStr(href)), ("related", JStr(href))]))])
  }

  /** A relationship object whose `self` and `related` links coincide. */
  predicate SelfEqualsRelated(v: Json) {
    var l := Get(v, "links");
    l.Some? && Get(l.value, "self").Some? && Get(l.value, "self") == Get(l.value, "related")
  }

  lemma RelValueLinks(h: string)
    ensures SelfEqualsRelated(RelValue(h))
    ensures Get(Get(RelValue(h), "links").value, "self") == Some(JStr(h))
  {
    var fs := [("self", JStr(h)), ("related", JStr(h))];
    assert fs[1..] == [("related", JStr(h))];
    assert Lookup(fs, "related") == Some(JStr(h));
  }

  function RelCandidates(res: Json, defs: seq<RelationshipDefinition>, req: Request): (cs: seq<Candidate>)
    ensures |cs| == |defs|
    ensures forall i :: 0 <= i < |defs| ==> cs[i].0 == defs[i].name
    ensures forall i :: 0 <= i < |defs| ==>
      cs[i].1 == if Admits(defs[i].condition, res, req) then Some(RelValue(ResolveRelHref(defs[i].href, res, req))) else None
  {
    seq(|defs|, i requires 0 <= i < |defs| =>
      (defs[i].name,
       if Admits(defs[i].condition, res, req) then Some(RelValue(ResolveRelHref(defs[i].href, res, req))) else None))
  }

  /** `generateRelationships(resource, relationshipDefinitions, request)`. */
  function GenerateRelationships(res: Json, defs: seq<RelationshipDefinition>, req: Request): Fields {
    Collect(RelCandidates(res, defs, req))
  }

  /** No relationship name occurs twice, a name is present iff some
      definition of that name passes its condition, and every entry links
      `self` and `related` to the same URL. */
  lemma GenerateRelationshipsShape(res: Json, defs: seq<RelationshipDefinition>, req: Request)
    ensures UniqueKeys(GenerateRelationships(res, defs, req))
    ensures forall k :: k in Keys(GenerateRelationships(res, defs, req)) <==>
      exists i :: 0 <= i < |defs| && defs[i].name == k && Admits(defs[i].condition, res, req)
    ensures forall p :: p in GenerateRelationships(res, defs, req) ==> SelfEqualsRelated(p.1)
  {
    var cs := RelCandidates(res, defs, req);
    CollectUniqueKeys(cs);
    forall k
      ensures k in Keys(Collect(cs)) <==>
        exists i :: 0 <= i < |defs| && defs[i].name == k && Admits(defs[i].condition, res, req)
    {
      CollectHas(cs, k);
    }
    forall p | p in Collect(cs)
      ensures SelfEqualsRelated(p.1)
    {
      CollectProvenance(cs, p);
      var i :| 0 <= i < |cs| && cs[i] == (p.0, Some(p.1));
      RelValueLinks(ResolveRelHref(defs[i].href, res, req));
    }
  }
}
