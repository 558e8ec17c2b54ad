/** JSON values as the pipeline sees them at run time, with JavaScript's
    reading rules: truthiness, `||`, property reads, object spread and
    property assignment (keys stay in insertion order), `String(x)`, and the
    number coercion used by `<` and `+`. */
module Json {
  import opened Wrappers
  import opened Text

  /** A JSON value. Numbers are integers; an object is its ordered field list. */
  datatype Json =
    | JNull
    | JBool(b: bool)
    | JInt(n: int)
    | JStr(s: string)
    | JArr(elems: seq<Json>)
    | JObj(fields: seq<(string, Json)>)

  type Fields = seq<(string, Json)>

  /** JavaScript truthiness: `null`, `false`, `0` and `''` are falsy. */
  predicate Truthy(j: Json) {
    match j
    case JNull => false
    case JBool(b) => b
    case JInt(n) => n != 0
    case JStr(s) => s != ""
    case _ => true
  }

  /** Truthiness of a value that may be `undefined` (`None`). */
  predicate TruthyOpt(o: Option<Json>) {
    o.Some? && Truthy(o.value)
  }

  /** `a || d`, where `a` may be `undefined`. */
  function OrElse(a: Option<Json>, d: Json): Json {
    if TruthyOpt(a) then a.value else d
  }

  /** `typeof j === 'object' && j !== null`. */
  predicate IsObjectLike(j: Json) {
    j.JObj? || j.JArr?
  }

  function Keys(fs: Fields): seq<string> {
    seq(|fs|, i requires 0 <= i < |fs| => fs[i].0)
  }

  /** The keys of a list are its first key followed by the keys of the rest. */
  lemma KeysCons(fs: Fields)
    requires |fs| > 0
    ensures Keys(fs) == [fs[0].0] + Keys(fs[1..])
  {
  }

  predicate Distinct(ks: seq<string>) {
    forall i, j :: 0 <= i < j < |ks| ==> ks[i] != ks[j]
  }

  /** No key occurs twice, as in every JavaScript object. */
  predicate UniqueKeys(fs: Fields) {
    Distinct(Keys(fs))
  }

  /** Property read on an ordered field list (the first field of that name). */
  function Lookup(fs: Fields, k: string): (r: Option<Json>)
    ensures r.Some? <==> k in Keys(fs)
    decreases |fs|
  {
    if |fs| == 0 then None
    else
      KeysCons(fs);
      if fs[0].0 == k then Some(fs[0].1) else Lookup(fs[1..], k)
  }

  /** Property assignment `o[k] = v`: an existing key keeps its place, a new
      key goes last. */
  function Set(fs: Fields, k: string, v: Json): (r: Fields)
    ensures Lookup(r, k) == Some(v)
    ensures forall k' :: k' != k ==> Lookup(r, k') == Lookup(fs, k')
    ensures Keys(r) == if k in Keys(fs) then Keys(fs) else Keys(fs) + [k]
    decreases |fs|
  {
    if |fs| == 0 then [(k, v)]
    else if fs[0].0 == k then
      var r := [(k, v)] + fs[1..];
      assert r[1..] == fs[1..];
      KeysCons(fs);
      KeysCons(r);
      r
    else
      var rest := Set(fs[1..], k, v);
      var r := [fs[0]] + rest;
      assert r[1..] == rest;
      KeysCons(fs);
      KeysCons(r);
      r
  }

  /** `if (c) o[k] = v` for a key the object does not hold yet. */
  function SetIf(fs: Fields, c: bool, k: string, v: Json): (r: Fields)
    requires k !in Keys(fs)
    ensures Keys(r) == Keys(fs) + (if c then [k] else [])
    ensures Lookup(r, k) == if c then Some(v) else None
    ensures forall k' :: k' != k ==> Lookup(r, k') == Lookup(fs, k')
  {
    if c then Set(fs, k, v) else fs
  }

  /** Every field after an assignment is an old field or the assigned one. */
  lemma {:induction false} SetProvenance(fs: Fields, k: string, v: Json)
    ensures forall p :: p in Set(fs, k, v) ==> p in fs || p == (k, v)
    decreases |fs|
  {
    if |fs| > 0 && fs[0].0 != k {
      SetProvenance(fs[1..], k, v);
    }
  }

  /** Assignment never duplicates a key. */
  lemma SetKeepsKeysUnique(fs: Fields, k: string, v: Json)
    ensures UniqueKeys(fs) ==> UniqueKeys(Set(fs, k, v))
  {
  }

  /** Assigns the fields of `src` one after another onto `fs`; `{...a, ...b}`
      is `Assign(Assign([], a), b)`. */
  function Assign(fs: Fields, src: Fields): (r: Fields)
    ensures UniqueKeys(fs) ==> UniqueKeys(r)
    decreases |src|
  {
    if |src| == 0 then fs
    else
      var acc := Assign(fs, src[..|src| - 1]);
      SetKeepsKeysUnique(acc, src[|src| - 1].0, src[|src| - 1].1);
      Set(acc, src[|src| - 1].0, src[|src| - 1].1)
  }

  /** Own enumerable properties, as spread and destructuring see them:
      an array or a string contributes its index keys. */
  function OwnEntries(j: Json): Fields {
    match j
    case JObj(fs) => fs
    case JArr(xs) => seq(|xs|, i requires 0 <= i < |xs| => (NatToString(i), xs[i]))
    case JStr(s) => seq(|s|, i requires 0 <= i < |s| => (NatToString(i), JStr([s[i]])))
    case _ => []
  }

  /** `j[k]`; `None` is `undefined`. */
  function Get(j: Json, k: string): Option<Json> {
    Lookup(OwnEntries(j), k)
  }

  /** `k in j` for an object-like `j`. */
  predicate Has(j: Json, k: string) {
    Get(j, k).Some?
  }

  /** The rest object of a destructuring `const {a, b, ...rest} = o`: the
      fields whose key is not named, in their order. */
  function Omit(fs: Fields, named: set<string>): (r: Fields)
    ensures forall k :: k in named ==> Lookup(r, k) == None
    ensures forall k :: k !in named ==> Lookup(r, k) == Lookup(fs, k)
    ensures forall p :: p in r ==> p in fs && p.0 !in named
    ensures |r| == 0 <==> forall i :: 0 <= i < |fs| ==> fs[i].0 in named
    decreases |fs|
  {
    if |fs| == 0 then []
    else if fs[0].0 in named then Omit(fs[1..], named)
    else [fs[0]] + Omit(fs[1..], named)
  }

  /** `{...o}` where `o` may be `undefined`, `null` or a primitive. */
  function Spread(o: Option<Json>): Fields {
    match o
    case None => []
    case Some(j) => Assign([], OwnEntries(j))
  }

  /** `j[k] = v` on an object; other values are left as they are. */
  function SetField(j: Json, k: string, v: Json): Json {
    match j
    case JObj(fs) => JObj(Set(fs, k, v))
    case _ => j
  }

  /** JavaScript's `String(j)`; inside an array `null` renders as ''. */
  function JsString(j: Json): string {
    match j
    case JNull => "null"
    case JBool(b) => if b then "true" else "false"
    case JInt(n) => IntToString(n)
    case JStr(s) => s
    case JArr(xs) =>
      if |xs| == 0 then ""
      else Join(seq(|xs|, i requires 0 <= i < |xs| => if xs[i] == JNull then "" else JsString(xs[i])), ',')
    case JObj(_) => "[object Object]"
  }

  /** `String(o)` (or a template literal) where `o` may be `undefined`. */
  function JsStringOpt(o: Option<Json>): string {
    match o
    case None => "undefined"
    case Some(j) => JsString(j)
  }

  /** Number coercion for `<`, `>` and `+ 1`; `None` is NaN. Strings, arrays
      and objects are treated as NaN. */
  function JsNum(o: Option<Json>): Option<int> {
    match o
    case Some(JInt(n)) => Some(n)
    case Some(JNull) => Some(0)
    case Some(JBool(b)) => Some(if b then 1 else 0)
    case _ => None
  }

  /** `a < b` on possibly-undefined values: false whenever either is NaN. */
  predicate JsLess(a: Option<Json>, b: Option<Json>) {
    JsNum(a).Some? && JsNum(b).Some? && JsNum(a).value < JsNum(b).value
  }

  // ---------------------------------------------------------------------
  // Facts about the field-list operations

  lemma {:induction false} LookupAppend(fs: Fields, k: string, v: Json, key: string)
    ensures Lookup(fs + [(k, v)], key) ==
      if Lookup(fs, key).Some? then Lookup(fs, key) else if k == key then Some(v) else None
    decreases |fs|
  {
    if |fs| > 0 {
      assert (fs + [(k, v)])[1..] == fs[1..] + [(k, v)];
      LookupAppend(fs[1..], k, v, key);
    }
  }

  /** A read looks at the first field, then at the rest. */
  lemma LookupCons(fs: Fields, k: string)
    requires |fs| > 0
    ensures Lookup(fs, k) == if fs[0].0 == k then Some(fs[0].1) else Lookup(fs[1..], k)
  {
  }

  lemma {:induction false} LookupConcat(a: Fields, b: Fields, k: string)
    ensures Lookup(a + b, k) == if Lookup(a, k).Some? then Lookup(a, k) else Lookup(b, k)
    decreases |a|
  {
    if |a| > 0 {
      assert (a + b)[0] == a[0];
      assert (a + b)[1..] == a[1..] + b;
      LookupConcat(a[1..], b, k);
    } else {
      assert a + b == b;
    }
  }

  /** With unique keys in `src`, `Assign` lets `src` win and keeps the
      other keys of `fs`: what `{...a, ...b}` promises. */
  lemma {:induction false} AssignLookup(fs: Fields, src: Fields, k: string)
    requires UniqueKeys(src)
    ensures Lookup(Assign(fs, src), k) ==
      if Lookup(src, k).Some? then Lookup(src, k) else Lookup(fs, k)
    decreases |src|
  {
    if |src| > 0 {
      var n := |src| - 1;
      var init := src[..n];
      assert src == init + [src[n]];
      assert Keys(init) == Keys(src)[..n];
      AssignLookup(fs, init, k);
      LookupAppend(init, src[n].0, src[n].1, k);
      if src[n].0 == k {
        assert Keys(src)[n] == k;
        assert k !in Keys(init);
      }
    }
  }

  /** The keys of `Assign(fs, src)`: those of `fs`, then the new keys of
      `src` in the order they first appear. */
  lemma {:induction false} AssignKeys(fs: Fields, src: Fields, k: string)
    ensures k in Keys(Assign(fs, src)) <==> k in Keys(fs) || k in Keys(src)
    decreases |src|
  {
    if |src| > 0 {
      var n := |src| - 1;
      AssignKeys(fs, src[..n], k);
      assert Keys(src) == Keys(src[..n]) + [src[n].0];
    }
  }

  /** `j[k] = v` on an object changes the read of `k` and nothing else. */
  lemma SetFieldGet(j: Json, k: string, v: Json, k': string)
    requires j.JObj?
    ensures SetField(j, k, v).JObj?
    ensures Get(SetField(j, k, v), k') == if k' == k then Some(v) else Get(j, k')
  {
  }

  /** Fields whose key is not an index key never show up on arrays or strings. */
  lemma NamedKeyNotOnIndexedValue(j: Json, k: string)
    requires !j.JObj?
    requires |k| > 0 && !IsDigit(k[0])
    ensures Get(j, k) == None
  {
    var es := OwnEntries(j);
    forall i | 0 <= i < |es|
      ensures Keys(es)[i] != k
    {
      var idx := es[i].0;
      assert |idx| >= 1 && IsDigit(idx[0]);
    }
  }
}
