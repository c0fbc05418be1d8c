/**
 * src/morph/auth.ts, `signMorphRequest`, and src/morph/facilitator.ts, `verifyHmac`: what the buyer
 * signs and what the facilitator checks the signature against.
 */
module MorphAuth {
  import opened JsValues
  import opened Numerals
  import opened CanonicalJson

  /** Names and values of a query string, as URLSearchParams lists them. */
  type Query = seq<(string, string)>

  /** A request as signed: the body is what JSON.parse made of it, None when there is none or it is not JSON. */
  datatype Signed = Signed(method_: string, path: string, query: Query, body: Option<Json>,
                           accessKey: string, timestamp: string)

  const KEY := "MORPH-ACCESS-KEY"
  const TIMESTAMP := "MORPH-ACCESS-TIMESTAMP"
  const METHOD := "MORPH-ACCESS-METHOD"
  const PATH := "MORPH-ACCESS-PATH"
  const BODY := "MORPH-ACCESS-BODY"

  function Header(p: Signed): seq<Field> {
    [Field(KEY, Str(p.accessKey)), Field(TIMESTAMP, Str(p.timestamp)),
     Field(METHOD, Str(Upper(p.method_))), Field(PATH, Str(p.path))]
  }

  /** `usp.getAll(name)` */
  function GetAll(q: Query, name: string): seq<Json> {
    if q == [] then []
    else (if q[0].0 == name then [Str(q[0].1)] else []) + GetAll(q[1..], name)
  }

  /** The names of q in order of first appearance. */
  function Names(q: Query): seq<string> {
    if q == [] then []
    else
      var init := Names(q[..|q| - 1]);
      if q[|q| - 1].0 in init then init else init + [q[|q| - 1].0]
  }

  function WithQuery(fs: seq<Field>, names: seq<string>, q: Query): seq<Field> {
    if names == [] then fs
    else
      var k := names[|names| - 1];
      SetProperty(WithQuery(fs, names[..|names| - 1], q), Field(k, Arr(GetAll(q, k))))
  }

  function SignMap(p: Signed): seq<Field> {
    var fs := WithQuery(Header(p), Names(p.query), p.query);
    if p.body.Some? then SetProperty(fs, Field(BODY, p.body.value)) else fs
  }

  /** The tree that is serialised and passed to the HMAC. */
  function Content(p: Signed): Json {
    SortObjectDeep(Obj(SignMap(p)))
  }

  /** The local sign map as the source fills it, in loops. */
  method BuildSignMap(p: Signed) returns (signMap: seq<Field>)
    ensures signMap == SignMap(p)
  {
    signMap := Header(p);
    var names := [];
    var i := 0;
    while i < |p.query|
      invariant i <= |p.query| && names == Names(p.query[..i])
    {
      assert p.query[..i + 1][..i] == p.query[..i];
      if p.query[i].0 !in names {
        names := names + [p.query[i].0];
      }
      i := i + 1;
    }
    assert p.query[..|p.query|] == p.query;
    i := 0;
    while i < |names|
      invariant i <= |names| && signMap == WithQuery(Header(p), names[..i], p.query)
    {
      assert names[..i + 1][..i] == names[..i];
      signMap := SetProperty(signMap, Field(names[i], Arr(GetAll(p.query, names[i]))));
      i := i + 1;
    }
    assert names[..|names|] == names;
    if p.body.Some? {
      signMap := SetProperty(signMap, Field(BODY, p.body.value));
    }
  }

  /** Serialisation, the keyed hash and Number(text) are not part of this model. */
  datatype Crypto = Crypto(stringify: Json -> string, hmac: (string, string) -> string, number: string -> Option<int>)

  function Signature(c: Crypto, p: Signed, secretKey: string): string {
    c.hmac(secretKey, c.stringify(Content(p)))
  }

  /** A request as the facilitator receives it; `body` is the parsed body, None when undefined. */
  datatype Received = Received(method_: string, path: string, query: Query, body: Option<Json>,
                               accessKey: Option<string>, timestamp: Option<string>, sign: Option<string>)

  predicate Truthy(v: Json) {
    v != Null && v != Bool(false) && v != Num(0.0) && v != Str("")
  }

  /** `req.body ? JSON.stringify(req.body) : undefined`, parsed again. */
  function BodyOf(r: Received): Option<Json> {
    if r.body.Some? && Truthy(r.body.value) then r.body else None
  }

  function Expected(r: Received, accessKey: string, timestamp: string): Signed {
    Signed(r.method_, r.path, [], BodyOf(r), accessKey, timestamp)
  }

  predicate VerifyHmac(c: Crypto, r: Received, accessKey: string, secretKey: string, skewMs: int, now: int) {
    var key, timestamp, sign := r.accessKey.GetOr(""), r.timestamp.GetOr(""), r.sign.GetOr("");
    key != "" && timestamp != "" && sign != "" && key == accessKey &&
    var ts := c.number(timestamp);
    ts.Some? && -skewMs <= now - ts.value <= skewMs &&
    Signature(c, Expected(r, accessKey, timestamp), secretKey) == sign
  }

  // ---------------------------------------------------------------- proofs

  lemma ProtoApart()
    ensures PROTO !in {KEY, TIMESTAMP, METHOD, PATH, BODY}
  {
    assert PROTO[0] == '_' && KEY[0] == TIMESTAMP[0] == METHOD[0] == PATH[0] == BODY[0] == 'M';
  }

  lemma HeaderDistinct(p: Signed)
    ensures Distinct(Keys(Header(p)))
  {
    var ks := Keys(Header(p));
    assert ks == [KEY, TIMESTAMP, METHOD, PATH];
    assert KEY[13] == 'K' && TIMESTAMP[13] == 'T' && METHOD[13] == 'M' && PATH[13] == 'P';
  }

  lemma BodyNotInHeader(p: Signed)
    ensures BODY !in Keys(Header(p))
  {
    assert Keys(Header(p)) == [KEY, TIMESTAMP, METHOD, PATH];
    assert BODY[13] == 'B' && KEY[13] == 'K' && TIMESTAMP[13] == 'T' && METHOD[13] == 'M' && PATH[13] == 'P';
  }

  ghost predicate WellFormedBody(body: Option<Json>) {
    body.Some? ==> WellFormed(body.value)
  }

  /** Without a query the map is the header and perhaps the body. */
  lemma SignMapOf(p: Signed)
    requires p.query == [] && WellFormedBody(p.body)
    ensures WellFormed(Obj(SignMap(p)))
    ensures BODY in AsMap(SignMap(p)) <==> p.body.Some?
    ensures AsMap(SignMap(p)) ==
              if p.body.Some? then AsMap(Header(p))[BODY := p.body.value] else AsMap(Header(p))
  {
    HeaderDistinct(p);
    BodyNotInHeader(p);
    ProtoApart();
    assert AsMap(Header(p)).Keys == Elements(Keys(Header(p)));
    if p.body.Some? {
      SetPropertyMap(Header(p), Field(BODY, p.body.value));
      InsertNewFields(Header(p), Field(BODY, p.body.value));
    }
  }

  lemma HeaderMap(p: Signed)
    ensures AsMap(Header(p)) ==
              map[KEY := Str(p.accessKey), TIMESTAMP := Str(p.timestamp), METHOD := Str(Upper(p.method_)), PATH := Str(p.path)]
  {
    HeaderDistinct(p);
    var m := map[KEY := Str(p.accessKey), TIMESTAMP := Str(p.timestamp), METHOD := Str(Upper(p.method_)), PATH := Str(p.path)];
    var ks := Keys(Header(p));
    assert ks == [KEY, TIMESTAMP, METHOD, PATH];
    assert KEY[13] == 'K' && TIMESTAMP[13] == 'T' && METHOD[13] == 'M' && PATH[13] == 'P';
    assert ks[0] in Elements(ks) && ks[1] in Elements(ks) && ks[2] in Elements(ks) && ks[3] in Elements(ks);
    assert Elements(ks) == m.Keys;
    IsMap(Header(p), m);
  }

  ghost predicate SameBody(a: Option<Json>, b: Option<Json>) {
    (a.None? && b.None?) || (a.Some? && b.Some? && Alike(a.value, b.value))
  }

  ghost function FourAndBody(ks: (string, string, string, string, string), v: (string, string, string, string),
                             body: Option<Json>): map<string, Json>
  {
    var m := map[ks.0 := Str(v.0), ks.1 := Str(v.1), ks.2 := Str(v.2), ks.3 := Str(v.3)];
    if body.Some? then m[ks.4 := body.value] else m
  }

  lemma SameText(a: string, b: string)
    ensures Alike(Str(a), Str(b)) <==> a == b
  {
  }

  lemma FourAndBodySame(ks: (string, string, string, string, string), v: (string, string, string, string),
                        w: (string, string, string, string), a: Option<Json>, b: Option<Json>)
    requires ks.0 != ks.1 && ks.0 != ks.2 && ks.0 != ks.3 && ks.1 != ks.2 && ks.1 != ks.3 && ks.2 != ks.3
    requires ks.4 != ks.0 && ks.4 != ks.1 && ks.4 != ks.2 && ks.4 != ks.3
    ensures var x, y := FourAndBody(ks, v, a), FourAndBody(ks, w, b);
            (x.Keys == y.Keys && forall k :: k in x && k in y ==> Alike(x[k], y[k])) <==> v == w && SameBody(a, b)
  {
    hide Alike;
    var x, y := FourAndBody(ks, v, a), FourAndBody(ks, w, b);
    SameText(v.0, w.0);
    SameText(v.1, w.1);
    SameText(v.2, w.2);
    SameText(v.3, w.3);
    assert ks.4 in x.Keys <==> a.Some?;
    assert ks.4 in y.Keys <==> b.Some?;
    assert ks.0 in x && ks.1 in x && ks.2 in x && ks.3 in x;
  }

  ghost const NAMES: (string, string, string, string, string) := (KEY, TIMESTAMP, METHOD, PATH, BODY)

  ghost function Values(p: Signed): (string, string, string, string) {
    (p.accessKey, p.timestamp, Upper(p.method_), p.path)
  }

  lemma SignMapIs(p: Signed)
    requires p.query == [] && WellFormedBody(p.body)
    ensures WellFormed(Obj(SignMap(p)))
    ensures AsMap(SignMap(p)) == FourAndBody(NAMES, Values(p), p.body)
    ensures PROTO !in AsMap(SignMap(p))
  {
    SignMapOf(p);
    HeaderMap(p);
    ProtoApart();
  }

  /** Signed maps never have the key that is dropped, so they agree when all their values are alike. */
  lemma SignMapsAlike(p: Signed, q: Signed)
    requires WellFormed(Obj(SignMap(p))) && WellFormed(Obj(SignMap(q)))
    requires PROTO !in AsMap(SignMap(p)) && PROTO !in AsMap(SignMap(q))
    ensures Content(p) == Content(q) <==>
              && AsMap(SignMap(p)).Keys == AsMap(SignMap(q)).Keys
              && forall k :: k in AsMap(SignMap(p)) && k in AsMap(SignMap(q)) ==>
                   Alike(AsMap(SignMap(p))[k], AsMap(SignMap(q))[k])
  {
    hide SortObjectDeep, SignMap, AsMap, Alike;
    CanonicalIff(Obj(SignMap(p)), Obj(SignMap(q)));
    AlikeObjects(SignMap(p), SignMap(q));
    var x, y := AsMap(SignMap(p)), AsMap(SignMap(q));
    assert x.Keys - {PROTO} == x.Keys && y.Keys - {PROTO} == y.Keys;
  }

  /** Two requests without a query are signed alike exactly when they agree on key, timestamp, method
      (in any case), path and on the body up to key order and the key that is dropped. */
  lemma SameContentIff(p: Signed, q: Signed)
    requires p.query == q.query == [] && WellFormedBody(p.body) && WellFormedBody(q.body)
    ensures Content(p) == Content(q) <==>
              && p.accessKey == q.accessKey && p.timestamp == q.timestamp
              && Upper(p.method_) == Upper(q.method_) && p.path == q.path
              && SameBody(p.body, q.body)
  {
    hide SignMap, Content, Upper, AsMap, Alike, FourAndBody;
    SignMapIs(p);
    SignMapIs(q);
    SignMapsAlike(p, q);
    KeysApart();
    FourAndBodySame(NAMES, Values(p), Values(q), p.body, q.body);
  }

  lemma KeysApart()
    ensures KEY != BODY && TIMESTAMP != BODY && METHOD != BODY && PATH != BODY
    ensures KEY != TIMESTAMP && KEY != METHOD && KEY != PATH && TIMESTAMP != METHOD && TIMESTAMP != PATH && METHOD != PATH
  {
    assert BODY[13] == 'B' && KEY[13] == 'K' && TIMESTAMP[13] == 'T' && METHOD[13] == 'M' && PATH[13] == 'P';
  }

  lemma TruthySame(a: Json, b: Json)
    requires Alike(a, b)
    ensures Truthy(a) <==> Truthy(b)
  {
  }

  /** The facilitator re-serialises the body it has parsed, whose keys may come in another order, and
      skips a falsy one: it expects the signature the buyer made exactly when the body is truthy. */
  lemma BodySignedIff(p: Signed, r: Received)
    requires p.query == [] && p.body.Some? && r.body.Some? && WellFormedBody(p.body) && WellFormedBody(r.body)
    requires Alike(p.body.value, r.body.value) && r.method_ == p.method_ && r.path == p.path
    ensures Content(p) == Content(Expected(r, p.accessKey, p.timestamp)) <==> Truthy(p.body.value)
  {
    TruthySame(p.body.value, r.body.value);
    SameContentIff(p, Expected(r, p.accessKey, p.timestamp));
  }

  // ---------------------------------------------------------------- queries

  lemma {:induction false} WithQueryMap(fs: seq<Field>, names: seq<string>, q: Query)
    requires WellFormed(Obj(fs))
    ensures WellFormed(Obj(WithQuery(fs, names, q)))
    ensures forall k :: k in names && k != PROTO ==>
              k in AsMap(WithQuery(fs, names, q)) && AsMap(WithQuery(fs, names, q))[k] == Arr(GetAll(q, k))
    ensures forall k :: k !in names || k == PROTO ==>
              (k in AsMap(WithQuery(fs, names, q)) <==> k in AsMap(fs))
    ensures forall k :: (k !in names || k == PROTO) && k in AsMap(fs) ==>
              AsMap(WithQuery(fs, names, q))[k] == AsMap(fs)[k]
  {
    if names != [] {
      hide SetProperty, AsMap;
      var init, k := names[..|names| - 1], names[|names| - 1];
      WithQueryMap(fs, init, q);
      GetAllWellFormed(q, k);
      SetKeepsWellFormed(WithQuery(fs, init, q), Field(k, Arr(GetAll(q, k))));
    }
  }

  lemma GetAllWellFormed(q: Query, k: string)
    ensures WellFormed(Arr(GetAll(q, k)))
  {
  }

  lemma SetKeepsWellFormed(fs: seq<Field>, f: Field)
    requires WellFormed(Obj(fs)) && WellFormed(f.val)
    ensures WellFormed(Obj(SetProperty(fs, f)))
    ensures AsMap(SetProperty(fs, f)) == if f.key == PROTO then AsMap(fs) else AsMap(fs)[f.key := f.val]
  {
    SetPropertyMap(fs, f);
    InsertNewFields(fs, f);
  }

  lemma {:induction false} NamesOf(q: Query, i: nat)
    requires i < |q|
    ensures q[i].0 in Names(q)
  {
    if i < |q| - 1 {
      NamesOf(q[..|q| - 1], i);
    }
  }

  lemma {:induction false} NamesFrom(q: Query, k: string)
    requires k in Names(q)
    ensures exists i :: 0 <= i < |q| && q[i].0 == k
  {
    if k in Names(q[..|q| - 1]) {
      NamesFrom(q[..|q| - 1], k);
    } else {
      assert q[|q| - 1].0 == k;
    }
  }

  lemma HeaderWellFormed(p: Signed)
    ensures WellFormed(Obj(Header(p)))
  {
    HeaderDistinct(p);
  }

  /** The map that is signed: every query name but the one that is dropped leaves an array, unless the body
      replaces it. */
  lemma SignMapWithQuery(p: Signed)
    requires WellFormedBody(p.body)
    ensures WellFormed(Obj(SignMap(p))) && PROTO !in AsMap(SignMap(p))
    ensures forall i :: 0 <= i < |p.query| && p.query[i].0 != PROTO ==> p.query[i].0 in AsMap(SignMap(p))
    ensures forall i :: 0 <= i < |p.query| && p.query[i].0 != PROTO && (p.body.None? || p.query[i].0 != BODY) ==>
              AsMap(SignMap(p))[p.query[i].0].Arr?
  {
    hide SetProperty, AsMap;
    var fs := WithQuery(Header(p), Names(p.query), p.query);
    HeaderWellFormed(p);
    HeaderMap(p);
    ProtoApart();
    WithQueryMap(Header(p), Names(p.query), p.query);
    if p.body.Some? {
      SetKeepsWellFormed(fs, Field(BODY, p.body.value));
    }
    forall i | 0 <= i < |p.query| ensures p.query[i].0 in Names(p.query) {
      NamesOf(p.query, i);
    }
  }

  lemma ExpectedMap(q: Signed)
    requires q.query == [] && WellFormedBody(q.body)
    ensures forall k :: k in AsMap(SignMap(q)) && k != BODY ==> AsMap(SignMap(q))[k].Str?
    ensures BODY in AsMap(SignMap(q)) <==> q.body.Some?
  {
    hide SignMap, AsMap;
    SignMapIs(q);
    SignMapOf(q);
    HeaderMap(q);
  }

  lemma OnlyText(a: Json, b: Json)
    requires a.Arr? && b.Str?
    ensures !Alike(a, b)
  {
  }

  /** The facilitator leaves the query out: a request with a query parameter of any name but that of the body, or
      the one that is dropped, is never signed the way the facilitator expects, whatever it has received. */
  lemma QueryIsNotExpected(p: Signed, r: Received, accessKey: string, timestamp: string, i: nat)
    requires WellFormedBody(p.body) && WellFormedBody(r.body)
    requires i < |p.query| && p.query[i].0 !in {BODY, PROTO}
    ensures Content(p) != Content(Expected(r, accessKey, timestamp))
  {
    hide Content, SignMap, AsMap, Alike;
    var q := Expected(r, accessKey, timestamp);
    var k := p.query[i].0;
    SignMapWithQuery(p);
    ExpectedMap(q);
    SignMapIs(q);
    SignMapsAlike(p, q);
    if k in AsMap(SignMap(q)) {
      OnlyText(AsMap(SignMap(p))[k], AsMap(SignMap(q))[k]);
    }
  }

  /** A body parameter without a body is signed, and not expected. */
  lemma LoneBodyParameter(p: Signed, r: Received, accessKey: string, timestamp: string, i: nat)
    requires WellFormedBody(p.body) && WellFormedBody(r.body) && i < |p.query| && p.query[i].0 == BODY
    requires p.body.None? && BodyOf(r).None?
    ensures Content(p) != Content(Expected(r, accessKey, timestamp))
  {
    hide Content, SignMap, AsMap, Alike;
    var q := Expected(r, accessKey, timestamp);
    ProtoApart();
    SignMapWithQuery(p);
    ExpectedMap(q);
    SignMapIs(q);
    SignMapsAlike(p, q);
    assert p.query[i].0 in AsMap(SignMap(p));
  }

  /** Every query parameter is dropped, or is replaced by the body. */
  predicate LeavesNoTrace(p: Signed) {
    forall i :: 0 <= i < |p.query| ==> p.query[i].0 == PROTO || (p.query[i].0 == BODY && p.body.Some?)
  }

  /** Then the request is signed as if it had no query: such parameters can be added and taken away unsigned. */
  lemma TracelessQuery(p: Signed)
    requires WellFormedBody(p.body) && LeavesNoTrace(p)
    ensures Content(p) == Content(p.(query := []))
  {
    hide SetProperty, AsMap, Alike, SortObjectDeep;
    var q := p.(query := []);
    var fs := WithQuery(Header(p), Names(p.query), p.query);
    HeaderWellFormed(p);
    WithQueryMap(Header(p), Names(p.query), p.query);
    forall k | k in Names(p.query) ensures k == PROTO || (k == BODY && p.body.Some?) {
      NamesFrom(p.query, k);
    }
    if p.body.Some? {
      ProtoApart();
      SetKeepsWellFormed(fs, Field(BODY, p.body.value));
      SetKeepsWellFormed(Header(p), Field(BODY, p.body.value));
      assert SignMap(q) == SetProperty(Header(p), Field(BODY, p.body.value));
    } else {
      assert SignMap(q) == Header(p);
    }
    assert AsMap(SignMap(p)) == AsMap(SignMap(q)) by {
      forall k ensures k in AsMap(SignMap(p)) <==> k in AsMap(SignMap(q)) {
      }
    }
    SameMapSameContent(p, q);
  }

  lemma SameMapSameContent(p: Signed, q: Signed)
    requires WellFormedBody(p.body) && WellFormedBody(q.body) && AsMap(SignMap(p)) == AsMap(SignMap(q))
    ensures Content(p) == Content(q)
  {
    hide Content, SignMap, AsMap, Alike;
    SignMapWithQuery(p);
    SignMapWithQuery(q);
    SignMapsAlike(p, q);
    forall k | k in AsMap(SignMap(p)) ensures Alike(AsMap(SignMap(p))[k], AsMap(SignMap(p))[k]) {
      AlikeItself(AsMap(SignMap(p))[k], SignMap(p), k);
    }
  }

  lemma AlikeItself(v: Json, fs: seq<Field>, k: string)
    requires WellFormed(Obj(fs)) && k in AsMap(fs) && v == AsMap(fs)[k]
    ensures Alike(v, v)
  {
    hide SortObjectDeep, Alike;
    var i := PropertyOf(fs, k);
    CanonicalIff(v, v);
  }

  /** No falsy body, and no query parameter that leaves a trace. */
  predicate Signable(p: Signed) {
    (p.body.Some? ==> Truthy(p.body.value)) && LeavesNoTrace(p)
  }

  /** The facilitator that receives a request expects exactly the content its buyer signed if and only if the
      request has no falsy body and no query parameter that leaves a trace. */
  lemma SignedAlikeIff(p: Signed, r: Received)
    requires WellFormedBody(p.body) && WellFormedBody(r.body) && SameBody(p.body, r.body)
    requires r.method_ == p.method_ && r.path == p.path
    ensures Content(p) == Content(Expected(r, p.accessKey, p.timestamp)) <==> Signable(p)
  {
    hide Content, Alike;
    var q := p.(query := []);
    if i :| 0 <= i < |p.query| && p.query[i].0 !in {BODY, PROTO} {
      QueryIsNotExpected(p, r, p.accessKey, p.timestamp, i);
    } else if i :| 0 <= i < |p.query| && p.query[i].0 == BODY && p.body.None? {
      ProtoApart();
      LoneBodyParameter(p, r, p.accessKey, p.timestamp, i);
    } else {
      TracelessQuery(p);
      if p.body.Some? {
        BodySignedIff(q, r);
      } else {
        SameContentIff(q, Expected(r, p.accessKey, p.timestamp));
      }
    }
  }

  /** A buyer's signed request of this kind, with its body in any key order, passes the facilitator's check
      exactly while the clocks are within the allowed skew. */
  lemma SignedRequestVerifies(c: Crypto, p: Signed, r: Received, secretKey: string, skewMs: int, ts: int, now: int)
    requires Signable(p) && r.method_ == p.method_ && r.path == p.path
    requires WellFormedBody(p.body) && WellFormedBody(r.body) && SameBody(p.body, r.body)
    requires r.accessKey == Some(p.accessKey) && r.timestamp == Some(p.timestamp)
    requires r.sign == Some(Signature(c, p, secretKey))
    requires p.accessKey != "" && p.timestamp != "" && Signature(c, p, secretKey) != "" && c.number(p.timestamp) == Some(ts)
    ensures VerifyHmac(c, r, p.accessKey, secretKey, skewMs, now) <==> -skewMs <= now - ts <= skewMs
  {
    hide Content;
    SignedAlikeIff(p, r);
  }

  /** The object that is signed, under the names the service knows. */
  lemma SignedFields(p: Signed)
    requires p.query == [] && WellFormedBody(p.body)
    ensures AsMap(SignMap(p)) ==
              (map["MORPH-ACCESS-KEY" := Str(p.accessKey), "MORPH-ACCESS-METHOD" := Str(Upper(p.method_)),
                   "MORPH-ACCESS-PATH" := Str(p.path), "MORPH-ACCESS-TIMESTAMP" := Str(p.timestamp)]
               + if p.body.Some? then map["MORPH-ACCESS-BODY" := p.body.value] else map[])
  {
    hide SignMap, AsMap;
    SignMapIs(p);
    KeysApart();
  }

  /** It is serialised in this order. */
  lemma SignedKeys(p: Signed)
    requires p.query == [] && WellFormedBody(p.body)
    ensures CanonicalKeys(SignMap(p)) ==
              (if p.body.Some? then ["MORPH-ACCESS-BODY"] else [])
              + ["MORPH-ACCESS-KEY", "MORPH-ACCESS-METHOD", "MORPH-ACCESS-PATH", "MORPH-ACCESS-TIMESTAMP"]
  {
    hide CanonicalKeys, SortKeys, StrLeq, IsIndex, SignMap, AsMap, FourAndBody;
    var fs := SignMap(p);
    var all := [BODY, KEY, METHOD, PATH, TIMESTAMP];
    var ks := if p.body.Some? then all else all[1..];
    SignMapIs(p);
    KeysApart();
    ProtoApart();
    SignedKeysSorted();
    HeaderKeysAre(p, ks);
    KeysOfMap(fs);
    forall i | 0 <= i < |fs| ensures !IsIndex(fs[i].key) && fs[i].key != PROTO {
      assert Keys(fs)[i] in Elements(ks);
    }
    KeysComeSorted(fs);
    KeysComeEnumerated(fs);
    assert Elements(Keys(fs)) - {PROTO} == Elements(ks);
    SortedUnique(CanonicalKeys(fs), ks);
  }

  lemma KeysOfMap(fs: seq<Field>)
    ensures AsMap(fs).Keys == Elements(Keys(fs))
  {
  }

  lemma HeaderKeysAre(p: Signed, ks: seq<string>)
    requires ks == if p.body.Some? then [BODY, KEY, METHOD, PATH, TIMESTAMP] else [KEY, METHOD, PATH, TIMESTAMP]
    ensures FourAndBody(NAMES, Values(p), p.body).Keys == Elements(ks)
  {
    forall k ensures k in FourAndBody(NAMES, Values(p), p.body) <==> k in Elements(ks) {
      assert k in Elements(ks) <==> k in ks;
    }
  }

  /** None of the names is an array index, and this is their order. */
  lemma SignedKeysSorted()
    ensures Sorted([BODY, KEY, METHOD, PATH, TIMESTAMP]) && Sorted([KEY, METHOD, PATH, TIMESTAMP])
    ensures !IsIndex(BODY) && !IsIndex(KEY) && !IsIndex(METHOD) && !IsIndex(PATH) && !IsIndex(TIMESTAMP)
  {
    hide IsIndex, StrLeq;
    Spelled();
    InOrder("BODY", "KEY");
    InOrder("BODY", "METHOD");
    InOrder("BODY", "PATH");
    InOrder("BODY", "TIMESTAMP");
    InOrder("KEY", "METHOD");
    InOrder("KEY", "PATH");
    InOrder("KEY", "TIMESTAMP");
    InOrder("METHOD", "PATH");
    InOrder("METHOD", "TIMESTAMP");
    InOrder("PATH", "TIMESTAMP");
    NotIndex("BODY");
    NotIndex("KEY");
    NotIndex("METHOD");
    NotIndex("PATH");
    NotIndex("TIMESTAMP");
  }

  lemma Spelled()
    ensures BODY == "MORPH-ACCESS-" + "BODY" && KEY == "MORPH-ACCESS-" + "KEY" && METHOD == "MORPH-ACCESS-" + "METHOD"
    ensures PATH == "MORPH-ACCESS-" + "PATH" && TIMESTAMP == "MORPH-ACCESS-" + "TIMESTAMP"
  {
  }

  lemma InOrder(a: string, b: string)
    requires a != "" && b != "" && a[0] < b[0]
    ensures StrLeq("MORPH-ACCESS-" + a, "MORPH-ACCESS-" + b)
  {
    StrLeqPrefix("MORPH-ACCESS-", a, b);
  }

  lemma NotIndex(name: string)
    ensures !IsIndex("MORPH-ACCESS-" + name)
  {
    assert ("MORPH-ACCESS-" + name)[0] == 'M' && DigitValue('M') == 99;
  }

  lemma {:induction false} StrLeqPrefix(prefix: string, a: string, b: string)
    ensures StrLeq(prefix + a, prefix + b) <==> StrLeq(a, b)
  {
    if prefix == "" {
      assert "" + a == a && "" + b == b;
    } else {
      assert (prefix + a)[1..] == prefix[1..] + a && (prefix + b)[1..] == prefix[1..] + b;
      StrLeqPrefix(prefix[1..], a, b);
    }
  }

  /** A parameter adds its value at the end of the list of its name, and to no other. */
  lemma {:induction false} ParameterIsListed(q: Query, name: string, value: string, other: string)
    ensures GetAll([], other) == []
    ensures GetAll(q + [(name, value)], other) == GetAll(q, other) + if other == name then [Str(value)] else []
  {
    var more := q + [(name, value)];
    if q == [] {
      assert more == [(name, value)] && more[1..] == [];
    } else {
      assert more[1..] == q[1..] + [(name, value)] && more[0] == q[0];
      ParameterIsListed(q[1..], name, value, other);
    }
  }

  lemma {:induction false} NamesDistinct(q: Query)
    ensures Distinct(Names(q))
  {
    if q != [] {
      NamesDistinct(q[..|q| - 1]);
    }
  }

  // ---------------------------------------------------------------- what the check lets through

  /** The headers are complete, the key is the facilitator's and the clocks differ by at most the allowed skew. */
  predicate HeadersPass(c: Crypto, r: Received, accessKey: string, skewMs: int, now: int) {
    && r.accessKey == Some(accessKey) && accessKey != ""
    && r.sign.Some? && r.sign.value != ""
    && r.timestamp.Some? && r.timestamp.value != ""
    && var ts := c.number(r.timestamp.value);
       ts.Some? && ts.value - skewMs <= now <= ts.value + skewMs
  }

  /**
   * A received request passes exactly when its headers do and it carries the keyed hash of the canonical form of
   * a request of its own method, path, key and timestamp, without a query, and with its body unless that is
   * missing, null, false, zero or the empty string.
   */
  lemma VerifyHmacIff(c: Crypto, r: Received, accessKey: string, secretKey: string, skewMs: int, now: int)
    ensures var body := if r.body in {None, Some(Null), Some(Bool(false)), Some(Num(0.0)), Some(Str(""))} then None else r.body;
            var signed := Signed(r.method_, r.path, [], body, accessKey, r.timestamp.GetOr(""));
            VerifyHmac(c, r, accessKey, secretKey, skewMs, now) <==>
              && HeadersPass(c, r, accessKey, skewMs, now)
              && r.sign == Some(c.hmac(secretKey, c.stringify(SortObjectDeep(Obj(SignMap(signed))))))
  {
    hide SortObjectDeep, SignMap;
    var body := if r.body in {None, Some(Null), Some(Bool(false)), Some(Num(0.0)), Some(Str(""))} then None else r.body;
    assert Expected(r, accessKey, r.timestamp.GetOr("")) == Signed(r.method_, r.path, [], body, accessKey, r.timestamp.GetOr(""));
  }

  /** No two contents serialise alike, and no two texts have one hash under the secret. */
  ghost predicate NoCollision(c: Crypto, secretKey: string) {
    && (forall x, y :: c.stringify(x) == c.stringify(y) ==> x == y)
    && (forall x, y :: c.hmac(secretKey, x) == c.hmac(secretKey, y) ==> x == y)
  }

  /** What a request signs under the name of the body: its body, or else the parameters of that name. */
  function SignedBody(p: Signed): Option<Json> {
    if p.body.Some? then p.body
    else if BODY in Names(p.query) then Some(Arr(GetAll(p.query, BODY)))
    else None
  }

  /** No parameter but one of the body's name, and the one that is dropped. */
  predicate OnlyBodyParameters(p: Signed) {
    forall i :: 0 <= i < |p.query| ==> p.query[i].0 in {BODY, PROTO}
  }

  lemma SignMapWithBodyParameters(p: Signed)
    requires WellFormedBody(p.body) && OnlyBodyParameters(p)
    ensures AsMap(SignMap(p)) == FourAndBody(NAMES, Values(p), SignedBody(p))
    ensures WellFormedBody(SignedBody(p))
  {
    hide SetProperty, AsMap, WellFormed;
    var fs := WithQuery(Header(p), Names(p.query), p.query);
    HeaderWellFormed(p);
    HeaderMap(p);
    KeysApart();
    ProtoApart();
    WithQueryMap(Header(p), Names(p.query), p.query);
    GetAllWellFormed(p.query, BODY);
    forall k | k in Names(p.query) ensures k in {BODY, PROTO} {
      NamesFrom(p.query, k);
    }
    if p.body.Some? {
      SetKeepsWellFormed(fs, Field(BODY, p.body.value));
    }
    assert AsMap(SignMap(p)) == FourAndBody(NAMES, Values(p), SignedBody(p)) by {
      forall k ensures k in AsMap(SignMap(p)) <==> k in FourAndBody(NAMES, Values(p), SignedBody(p)) {
      }
    }
  }

  /** A request signs what another one without a query signs exactly when it has no other parameters and they agree. */
  lemma ContentIff(p: Signed, q: Signed)
    requires WellFormedBody(p.body) && WellFormedBody(q.body) && q.query == []
    ensures Content(p) == Content(q) <==>
              && OnlyBodyParameters(p)
              && p.accessKey == q.accessKey && p.timestamp == q.timestamp
              && Upper(p.method_) == Upper(q.method_) && p.path == q.path
              && SameBody(SignedBody(p), q.body)
  {
    hide Content, SignMap, AsMap, Alike, FourAndBody, SignedBody, Upper;
    SignMapWithQuery(p);
    SignMapIs(q);
    SignMapsAlike(p, q);
    if OnlyBodyParameters(p) {
      SignMapWithBodyParameters(p);
      KeysApart();
      FourAndBodySame(NAMES, Values(p), Values(q), SignedBody(p), q.body);
    } else {
      ExpectedMap(q);
      var i :| 0 <= i < |p.query| && p.query[i].0 !in {BODY, PROTO};
      var k := p.query[i].0;
      if k in AsMap(SignMap(q)) {
        OnlyText(AsMap(SignMap(p))[k], AsMap(SignMap(q))[k]);
      }
    }
  }

  /**
   * A buyer's signature for one request, carried on any other: without hash collisions it passes exactly when the
   * headers do, they are the buyer's, the method in any case and the path are those signed, and the body is what
   * the buyer signed as its body; and the buyer's query had no other parameters.
   */
  lemma CarriedSignatureIff(c: Crypto, p: Signed, r: Received, accessKey: string, secretKey: string, skewMs: int, now: int)
    requires NoCollision(c, secretKey) && WellFormedBody(p.body) && WellFormedBody(r.body)
    requires r.sign == Some(c.hmac(secretKey, c.stringify(Content(p))))
    ensures VerifyHmac(c, r, accessKey, secretKey, skewMs, now) <==>
              && HeadersPass(c, r, accessKey, skewMs, now)
              && p.accessKey == accessKey && r.timestamp == Some(p.timestamp)
              && Upper(r.method_) == Upper(p.method_) && r.path == p.path
              && SameBody(SignedBody(p), BodyOf(r)) && OnlyBodyParameters(p)
  {
    hide Content, SameBody, Upper, OnlyBodyParameters, SignedBody;
    ContentIff(p, Expected(r, accessKey, r.timestamp.GetOr("")));
  }
}
