/**
 * The front door of src/middleware/proxy.js: the ordered search over the
 * configured cache tiers, the choice between serving a cached document and
 * fetching from the backend, the header allowlist chosen by status, and
 * `sendDocument`.
 *
 * The backend request is asynchronous in the source; here its answer is a
 * parameter (`None` when no answer arrives). The HTTP client rejects every
 * answer whose status is not 2xx, and there is no `.catch`, so nothing is sent
 * then either.
 */
module FrontDoor {
  import opened Js
  import opened Dict
  import opened Documents
  import opened Caches

  // ---------------------------------------------------------------------------
  // Header allowlists.

  /** `passThroughHeaders[304]`: the validator headers a 304 keeps. */
  const NotModifiedHeaders: seq<string> :=
    ["cache-control", "content-location", "date", "etag", "expires", "vary"]

  /** `passThroughHeaders.default`. */
  const DefaultHeaders: seq<string> :=
    ["cache-control", "content-location", "date", "etag", "expires", "vary", "location", "content-type"]

  /**
   * The allowlist for a document, looked up by its status code: the 304 list
   * for a 304, the default list for any other status.
   */
  function PassThrough(statusCode: int): seq<string> {
    if statusCode == 304 then NotModifiedHeaders else DefaultHeaders
  }

  /**
   * The lookup as written: it asks `_.has(passThroughHeaders, document.status)`,
   * but a `Document` has `statusCode` and no `status`, so the key is
   * `undefined`, never present, and the default list is always chosen.
   */
  function PassThroughAsWritten(d: DocValue): seq<string> {
    DefaultHeaders
  }

  /**
   * Every allowlist is part of the default one and has no repeated name; a 304
   * drops exactly `location` and `content-type` from it.
   */
  lemma AllowlistByStatus(statusCode: int, n: string)
    ensures NoDuplicates(PassThrough(statusCode))
    ensures n in PassThrough(statusCode) ==> n in DefaultHeaders
    ensures n in PassThrough(statusCode) <==> n in DefaultHeaders && (statusCode != 304 || (n != "location" && n != "content-type"))
  {
  }

  /** Every allowlisted name is already lower-case, as Node reports header names. */
  lemma AllowlistLowerCase(statusCode: int)
    ensures forall k :: 0 <= k < |PassThrough(statusCode)| ==> Lower(PassThrough(statusCode)[k]) == PassThrough(statusCode)[k]
  {
    var all := DefaultHeaders;
    assert forall k :: 0 <= k < |all| ==> Lower(all[k]) == all[k] by {
      forall k | 0 <= k < |all|
        ensures Lower(all[k]) == all[k]
      {
        assert forall j :: 0 <= j < |all[k]| ==> !('A' <= all[k][j] <= 'Z');
      }
    }
  }

  /**
   * The discrepancy: a 304 from the backend that carries `content-type` keeps
   * it as written, while the 304 allowlist drops it.
   */
  lemma AsWrittenKeepsContentTypeOn304(f: Dict<string>, body: Body)
    requires "content-type" in Keys(f)
    ensures var d := DocValue(304, Fields(f), body);
            Get(Pick(d.headers, PassThroughAsWritten(d)), "content-type") == Get(f, "content-type") &&
            Get(f, "content-type").Some? &&
            Get(Pick(d.headers, PassThrough(d.statusCode)), "content-type") == None
  {
    assert "content-type" in DefaultHeaders && "content-type" !in NotModifiedHeaders;
    FilterFieldsExactly(f, DefaultHeaders, "content-type");
    FilterFieldsExactly(f, NotModifiedHeaders, "content-type");
  }

  /** `isCacheable`: every document may be cached. */
  function IsCacheable(d: DocValue): (r: bool)
    ensures r
  {
    true
  }

  // ---------------------------------------------------------------------------
  // The tier searches, as functions of the tiers' states.

  /** The index of the first tier whose pattern accepts `path`. */
  function FirstEligible(tiers: seq<Tier>, path: string): (r: Option<nat>)
    ensures r.Some? ==> r.value < |tiers| && Eligible(tiers[r.value].pattern, path)
    ensures r.Some? ==> forall j :: 0 <= j < r.value ==> !Eligible(tiers[j].pattern, path)
    ensures r.None? ==> forall j :: 0 <= j < |tiers| ==> !Eligible(tiers[j].pattern, path)
  {
    if tiers == [] then None
    else if Eligible(tiers[0].pattern, path) then Some(0)
    else match FirstEligible(tiers[1..], path)
      case None => None
      case Some(i) => Some(i + 1)
  }

  /** The lookup loop: the first answer from the tiers, in order, that is not `WONT_CACHE`. */
  function TierAnswer(tiers: seq<Tier>, verb: string, path: string, ims: Option<int>): Lookup<DocValue> {
    if tiers == [] then Marked(WontCache)
    else
      var a := Answer(tiers[0].pattern, tiers[0].baseline, tiers[0].entries, verb, path, ims);
      if a != Marked(WontCache) then a else TierAnswer(tiers[1..], verb, path, ims)
  }

  /**
   * The lookup is decided by the first tier that accepts the path, and is
   * `WONT_CACHE` only when every tier rejects it.
   */
  lemma {:induction false} TierAnswerIsFirstEligible(tiers: seq<Tier>, verb: string, path: string, ims: Option<int>)
    ensures TierAnswer(tiers, verb, path, ims)
            == match FirstEligible(tiers, path)
               case None => Marked(WontCache)
               case Some(i) => Answer(tiers[i].pattern, tiers[i].baseline, tiers[i].entries, verb, path, ims)
    ensures TierAnswer(tiers, verb, path, ims) != Marked(Cached)
  {
    if tiers != [] {
      var t := tiers[0];
      WontCacheIffIneligible(t.pattern, t.baseline, t.entries, verb, path, ims, DocValue(0, Lines([]), []));
      NotCachedIffAbsent(t.pattern, t.baseline, t.entries, verb, path, ims);
      TierAnswerIsFirstEligible(tiers[1..], verb, path, ims);
    }
  }

  /** The store loop: the document goes into the first tier that accepts the path, and nowhere else. */
  function TierStore(tiers: seq<Tier>, verb: string, path: string, d: DocValue): seq<Tier> {
    match FirstEligible(tiers, path)
    case None => tiers
    case Some(i) => tiers[i := tiers[i].(entries := Stored(tiers[i].pattern, tiers[i].entries, verb, path, d).0)]
  }

  /**
   * Storing and looking up agree: after a document is stored, a lookup of the
   * same path with no date finds it, whatever tier holds it.
   */
  lemma StoreThenLookup(tiers: seq<Tier>, verb: string, path: string, d: DocValue)
    requires FirstEligible(tiers, path).Some?
    ensures TierAnswer(TierStore(tiers, verb, path, d), verb, path, None) == Found(d)
  {
    var i := FirstEligible(tiers, path).value;
    var after := TierStore(tiers, verb, path, d);
    assert forall j :: 0 <= j < |after| ==> after[j].pattern == tiers[j].pattern;
    assert FirstEligible(after, path) == Some(i) by {
      FirstEligibleByPatterns(tiers, after, path);
    }
    TierAnswerIsFirstEligible(after, verb, path, None);
    SetThenGet(tiers[i].pattern, tiers[i].baseline, tiers[i].entries, verb, verb, path, d);
  }

  /** Only the patterns decide which tier is first. */
  lemma {:induction false} FirstEligibleByPatterns(a: seq<Tier>, b: seq<Tier>, path: string)
    requires |a| == |b|
    requires forall j :: 0 <= j < |a| ==> a[j].pattern == b[j].pattern
    ensures FirstEligible(a, path) == FirstEligible(b, path)
  {
    if a != [] {
      FirstEligibleByPatterns(a[1..], b[1..], path);
    }
  }

  /** A fetched document leaves the tiers alone when no tier accepts its path, and never adds a tier. */
  lemma TierStoreShape(tiers: seq<Tier>, verb: string, path: string, d: DocValue)
    ensures |TierStore(tiers, verb, path, d)| == |tiers|
    ensures FirstEligible(tiers, path).None? ==> TierStore(tiers, verb, path, d) == tiers
    ensures forall j :: 0 <= j < |tiers| && Some(j) != FirstEligible(tiers, path) ==>
              TierStore(tiers, verb, path, d)[j] == tiers[j]
  {
  }

  // ---------------------------------------------------------------------------
  // The fetched document.

  /** What the backend client hands back: status, header object and body. */
  datatype BackendResponse = BackendResponse(status: int, headers: Dict<string>, data: Body)

  /**
   * The HTTP client's default `validateStatus`: only a 2xx answer fulfils the
   * request and reaches its `then`; any other status rejects it.
   */
  predicate Fulfilled(b: BackendResponse) {
    200 <= b.status < 300
  }

  /**
   * Every answer that reaches the `then` is filtered with the default list,
   * as written and as intended alike: the 304 list is never chosen there.
   */
  lemma FulfilledUsesDefaultList(b: BackendResponse)
    requires Fulfilled(b)
    ensures PassThrough(b.status) == DefaultHeaders
    ensures Fetched(b).headers == Fields(Pick(Fields(b.headers), PassThroughAsWritten(DocValue(b.status, Fields(b.headers), b.data))))
  {
  }

  /** The fetched document after `filterHeaders` with the allowlist for its status. */
  function Fetched(b: BackendResponse): DocValue {
    DocValue(b.status, Fields(Pick(Fields(b.headers), PassThrough(b.status))), b.data)
  }

  /**
   * What leaves the proxy (and what the cache keeps) holds exactly the
   * allow-listed headers the backend sent, with the backend's values.
   */
  lemma FetchedHeadersAllowListed(b: BackendResponse, n: string)
    ensures Fetched(b).statusCode == b.status && Fetched(b).body == b.data
    ensures Get(Fetched(b).headers.fields, n) == if n in PassThrough(b.status) then Get(b.headers, n) else None
    ensures n in Keys(Fetched(b).headers.fields) <==> n in PassThrough(b.status) && n in Keys(b.headers)
    ensures Unique(Fetched(b).headers.fields)
  {
    FilterFieldsExactly(b.headers, PassThrough(b.status), n);
  }

  // ---------------------------------------------------------------------------
  // The response.

  /**
   * The headers a response ends up with after `res.set(name, value)` for each
   * entry in order; Node keeps header names case-insensitively, so the table
   * is keyed by the lower-cased name.
   */
  function SetAll(h: map<string, string>, entries: Dict<string>): map<string, string>
    decreases |entries|
  {
    if entries == [] then h else SetAll(h[Lower(entries[0].0) := entries[0].1], entries[1..])
  }

  /**
   * With unique lower-case names, as every filtered document has, the response
   * carries exactly each header's value, and keeps what it had for other names.
   */
  lemma {:induction false} SetAllFinds(h: map<string, string>, entries: Dict<string>, k: string)
    requires Unique(entries)
    requires forall j :: 0 <= j < |entries| ==> Lower(entries[j].0) == entries[j].0
    ensures k in Keys(entries) ==> k in SetAll(h, entries) && Some(SetAll(h, entries)[k]) == Get(entries, k)
    ensures k !in Keys(entries) ==> (k in SetAll(h, entries) <==> k in h)
    ensures k !in Keys(entries) && k in h ==> SetAll(h, entries)[k] == h[k]
    decreases |entries|
  {
    if entries != [] {
      var e := entries[0];
      assert Keys(entries) == [e.0] + Keys(entries[1..]);
      assert Lower(e.0) == e.0;
      SetAllFinds(h[e.0 := e.1], entries[1..], k);
    }
  }

  /** An Express response: the header table, and the status and body once sent. */
  class Response {
    var headers: map<string, string>
    var sent: Option<(int, Body)>

    constructor ()
      ensures headers == map[] && sent == None
    {
      headers := map[];
      sent := None;
    }

    /** `res.set(name, value)`. */
    method Set(name: string, value: string)
      modifies this
      ensures headers == old(headers)[Lower(name) := value] && sent == old(sent)
    {
      headers := headers[Lower(name) := value];
    }

    /** `res.status(code).send(body)`. */
    method Send(statusCode: int, body: Body)
      modifies this
      ensures headers == old(headers) && sent == Some((statusCode, body))
    {
      sent := Some((statusCode, body));
    }
  }

  /** `sendDocument(res, document)`: every own key of the headers, then status and body. */
  method SendDocument(res: Response, document: Document)
    modifies res
    ensures res.headers == SetAll(old(res.headers), Entries(document.headers))
    ensures res.sent == Some((document.statusCode, document.body))
  {
    var entries := Entries(document.headers);
    var i := 0;
    while i < |entries|
      invariant 0 <= i <= |entries|
      invariant SetAll(res.headers, entries[i..]) == SetAll(old(res.headers), entries)
    {
      assert entries[i..][0] == entries[i] && entries[i..][1..] == entries[i + 1..];
      res.Set(entries[i].0, entries[i].1);
      i := i + 1;
    }
    assert entries[i..] == [];
    res.Send(document.statusCode, document.body);
  }

  // ---------------------------------------------------------------------------
  // The configured caches.

  /** The states of the configured caches, in order. */
  ghost function Views(caches: seq<Cache>): (r: seq<Tier>)
    reads caches, set i, d | 0 <= i < |caches| && d in caches[i].documents.Values :: d
    ensures |r| == |caches|
    ensures forall j :: 0 <= j < |caches| ==> r[j] == caches[j].View()
  {
    if caches == [] then [] else [caches[0].View()] + Views(caches[1..])
  }

  /** `caches` is built by `new Cache(...)` for each configured cache: no cache appears twice. */
  predicate Distinct(caches: seq<Cache>) {
    forall i, j :: 0 <= i < j < |caches| ==> caches[i] != caches[j]
  }

  /** The lookup loop of `proxy`. */
  method LookupTiers(caches: seq<Cache>, verb: string, path: string, ims: Option<int>) returns (r: Lookup<Document>)
    ensures r.Found? ==> fresh(r.doc)
    ensures Snapshot(r) == TierAnswer(Views(caches), verb, path, ims)
  {
    ghost var tiers := Views(caches);
    r := Marked(WontCache);
    var i := 0;
    while i < |caches| && r == Marked(WontCache)
      invariant 0 <= i <= |caches|
      invariant r.Found? ==> fresh(r.doc)
      invariant Views(caches) == tiers
      invariant r != Marked(WontCache) ==> Snapshot(r) == TierAnswer(tiers, verb, path, ims)
      invariant r == Marked(WontCache) ==> TierAnswer(tiers[i..], verb, path, ims) == TierAnswer(tiers, verb, path, ims)
    {
      assert tiers[i..][0] == tiers[i] && tiers[i..][1..] == tiers[i + 1..];
      r := GetAt(caches, i, verb, path, ims);
      i := i + 1;
    }
    if r == Marked(WontCache) {
      assert tiers[i..] == [];
    }
  }

  /** `caches[i].get(verb, path, ims)`, seen from all the caches: none of them changes. */
  method GetAt(caches: seq<Cache>, i: nat, verb: string, path: string, ims: Option<int>) returns (r: Lookup<Document>)
    requires i < |caches|
    ensures r.Found? ==> fresh(r.doc)
    ensures Views(caches) == old(Views(caches))
    ensures var t := Views(caches)[i]; Snapshot(r) == Answer(t.pattern, t.baseline, t.entries, verb, path, ims)
  {
    r := caches[i].Get(verb, path, ims);
  }

  /** The store loop of `proxy`. */
  method StoreTiers(caches: seq<Cache>, verb: string, path: string, document: Document) returns (m: Marker)
    requires Distinct(caches)
    modifies caches
    ensures m == if FirstEligible(old(Views(caches)), path).Some? then Cached else WontCache
    ensures Views(caches) == TierStore(old(Views(caches)), verb, path, document.Value())
  {
    ghost var tiers := Views(caches);
    ghost var d := document.Value();
    m := WontCache;
    var i := 0;
    while i < |caches| && m == WontCache
      invariant 0 <= i <= |caches| && m != NotCached
      invariant document.Value() == d
      invariant forall j :: 0 <= j < |caches| && (m == WontCache || j != i - 1) ==> caches[j].View() == tiers[j]
      invariant m == WontCache ==> forall j :: 0 <= j < i ==> !Eligible(tiers[j].pattern, path)
      invariant m == Cached ==> FirstEligible(tiers, path) == Some(i - 1) &&
                                caches[i - 1].View() == TierStore(tiers, verb, path, d)[i - 1]
    {
      m := SetAt(caches, i, verb, path, document);
      if m == Cached {
        FirstEligibleAt(tiers, path, i);
      }
      i := i + 1;
    }
    if m == WontCache {
      assert FirstEligible(tiers, path).None?;
    }
    assert Views(caches) == TierStore(tiers, verb, path, d);
  }

  /** `caches[i].set(verb, path, document)`, seen from all the caches: the others keep their state. */
  method SetAt(caches: seq<Cache>, i: nat, verb: string, path: string, document: Document) returns (m: Marker)
    requires Distinct(caches) && i < |caches|
    modifies caches[i]
    ensures (caches[i].Entries(), m) == Stored(caches[i].pattern, old(caches[i].Entries()), verb, path, document.Value())
    ensures caches[i].View() == old(caches[i].View()).(entries := caches[i].Entries())
    ensures forall j :: 0 <= j < |caches| && j != i ==> caches[j].View() == old(caches[j].View())
    ensures document.Value() == old(document.Value())
  {
    m := caches[i].Set(verb, path, document);
  }

  /** The first tier that accepts the path is the one after a run of tiers that reject it. */
  lemma FirstEligibleAt(tiers: seq<Tier>, path: string, i: nat)
    requires i < |tiers| && Eligible(tiers[i].pattern, path)
    requires forall j :: 0 <= j < i ==> !Eligible(tiers[j].pattern, path)
    ensures FirstEligible(tiers, path) == Some(i)
  {
  }

  /** Where the answer came from. */
  datatype Route = FromCache | FromBackend

  /**
   * `proxy(req, res)` for method `verb`, path `path` and If-Modified-Since
   * `ims` (already in milliseconds), where `backend` is what the backend
   * request yields if it is made. Only a fulfilled answer is sent and stored.
   */
  method Proxy(caches: seq<Cache>, res: Response, verb: string, path: string, ims: Option<int>,
               backend: Option<BackendResponse>) returns (route: Route, request: Option<(string, string)>)
    requires Distinct(caches)
    modifies caches, res
    ensures route == FromBackend <==> TierAnswer(old(Views(caches)), verb, path, ims).Marked?
    ensures route == FromBackend ==> request == Some((Lower(verb), path))
    ensures route == FromCache ==>
              request == None && Views(caches) == old(Views(caches)) &&
              var d := TierAnswer(old(Views(caches)), verb, path, ims).doc;
              res.sent == Some((d.statusCode, d.body)) &&
              res.headers == SetAll(old(res.headers), Entries(d.headers))
    ensures route == FromBackend && !(backend.Some? && Fulfilled(backend.value)) ==>
              Views(caches) == old(Views(caches)) && res.headers == old(res.headers) && res.sent == old(res.sent)
    ensures route == FromBackend && backend.Some? && Fulfilled(backend.value) ==>
              var d := Fetched(backend.value);
              res.sent == Some((d.statusCode, d.body)) &&
              res.headers == SetAll(old(res.headers), d.headers.fields) &&
              Views(caches) == TierStore(old(Views(caches)), verb, path, d)
  {
    ghost var tiers := Views(caches);
    var cached := LookupTiers(caches, verb, path, ims);
    assert Views(caches) == tiers;
    TierAnswerIsFirstEligible(tiers, verb, path, ims);
    if cached == Marked(WontCache) || cached == Marked(NotCached) {
      route, request := FromBackend, Some((Lower(verb), path));
      if backend.Some? && Fulfilled(backend.value) {
        ServeFetched(caches, res, verb, path, backend.value);
      }
    } else {
      route, request := FromCache, None;
      ghost var d := cached.doc.Value();
      assert TierAnswer(tiers, verb, path, ims) == Found(d);
      SendDocument(res, cached.doc);
      assert Views(caches) == tiers;
    }
  }

  /** `new Document(...)` from the backend's answer, then `filterHeaders` with the allowlist for its status. */
  method FetchedDocument(b: BackendResponse) returns (document: Document)
    ensures fresh(document) && document.Value() == Fetched(b)
  {
    document := new Document(b.status, Some(Fields(b.headers)), b.data);
    document.FilterHeaders(PassThrough(document.statusCode));
  }

  /** The `then` of the backend request, reached by 2xx answers only: build, filter, send, then store the document. */
  method ServeFetched(caches: seq<Cache>, res: Response, verb: string, path: string, b: BackendResponse)
    requires Fulfilled(b) && Distinct(caches)
    modifies caches, res
    ensures var d := Fetched(b);
            res.sent == Some((d.statusCode, d.body)) &&
            res.headers == SetAll(old(res.headers), d.headers.fields) &&
            Views(caches) == TierStore(old(Views(caches)), verb, path, d)
  {
    ghost var tiers := Views(caches);
    var document := FetchedDocument(b);
    assert Views(caches) == tiers;
    SendDocument(res, document);
    assert Views(caches) == tiers;
    if IsCacheable(document.Value()) {
      var _ := StoreTiers(caches, verb, path, document);
    }
  }
}
