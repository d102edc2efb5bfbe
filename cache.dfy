/**
 * The `Cache` class of src/middleware/cache.js: an in-memory store of
 * documents for the paths its route pattern accepts, keyed by "VERB path",
 * with an If-Modified-Since baseline reset on every clear.
 */
module Caches {
  import opened Js
  import opened Documents

  /** A compiled route pattern; only its `test(path)` matters, so it stays abstract. */
  type Pattern = string -> bool

  /** The markers `NOT_CACHED`, `CACHED` and `WONT_CACHE`. */
  datatype Marker = NotCached | Cached | WontCache

  /** What `get` returns: a marker or a document. */
  datatype Lookup<+D> = Marked(marker: Marker) | Found(doc: D)

  /** A path the cache will hold: there is no pattern, or the pattern accepts it. */
  predicate Eligible(pattern: Option<Pattern>, path: string) {
    pattern.None? || pattern.value(path)
  }

  /** `#key(verb, path)`; `None` stands for `WONT_CACHE`. */
  function Key(pattern: Option<Pattern>, verb: string, path: string): Option<string> {
    if Eligible(pattern, path) then Some(Upper(verb) + " " + path) else None
  }

  /**
   * The freshness test `ims && typeof ims === 'number' && ims > this.ims`.
   * `ims` is the request's If-Modified-Since already turned into milliseconds;
   * `None` stands for `null` and for a date that did not parse (NaN).
   */
  predicate NewerThan(ims: Option<int>, baseline: int) {
    ims.Some? && ims.value != 0 && ims.value > baseline
  }

  /** What `get(verb, path, ims)` answers, given the baseline and the stored documents. */
  function Answer(pattern: Option<Pattern>, baseline: int, entries: map<string, DocValue>,
                  verb: string, path: string, ims: Option<int>): Lookup<DocValue>
  {
    match Key(pattern, verb, path)
    case None => Marked(WontCache)
    case Some(k) =>
      if k !in entries then Marked(NotCached)
      else if NewerThan(ims, baseline) then Found(Cloned(entries[k], Some(304)))
      else Found(Cloned(entries[k], None))
  }

  /** What `set(verb, path, d)` leaves stored, and the marker it returns. */
  function Stored(pattern: Option<Pattern>, entries: map<string, DocValue>,
                  verb: string, path: string, d: DocValue): (map<string, DocValue>, Marker)
  {
    match Key(pattern, verb, path)
    case None => (entries, WontCache)
    case Some(k) => (entries[k := d], Cached)
  }

  // ---------------------------------------------------------------------------
  // Properties of the key.

  /** An HTTP method is a token: it has no space in it. */
  predicate IsToken(verb: string) {
    forall i :: 0 <= i < |verb| ==> verb[i] != ' '
  }

  /** Both `get` and `set` refuse exactly the paths the pattern rejects, and `set` then stores nothing. */
  lemma WontCacheIffIneligible(pattern: Option<Pattern>, baseline: int, entries: map<string, DocValue>,
                               verb: string, path: string, ims: Option<int>, d: DocValue)
    ensures Answer(pattern, baseline, entries, verb, path, ims) == Marked(WontCache) <==> !Eligible(pattern, path)
    ensures Stored(pattern, entries, verb, path, d).1 == WontCache <==> !Eligible(pattern, path)
    ensures Stored(pattern, entries, verb, path, d).1 != NotCached
    ensures !Eligible(pattern, path) ==> Stored(pattern, entries, verb, path, d).0 == entries
  {
  }

  /** `get` and `GET` (any spelling of a method) share one key. */
  lemma {:induction false} KeyIgnoresVerbCase(pattern: Option<Pattern>, verb: string, path: string)
    ensures Key(pattern, Lower(verb), path) == Key(pattern, verb, path)
  {
    assert forall i :: 0 <= i < |verb| ==> UpperChar(LowerChar(verb[i])) == UpperChar(verb[i]);
    assert Upper(Lower(verb)) == Upper(verb);
  }

  /** Two requests share a key only when they name the same path with the same method, up to case. */
  lemma {:induction false} KeyInjective(pattern: Option<Pattern>, verb1: string, path1: string,
                                        verb2: string, path2: string)
    requires IsToken(verb1) && IsToken(verb2)
    requires Key(pattern, verb1, path1).Some?
    requires Key(pattern, verb1, path1) == Key(pattern, verb2, path2)
    ensures path1 == path2 && Upper(verb1) == Upper(verb2)
  {
    var u1, u2 := Upper(verb1), Upper(verb2);
    var k := u1 + " " + path1;
    assert k == u2 + " " + path2;
    FirstSpace(verb1, path1);
    FirstSpace(verb2, path2);
    assert u1 == k[..|u1|] == u2;
    assert path1 == k[|u1| + 1..] == path2;
  }

  /** In a key, the first space is the one right after the method. */
  lemma FirstSpace(verb: string, path: string)
    requires IsToken(verb)
    ensures IndexOf(Upper(verb) + " " + path, ' ', 0) == Some(|verb|)
  {
    var k := Upper(verb) + " " + path;
    assert k[|verb|] == ' ';
    assert forall j :: 0 <= j < |verb| ==> k[j] == UpperChar(verb[j]);
  }

  /** The path part of a key: what follows its first space. */
  function PathOfKey(k: string): string {
    match IndexOf(k, ' ', 0)
    case None => k
    case Some(i) => k[i + 1..]
  }

  lemma PathOfKeyOf(verb: string, path: string)
    requires IsToken(verb)
    ensures PathOfKey(Upper(verb) + " " + path) == path
  {
    var k := Upper(verb) + " " + path;
    FirstSpace(verb, path);
    assert k[|verb| + 1..] == path;
  }

  /** The cache's invariant: every stored key names a path the pattern accepts. */
  predicate AllEligible(pattern: Option<Pattern>, entries: map<string, DocValue>) {
    forall k :: k in entries ==> Eligible(pattern, PathOfKey(k))
  }

  /** `set` keeps the invariant; `clear` trivially does, leaving no entries. */
  lemma StoredKeepsEligible(pattern: Option<Pattern>, entries: map<string, DocValue>,
                            verb: string, path: string, d: DocValue)
    requires IsToken(verb)
    requires AllEligible(pattern, entries)
    ensures AllEligible(pattern, Stored(pattern, entries, verb, path, d).0)
  {
    if Eligible(pattern, path) {
      PathOfKeyOf(verb, path);
    }
  }

  // ---------------------------------------------------------------------------
  // Properties of `set` and `get`.

  /** `set` on an eligible path stores the document under its key and touches no other key. */
  lemma StoredUnderKeyOnly(pattern: Option<Pattern>, entries: map<string, DocValue>,
                           verb: string, path: string, d: DocValue)
    requires Eligible(pattern, path)
    ensures Stored(pattern, entries, verb, path, d).1 == Cached
    ensures var e := Stored(pattern, entries, verb, path, d).0;
            var k := Upper(verb) + " " + path;
            k in e && e[k] == d && e.Keys == entries.Keys + {k} &&
            forall k' :: k' in entries && k' != k ==> e[k'] == entries[k']
  {
  }

  /** On an eligible path, `get` says `NOT_CACHED` exactly when nothing is stored under the key. */
  lemma NotCachedIffAbsent(pattern: Option<Pattern>, baseline: int, entries: map<string, DocValue>,
                           verb: string, path: string, ims: Option<int>)
    ensures Answer(pattern, baseline, entries, verb, path, ims) == Marked(NotCached)
            <==> Eligible(pattern, path) && Upper(verb) + " " + path !in entries
    ensures Answer(pattern, baseline, entries, verb, path, ims) != Marked(Cached)
  {
  }

  /**
   * The freshness rule: with a document stored, a request newer than the
   * baseline gets the document as a 304; any other request gets it whole.
   */
  lemma FreshnessRule(pattern: Option<Pattern>, baseline: int, entries: map<string, DocValue>,
                      verb: string, path: string, ims: Option<int>)
    requires Eligible(pattern, path)
    requires Upper(verb) + " " + path in entries
    ensures var d := entries[Upper(verb) + " " + path];
            Answer(pattern, baseline, entries, verb, path, ims)
            == Found(DocValue(if NewerThan(ims, baseline) then 304 else d.statusCode, d.headers, d.body))
  {
  }

  /** Round trip: after `set(verb, path, d)`, `get` for the same path with no date returns `d`. */
  lemma SetThenGet(pattern: Option<Pattern>, baseline: int, entries: map<string, DocValue>,
                   verb: string, verb': string, path: string, d: DocValue)
    requires Eligible(pattern, path)
    requires Upper(verb') == Upper(verb)
    ensures Answer(pattern, baseline, Stored(pattern, entries, verb, path, d).0, verb', path, None) == Found(d)
  {
  }

  /**
   * After `clear()` at time `now` and a `set`, a request dated after `now`
   * is answered 304 and one dated at or before `now` gets the full document.
   */
  lemma ClearSetThenConditionalGet(pattern: Option<Pattern>, now: int, verb: string, path: string,
                                   d: DocValue, ims: int)
    requires Eligible(pattern, path)
    requires ims != 0
    ensures Answer(pattern, now, Stored(pattern, map[], verb, path, d).0, verb, path, Some(ims))
            == Found(if ims > now then d.(statusCode := 304) else d)
  {
  }

  /** After `clear()`, every eligible `get` is `NOT_CACHED` until something is stored. */
  lemma ClearedAnswersNotCached(pattern: Option<Pattern>, now: int, verb: string, path: string, ims: Option<int>)
    ensures Answer(pattern, now, map[], verb, path, ims)
            == if Eligible(pattern, path) then Marked(NotCached) else Marked(WontCache)
  {
  }

  /** A cache's state as a value: its pattern, its baseline and the documents it holds. */
  datatype Tier = Tier(pattern: Option<Pattern>, baseline: int, entries: map<string, DocValue>)

  /** The document values behind a `get` result. */
  ghost function Snapshot(r: Lookup<Document>): Lookup<DocValue>
    reads if r.Found? then {r.doc} else {}
  {
    match r
    case Marked(m) => Marked(m)
    case Found(d) => Found(d.Value())
  }

  class Cache {
    const name: string
    const pattern: Option<Pattern>
    /** The baseline for If-Modified-Since: the time of construction or of the last clear. */
    var ims: int
    /**
     * The stored documents. `set` stores the caller's own object, not a copy,
     * so a later change to that object shows through the cache.
     */
    var documents: map<string, Document>

    /** The values of the stored documents. */
    function Entries(): map<string, DocValue>
      reads this, documents.Values
    {
      map k | k in documents :: documents[k].Value()
    }

    function View(): Tier
      reads this, documents.Values
    {
      Tier(pattern, ims, Entries())
    }

    /** `new Cache(name, pattern)` at time `now`; a falsy pattern is `None`. */
    constructor (name: string, pattern: Option<Pattern>, now: int)
      ensures this.name == name && this.pattern == pattern
      ensures ims == now && documents == map[]
    {
      this.name := name;
      this.pattern := pattern;
      ims := now;
      documents := map[];
    }

    /** `clear()` at time `now`: a new baseline and no documents. */
    method Clear(now: int)
      modifies this
      ensures ims == now && documents == map[] && Entries() == map[]
    {
      ims := now;
      documents := map[];
    }

    /** `get(verb, path, ims)`. */
    method Get(verb: string, path: string, ifModifiedSince: Option<int>) returns (r: Lookup<Document>)
      ensures r.Found? ==> fresh(r.doc)
      ensures Snapshot(r) == Answer(pattern, ims, Entries(), verb, path, ifModifiedSince)
    {
      match Key(pattern, verb, path)
      case None =>
        r := Marked(WontCache);
      case Some(k) =>
        if k !in documents {
          r := Marked(NotCached);
        } else if NewerThan(ifModifiedSince, ims) {
          var d := documents[k].Clone(Some(304));
          r := Found(d);
        } else {
          var d := documents[k].Clone(None);
          r := Found(d);
        }
    }

    /** `set(verb, path, document)`: stores the object itself under the key. */
    method Set(verb: string, path: string, document: Document) returns (m: Marker)
      modifies this
      ensures ims == old(ims)
      ensures documents == match Key(pattern, verb, path)
                           case None => old(documents)
                           case Some(k) => old(documents)[k := document]
      ensures (Entries(), m) == Stored(pattern, old(Entries()), verb, path, document.Value())
      ensures m == WontCache <==> Key(pattern, verb, path).None?
    {
      match Key(pattern, verb, path)
      case None =>
        m := WontCache;
      case Some(k) =>
        ghost var before := Entries();
        documents := documents[k := document];
        m := Cached;
        assert Entries() == before[k := document.Value()];
    }
  }
}
