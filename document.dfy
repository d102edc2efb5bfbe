/**
 * The `Document` class of src/middleware/cache.js: a response held by the
 * proxy, made of a status code, headers and a body.
 */
module Documents {
  import opened Js
  import opened Dict

  /** Response bytes; what the body holds is never inspected. */
  type Body = seq<bv8>

  /**
   * A document's `headers`. The code treats it in two shapes: an array of
   * "name:value" lines (what the constructor defaults to and what `addHeader`
   * and `getHeaders` work on), or a plain object from header name to value
   * (what the HTTP client hands the proxy, and what `filterHeaders` always
   * leaves behind).
   */
  datatype Headers = Lines(lines: seq<string>) | Fields(fields: Dict<string>)

  /** The fields of a document at one moment. */
  datatype DocValue = DocValue(statusCode: int, headers: Headers, body: Body)

  // ---------------------------------------------------------------------------
  // The headers seen as an object, as lodash and `Object.keys` see them.

  /** `Object.keys(headers)` with the values: an array's own keys are its indices. */
  function Entries(h: Headers): Dict<string> {
    match h
    case Lines(ls) => seq(|ls|, i requires 0 <= i < |ls| => (Decimal(i), ls[i]))
    case Fields(f) => f
  }

  /**
   * `name in headers ? headers[name] : absent`, the test and the read that
   * `_.pick` makes; an array also has its `length`.
   */
  function Property(h: Headers, name: string): Option<string> {
    if h.Lines? && name == "length" then Some(Decimal(|h.lines|)) else Get(Entries(h), name)
  }

  /**
   * `_.pick(headers, allow)`: a new plain object holding exactly the
   * properties named in `allow` that the headers have, with their values.
   */
  function Pick(h: Headers, allow: seq<string>): (r: Dict<string>)
    ensures Unique(r)
    ensures forall n :: Get(r, n) == (if n in allow then Property(h, n) else None)
    decreases |allow|
  {
    if allow == [] then []
    else
      var prefix := allow[..|allow| - 1];
      var n := allow[|allow| - 1];
      assert allow == prefix + [n];
      var rest := Pick(h, prefix);
      match Property(h, n)
      case Some(v) => Put(rest, n, v)
      case None => rest
  }

  /** The names of `allow` that the headers have, in `allow`'s order. */
  function Present(h: Headers, allow: seq<string>): seq<string> {
    if allow == [] then []
    else (if Property(h, allow[0]).Some? then [allow[0]] else []) + Present(h, allow[1..])
  }

  predicate NoDuplicates(s: seq<string>) {
    forall i, j :: 0 <= i < j < |s| ==> s[i] != s[j]
  }

  lemma {:induction false} PresentSnoc(h: Headers, allow: seq<string>, n: string)
    ensures Present(h, allow + [n]) == Present(h, allow) + (if Property(h, n).Some? then [n] else [])
    decreases |allow|
  {
    var last := if Property(h, n).Some? then [n] else [];
    if allow == [] {
      assert allow + [n] == [n];
      assert Present(h, [n]) == last + Present(h, []);
    } else {
      var head := if Property(h, allow[0]).Some? then [allow[0]] else [];
      assert (allow + [n])[0] == allow[0];
      assert (allow + [n])[1..] == allow[1..] + [n];
      assert Present(h, allow + [n]) == head + Present(h, allow[1..] + [n]);
      PresentSnoc(h, allow[1..], n);
      assert head + (Present(h, allow[1..]) + last) == (head + Present(h, allow[1..])) + last;
    }
  }

  lemma PresentSubset(h: Headers, allow: seq<string>)
    ensures forall x :: x in Present(h, allow) ==> x in allow
  {
  }

  /**
   * The filtered headers keep the order of the allowlist, not the order the
   * headers came in: the keys are the allow-listed names the headers have.
   */
  lemma {:induction false} PickOrder(h: Headers, allow: seq<string>)
    requires NoDuplicates(allow)
    ensures Keys(Pick(h, allow)) == Present(h, allow)
    decreases |allow|
  {
    if allow != [] {
      var prefix := allow[..|allow| - 1];
      var n := allow[|allow| - 1];
      assert allow == prefix + [n];
      PickOrder(h, prefix);
      PresentSnoc(h, prefix, n);
      PresentSubset(h, prefix);
      assert n !in prefix;
      assert n !in Keys(Pick(h, prefix));
    }
  }

  /**
   * `filterHeaders` on object-shaped headers: a name keeps its value exactly
   * when it is allow-listed; every other header is gone.
   */
  lemma FilterFieldsExactly(f: Dict<string>, allow: seq<string>, n: string)
    ensures Get(Pick(Fields(f), allow), n) == (if n in allow then Get(f, n) else None)
    ensures n in Keys(Pick(Fields(f), allow)) <==> n in allow && n in Keys(f)
  {
  }

  // ---------------------------------------------------------------------------
  // Header lines "name:value".

  // `line.replace(/:.*/, '')`: the line without its first ':' and the rest of that text line.
  function HeaderName(line: string): string {
    match IndexOf(line, ':', 0)
    case None => line
    case Some(i) => line[..i] + line[LineEnd(line, i + 1)..]
  }

  /** `line.replace(/[^:]*:/, '')`: the line after its first ':', or all of it. */
  function HeaderValue(line: string): string {
    match IndexOf(line, ':', 0)
    case None => line
    case Some(i) => line[i + 1..]
  }

  /** A line built from a name without ':' and a one-line value splits back into both. */
  lemma HeaderLineRoundTrip(name: string, value: string)
    requires forall k :: 0 <= k < |name| ==> name[k] != ':'
    requires forall k :: 0 <= k < |value| ==> !IsLineTerminator(value[k])
    ensures HeaderName(name + ":" + value) == name
    ensures HeaderValue(name + ":" + value) == value
  {
    var line := name + ":" + value;
    assert line[|name|] == ':';
    assert IndexOf(line, ':', 0) == Some(|name|);
    assert LineEnd(line, |name| + 1) == |line|;
    assert line[..|name|] == name;
    assert line[|name| + 1..] == value;
  }

  /** A line without ':' is both its own name and its own value. */
  lemma HeaderLineWithoutColon(line: string)
    requires forall k :: 0 <= k < |line| ==> line[k] != ':'
    ensures HeaderName(line) == line && HeaderValue(line) == line
  {
  }

  /** The name pattern stops at a line break: text after it stays part of the name. */
  lemma HeaderNameKeepsNextLine()
    ensures HeaderName("a:b\nc") == "a\nc"
  {
    var line := "a:b\nc";
    assert line[1] == ':';
    assert IndexOf(line, ':', 0) == Some(1);
    assert IsLineTerminator(line[3]);
    assert LineEnd(line, 2) == 3;
    assert line[..1] + line[3..] == "a\nc";
  }

  /** `lines.filter(h => name === HeaderName(h))`. */
  function Named(lines: seq<string>, name: string): (r: seq<string>)
    ensures forall x :: x in r <==> x in lines && HeaderName(x) == name
    ensures |r| <= |lines|
  {
    if lines == [] then []
    else (if HeaderName(lines[0]) == name then [lines[0]] else []) + Named(lines[1..], name)
  }

  /** Filtering keeps the original order: it distributes over concatenation. */
  lemma {:induction false} NamedAppend(a: seq<string>, b: seq<string>, name: string)
    ensures Named(a + b, name) == Named(a, name) + Named(b, name)
    decreases |a|
  {
    if a == [] {
      assert a + b == b;
    } else {
      assert (a + b)[0] == a[0];
      assert (a + b)[1..] == a[1..] + b;
      NamedAppend(a[1..], b, name);
    }
  }

  function ValuesOf(lines: seq<string>): (r: seq<string>)
    ensures |r| == |lines|
    ensures forall k :: 0 <= k < |lines| ==> r[k] == HeaderValue(lines[k])
  {
    seq(|lines|, k requires 0 <= k < |lines| => HeaderValue(lines[k]))
  }

  /** After `addHeader(name + ":" + value)`, the last value found under `name` is `value`. */
  lemma AddedHeaderIsLastValue(lines: seq<string>, name: string, value: string)
    requires forall k :: 0 <= k < |name| ==> name[k] != ':'
    requires forall k :: 0 <= k < |value| ==> !IsLineTerminator(value[k])
    ensures ValuesOf(Named(lines + [name + ":" + value], name)) == ValuesOf(Named(lines, name)) + [value]
  {
    var line := name + ":" + value;
    NamedAppend(lines, [line], name);
    HeaderLineRoundTrip(name, value);
    assert Named([line], name) == [line];
    ValuesOfSnoc(Named(lines, name), line);
  }

  lemma ValuesOfSnoc(lines: seq<string>, line: string)
    ensures ValuesOf(lines + [line]) == ValuesOf(lines) + [HeaderValue(line)]
  {
    var a, b := ValuesOf(lines + [line]), ValuesOf(lines) + [HeaderValue(line)];
    assert |a| == |b|;
    forall k | 0 <= k < |a| ensures a[k] == b[k] {
      if k < |lines| { assert (lines + [line])[k] == lines[k]; }
    }
  }

  // ---------------------------------------------------------------------------
  // Cloning.

  /**
   * `clone(statusCode)`: a new document with the same headers and body, and
   * with `statusCode || this.statusCode` as status (`None` is `undefined`; 0
   * is falsy and keeps the original status).
   */
  function Cloned(d: DocValue, statusCode: Option<int>): DocValue {
    DocValue(if statusCode.Some? && statusCode.value != 0 then statusCode.value else d.statusCode,
             d.headers, d.body)
  }

  /** A clone carries headers and body over; its status is overridden only by a truthy one. */
  lemma CloneCarriesContent(d: DocValue, statusCode: Option<int>)
    ensures Cloned(d, statusCode).headers == d.headers && Cloned(d, statusCode).body == d.body
    ensures statusCode.None? ==> Cloned(d, statusCode) == d
    ensures statusCode == Some(0) ==> Cloned(d, statusCode) == d
    ensures statusCode.Some? && statusCode.value != 0 ==> Cloned(d, statusCode).statusCode == statusCode.value
  {
  }

  class Document {
    var statusCode: int
    var headers: Headers
    var body: Body

    function Value(): DocValue
      reads this
    {
      DocValue(statusCode, headers, body)
    }

    /** `new Document(statusCode, headers, body)`: missing headers become an empty array. */
    constructor (statusCode: int, headers: Option<Headers>, body: Body)
      ensures Value() == DocValue(statusCode, if headers.Some? then headers.value else Lines([]), body)
    {
      this.statusCode := statusCode;
      this.headers := if headers.Some? then headers.value else Lines([]);
      this.body := body;
    }

    /**
     * `addHeader(header)`: pushes onto the array of lines; object-shaped
     * headers have no `push`, so the call throws and nothing changes.
     */
    method AddHeader(header: string) returns (c: Completion<()>)
      modifies this
      ensures old(headers).Lines? ==> c == Normal(()) && headers == Lines(old(headers).lines + [header])
      ensures old(headers).Fields? ==> c == Throw(TypeError) && headers == old(headers)
      ensures statusCode == old(statusCode) && body == old(body)
    {
      match headers
      case Lines(ls) =>
        headers := Lines(ls + [header]);
        c := Normal(());
      case Fields(_) =>
        c := Throw(TypeError);
    }

    /**
     * `clone(statusCode)`. The clone shares the original's headers array;
     * here headers are values, so that sharing is not visible.
     */
    method Clone(statusCode: Option<int>) returns (d: Document)
      ensures fresh(d)
      ensures d.Value() == Cloned(Value(), statusCode)
    {
      d := new Document(if statusCode.Some? && statusCode.value != 0 then statusCode.value else this.statusCode,
                        Some(headers), body);
    }

    /** `filterHeaders(allow)`: the headers become the allow-listed part of themselves. */
    method FilterHeaders(allow: seq<string>)
      modifies this
      ensures headers == Fields(Pick(old(headers), allow))
      ensures statusCode == old(statusCode) && body == old(body)
    {
      headers := Fields(Pick(headers, allow));
    }

    /**
     * `getHeaders(name)`: the lines whose name is `name`, in order. Object-shaped
     * headers have no `filter`, so the call throws.
     */
    function GetHeaders(name: string): (r: Completion<seq<string>>)
      reads this
      ensures r.Normal? <==> headers.Lines?
      ensures r.Normal? ==> forall x :: x in r.value <==> x in headers.lines && HeaderName(x) == name
    {
      match headers
      case Lines(ls) => Normal(Named(ls, name))
      case Fields(_) => Throw(TypeError)
    }

    /** `getHeaderValues(name)`: the values of the lines `getHeaders(name)` returns. */
    function GetHeaderValues(name: string): (r: Completion<seq<string>>)
      reads this
      ensures r.Normal? <==> headers.Lines?
      ensures r.Normal? ==> |r.value| == |GetHeaders(name).value|
      ensures r.Normal? ==> forall k :: 0 <= k < |r.value| ==> r.value[k] == HeaderValue(GetHeaders(name).value[k])
    {
      match GetHeaders(name)
      case Normal(ls) => Normal(ValuesOf(ls))
      case Throw(e) => Throw(e)
    }
  }
}
