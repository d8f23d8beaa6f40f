/**
 * The values of Go's net/url and net/http packages as the client uses
 * them, and the library routines the model takes as parameters: SHA-1,
 * `url.Values.Encode`, JSON decoding, and the HTTP transport itself.
 */
module GoNet {
  import opened Wrappers
  import opened GoFmt

  /** A `sha1.Sum` result: always 20 bytes. */
  type Digest = d: seq<byte> | |d| == 20 witness [0, 0, 0, 0, 0, 0, 0, 0, 0, 0, 0, 0, 0, 0, 0, 0, 0, 0, 0, 0]

  /**
   * `url.Values` as the ordered list of the (key, value) pairs added to it.
   * Go keeps the values of one key in the order they were added; the
   * order between keys is decided by `Encode`, which sorts them.
   */
  type Values = seq<(string, string)>

  /** `url.Values.Add`: the pair goes after every pair already there. */
  function Add(q: Values, key: string, value: string): (r: Values)
    ensures |r| == |q| + 1 && r[..|q|] == q && r[|q|] == (key, value)
  {
    var r := q + [(key, value)];
    assert r[..|q|] == q;
    r
  }

  /** `q[key]`: the values stored under key, in the order they were added. */
  function Lookup(q: Values, key: string): (vs: seq<string>)
    ensures |vs| <= |q|
  {
    if q == [] then []
    else Lookup(q[..|q| - 1], key) + (if q[|q| - 1].0 == key then [q[|q| - 1].1] else [])
  }

  /** The values of a key in two lists of pairs put together are those of the first, then those of the second. */
  lemma {:induction false} LookupConcat(a: Values, b: Values, key: string)
    ensures Lookup(a + b, key) == Lookup(a, key) + Lookup(b, key)
  {
    if b != [] {
      var b' := b[..|b| - 1];
      assert (a + b)[..|a + b| - 1] == a + b';
      LookupConcat(a, b', key);
    } else {
      assert a + b == a;
    }
  }

  /** The fields of `url.URL` that `buildURL` sets. */
  datatype Url = Url(scheme: string, host: string, path: string, rawQuery: string)

  /**
   * `url.URL.String()` for these URLs: the query and its '?' appear only
   * when RawQuery is non-empty. Host and path escaping are left out.
   */
  function UrlString(u: Url): (s: string)
    ensures |s| >= |u.scheme| + 3 && s[..|u.scheme| + 3] == u.scheme + "://"
    ensures |s| >= |u.scheme| + 3 + |u.host| + |u.path|
    ensures s[|u.scheme| + 3..|u.scheme| + 3 + |u.host| + |u.path|] == u.host + u.path
    ensures u.rawQuery == "" ==> |s| == |u.scheme| + 3 + |u.host| + |u.path|
    ensures u.rawQuery != "" ==> |s| == |u.scheme| + 4 + |u.host| + |u.path| + |u.rawQuery|
    ensures u.rawQuery != "" ==> s[|s| - |u.rawQuery| - 1..] == "?" + u.rawQuery
  {
    u.scheme + "://" + u.host + u.path + (if u.rawQuery == "" then "" else "?" + u.rawQuery)
  }

  /** `http.Header`: each key holds a list of values. */
  type Header = map<string, seq<string>>

  /** `http.Header.Set`: the key ends up holding exactly the one value. */
  function SetHeader(h: Header, key: string, value: string): Header
  {
    h[key := [value]]
  }

  /** An `error` value, known by the text its `Error()` method returns. */
  datatype GoError = GoError(text: string)

  /** The fields of the `http.Request` handed to the transport. */
  datatype HttpRequest = HttpRequest(
    verb: string,
    url: Url,
    header: Header,
    body: Option<string>,
    contentLength: int)

  /** What `ioutil.ReadAll(response.Body)` gave. */
  datatype BodyRead = Read(bytes: seq<byte>) | ReadFailed(err: GoError)

  /** The parts of an `http.Response` the client looks at, with the outcome of reading its body. */
  datatype HttpResponse = HttpResponse(statusCode: int, header: Header, body: BodyRead)

  /** The "2xx" test both clients make: `StatusCode/100 == 2` in Go's integer division. */
  predicate IsSuccess(status: int)
  {
    GoQuotient(status, 100) == 2
  }

  /** The test accepts exactly the statuses 200 to 299. */
  lemma IsSuccessRange(status: int)
    ensures IsSuccess(status) <==> 200 <= status <= 299
  {
    if status >= 0 {
      assert GoQuotient(status, 100) == status / 100;
    }
  }

  /** What `http.Client.Do` returned: a response, or a transport error. */
  type Transport = HttpRequest -> Result<HttpResponse, GoError>

  /**
   * The library routines used as given: `sha1.Sum`, `url.Values.Encode`,
   * `json.Unmarshal` into a caller's value (None when it succeeds), and
   * `json.Unmarshal` of an error body into the (code, message) pair.
   */
  datatype Library = Library(
    sha1: seq<byte> -> Digest,
    encode: Values -> string,
    unmarshal: seq<byte> -> Option<GoError>,
    decodeError: seq<byte> -> (string, string))

  /** `url.Values{}.Encode()` is the empty string, as Go's encoder gives for an empty map. */
  predicate EncodesEmptyAsEmpty(lib: Library)
  {
    lib.encode([]) == ""
  }
}
