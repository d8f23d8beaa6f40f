/**
 * The client of cloudshare/client.go: the URL every call goes to, the
 * error type, and `Request`, which signs a call, hands it to the
 * transport and sorts out what comes back.
 */
module Client {
  import opened Wrappers
  import opened GoFmt
  import opened GoNet
  import Auth

  const DefaultHost: string := "use.cloudshare.com"

  const ApiPrefix: string := "/api/v3/"

  const DefaultTags: string := "go_sdk"

  const AuthScheme: string := "cs_sha1 "

  /** `strings.TrimLeft(s, "/")`: drops every leading '/', and nothing else. */
  function TrimLeftSlashes(s: string): (r: string)
    ensures |r| <= |s| && r == s[|s| - |r|..]
    ensures forall i :: 0 <= i < |s| - |r| ==> s[i] == '/'
    ensures r == [] || r[0] != '/'
  {
    if s != [] && s[0] == '/' then TrimLeftSlashes(s[1..]) else s
  }

  /** Trimming twice trims no more than trimming once. */
  lemma TrimLeftSlashesIdempotent(s: string)
    ensures TrimLeftSlashes(TrimLeftSlashes(s)) == TrimLeftSlashes(s)
  {
  }

  /** `APIError`: what `Request` and the API calls report on failure. */
  datatype APIError = APIError(code: string, message: string, inner: Option<GoError>)
  {
    /** `APIError.Error()`: the message, then the inner error's text on a line of its own. */
    function Error(): (s: string)
      ensures |message| <= |s| && s[..|message|] == message
      ensures s == message <==> inner.None?
      ensures inner.Some? ==> s[|message|..] == "\n" + inner.value.text
    {
      if inner.Some? then message + "\n" + inner.value.text else message
    }
  }

  /** `APIResponse`: what `Request` returns when the body could be read. */
  datatype APIResponse = APIResponse(statusCode: int, body: seq<byte>, header: Header)

  /** The error `Request` reports for a non-2xx status whose body cannot be read. */
  function UnreadableErrorBody(err: GoError): APIError
  {
    APIError("unknown error", "failed to parse http response body", Some(err))
  }

  /**
   * The part of `Request` after `client.Do`: the response and the error it
   * returns for what the transport gave back.
   */
  function Outcome(r: Result<HttpResponse, GoError>, decodeError: seq<byte> -> (string, string))
    : (o: (Option<APIResponse>, Option<APIError>))
    ensures o.0.Some? || o.1.Some?
    ensures o.1.None? <==> r.Success? && IsSuccess(r.value.statusCode) && r.value.body.Read?
    ensures o.0.Some? <==> r.Success? && r.value.body.Read?
    ensures o.0.Some? ==> o.0.value.statusCode == r.value.statusCode && o.0.value.body == r.value.body.bytes
                          && o.0.value.header == r.value.header
    ensures r.Failure? ==> o.1 == Some(APIError("", "", Some(r.error)))
    ensures r.Success? && !IsSuccess(r.value.statusCode) && r.value.body.ReadFailed?
            ==> o.1 == Some(UnreadableErrorBody(r.value.body.err))
    ensures r.Success? && IsSuccess(r.value.statusCode) && r.value.body.ReadFailed?
            ==> o.1 == Some(APIError("", "Unable to read HTTP response body", Some(r.value.body.err)))
    ensures r.Success? && !IsSuccess(r.value.statusCode) && r.value.body.Read?
            ==> o.1 == Some(APIError(decodeError(r.value.body.bytes).0, decodeError(r.value.body.bytes).1, None))
  {
    match r
    case Failure(e) => (None, Some(APIError("", "", Some(e))))
    case Success(res) =>
      match res.body
      case ReadFailed(e) =>
        if !IsSuccess(res.statusCode) then (None, Some(UnreadableErrorBody(e)))
        else (None, Some(APIError("", "Unable to read HTTP response body", Some(e))))
      case Read(bytes) =>
        var resp := APIResponse(res.statusCode, bytes, res.header);
        if !IsSuccess(res.statusCode) then
          var (code, message) := decodeError(bytes);
          (Some(resp), Some(APIError(code, message, None)))
        else (Some(resp), None)
  }

  /** The headers `Request` sets, given the auth token. */
  function RequestHeader(token: string): (h: Header)
    ensures h.Keys == {"Content-Type", "Accept", "Authorization"}
    ensures h["Authorization"] == [AuthScheme + token]
    ensures h["Content-Type"] == ["application/json"] && h["Accept"] == ["application/json"]
  {
    var h := SetHeader(map[], "Content-Type", "application/json");
    var h := SetHeader(h, "Accept", "application/json");
    SetHeader(h, "Authorization", AuthScheme + token)
  }

  /** `Client`: the credentials, the analytics tags and the API host. */
  class Client {
    var apiKey: string
    var apiID: string
    var tags: string
    var apiHost: string

    constructor (apiKey: string, apiID: string, tags: string, apiHost: string)
      ensures this.apiKey == apiKey && this.apiID == apiID && this.tags == tags && this.apiHost == apiHost
    {
      this.apiKey := apiKey;
      this.apiID := apiID;
      this.tags := tags;
      this.apiHost := apiHost;
    }

    /** The host calls go to: `APIHost`, or the public service when it is empty. */
    function Host(): (h: string)
      reads this
      ensures h != ""
      ensures apiHost != "" ==> h == apiHost
      ensures apiHost == "" ==> h == DefaultHost
    {
      if apiHost == "" then DefaultHost else apiHost
    }

    /**
     * `buildURL(path, params)`: https, `Host()`, the path under /api/v3/
     * with its leading slashes removed, and the encoded query only when
     * params is not nil.
     */
    function BuildURL(path: string, params: Option<Values>, encode: Values -> string): (u: Url)
      reads this
      ensures u.scheme == "https" && u.host == Host()
      ensures u.path == ApiPrefix + TrimLeftSlashes(path)
      ensures params.None? ==> u.rawQuery == ""
      ensures params.Some? ==> u.rawQuery == encode(params.value)
    {
      Url("https", Host(), ApiPrefix + TrimLeftSlashes(path),
          if params.Some? then encode(params.value) else "")
    }

    /** The first step of `Request`: empty tags become the default ones. */
    method DefaultTheTags()
      modifies this
      ensures apiKey == old(apiKey) && apiID == old(apiID) && apiHost == old(apiHost)
      ensures tags == if old(tags) == "" then DefaultTags else old(tags)
    {
      if tags == "" {
        tags := DefaultTags;
      }
    }

    /**
     * `Request(method, path, queryParams, content)`. `now` is the clock,
     * `draw` the random source, and `transport` stands for `client.Do`.
     * Returns the request handed to the transport with the response and
     * error Request returns.
     */
    method Request(verb: string, path: string, queryParams: Option<Values>, content: Option<string>,
                   lib: Library, now: int64, draw: nat -> Auth.LetterIndex, transport: Transport)
      returns (sent: HttpRequest, response: Option<APIResponse>, err: Option<APIError>)
      requires EncodesEmptyAsEmpty(lib)
      modifies this
      ensures apiKey == old(apiKey) && apiID == old(apiID) && apiHost == old(apiHost)
      ensures tags == if old(tags) == "" then DefaultTags else old(tags)
      ensures sent.verb == verb
      ensures sent.url == BuildURL(path, Some(queryParams.GetOr([])), lib.encode)
      ensures queryParams.None? ==> sent.url.rawQuery == ""
      ensures sent.header == RequestHeader(
                Auth.SignedToken(lib.sha1, apiKey, apiID, UrlString(sent.url), now as int, Auth.Nonce(draw)))
      ensures sent.body == content
      ensures sent.contentLength == if content.Some? then |Utf8(content.value)| else 0
      ensures (response, err) == Outcome(transport(sent), lib.decodeError)
    {
      DefaultTheTags();
      var params := queryParams;
      if params.None? {
        params := Some([]);
      }
      var url := BuildURL(path, params, lib.encode);
      sent, response, err := Send(verb, url, content, apiKey, apiID, lib, now, draw, transport);
    }
  }

  /**
   * The rest of `Request` once the URL is built: sign it, set the headers
   * and the body, hand it to the transport and sort out the answer.
   */
  method Send(verb: string, url: Url, content: Option<string>, apiKey: string, apiID: string,
              lib: Library, now: int64, draw: nat -> Auth.LetterIndex, transport: Transport)
    returns (sent: HttpRequest, response: Option<APIResponse>, err: Option<APIError>)
    ensures sent.verb == verb && sent.url == url && sent.body == content
    ensures sent.header == RequestHeader(
              Auth.SignedToken(lib.sha1, apiKey, apiID, UrlString(url), now as int, Auth.Nonce(draw)))
    ensures sent.contentLength == if content.Some? then |Utf8(content.value)| else 0
    ensures (response, err) == Outcome(transport(sent), lib.decodeError)
  {
    var token := Auth.AuthToken(lib.sha1, apiKey, apiID, UrlString(url), now, draw);
    var headers := RequestHeader(token);

    sent := HttpRequest(verb, url, headers, None, 0);
    if content.Some? {
      sent := sent.(body := content, contentLength := |Utf8(content.value)|);
    }

    var answer := transport(sent);
    var outcome := Outcome(answer, lib.decodeError);
    response, err := outcome.0, outcome.1;
  }

  /** A leading '/' on the path makes no difference to the URL. */
  lemma {:induction false} BuildURLIgnoresLeadingSlash(c: Client, path: string, params: Option<Values>,
                                                       encode: Values -> string)
    ensures c.BuildURL("/" + path, params, encode) == c.BuildURL(path, params, encode)
  {
    assert ("/" + path)[1..] == path;
  }

  /**
   * What follows /api/v3/ is the caller's path minus its leading slashes;
   * a trailing slash stays.
   */
  lemma BuildURLPath(c: Client, path: string, params: Option<Values>, encode: Values -> string)
    ensures var p := c.BuildURL(path, params, encode).path;
            |p| >= |ApiPrefix| && p[..|ApiPrefix|] == ApiPrefix
            && (p[|ApiPrefix|..] == [] || p[|ApiPrefix|] != '/')
            && path == Slashes(|path| - (|p| - |ApiPrefix|)) + p[|ApiPrefix|..]
  {
    var r := TrimLeftSlashes(path);
    var p := c.BuildURL(path, params, encode).path;
    assert p == ApiPrefix + r;
    assert p[|ApiPrefix|..] == r;
    var k := |path| - |r|;
    assert path[..k] == Slashes(k);
    assert path == path[..k] + path[k..];
  }

  /** k slashes. */
  function Slashes(k: nat): (s: string)
    ensures |s| == k && forall i :: 0 <= i < k ==> s[i] == '/'
  {
    if k == 0 then [] else Slashes(k - 1) + "/"
  }
}
