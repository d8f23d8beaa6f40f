/**
 * The older client of the top-level client.go: a fixed host, a status
 * check returning an `ErrorResponse`, and a `Request` that hands the raw
 * response back.
 */
module RootClient {
  import opened Wrappers
  import opened GoFmt
  import opened GoNet
  import Auth
  import C = Client

  /** `Client`: only the credentials. */
  datatype Client = Client(apiKey: string, apiID: string)

  /** `buildURL(path, params)`: always https://use.cloudshare.com/api/v3/... */
  function BuildURL(path: string, params: Option<Values>, encode: Values -> string): (u: Url)
    ensures u.scheme == "https" && u.host == C.DefaultHost
    ensures u.path == C.ApiPrefix + C.TrimLeftSlashes(path)
    ensures params.None? ==> u.rawQuery == ""
    ensures params.Some? ==> u.rawQuery == encode(params.value)
  {
    Url("https", "use.cloudshare.com", "/api/v3/" + C.TrimLeftSlashes(path),
        if params.Some? then encode(params.value) else "")
  }

  /** The older copy builds the same URL as the newer one does when no host is configured. */
  lemma BuildURLAgreesWithClient(c: C.Client, path: string, params: Option<Values>, encode: Values -> string)
    requires c.apiHost == ""
    ensures BuildURL(path, params, encode) == c.BuildURL(path, params, encode)
  {
  }

  /** The first URL of the URL-building test. */
  lemma BuildURLTestVectorPlain(encode: Values -> string)
    ensures UrlString(BuildURL("projects", None, encode)) == "https://use.cloudshare.com/api/v3/projects"
  {
    var path := "/api/v3/projects";
    assert C.TrimLeftSlashes("projects") == "projects";
    assert C.ApiPrefix + "projects" == path;
    assert BuildURL("projects", None, encode) == Url("https", "use.cloudshare.com", path, "");
    UrlWithoutQuery("https", "use.cloudshare.com", path);
    ServiceRoot();
    assert "https://use.cloudshare.com" + path == "https://use.cloudshare.com/api/v3/projects";
  }

  /** The second URL of the URL-building test: leading slash dropped, trailing slash kept. */
  lemma BuildURLTestVectorSlashes(encode: Values -> string)
    ensures UrlString(BuildURL("/projects/", None, encode)) == "https://use.cloudshare.com/api/v3/projects/"
  {
    var path := "/api/v3/projects/";
    TrimLeadingSlashOfProjects();
    assert C.ApiPrefix + "projects/" == path;
    assert BuildURL("/projects/", None, encode) == Url("https", "use.cloudshare.com", path, "");
    UrlWithoutQuery("https", "use.cloudshare.com", path);
    ServiceRoot();
    assert "https://use.cloudshare.com" + path == "https://use.cloudshare.com/api/v3/projects/";
  }

  /**
   * The newer `Request` replaces a nil query by an empty one. Since an empty
   * `url.Values` encodes to "", it still signs and sends the URL the older
   * copy builds from the nil query.
   */
  lemma NilQueryAgreesWithClient(c: C.Client, path: string, lib: Library)
    requires c.apiHost == "" && EncodesEmptyAsEmpty(lib)
    ensures c.BuildURL(path, Some([]), lib.encode) == BuildURL(path, None, lib.encode)
  {
  }

  /** The first vector of the URL-building test, for the URL the newer `Request` sends. */
  lemma ClientTestVectorPlain(c: C.Client, lib: Library)
    requires c.apiHost == "" && EncodesEmptyAsEmpty(lib)
    ensures UrlString(c.BuildURL("projects", Some([]), lib.encode)) == "https://use.cloudshare.com/api/v3/projects"
  {
    NilQueryAgreesWithClient(c, "projects", lib);
    BuildURLTestVectorPlain(lib.encode);
  }

  lemma TrimLeadingSlashOfProjects()
    ensures C.TrimLeftSlashes("/projects/") == "projects/"
  {
    assert "/projects/"[1..] == "projects/";
  }

  lemma ServiceRoot()
    ensures "https" + "://" + "use.cloudshare.com" == "https://use.cloudshare.com"
  {
  }

  lemma UrlWithoutQuery(scheme: string, host: string, path: string)
    ensures UrlString(Url(scheme, host, path, "")) == scheme + "://" + host + path
  {
  }

  /** `ErrorResponse`: the code and message of a failed call. */
  datatype ErrorResponse = ErrorResponse(code: string, message: string)

  /**
   * `CheckAPI(response)`: nil for a 2xx status; otherwise the error the
   * body decodes to, or a fixed error when the body cannot be read.
   */
  function CheckAPI(response: HttpResponse, decodeError: seq<byte> -> (string, string))
    : (e: Option<ErrorResponse>)
    ensures e.None? <==> IsSuccess(response.statusCode)
    ensures !IsSuccess(response.statusCode) && response.body.ReadFailed?
            ==> e == Some(ErrorResponse("unknown error", "failed to parse http response body"))
    ensures !IsSuccess(response.statusCode) && response.body.Read?
            ==> e == Some(ErrorResponse(decodeError(response.body.bytes).0, decodeError(response.body.bytes).1))
  {
    if !IsSuccess(response.statusCode) then
      match response.body
      case ReadFailed(_) => Some(ErrorResponse("unknown error", "failed to parse http response body"))
      case Read(buffer) =>
        var (code, message) := decodeError(buffer);
        Some(ErrorResponse(code, message))
    else None
  }

  /**
   * `Request(method, path, queryParams, content)`: the signed request handed
   * to `client.Do`, and what `client.Do` returned, passed back unchanged.
   * `content` is accepted and ignored: this older copy never sends a body.
   */
  method Request(c: Client, verb: string, path: string, queryParams: Option<Values>, content: Option<string>,
                 lib: Library, now: int64, draw: nat -> Auth.LetterIndex, transport: Transport)
    returns (sent: HttpRequest, result: Result<HttpResponse, GoError>)
    ensures sent.verb == verb && sent.body == None && sent.contentLength == 0
    ensures sent.url == BuildURL(path, queryParams, lib.encode)
    ensures sent.header == C.RequestHeader(
              Auth.SignedToken(lib.sha1, c.apiKey, c.apiID, UrlString(sent.url), now as int, Auth.Nonce(draw)))
    ensures result == transport(sent)
  {
    var url := BuildURL(path, queryParams, lib.encode);
    var token := Auth.AuthToken(lib.sha1, c.apiKey, c.apiID, UrlString(url), now, draw);
    var headers := C.RequestHeader(token);
    sent := HttpRequest(verb, url, headers, None, 0);
    result := transport(sent);
  }
}
