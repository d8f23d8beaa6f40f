/**
 * The convenience calls of cloudshare/api_wrappers.go: finding an
 * environment by name in the listing `GetEnvironments` returns.
 */
module ApiWrappers {
  import opened Wrappers
  import opened GoFmt
  import opened GoNet
  import Auth
  import C = Client
  import Api

  /** `Environment`, with the fields the model reads; the untyped JSON fields are left out. */
  datatype Environment = Environment(
    projectID: string,
    status: string,
    ownerEmail: string,
    regionID: string,
    name: string,
    id: string)

  /** No environment in the list carries the name. */
  predicate NoneNamed(envs: seq<Environment>, name: string)
  {
    forall i :: 0 <= i < |envs| ==> envs[i].name != name
  }

  /** e is the first environment in the list that carries the name. */
  predicate FirstNamed(envs: seq<Environment>, name: string, e: Environment)
  {
    exists i :: 0 <= i < |envs| && envs[i] == e && envs[i].name == name
                && forall j :: 0 <= j < i ==> envs[j].name != name
  }

  /** `envByName`: the first environment carrying the name, or nil when none does. */
  method EnvByName(envs: seq<Environment>, name: string) returns (r: Option<Environment>)
    ensures r.None? <==> NoneNamed(envs, name)
    ensures r.Some? ==> FirstNamed(envs, name, r.value)
  {
    for i := 0 to |envs|
      invariant forall j :: 0 <= j < i ==> envs[j].name != name
    {
      if envs[i].name == name {
        return Some(envs[i]);
      }
    }
    return None;
  }

  /** The listing `GetEnvironmentByName` asks for: brief entries of every visible environment. */
  const ListingCall: Api.Call := Api.GetEnvironments(true, "allvisible")

  /**
   * The listing call `GetEnvironmentByName` starts with: `GetEnvironments`
   * with brief=true and criteria=allvisible, sent through `makeRequest`.
   */
  method ListEnvironments(client: C.Client, lib: Library, now: int64, draw: nat -> Auth.LetterIndex,
                          transport: Transport)
    returns (sent: HttpRequest, err: Option<C.APIError>)
    requires EncodesEmptyAsEmpty(lib)
    modifies client
    ensures client.apiKey == old(client.apiKey) && client.apiID == old(client.apiID)
    ensures client.apiHost == old(client.apiHost)
    ensures client.tags == if old(client.tags) == "" then C.DefaultTags else old(client.tags)
    ensures sent.verb == "GET" && sent.body == None && sent.contentLength == 0
    ensures sent.url == old(client.BuildURL(Api.Path(Api.Envs), ListingCall.params, lib.encode))
    ensures sent.header == C.RequestHeader(Auth.SignedToken(lib.sha1, client.apiKey, client.apiID,
                                           UrlString(sent.url), now as int, Auth.Nonce(draw)))
    ensures err == Api.Settle(C.Outcome(transport(sent), lib.decodeError), true, lib.unmarshal)
  {
    assert ListingCall.verb == "GET" && ListingCall.jsonable == Api.Nil && ListingCall.decodes;
    assert ListingCall.path == Api.Path(Api.Envs);
    var request;
    request, err := Api.MakeRequest(client, ListingCall, lib, now, draw, transport);
    sent := request.value;
  }

  /**
   * `GetEnvironmentByName(name)`: lists the environments, and passes back
   * the listing's error, or else the first environment with the name.
   * `listed` is what decoding the listing fills in when it succeeds.
   */
  method GetEnvironmentByName(client: C.Client, name: string, listed: seq<Environment>, lib: Library,
                              now: int64, draw: nat -> Auth.LetterIndex, transport: Transport)
    returns (sent: HttpRequest, env: Option<Environment>, err: Option<C.APIError>)
    requires EncodesEmptyAsEmpty(lib)
    modifies client
    ensures client.apiKey == old(client.apiKey) && client.apiID == old(client.apiID)
    ensures client.apiHost == old(client.apiHost)
    ensures client.tags == if old(client.tags) == "" then C.DefaultTags else old(client.tags)
    ensures sent.verb == "GET" && sent.body == None && sent.contentLength == 0
    ensures sent.url == old(client.BuildURL(Api.Path(Api.Envs), ListingCall.params, lib.encode))
    ensures sent.header == C.RequestHeader(Auth.SignedToken(lib.sha1, client.apiKey, client.apiID,
                                           UrlString(sent.url), now as int, Auth.Nonce(draw)))
    ensures err == Api.Settle(C.Outcome(transport(sent), lib.decodeError), true, lib.unmarshal)
    ensures err.Some? ==> env.None?
    ensures err.None? ==> (env.None? <==> NoneNamed(listed, name))
    ensures err.None? && env.Some? ==> FirstNamed(listed, name, env.value)
  {
    var listErr;
    sent, listErr := ListEnvironments(client, lib, now, draw, transport);
    if listErr.Some? {
      return sent, None, listErr;
    }
    env := EnvByName(listed, name);
    err := None;
  }
}
