# cloudshare-go-sdk, modelled in Dafny

A model of the CloudShare Go SDK, a client library for the CloudShare REST
API (v3). Each call to the service is a signed HTTP request to
`https://<host>/api/v3/<path>`. The model covers these parts of the library:

- **The request signer.** `auth.go` picks ten random letters as a nonce.
  It takes the SHA-1 digest of `apiKey + url + timestamp + nonce` and writes
  the token `userapiid:<id>;timestamp:<ts>;token:<nonce>;hmac:<hex>`. Every
  request carries this token in its `Authorization: cs_sha1 <token>` header.
- **The client.** `cloudshare/client.go` builds the URL and sets the `Tags`
  default. It sends the request and sorts the response into an
  `APIResponse` and an `APIError`.
- **The older client.** The top-level `client.go` is an earlier copy with a
  fixed host and a `CheckAPI` status check.
- **The endpoints.** In `cloudshare/api.go`, each endpoint picks a verb, a
  path, a query and a body. `makeRequest` sends them and decodes the
  answer.
- **The wrappers.** `cloudshare/api_wrappers.go` looks up an environment by
  name in the environment listing.

The model has eight files:

| file | module | what it holds |
|---|---|---|
| `wrappers.dfy` | `Wrappers` | `Option` and `Result` |
| `gofmt.dfy` | `GoFmt` | Go's text formatting, written out concretely (see below) |
| `gonet.dfy` | `GoNet` | the `net/url` and `net/http` values the client handles, and the library routines taken as parameters |
| `auth.dfy` | `Auth` | `auth.go` |
| `client.dfy` | `Client` | `cloudshare/client.go` |
| `rootclient.dfy` | `RootClient` | `client.go` |
| `api.dfy` | `Api` | `cloudshare/api.go` |
| `apiwrappers.dfy` | `ApiWrappers` | `cloudshare/api_wrappers.go` |

`GoFmt` covers integer division truncated toward zero, UTF-8 `[]byte(s)`,
`%d`, `strconv.FormatBool` and `hex.EncodeToString`.

What the program does not decide itself is passed in as a parameter:

- **Clock:** `now`, the value of `time.Now().Unix()`.
- **Random source:** `draw(i)`, the i-th `rand.Intn(52)`.
- **Library routines:** SHA-1, `url.Values.Encode` and the JSON decoders
  are fields of a `Library` value. The one fact about the encoder the model
  relies on, that an empty `url.Values` encodes to "" as Go's does, is the
  predicate `GoNet.EncodesEmptyAsEmpty`, required of the library by the
  calls that send a request.
- **Network:** `http.Client.Do`, including the outcome of reading the
  response body, is a `Transport` function.

`url.Values` is the ordered list of the pairs added to it, and `Add`
appends.

The model follows the shapes of the code:

- `randSeq` fills a buffer in a loop, so `RandSeq` is a method over a
  Dafny array, proved against the function `Drawn`.
- The client's `Request` updates `c.Tags`, so `Client.Client` is a class
  and `Request` modifies it.
- `GetProjectsByFilter` and `GetTemplates` fill their queries step by step,
  so their query builders are methods.
- `envByName` is a search loop with an early return.
- The formatters, `buildURL`, `CheckAPI` and the error classification are
  functions.

Points where the code is narrower than it may look, or than its own tests
suggest:

- **Nonce alphabet.** `auth.go:11` has the 52 ASCII letters and no digits,
  while the test at `go-sdk/cloudshare/auth_test.go:15` accepts the 62
  symbols `[a-zA-Z0-9]`. `Auth.LettersAreTheAlphabet` proves the alphabet is
  exactly the letters. `Auth.AuthTokenMatchesTestPattern` shows that the
  test's pattern still holds, as a weaker consequence.
- **Key and URL in the signed message.** `auth.go:33` formats the signed
  message as `%s%s%d%s` with no separator between the key and the URL.
  Changing one input at a time changes the message
  (`Auth.HashInputDeterminesKeyAndUrl`,
  `Auth.HashInputDeterminesTimestampAndNonce`), but moving characters
  between the key and the URL signs the same message
  (`Auth.KeyUrlBoundaryIsNotSigned`).
- **URL test vectors.** The test in `cloudshare/client_test.go` calls
  `buildURL` as a free function. That is the function of the top-level
  `client.go`, so the vectors are proved about `RootClient.BuildURL`.
  `RootClient.BuildURLAgreesWithClient` shows that the newer method builds
  the same URL when no host is configured, and
  `RootClient.NilQueryAgreesWithClient` that the newer `Request`, which
  turns a nil query into an empty one, still sends that URL.
- **`makeRequest`.** In `cloudshare/api.go:15-18` and `23-26`, `makeRequest`
  builds an `APIError` through a field that does not exist. It also returns
  a plain `error` as `*APIError`. The model states the evident intent:
  - a failed serialisation gives the message "Failed to serialize request
    object to JSON" with the marshalling error inside;
  - `Request`'s error is passed back as it is;
  - a failed decoding gives an error that carries only the decoder's error.
- **Decoding in `makeRequest`.** Every endpoint except `envPutAction` passes
  its typed result pointer as `response`. In Go an interface holding a
  typed pointer is never nil, so those endpoints always decode
  (`Call.decodes`). `envPutAction` passes a literal nil, so it never
  decodes. For the same reason, `CreateEnvironmentFromTemplate` always
  marshals its request.

## Model

| member | source | states |
|---|---|---|
| GoFmt.GoQuotient | cloudshare/client.go:134 | Go's truncating `/`: the Euclidean quotient for a non-negative dividend; for a negative one, the quotient rounded toward zero (b*q - b < a <= b*q, so -150/100 is -1) |
| GoFmt.Utf8Char | cloudshare/client.go:122 | one character's UTF-8 bytes: 1 below 0x80 (the code itself), 2 below 0x800, 3 below 0x10000, 4 above; the lead byte announces that length, the rest are continuation bytes, and decoding the bytes gives back the code point |
| GoFmt.Utf8 | cloudshare/client.go:122 | `[]byte(s)` has between one and four bytes per character; an ASCII string has one byte per character, with the same codes |
| GoFmt.Utf8Concat | cloudshare/client.go:122 | the bytes of a concatenation are the bytes of each part, so `len` adds up |
| GoFmt.Decimal | auth.go:33 | `%d`: the digits of a non-negative number; for a negative one, '-' followed by digits with no leading zero |
| GoFmt.Digits | auth.go:33 | `%d` of a natural number is a non-empty run of digits with no leading zero (except "0" itself) |
| GoFmt.ParseDecimalOfDecimal | auth.go:33 | the `%d` numeral of any integer, sign included, reads back as that integer |
| GoFmt.DecimalInjective | auth.go:33 | two different integers never print the same `%d` numeral |
| GoFmt.DecimalOfNonNegative | go-sdk/cloudshare/auth_test.go:15 | a non-negative timestamp prints as `\d+` |
| GoFmt.FormatBool | cloudshare/api.go:100 | `strconv.FormatBool` yields "true" or "false" |
| GoFmt.ParseBoolOfFormatBool | cloudshare/api.go:100 | the `brief` value reads back as the boolean it came from |
| GoFmt.Hex | auth.go:27 | `hex.EncodeToString` gives two characters per byte, all in `[0-9a-f]` |
| GoFmt.UnhexOfHex | auth.go:27 | hex decoding undoes the encoding |
| GoFmt.HexInjective | auth.go:27 | different byte strings never share a hex encoding |
| GoNet.Add | cloudshare/api.go:68 | `url.Values.Add` keeps every pair already there, in place, and puts the new pair after them |
| GoNet.LookupConcat | cloudshare/api.go:141-156 | the values of a key in a query built in two parts are those of the first part followed by those of the second |
| GoNet.UrlString | cloudshare/client.go:108 | `url.URL.String()` is the scheme, "://", the host, then the path, followed by nothing when the query is empty and by '?' and the query otherwise |
| GoNet.IsSuccessRange | cloudshare/client.go:134 | `StatusCode/100 == 2` holds exactly for the statuses 200 to 299 |
| Auth.LettersLayout | auth.go:11 | the alphabet has 52 entries: a to z, then A to Z |
| Auth.LettersAreTheAlphabet | auth.go:11 | every alphabet entry is an ASCII letter, every ASCII letter is in it, and no entry repeats |
| Auth.Drawn | auth.go:13-19 | the first n picks of the random source: n characters, the i-th being `letters[draw(i)]` |
| Auth.RandSeq | auth.go:13-19 | the rune buffer filled in the loop holds exactly n characters, the i-th being `letters[draw(i)]` |
| Auth.GenerateToken | auth.go:21-23 | the nonce has length 10, and every character is a letter, hence also in `[a-zA-Z0-9]` |
| Auth.Hash | auth.go:25-28 | exactly 40 characters in `[0-9a-f]`, which decode back to the SHA-1 digest of the text's UTF-8 bytes |
| Auth.AuthToken | auth.go:30-37 | the token is `userapiid:<id>;timestamp:<%d now>;token:<nonce>;hmac:<hash(apiKey+url+%d now+nonce)>`, with the same timestamp and nonce in both places |
| Auth.ParseFormatToken | auth.go:34-35 | the four fields can be read back from any token, whatever the account id holds, given a 10-character nonce and a 40-character digest |
| Auth.SignedTokenVerifies | auth.go:30-37 | recomputing the hash from the timestamp and nonce read back from the token reproduces the token's hmac field |
| Auth.HashInputDeterminesTimestampAndNonce | auth.go:33 | for a fixed key and URL, the signed message differs whenever the timestamp or the nonce differs |
| Auth.HashInputDeterminesKeyAndUrl | auth.go:33 | for a fixed timestamp and nonce, the signed message differs whenever only the key, or only the URL, differs |
| Auth.KeyUrlBoundaryIsNotSigned | auth.go:33 | the signed message does not fix where the key ends and the URL begins |
| Auth.SignedTokenMatchesTestPattern | go-sdk/cloudshare/auth_test.go:13-17 | a token signed at a non-negative time with an alphanumeric 10-character nonce matches `userapiid:<id>;timestamp:\d+;token:[a-zA-Z0-9]{10};hmac:[0-9a-f]+` |
| Auth.AuthTokenMatchesTestPattern | go-sdk/cloudshare/auth_test.go:13-17 | every token `authToken` makes at a non-negative time matches that pattern |
| Client.TrimLeftSlashes | cloudshare/client.go:34 | `strings.TrimLeft(path, "/")` drops a prefix made only of '/' and leaves a string that does not start with '/' |
| Client.TrimLeftSlashesIdempotent | cloudshare/client.go:34 | trimming twice trims no more than trimming once |
| Client.APIError.Error | cloudshare/client.go:60-66 | the text is the message when there is no inner error, otherwise the message, a newline and the inner error's text |
| Client.Outcome | cloudshare/client.go:126-158 | there is no error exactly when the transport answered with a 2xx status and a readable body; there is a response exactly when the body was read; gives the error for a transport failure, for a non-2xx status with an unreadable body ("unknown error" / "failed to parse http response body"), for a 2xx status with an unreadable body, and the decoded code and message for a non-2xx status |
| Client.RequestHeader | cloudshare/client.go:104-109 | the header holds exactly Content-Type and Accept (both application/json) and Authorization = "cs_sha1 " + token |
| Client.Client.constructor | cloudshare/client.go:16-21 | a client with the four given fields |
| Client.Client.Host | cloudshare/client.go:25-29 | the host is `APIHost`, or use.cloudshare.com when it is empty |
| Client.Client.BuildURL | cloudshare/client.go:23-42 | the scheme is https and the host is `Host()`; the path is /api/v3/ + the path with its leading slashes trimmed; the query is empty for nil params and the encoded params otherwise |
| Client.Client.DefaultTheTags | cloudshare/client.go:91-93 | an empty `Tags` becomes "go_sdk", a non-empty one stays, and the credentials and host do not change |
| Client.Send | cloudshare/client.go:104-158 | the request carries the given verb, URL and body, the body's UTF-8 byte length when content is given, and the headers of the token signed over the URL's string; the results are `Outcome` of the transport's answer to exactly that request |
| Client.Client.Request | cloudshare/client.go:83-159 | an empty `Tags` becomes "go_sdk" and nothing else changes; a nil query is sent as an empty one, so the URL has no query; the signed header is built over the URL's string; the body and its UTF-8 byte length are sent when content is given; the results are `Outcome` of the transport's answer |
| Client.BuildURLIgnoresLeadingSlash | cloudshare/client.go:34 | a leading '/' on the path makes no difference to the URL |
| Client.BuildURLPath | cloudshare/client.go:34 | the URL path is /api/v3/ followed by the caller's path minus only its leading slashes, so a trailing slash stays |
| RootClient.BuildURL | client.go:17-29 | https, host use.cloudshare.com, /api/v3/ + trimmed path, and the query only when params is not nil |
| RootClient.BuildURLAgreesWithClient | client.go:17-29 | the older function builds the same URL as the newer method does for a client without `APIHost` |
| RootClient.BuildURLTestVectorPlain | cloudshare/client_test.go:13-14 | "projects" builds https://use.cloudshare.com/api/v3/projects |
| RootClient.BuildURLTestVectorSlashes | cloudshare/client_test.go:16-17 | "/projects/" builds https://use.cloudshare.com/api/v3/projects/ |
| RootClient.NilQueryAgreesWithClient | cloudshare/client.go:95-100 | with no `APIHost` and an encoder that writes "" for an empty query, the URL the newer `Request` sends for a nil query is the one the older `buildURL` builds from nil |
| RootClient.ClientTestVectorPlain | cloudshare/client_test.go:13-14 | the newer client's URL for "projects" with a nil query is https://use.cloudshare.com/api/v3/projects |
| RootClient.CheckAPI | client.go:39-53 | nil exactly for a 2xx status; the fixed "unknown error" payload when the body cannot be read; otherwise the decoded code and message |
| RootClient.Request | client.go:59-76 | the content argument is ignored and the request has no body; goes to `buildURL(path, params)` with a nil query kept as nil, carries Authorization = "cs_sha1 " + the token of that URL, and the transport's answer comes back unchanged |
| Api.Path | cloudshare/api.go:51 | every `Sprintf` path is non-empty and does not start with '/' |
| Api.ParseRouteOfPath | cloudshare/api.go:50-135 | every endpoint path reads back as the resource it was formatted from, when the ids are non-empty and hold no '/' |
| Api.PathInjective | cloudshare/api.go:50-135 | no two resources with such ids share a path |
| Api.SplitJoin | cloudshare/api.go:51 | splitting on '/' undoes joining with '/' when no segment holds a '/' |
| Api.PathUnderApiPrefix | cloudshare/client.go:34 | no endpoint path starts with '/', so each one lands under /api/v3/ unchanged |
| Api.FilterQuery | cloudshare/api.go:66-69 | one `(filter, "true")` pair per filter, in the filters' order, and nothing else |
| Api.GetProjectsByFilter | cloudshare/api.go:65-71 | a decoding GET of `projects` with no body and that filter query |
| Api.EnvironmentsQuery | cloudshare/api.go:99-101 | exactly two pairs: brief as "true"/"false", which reads back as the flag, then the criteria |
| Api.SingleQuery | cloudshare/api.go:109-110 | a query of one pair that holds the value under the key |
| Api.TemplatesQuery | cloudshare/api.go:141-156 | the query built by the five conditional adds is the list of the filters that are set, in order |
| Api.TemplateEntriesLookup | cloudshare/api.go:141-156 | skip and take appear, in decimal, exactly when non-zero; regionId, projectId and templateType appear exactly when non-empty; each at most once; no other key appears |
| Api.TemplateEntriesShape | cloudshare/api.go:141-156 | the query has one pair per filter that is set, and keys in the order skip, take, regionId, projectId, templateType |
| Api.GetTemplates | cloudshare/api.go:140-158 | a decoding GET of `templates` with no body and that query |
| Api.MakeGetRequest | cloudshare/api.go:41-43 | GET and never a body |
| Api.MakePostRequest | cloudshare/api.go:45-47 | POST with the caller's body |
| Api.EnvPutAction | cloudshare/api.go:127-129 | PUT, no body, and the response is not decoded |
| Api.GetBlueprintDetails | cloudshare/api.go:50-53 | a decoding GET with no query and no body, whose path reads back as that project's blueprint when the ids are single segments |
| Api.GetProjects | cloudshare/api.go:74-76 | a decoding GET of `projects` with no query and no body |
| Api.GetProjectDetails | cloudshare/api.go:79-82 | a decoding GET with no query and no body, whose path reads back as that project when the id is a single segment |
| Api.GetBlueprints | cloudshare/api.go:85-88 | a decoding GET with no query and no body, whose path reads back as that project's blueprints when the id is a single segment |
| Api.GetPolicies | cloudshare/api.go:91-94 | a decoding GET with no query and no body, whose path reads back as that project's policies when the id is a single segment |
| Api.GetEnvironments | cloudshare/api.go:98-103 | a decoding GET of `envs` with two pairs: brief as "true"/"false" and the criteria |
| Api.GetEnvironment | cloudshare/api.go:107-112 | a decoding GET, reading back as that environment when the id is a single segment, with the permission as its one query pair |
| Api.GetEnvironmentExtended | cloudshare/api.go:116-120 | a decoding GET of `envs/actions/getextended` with the id as its one `envId` pair |
| Api.CreateEnvironmentFromTemplate | cloudshare/api.go:123-125 | a decoding POST to `envs` with no query, whose body is always marshalled |
| Api.EnvironmentResume | cloudshare/api.go:132-136 | a PUT to `envs/actions/resume`, not decoded and with no body, with the id as its one `envId` pair |
| Api.GetRegions | cloudshare/api.go:160-162 | a decoding GET of `regions` with no query and no body |
| Api.Settle | cloudshare/api.go:23-38 | `Request`'s error is passed back as it is; otherwise there is no error unless the response is decoded and decoding fails, which gives an error carrying only the decoder's error |
| Api.MakeRequest | cloudshare/api.go:10-39 | a failed serialisation gives "Failed to serialize request object to JSON" and sends nothing; otherwise it sends the verb, the body and its UTF-8 length, the URL of the path with the query (a nil query giving no query), and the header signed over that URL; an empty `Tags` becomes "go_sdk", the credentials and host stay; it returns `Settle` of the outcome |
| ApiWrappers.EnvByName | cloudshare/api_wrappers.go:3-10 | nil exactly when no environment has the name; otherwise the first environment in order that has it |
| ApiWrappers.ListEnvironments | cloudshare/api_wrappers.go:16 | the listing is a signed GET of `envs` with the query pairs brief=true and criteria=allvisible, and no body; an empty `Tags` becomes "go_sdk" and the credentials and host stay; the error is `Settle` of the outcome |
| ApiWrappers.GetEnvironmentByName | cloudshare/api_wrappers.go:14-21 | lists with brief=true, criteria=allvisible (the same request and client update as `ListEnvironments`); a listing error comes back unchanged with no environment; otherwise no error, and nil exactly when no environment has the name, else the first one that has it |

## Left out

- HTTP transport: `http.Client.Do`, `ioutil.ReadAll` and the TLS switch driven by the `DEBUG` environment variable (cloudshare/client.go:84-89) are I/O. The transport's answer is a parameter.
- JSON: `json.Marshal` and `json.Unmarshal` are a foreign library. Marshalling enters as its outcome (`Jsonable`), and decoding as the `unmarshal` and `decodeError` fields of `Library`. `CheckAPI` and `Request` ignore the error of decoding an error body, and the model has `decodeError` always return a (code, message) pair.
- SHA-1 internals: `sha1.Sum` is an arbitrary function returning 20 bytes, so digest collisions are not excluded and the sensitivity lemmas speak about the signed message, not the digest.
- `url.Values.Encode`: its sorting of keys and percent-encoding are library behaviour, so the `%2F` vector at cloudshare/client_test.go:21 is not modelled. The encoder is a parameter.
- `url.URL.String()` escaping: `UrlString` joins the fields as they are, which is exact only for hosts and paths that need no escaping (Go escapes both).
- `math/rand` and `time.Now()`: a source of indices and a timestamp passed in.
- The endpoints' typed results (projects, blueprints, templates, regions) and the data-only files cloudshare/projects.go, cloudshare/utilities.go and cloudshare/environments.go: struct declarations with no behaviour. Only the fields of `Environment` that are strings are kept.
- `GetTemplateParams` and the `Environments` slice type are not declared in the files of this model. skip and take are modelled as integers and the listing as a sequence of `Environment`.
- `GetTemplates` with a nil `params` pointer panics in Go; the model takes the parameters by value.
- `ApiWrappers.GetEnvironmentByName`: what decoding the listing fills in is a parameter (`listed`), used when decoding succeeds.
- The CLI (cscurl.go), examples/simple.go and `TestPing`, which needs live credentials and the network.
- Invalid UTF-8: a Go string may hold any bytes, a Dafny string only Unicode scalar values, so `[]byte(text)` in `hash` and the content length are modelled only for well-formed text.
- Concurrency: Go's shared `math/rand` source is not modelled; each signing gets its own `draw`.
