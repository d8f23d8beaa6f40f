/**
 * The endpoint methods of cloudshare/api.go. Each one picks an HTTP verb,
 * a path under /api/v3/, a query and a body, and hands them to
 * `makeRequest`; a `Call` records that choice, and `MakeRequest` carries
 * it out through `Client.Request`.
 */
module Api {
  import opened Wrappers
  import opened GoFmt
  import opened GoNet
  import Auth
  import C = Client

  // ---------------------------------------------------------------------
  // Paths

  /** The resources the endpoints address. */
  datatype Route =
    | Projects
    | Project(projectID: string)
    | Blueprints(projectID: string)
    | Blueprint(projectID: string, blueprintID: string)
    | Policies(projectID: string)
    | Envs
    | Env(envID: string)
    | EnvExtended
    | EnvResume
    | Templates
    | Regions

  /** The paths the endpoints format, e.g. `projects/%s/blueprints/%s`. */
  function Path(r: Route): (p: string)
    ensures p != [] && p[0] != '/'
  {
    match r
    case Projects => "projects"
    case Project(p) => "projects/" + p
    case Blueprints(p) => "projects/" + p + "/blueprints"
    case Blueprint(p, b) => "projects/" + p + "/blueprints/" + b
    case Policies(p) => "projects/" + p + "/policies"
    case Envs => "envs"
    case Env(id) => "envs/" + id
    case EnvExtended => "envs/actions/getextended"
    case EnvResume => "envs/actions/resume"
    case Templates => "templates"
    case Regions => "regions"
  }

  /** An id fits in one path segment: it is not empty and holds no '/'. */
  predicate IsSegment(id: string)
  {
    id != [] && '/' !in id
  }

  predicate HasSegmentIds(r: Route)
  {
    match r
    case Project(p) => IsSegment(p)
    case Blueprints(p) => IsSegment(p)
    case Blueprint(p, b) => IsSegment(p) && IsSegment(b)
    case Policies(p) => IsSegment(p)
    case Env(id) => IsSegment(id)
    case _ => true
  }

  /**
   * The path cut at every '/', as Go's `strings.Split(s, "/")` would cut it.
   * The client never splits a path; this and `Join` are the reading back of
   * the `Sprintf` paths that the round-trip lemmas below rest on.
   */
  function Split(s: string): (parts: seq<string>)
    ensures |parts| >= 1
  {
    if s == [] then [""]
    else
      var rest := Split(s[1..]);
      if s[0] == '/' then [""] + rest else [[s[0]] + rest[0]] + rest[1..]
  }

  lemma {:induction false} SplitSegment(a: string)
    requires '/' !in a
    ensures Split(a) == [a]
  {
    if a != [] {
      SplitSegment(a[1..]);
      assert [a[0]] + a[1..] == a;
    }
  }

  lemma {:induction false} SplitSegmentThenRest(a: string, rest: string)
    requires '/' !in a
    ensures Split(a + "/" + rest) == [a] + Split(rest)
  {
    if a == [] {
      assert a + "/" + rest == "/" + rest;
      assert ("/" + rest)[1..] == rest;
    } else {
      assert (a + "/" + rest)[1..] == a[1..] + "/" + rest;
      SplitSegmentThenRest(a[1..], rest);
      assert [a[0]] + a[1..] == a;
    }
  }

  /** Reads a path back into the resource it names. */
  function ParseRoute(s: string): Option<Route>
  {
    ParseSegments(Split(s))
  }

  function ParseSegments(parts: seq<string>): Option<Route>
  {
    if |parts| == 1 then
      if parts[0] == "projects" then Some(Projects)
      else if parts[0] == "envs" then Some(Envs)
      else if parts[0] == "templates" then Some(Templates)
      else if parts[0] == "regions" then Some(Regions)
      else None
    else if |parts| == 2 then
      if parts[1] == "" then None
      else if parts[0] == "projects" then Some(Project(parts[1]))
      else if parts[0] == "envs" then Some(Env(parts[1]))
      else None
    else if |parts| == 3 then
      if parts[0] == "projects" && parts[1] != "" && parts[2] == "blueprints" then Some(Blueprints(parts[1]))
      else if parts[0] == "projects" && parts[1] != "" && parts[2] == "policies" then Some(Policies(parts[1]))
      else if parts[0] == "envs" && parts[1] == "actions" && parts[2] == "getextended" then Some(EnvExtended)
      else if parts[0] == "envs" && parts[1] == "actions" && parts[2] == "resume" then Some(EnvResume)
      else None
    else if |parts| == 4 then
      if parts[0] == "projects" && parts[1] != "" && parts[2] == "blueprints" && parts[3] != ""
      then Some(Blueprint(parts[1], parts[3]))
      else None
    else None
  }

  /** The segments of each path. */
  function Segments(r: Route): seq<string>
  {
    match r
    case Projects => ["projects"]
    case Project(p) => ["projects", p]
    case Blueprints(p) => ["projects", p, "blueprints"]
    case Blueprint(p, b) => ["projects", p, "blueprints", b]
    case Policies(p) => ["projects", p, "policies"]
    case Envs => ["envs"]
    case Env(id) => ["envs", id]
    case EnvExtended => ["envs", "actions", "getextended"]
    case EnvResume => ["envs", "actions", "resume"]
    case Templates => ["templates"]
    case Regions => ["regions"]
  }

  /** The parts with a '/' between each two, the inverse of `Split` (the client itself never joins). */
  function Join(parts: seq<string>): string
    requires |parts| >= 1
  {
    if |parts| == 1 then parts[0] else parts[0] + ("/" + Join(parts[1..]))
  }

  /** Splitting undoes joining when no part holds a '/'. */
  lemma {:induction false} SplitJoin(parts: seq<string>)
    requires |parts| >= 1 && forall i :: 0 <= i < |parts| ==> '/' !in parts[i]
    ensures Split(Join(parts)) == parts
  {
    if |parts| == 1 {
      SplitSegment(parts[0]);
    } else {
      SplitJoin(parts[1..]);
      var rest := Join(parts[1..]);
      assert parts[0] + ("/" + rest) == parts[0] + "/" + rest;
      SplitSegmentThenRest(parts[0], rest);
    }
  }

  lemma JoinCons(x: string, xs: seq<string>)
    requires |xs| >= 1
    ensures Join([x] + xs) == x + ("/" + Join(xs))
  {
    assert ([x] + xs)[1..] == xs;
  }

  /** Each path is its segments joined with '/'. */
  lemma PathIsJoinedSegments(r: Route)
    ensures Path(r) == Join(Segments(r))
  {
    if r.Projects? || r.Envs? || r.Templates? || r.Regions? {
      FixedPathJoined(r);
    } else if r.EnvExtended? || r.EnvResume? {
      ActionPathJoined(r);
    } else {
      IdPathJoined(r);
    }
  }

  lemma FixedPathJoined(r: Route)
    requires r.Projects? || r.Envs? || r.Templates? || r.Regions?
    ensures Path(r) == Join(Segments(r))
  {
    match r
    case Projects =>
    case Envs =>
    case Templates =>
    case Regions =>
  }

  lemma ActionPathJoined(r: Route)
    requires r.EnvExtended? || r.EnvResume?
    ensures Path(r) == Join(Segments(r))
  {
    match r
    case EnvExtended => JoinedThree("envs", "actions", "getextended");
    case EnvResume => JoinedThree("envs", "actions", "resume");
  }

  lemma IdPathJoined(r: Route)
    requires r.Project? || r.Blueprints? || r.Blueprint? || r.Policies? || r.Env?
    ensures Path(r) == Join(Segments(r))
  {
    match r
    case Project(p) => ProjectPathJoined(p);
    case Blueprints(p) => BlueprintsPathJoined(p);
    case Blueprint(p, b) => BlueprintPathJoined(p, b);
    case Policies(p) => PoliciesPathJoined(p);
    case Env(id) => EnvPathJoined(id);
  }

  lemma ProjectPathJoined(p: string)
    ensures Path(Project(p)) == Join(Segments(Project(p)))
  {
    JoinedTwo("projects", p);
  }

  lemma BlueprintsPathJoined(p: string)
    ensures Path(Blueprints(p)) == Join(Segments(Blueprints(p)))
  {
    JoinedThree("projects", p, "blueprints");
  }

  lemma BlueprintPathJoined(p: string, b: string)
    ensures Path(Blueprint(p, b)) == Join(Segments(Blueprint(p, b)))
  {
    JoinedFour("projects", p, "blueprints", b);
  }

  lemma PoliciesPathJoined(p: string)
    ensures Path(Policies(p)) == Join(Segments(Policies(p)))
  {
    JoinedThree("projects", p, "policies");
  }

  lemma EnvPathJoined(id: string)
    ensures Path(Env(id)) == Join(Segments(Env(id)))
  {
    JoinedTwo("envs", id);
  }

  lemma JoinedTwo(a: string, b: string)
    ensures Join([a, b]) == a + "/" + b
  {
    JoinCons(a, [b]);
  }

  lemma JoinedThree(a: string, b: string, c: string)
    ensures Join([a, b, c]) == a + "/" + b + "/" + c
  {
    JoinedTwo(b, c);
    JoinCons(a, [b, c]);
  }

  lemma JoinedFour(a: string, b: string, c: string, d: string)
    ensures Join([a, b, c, d]) == a + "/" + b + "/" + c + "/" + d
  {
    JoinedThree(b, c, d);
    JoinCons(a, [b, c, d]);
  }

  /** `Split` finds in each path the segments it was formatted from. */
  lemma SplitPath(r: Route)
    requires HasSegmentIds(r)
    ensures Split(Path(r)) == Segments(r)
  {
    PathIsJoinedSegments(r);
    SplitJoin(Segments(r));
  }

  /**
   * Every path names its resource unambiguously: reading it back gives the
   * resource it was formatted from, so no two resources share a path.
   */
  lemma ParseRouteOfPath(r: Route)
    requires HasSegmentIds(r)
    ensures ParseRoute(Path(r)) == Some(r)
  {
    SplitPath(r);
    ParseSegmentsOfSegments(r);
  }

  lemma ParseSegmentsOfSegments(r: Route)
    requires HasSegmentIds(r)
    ensures ParseSegments(Segments(r)) == Some(r)
  {
  }

  lemma PathInjective(r1: Route, r2: Route)
    requires HasSegmentIds(r1) && HasSegmentIds(r2) && Path(r1) == Path(r2)
    ensures r1 == r2
  {
    ParseRouteOfPath(r1);
    ParseRouteOfPath(r2);
  }

  /** No path starts with '/', so `buildURL` puts it under /api/v3/ as it is. */
  lemma PathUnderApiPrefix(client: C.Client, r: Route, params: Option<Values>, encode: Values -> string)
    ensures client.BuildURL(Path(r), params, encode).path == C.ApiPrefix + Path(r)
  {
  }

  // ---------------------------------------------------------------------
  // Queries

  /** The query of `GetProjectsByFilter`: one `filter=true` per filter, in order. */
  method FilterQuery(filters: seq<string>) returns (query: Values)
    ensures |query| == |filters|
    ensures forall i :: 0 <= i < |filters| ==> query[i] == (filters[i], "true")
  {
    query := [];
    for i := 0 to |filters|
      invariant |query| == i
      invariant forall j :: 0 <= j < i ==> query[j] == (filters[j], "true")
    {
      query := Add(query, filters[i], "true");
    }
  }

  /** The query of `GetEnvironments`: brief as "true"/"false", then the criteria. */
  function EnvironmentsQuery(brief: bool, criteria: string): (query: Values)
    ensures |query| == 2 && query[0].0 == "brief" && query[1].0 == "criteria"
    ensures Lookup(query, "brief") == [FormatBool(brief)] && ParseBool(query[0].1) == Some(brief)
    ensures Lookup(query, "criteria") == [criteria]
  {
    var query := Add([], "brief", FormatBool(brief));
    Add(query, "criteria", criteria)
  }

  /** A query holding the one pair key=value. */
  function SingleQuery(key: string, value: string): (query: Values)
    ensures |query| == 1 && Lookup(query, key) == [value]
  {
    Add([], key, value)
  }

  /** `GetTemplateParams`: the optional filters of `GetTemplates`. */
  datatype GetTemplateParams = GetTemplateParams(
    skip: int, take: int, regionID: string, projectID: string, templateType: string)

  /** The position of each key `GetTemplates` may add. */
  function TemplateKeyRank(key: string): int
  {
    if key == "skip" then 0
    else if key == "take" then 1
    else if key == "regionId" then 2
    else if key == "projectId" then 3
    else if key == "templateType" then 4
    else 5
  }

  /** The number of filters in params that are set. */
  function SetTemplateFilters(p: GetTemplateParams): nat
  {
    (if p.skip != 0 then 1 else 0) + (if p.take != 0 then 1 else 0) + (if p.regionID != "" then 1 else 0)
    + (if p.projectID != "" then 1 else 0) + (if p.templateType != "" then 1 else 0)
  }

  /** The pair key=value when present holds, nothing otherwise. */
  function Optional(present: bool, key: string, value: string): (q: Values)
    ensures |q| == if present then 1 else 0
    ensures present ==> q[0] == (key, value)
  {
    if present then [(key, value)] else []
  }

  /** Only its own key finds the optional pair. */
  lemma OptionalLookup(present: bool, key: string, value: string, k: string)
    ensures Lookup(Optional(present, key, value), k) == if present && k == key then [value] else []
  {
    if present {
      assert Optional(present, key, value)[..0] == [];
    }
  }

  /**
   * The pairs `GetTemplates` puts in its query: each filter that is set,
   * in the order skip, take, regionId, projectId, templateType.
   */
  function TemplateEntries(p: GetTemplateParams): Values
  {
    Optional(p.skip != 0, "skip", Decimal(p.skip))
    + Optional(p.take != 0, "take", Decimal(p.take))
    + Optional(p.regionID != "", "regionId", p.regionID)
    + Optional(p.projectID != "", "projectId", p.projectID)
    + Optional(p.templateType != "", "templateType", p.templateType)
  }

  /** The query of `GetTemplates`, built by adding each filter that is set. */
  method TemplatesQuery(p: GetTemplateParams) returns (query: Values)
    ensures query == TemplateEntries(p)
  {
    query := [];
    if p.skip != 0 {
      query := Add(query, "skip", Decimal(p.skip));
    }
    if p.take != 0 {
      query := Add(query, "take", Decimal(p.take));
    }
    if p.regionID != "" {
      query := Add(query, "regionId", p.regionID);
    }
    if p.projectID != "" {
      query := Add(query, "projectId", p.projectID);
    }
    if p.templateType != "" {
      query := Add(query, "templateType", p.templateType);
    }
  }

  /** The values `GetTemplates` means to send under key. */
  function TemplateValues(p: GetTemplateParams, key: string): seq<string>
  {
    if key == "skip" then (if p.skip != 0 then [Decimal(p.skip)] else [])
    else if key == "take" then (if p.take != 0 then [Decimal(p.take)] else [])
    else if key == "regionId" then (if p.regionID != "" then [p.regionID] else [])
    else if key == "projectId" then (if p.projectID != "" then [p.projectID] else [])
    else if key == "templateType" then (if p.templateType != "" then [p.templateType] else [])
    else []
  }

  /**
   * Each filter of `GetTemplates` that is set, and only those, appears
   * under its key exactly once, integers in decimal; no other key appears.
   */
  lemma TemplateEntriesLookup(p: GetTemplateParams, key: string)
    ensures Lookup(TemplateEntries(p), key) == TemplateValues(p, key)
  {
    var a := Optional(p.skip != 0, "skip", Decimal(p.skip));
    var b := Optional(p.take != 0, "take", Decimal(p.take));
    var c := Optional(p.regionID != "", "regionId", p.regionID);
    var d := Optional(p.projectID != "", "projectId", p.projectID);
    var e := Optional(p.templateType != "", "templateType", p.templateType);
    LookupFive(a, b, c, d, e, key);
    TemplateValuesByFilter(p, key);
  }

  lemma TemplateValuesByFilter(p: GetTemplateParams, key: string)
    ensures Lookup(Optional(p.skip != 0, "skip", Decimal(p.skip)), key)
          + Lookup(Optional(p.take != 0, "take", Decimal(p.take)), key)
          + Lookup(Optional(p.regionID != "", "regionId", p.regionID), key)
          + Lookup(Optional(p.projectID != "", "projectId", p.projectID), key)
          + Lookup(Optional(p.templateType != "", "templateType", p.templateType), key)
         == TemplateValues(p, key)
  {
    FilterValues(p.skip != 0, Decimal(p.skip), p.take != 0, Decimal(p.take), p.regionID != "", p.regionID,
                 p.projectID != "", p.projectID, p.templateType != "", p.templateType, key);
  }

  /** The five keys are distinct, so a key finds at most the one pair filed under it. */
  lemma FilterValues(s: bool, sv: string, t: bool, tv: string, r: bool, rv: string,
                     j: bool, jv: string, y: bool, yv: string, key: string)
    ensures Lookup(Optional(s, "skip", sv), key) + Lookup(Optional(t, "take", tv), key)
          + Lookup(Optional(r, "regionId", rv), key) + Lookup(Optional(j, "projectId", jv), key)
          + Lookup(Optional(y, "templateType", yv), key)
         == if key == "skip" then (if s then [sv] else [])
            else if key == "take" then (if t then [tv] else [])
            else if key == "regionId" then (if r then [rv] else [])
            else if key == "projectId" then (if j then [jv] else [])
            else if key == "templateType" then (if y then [yv] else [])
            else []
  {
    assert "skip"[0] != "take"[0];
    OptionalLookup(s, "skip", sv, key);
    OptionalLookup(t, "take", tv, key);
    OptionalLookup(r, "regionId", rv, key);
    OptionalLookup(j, "projectId", jv, key);
    OptionalLookup(y, "templateType", yv, key);
  }

  lemma LookupFive(a: Values, b: Values, c: Values, d: Values, e: Values, key: string)
    ensures Lookup(a + b + c + d + e, key)
         == Lookup(a, key) + Lookup(b, key) + Lookup(c, key) + Lookup(d, key) + Lookup(e, key)
  {
    LookupConcat(a + b + c + d, e, key);
    LookupConcat(a + b + c, d, key);
    LookupConcat(a + b, c, key);
    LookupConcat(a, b, key);
  }

  /** Keys in strictly increasing rank. */
  predicate Ranked(q: Values)
  {
    forall i, j :: 0 <= i < j < |q| ==> TemplateKeyRank(q[i].0) < TemplateKeyRank(q[j].0)
  }

  predicate RanksBelow(q: Values, bound: int)
  {
    forall i :: 0 <= i < |q| ==> TemplateKeyRank(q[i].0) < bound
  }

  lemma RankedAppendOptional(q: Values, present: bool, key: string, value: string)
    requires Ranked(q) && RanksBelow(q, TemplateKeyRank(key))
    ensures Ranked(q + Optional(present, key, value))
    ensures RanksBelow(q + Optional(present, key, value), TemplateKeyRank(key) + 1)
  {
  }

  /** No other key appears, and the filters keep their order. */
  lemma TemplateEntriesShape(p: GetTemplateParams)
    ensures |TemplateEntries(p)| == SetTemplateFilters(p)
    ensures Ranked(TemplateEntries(p))
  {
    var a := Optional(p.skip != 0, "skip", Decimal(p.skip));
    var b := Optional(p.take != 0, "take", Decimal(p.take));
    var c := Optional(p.regionID != "", "regionId", p.regionID);
    var d := Optional(p.projectID != "", "projectId", p.projectID);
    assert TemplateKeyRank("skip") == 0 && TemplateKeyRank("take") == 1 by {
      assert "skip"[0] != "take"[0];
    }
    RankedAppendOptional([], p.skip != 0, "skip", Decimal(p.skip));
    assert [] + a == a;
    RankedAppendOptional(a, p.take != 0, "take", Decimal(p.take));
    RankedAppendOptional(a + b, p.regionID != "", "regionId", p.regionID);
    RankedAppendOptional(a + b + c, p.projectID != "", "projectId", p.projectID);
    RankedAppendOptional(a + b + c + d, p.templateType != "", "templateType", p.templateType);
  }

  // ---------------------------------------------------------------------
  // Calls

  /**
   * The `jsonable` argument of `makeRequest`: nil, or a value that
   * `json.Marshal` turned into text or failed on.
   */
  datatype Jsonable = Nil | Marshalled(json: Result<string, GoError>)

  /**
   * The arguments an endpoint passes to `makeRequest`. `decodes` says
   * whether `response` is non-nil; every endpoint that passes its typed
   * result pointer passes a non-nil interface, even for a nil pointer.
   */
  datatype Call = Call(verb: string, path: string, decodes: bool, params: Option<Values>, jsonable: Jsonable)

  /** `makeGetRequest`: GET, never a body. */
  function MakeGetRequest(path: string, decodes: bool, params: Option<Values>): (c: Call)
    ensures c.verb == "GET" && c.jsonable == Nil
    ensures c.path == path && c.decodes == decodes && c.params == params
  {
    Call("GET", path, decodes, params, Nil)
  }

  /** `makePostRequest`: POST, with the caller's body. */
  function MakePostRequest(path: string, decodes: bool, params: Option<Values>, jsonable: Jsonable): (c: Call)
    ensures c.verb == "POST" && c.jsonable == jsonable
    ensures c.path == path && c.decodes == decodes && c.params == params
  {
    Call("POST", path, decodes, params, jsonable)
  }

  /** `envPutAction`: PUT, no body, and the response is not decoded. */
  function EnvPutAction(action: string, params: Option<Values>): (c: Call)
    ensures c.verb == "PUT" && c.jsonable == Nil && !c.decodes
    ensures c.path == action && c.params == params
  {
    Call("PUT", action, false, params, Nil)
  }

  /** `GetBlueprintDetails`: a decoding GET of `projects/<project>/blueprints/<blueprint>`. */
  function GetBlueprintDetails(projectID: string, blueprintID: string): (c: Call)
    ensures c.verb == "GET" && c.decodes && c.params.None? && c.jsonable == Nil
    ensures c.path == Path(Blueprint(projectID, blueprintID))
    ensures IsSegment(projectID) && IsSegment(blueprintID) ==>
              ParseRoute(c.path) == Some(Blueprint(projectID, blueprintID))
  {
    var r := Blueprint(projectID, blueprintID);
    if HasSegmentIds(r) then ParseRouteOfPath(r); MakeGetRequest(Path(r), true, None)
    else MakeGetRequest(Path(r), true, None)
  }

  method GetProjectsByFilter(filters: seq<string>) returns (c: Call)
    ensures c.verb == "GET" && c.path == Path(Projects) && c.decodes && c.jsonable == Nil
    ensures c.params.Some? && |c.params.value| == |filters|
    ensures forall i :: 0 <= i < |filters| ==> c.params.value[i] == (filters[i], "true")
  {
    var query := FilterQuery(filters);
    c := MakeGetRequest(Path(Projects), true, Some(query));
  }

  /** `GetProjects`: a decoding GET of `projects` with no query. */
  function GetProjects(): (c: Call)
    ensures c.verb == "GET" && c.decodes && c.params.None? && c.jsonable == Nil
    ensures c.path == Path(Projects) && ParseRoute(c.path) == Some(Projects)
  {
    ParseRouteOfPath(Projects);
    MakeGetRequest(Path(Projects), true, None)
  }

  /** `GetProjectDetails`: a decoding GET of `projects/<project>`. */
  function GetProjectDetails(projectID: string): (c: Call)
    ensures c.verb == "GET" && c.decodes && c.params.None? && c.jsonable == Nil
    ensures c.path == Path(Project(projectID))
    ensures IsSegment(projectID) ==> ParseRoute(c.path) == Some(Project(projectID))
  {
    var r := Project(projectID);
    if HasSegmentIds(r) then ParseRouteOfPath(r); MakeGetRequest(Path(r), true, None)
    else MakeGetRequest(Path(r), true, None)
  }

  /** `GetBlueprints`: a decoding GET of `projects/<project>/blueprints`. */
  function GetBlueprints(projectID: string): (c: Call)
    ensures c.verb == "GET" && c.decodes && c.params.None? && c.jsonable == Nil
    ensures c.path == Path(Blueprints(projectID))
    ensures IsSegment(projectID) ==> ParseRoute(c.path) == Some(Blueprints(projectID))
  {
    var r := Blueprints(projectID);
    if HasSegmentIds(r) then ParseRouteOfPath(r); MakeGetRequest(Path(r), true, None)
    else MakeGetRequest(Path(r), true, None)
  }

  /** `GetPolicies`: a decoding GET of `projects/<project>/policies`. */
  function GetPolicies(projectID: string): (c: Call)
    ensures c.verb == "GET" && c.decodes && c.params.None? && c.jsonable == Nil
    ensures c.path == Path(Policies(projectID))
    ensures IsSegment(projectID) ==> ParseRoute(c.path) == Some(Policies(projectID))
  {
    var r := Policies(projectID);
    if HasSegmentIds(r) then ParseRouteOfPath(r); MakeGetRequest(Path(r), true, None)
    else MakeGetRequest(Path(r), true, None)
  }

  /** `GetEnvironments`: a decoding GET of `envs` with the brief flag and the criteria. */
  function GetEnvironments(brief: bool, criteria: string): (c: Call)
    ensures c.verb == "GET" && c.decodes && c.jsonable == Nil
    ensures c.path == Path(Envs) && ParseRoute(c.path) == Some(Envs)
    ensures c.params.Some? && |c.params.value| == 2
    ensures Lookup(c.params.value, "brief") == [FormatBool(brief)]
    ensures Lookup(c.params.value, "criteria") == [criteria]
  {
    ParseRouteOfPath(Envs);
    MakeGetRequest(Path(Envs), true, Some(EnvironmentsQuery(brief, criteria)))
  }

  /** `GetEnvironment`: a decoding GET of `envs/<id>` with the permission as its one query pair. */
  function GetEnvironment(id: string, permission: string): (c: Call)
    ensures c.verb == "GET" && c.decodes && c.jsonable == Nil
    ensures c.path == Path(Env(id))
    ensures IsSegment(id) ==> ParseRoute(c.path) == Some(Env(id))
    ensures c.params.Some? && |c.params.value| == 1 && Lookup(c.params.value, "permission") == [permission]
  {
    var r := Env(id);
    var q := Some(SingleQuery("permission", permission));
    if HasSegmentIds(r) then ParseRouteOfPath(r); MakeGetRequest(Path(r), true, q)
    else MakeGetRequest(Path(r), true, q)
  }

  /** `GetEnvironmentExtended`: a decoding GET of `envs/actions/getextended` with the id in the query. */
  function GetEnvironmentExtended(id: string): (c: Call)
    ensures c.verb == "GET" && c.decodes && c.jsonable == Nil
    ensures c.path == Path(EnvExtended) && ParseRoute(c.path) == Some(EnvExtended)
    ensures c.params.Some? && |c.params.value| == 1 && Lookup(c.params.value, "envId") == [id]
  {
    ParseRouteOfPath(EnvExtended);
    MakeGetRequest(Path(EnvExtended), true, Some(SingleQuery("envId", id)))
  }

  /**
   * `CreateEnvironmentFromTemplate`: a decoding POST to `envs`. The request
   * is a typed pointer, so the `jsonable` interface is never nil:
   * `json.Marshal` always runs, and `marshalled` is what it gave.
   */
  function CreateEnvironmentFromTemplate(marshalled: Result<string, GoError>): (c: Call)
    ensures c.verb == "POST" && c.decodes && c.params.None? && c.jsonable == Marshalled(marshalled)
    ensures c.path == Path(Envs) && ParseRoute(c.path) == Some(Envs)
  {
    ParseRouteOfPath(Envs);
    MakePostRequest(Path(Envs), true, None, Marshalled(marshalled))
  }

  /** `EnvironmentResume`: a PUT to `envs/actions/resume`, not decoded, with the id in the query. */
  function EnvironmentResume(envID: string): (c: Call)
    ensures c.verb == "PUT" && !c.decodes && c.jsonable == Nil
    ensures c.path == Path(EnvResume) && ParseRoute(c.path) == Some(EnvResume)
    ensures c.params.Some? && |c.params.value| == 1 && Lookup(c.params.value, "envId") == [envID]
  {
    ParseRouteOfPath(EnvResume);
    EnvPutAction(Path(EnvResume), Some(SingleQuery("envId", envID)))
  }

  method GetTemplates(p: GetTemplateParams) returns (c: Call)
    ensures c.verb == "GET" && c.path == Path(Templates) && c.decodes && c.jsonable == Nil
    ensures c.params == Some(TemplateEntries(p))
  {
    var query := TemplatesQuery(p);
    c := MakeGetRequest(Path(Templates), true, Some(query));
  }

  /** `GetRegions`: a decoding GET of `regions` with no query. */
  function GetRegions(): (c: Call)
    ensures c.verb == "GET" && c.decodes && c.params.None? && c.jsonable == Nil
    ensures c.path == Path(Regions) && ParseRoute(c.path) == Some(Regions)
  {
    ParseRouteOfPath(Regions);
    MakeGetRequest(Path(Regions), true, None)
  }

  // ---------------------------------------------------------------------
  // makeRequest

  /** The body `makeRequest` hands to `Request`: none for a nil jsonable, else the JSON text. */
  function RequestBody(j: Jsonable): Option<string>
    requires !(j.Marshalled? && j.json.Failure?)
  {
    if j.Nil? then None else Some(j.json.value)
  }

  const SerializeFailed: string := "Failed to serialize request object to JSON"

  /**
   * The error `makeRequest` returns once `Request` has answered: its error
   * if it has one, else a decoding error when the response is decoded and
   * cannot be, else none.
   */
  function Settle(answer: (Option<C.APIResponse>, Option<C.APIError>), decodes: bool,
                  unmarshal: seq<byte> -> Option<GoError>): (err: Option<C.APIError>)
    requires answer.1.Some? || answer.0.Some?
    ensures answer.1.Some? ==> err == answer.1
    ensures answer.1.None? && !decodes ==> err.None?
    ensures answer.1.None? && decodes ==>
              (err.None? <==> unmarshal(answer.0.value.body).None?)
              && (err.Some? ==> err.value == C.APIError("", "", unmarshal(answer.0.value.body)))
  {
    if answer.1.Some? then answer.1
    else if decodes then
      match unmarshal(answer.0.value.body)
      case None => None
      case Some(e) => Some(C.APIError("", "", Some(e)))
    else None
  }

  /**
   * `makeRequest`: serialises the body, calls `Request`, and decodes the
   * response when asked to. Returns the request handed to the transport,
   * if one was, and the error makeRequest returns.
   */
  method MakeRequest(client: C.Client, call: Call, lib: Library, now: int64,
                     draw: nat -> Auth.LetterIndex, transport: Transport)
    returns (sent: Option<HttpRequest>, err: Option<C.APIError>)
    requires EncodesEmptyAsEmpty(lib)
    modifies client
    ensures call.jsonable.Marshalled? && call.jsonable.json.Failure? ==>
              sent.None? && err == Some(C.APIError("", SerializeFailed, Some(call.jsonable.json.error)))
              && client.tags == old(client.tags)
    ensures !(call.jsonable.Marshalled? && call.jsonable.json.Failure?) ==>
              sent.Some? && sent.value.verb == call.verb && sent.value.body == RequestBody(call.jsonable)
              && sent.value.url == client.BuildURL(call.path, Some(call.params.GetOr([])), lib.encode)
              && err == Settle(C.Outcome(transport(sent.value), lib.decodeError), call.decodes, lib.unmarshal)
    ensures !(call.jsonable.Marshalled? && call.jsonable.json.Failure?) ==>
              client.tags == (if old(client.tags) == "" then C.DefaultTags else old(client.tags))
              && (call.params.None? ==> sent.value.url.rawQuery == "")
              && sent.value.header == C.RequestHeader(Auth.SignedToken(lib.sha1, client.apiKey, client.apiID,
                                                      UrlString(sent.value.url), now as int, Auth.Nonce(draw)))
              && sent.value.contentLength == (if call.jsonable.Nil? then 0 else |Utf8(call.jsonable.json.value)|)
    ensures client.apiKey == old(client.apiKey) && client.apiID == old(client.apiID)
    ensures client.apiHost == old(client.apiHost)
  {
    if call.jsonable.Marshalled? && call.jsonable.json.Failure? {
      return None, Some(C.APIError("", SerializeFailed, Some(call.jsonable.json.error)));
    }
    var body := RequestBody(call.jsonable);
    var request, response, requestErr := client.Request(call.verb, call.path, call.params, body,
                                                         lib, now, draw, transport);
    sent := Some(request);
    err := Settle((response, requestErr), call.decodes, lib.unmarshal);
  }
}
