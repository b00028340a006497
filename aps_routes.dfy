/** The server's route handlers: each gets an access token, builds the
    upstream URL from a template and the route parameters, sends one GET
    with bearer headers (two for folder contents, on a 404), and reshapes
    the JSON:API body or maps the error to a status. The upstream API is a
    function parameter from request to outcome; a handler returns the
    requests it sent, in order, together with its reply. */
module ApsRoutes {
  import opened Wrappers
  import opened JsValues
  import opened JsStrings
  import opened Http
  import opened ApsConfig

  /** The body a handler passes to `res.json`: `{ success: true, data,
      included }`, or `{ success: false, error, details }` with a status. */
  datatype Reply = Success(data: Json, included: Json) | Failure(status: int, message: string, details: Json)

  datatype Exchange = Exchange(requests: seq<Request>, reply: Reply)

  type Upstream = Request -> Outcome

  /** What `await getAccessToken()` gave the handler. */
  type TokenResult = Result<Option<string>, JsError>

  const EmptyList := Arr([])

  /** `response.data.data` when the upstream body is JSON `null`. */
  const NullBodyError := JsError("Cannot read properties of null (reading 'data')", None)

  /** The `catch` block shared by every handler. */
  function ErrorReply(e: JsError): (r: Reply)
    ensures r.Failure? && r.message == e.message && r.status != 0
    ensures e.response.None? ==> r.status == InternalServerError && r.details == Null
    ensures e.response.Some? && e.response.value.status != 0 ==> r.status == e.response.value.status
  {
    Failure(ErrorStatus(e), e.message, ErrorDetails(e))
  }

  /** A `String.replace` argument that is inserted verbatim and cannot
      introduce a placeholder. */
  predicate Clean(s: string) {
    '{' !in s && '$' !in s
  }

  /** The bearer headers for the token the cache gave. */
  function Bearer(token: Option<string>): map<string, string> {
    AuthHeaders(TemplateText(token))
  }

  /** `{ data: body.data || [], included: body.included || [] }`. */
  function ShapeList(body: Json): (r: Reply)
    ensures r.Success? <==> !body.Null?
    ensures r.Failure? ==> r == ErrorReply(NullBodyError)
    ensures r.Success? ==> Truthy(r.data) && Truthy(r.included)
    ensures r.Success? ==> r.data == (if Truthy(Get(body, "data")) then Get(body, "data") else EmptyList)
    ensures r.Success? ==> r.included == (if Truthy(Get(body, "included")) then Get(body, "included") else EmptyList)
  {
    match Member(body, "data")
    case None => ErrorReply(NullBodyError)
    case Some(data) => Success(Or(data, EmptyList), Or(Get(body, "included"), EmptyList))
  }

  /** `{ data: body.data || body, included: body.included || [] }`. */
  function ShapeVersion(body: Json): (r: Reply)
    ensures r.Success? <==> !body.Null?
    ensures r.Failure? ==> r == ErrorReply(NullBodyError)
    ensures r.Success? ==> r.data == (if Truthy(Get(body, "data")) then Get(body, "data") else body)
    ensures r.Success? ==> r.included == (if Truthy(Get(body, "included")) then Get(body, "included") else EmptyList)
    ensures r.Success? ==> Truthy(r.included)
  {
    match Member(body, "data")
    case None => ErrorReply(NullBodyError)
    case Some(data) => Success(Or(data, body), Or(Get(body, "included"), EmptyList))
  }

  /** Get a token, send one GET to `url`, shape the body with `shape`. */
  function Fetch(token: TokenResult, url: string, upstream: Upstream, version: bool): (x: Exchange)
    ensures token.Err? ==> x == Exchange([], ErrorReply(token.error))
    ensures token.Ok? ==> x.requests == [Request(url, Bearer(token.value))]
    ensures token.Ok? && upstream(x.requests[0]).Threw? ==> x.reply == ErrorReply(upstream(x.requests[0]).error)
    ensures token.Ok? && upstream(x.requests[0]).Received? ==>
      x.reply == (if version then ShapeVersion else ShapeList)(upstream(x.requests[0]).body)
  {
    match token
    case Err(e) => Exchange([], ErrorReply(e))
    case Ok(t) =>
      var request := Request(url, Bearer(t));
      match upstream(request)
      case Threw(e) => Exchange([request], ErrorReply(e))
      case Received(body) => Exchange([request], if version then ShapeVersion(body) else ShapeList(body))
  }

  function ProjectsUrl(base: string, hubId: string): string {
    Replace(EndpointsFor(base).project, HubId, hubId)
  }

  function TopFoldersUrl(base: string, hubId: string, projectId: string): string {
    Replace(Replace(EndpointsFor(base).topFolders, HubId, hubId), ProjectId, projectId)
  }

  function FolderContentsUrl(base: string, projectId: string, folderId: string): string {
    Replace(Replace(EndpointsFor(base).folderContents, ProjectId, projectId), FolderId, folderId)
  }

  function FolderContentsRelUrl(base: string, projectId: string, folderId: string): string {
    Replace(Replace(EndpointsFor(base).folderContentsRel, ProjectId, projectId), FolderId, folderId)
  }

  function ItemVersionsUrl(base: string, projectId: string, itemId: string): string {
    Replace(Replace(EndpointsFor(base).itemVersions, ProjectId, projectId), ItemId, itemId)
  }

  const IncludeDerivatives := "?include=derivatives"

  function VersionDetailsUrl(base: string, projectId: string, versionId: string): string {
    Replace(Replace(EndpointsFor(base).versionDetails, ProjectId, projectId), VersionId, versionId) + IncludeDerivatives
  }

  /** One placeholder after `{`-free text, replaced by a clean value. */
  lemma SubstituteOne(base: string, a: string, p: string, b: string, v: string)
    requires '{' !in base && '{' !in a && |p| > 0 && p[0] == '{' && Clean(v)
    ensures Replace(base + (a + p + b), p, v) == base + a + v + b
  {
    Associative(base, a + p, b);
    Associative(base, a, p);
    ReplacePlaceholder(base + a, p, b, v);
  }

  /** Two placeholders in order, replaced one after the other. */
  lemma SubstituteTwo(base: string, a: string, p1: string, b: string, p2: string, c: string, v1: string, v2: string)
    requires '{' !in base && '{' !in a && '{' !in b && |p1| > 0 && p1[0] == '{' && |p2| > 0 && p2[0] == '{'
    requires Clean(v1) && Clean(v2)
    ensures Replace(Replace(base + (a + p1 + b + p2 + c), p1, v1), p2, v2) == base + a + v1 + b + v2 + c
  {
    Associative(a + p1, b, p2);
    Associative(a + p1, b + p2, c);
    assert a + p1 + b + p2 + c == a + p1 + (b + p2 + c);
    SubstituteOne(base, a, p1, b + p2 + c, v1);
    var x := base + a + v1;
    Associative(x, b + p2, c);
    Associative(x, b, p2);
    ReplacePlaceholder(x + b, p2, c, v2);
  }

  /** Substituting clean parameters into a template whose base has no `{` puts
      each parameter where its placeholder was. */
  lemma ProjectsUrlIs(base: string, hubId: string)
    requires '{' !in base && Clean(hubId)
    ensures ProjectsUrl(base, hubId) == base + "/project/v1/hubs/" + hubId + "/projects"
  {
    SubstituteOne(base, "/project/v1/hubs/", HubId, "/projects", hubId);
  }

  lemma TopFoldersUrlIs(base: string, hubId: string, projectId: string)
    requires '{' !in base && Clean(hubId) && Clean(projectId)
    ensures TopFoldersUrl(base, hubId, projectId) == base + "/project/v1/hubs/" + hubId + "/projects/" + projectId + "/folders"
  {
    SubstituteTwo(base, "/project/v1/hubs/", HubId, "/projects/", ProjectId, "/folders", hubId, projectId);
  }

  lemma FolderContentsUrlIs(base: string, projectId: string, folderId: string)
    requires '{' !in base && Clean(projectId) && Clean(folderId)
    ensures FolderContentsUrl(base, projectId, folderId) == base + "/data/v1/projects/" + projectId + "/folders/" + folderId + "/contents"
    ensures FolderContentsRelUrl(base, projectId, folderId) == base + "/data/v1/projects/" + projectId + "/folders/" + folderId + "/relationships/contents"
  {
    SubstituteTwo(base, "/data/v1/projects/", ProjectId, "/folders/", FolderId, "/contents", projectId, folderId);
    SubstituteTwo(base, "/data/v1/projects/", ProjectId, "/folders/", FolderId, "/relationships/contents", projectId, folderId);
  }

  lemma ItemVersionsUrlIs(base: string, projectId: string, itemId: string)
    requires '{' !in base && Clean(projectId) && Clean(itemId)
    ensures ItemVersionsUrl(base, projectId, itemId) == base + "/data/v1/projects/" + projectId + "/items/" + itemId + "/versions"
  {
    SubstituteTwo(base, "/data/v1/projects/", ProjectId, "/items/", ItemId, "/versions", projectId, itemId);
  }

  lemma VersionDetailsUrlIs(base: string, projectId: string, versionId: string)
    requires '{' !in base && Clean(projectId) && Clean(versionId)
    ensures VersionDetailsUrl(base, projectId, versionId) == base + "/data/v1/projects/" + projectId + "/versions/" + versionId + IncludeDerivatives
  {
    assert VersionDetailsPath == "/data/v1/projects/" + ProjectId + "/versions/" + VersionId + "";
    SubstituteTwo(base, "/data/v1/projects/", ProjectId, "/versions/", VersionId, "", projectId, versionId);
  }

  /** GET /hubs. */
  function Hubs(base: string, token: TokenResult, upstream: Upstream): (x: Exchange)
    ensures |x.requests| <= 1 && (x.requests != [] ==> x.requests[0].url == base + HubsPath)
    ensures x.reply.Success? ==> Truthy(x.reply.data) && Truthy(x.reply.included)
  {
    Fetch(token, EndpointsFor(base).hub, upstream, false)
  }

  /** GET /hubs/:hubId/projects. */
  function Projects(base: string, hubId: string, token: TokenResult, upstream: Upstream): (x: Exchange)
    ensures |x.requests| <= 1 && (x.requests != [] ==> x.requests[0].url == ProjectsUrl(base, hubId))
    ensures x.reply.Success? ==> Truthy(x.reply.data) && Truthy(x.reply.included)
  {
    Fetch(token, ProjectsUrl(base, hubId), upstream, false)
  }

  /** GET /hubs/:hubId/projects/:projectId/top-folders. */
  function TopFolders(base: string, hubId: string, projectId: string, token: TokenResult, upstream: Upstream): (x: Exchange)
    ensures |x.requests| <= 1 && (x.requests != [] ==> x.requests[0].url == TopFoldersUrl(base, hubId, projectId))
    ensures x.reply.Success? ==> Truthy(x.reply.data) && Truthy(x.reply.included)
  {
    Fetch(token, TopFoldersUrl(base, hubId, projectId), upstream, false)
  }

  /** GET /projects/:projectId/items/:itemId/versions. */
  function ItemVersions(base: string, projectId: string, itemId: string, token: TokenResult, upstream: Upstream): (x: Exchange)
    ensures |x.requests| <= 1 && (x.requests != [] ==> x.requests[0].url == ItemVersionsUrl(base, projectId, itemId))
    ensures x.reply.Success? ==> Truthy(x.reply.data) && Truthy(x.reply.included)
  {
    Fetch(token, ItemVersionsUrl(base, projectId, itemId), upstream, false)
  }

  /** GET /projects/:projectId/versions/:versionId: the details of one
      version with its derivatives included. */
  function VersionDetails(base: string, projectId: string, versionId: string, token: TokenResult, upstream: Upstream): (x: Exchange)
    ensures |x.requests| <= 1 && (x.requests != [] ==> x.requests[0].url == VersionDetailsUrl(base, projectId, versionId))
    ensures x.reply.Success? ==> Truthy(x.reply.included)
    ensures x.requests != [] && upstream(x.requests[0]).Received? && !upstream(x.requests[0]).body.Null? ==>
      x.reply.Success? && x.reply.data == Or(Get(upstream(x.requests[0]).body, "data"), upstream(x.requests[0]).body)
  {
    Fetch(token, VersionDetailsUrl(base, projectId, versionId), upstream, true)
  }

  /** The primary request failed with an upstream 404:
      `firstError.response?.status === 404`. */
  predicate NotFound(o: Outcome) {
    o.Threw? && o.error.response.Some? && o.error.response.value.status == 404
  }

  /** GET /projects/:projectId/folders/:folderId/contents: the primary
      contents URL first, and the `relationships/contents` URL only when
      the primary fails with 404; any other failure is passed on as it is. */
  method FolderContents(base: string, projectId: string, folderId: string, token: TokenResult, upstream: Upstream)
    returns (x: Exchange)
    ensures token.Err? ==> x == Exchange([], ErrorReply(token.error))
    ensures token.Ok? ==> 1 <= |x.requests| <= 2 && x.requests[0] == Request(FolderContentsUrl(base, projectId, folderId), Bearer(token.value))
    ensures |x.requests| == 2 <==> token.Ok? && NotFound(upstream(x.requests[0]))
    ensures |x.requests| == 2 ==> x.requests[1] == Request(FolderContentsRelUrl(base, projectId, folderId), Bearer(token.value))
    ensures x.requests != [] ==>
      var last := upstream(x.requests[|x.requests| - 1]);
      x.reply == (if last.Threw? then ErrorReply(last.error) else ShapeList(last.body))
  {
    if token.Err? {
      return Exchange([], ErrorReply(token.error));
    }
    var headers := Bearer(token.value);
    var url := FolderContentsUrl(base, projectId, folderId);
    var requests := [Request(url, headers)];
    var response := upstream(Request(url, headers));
    if response.Threw? {
      if NotFound(response) {
        url := FolderContentsRelUrl(base, projectId, folderId);
        requests := requests + [Request(url, headers)];
        response := upstream(Request(url, headers));
        if response.Threw? {
          return Exchange(requests, ErrorReply(response.error));
        }
      } else {
        return Exchange(requests, ErrorReply(response.error));
      }
    }
    return Exchange(requests, ShapeList(response.body));
  }

  /** The HTTP status and JSON body `res.json` sends for a reply. */
  function Wire(r: Reply): (w: (int, Json))
    ensures r.Success? <==> Get(w.1, "success") == Bool(true)
    ensures r.Success? ==> w.0 == 200 && Get(w.1, "data") == r.data && Get(w.1, "included") == r.included
    ensures r.Failure? ==> w.0 == r.status && Get(w.1, "error") == Str(r.message) && Get(w.1, "details") == r.details
  {
    match r
    case Success(data, included) =>
      (200, Obj(map["success" := Bool(true), "data" := data, "included" := included]))
    case Failure(status, message, details) =>
      (status, Obj(map["success" := Bool(false), "error" := Str(message), "details" := details]))
  }
}
