/** The server's configuration: the API base URL, the endpoint templates of
    the Data Management API and the bearer headers sent with every
    upstream request. */
module ApsConfig {
  import opened Wrappers
  import opened JsStrings

  const DefaultBaseUrl := "https://developer.api.autodesk.com"

  /** The placeholders the route handlers substitute. */
  const HubId := "{hubId}"
  const ProjectId := "{projectId}"
  const FolderId := "{folderId}"
  const ItemId := "{itemId}"
  const VersionId := "{versionId}"

  /** The endpoint paths, each spelled as its fixed segments and its
      placeholders. */
  const AuthPath := "/authentication/v2/token"
  const HubsPath := "/project/v1/hubs"
  const ProjectsPath := "/project/v1/hubs/" + HubId + "/projects"
  const TopFoldersPath := "/project/v1/hubs/" + HubId + "/projects/" + ProjectId + "/folders"
  const FolderContentsPath := "/data/v1/projects/" + ProjectId + "/folders/" + FolderId + "/contents"
  const FolderContentsRelPath := "/data/v1/projects/" + ProjectId + "/folders/" + FolderId + "/relationships/contents"
  const ItemVersionsPath := "/data/v1/projects/" + ProjectId + "/items/" + ItemId + "/versions"
  const VersionDetailsPath := "/data/v1/projects/" + ProjectId + "/versions/" + VersionId

  /** `process.env.APS_BASE_URL || DefaultBaseUrl`: an unset or empty
      variable falls back to the public API host. */
  function BaseUrl(env: Option<string>): (base: string)
    ensures base != ""
    ensures env.Some? && env.value != "" ==> base == env.value
    ensures base != DefaultBaseUrl ==> env == Some(base)
  {
    if env.Some? && env.value != "" then env.value else DefaultBaseUrl
  }

  /** The endpoint table: every entry is the base URL followed by a path. */
  datatype Endpoints = Endpoints(
    auth: string,
    hub: string,
    project: string,
    topFolders: string,
    folderContents: string,
    folderContentsRel: string,
    itemVersions: string,
    versionDetails: string)
  {
    function All(): seq<string> {
      [auth, hub, project, topFolders, folderContents, folderContentsRel, itemVersions, versionDetails]
    }
  }

  function EndpointsFor(base: string): Endpoints {
    Endpoints(
      base + AuthPath,
      base + HubsPath,
      base + ProjectsPath,
      base + TopFoldersPath,
      base + FolderContentsPath,
      base + FolderContentsRelPath,
      base + ItemVersionsPath,
      base + VersionDetailsPath)
  }

  /** Every endpoint is the base URL followed by a path. */
  lemma EndpointsExtendBase(base: string)
    ensures forall u :: u in EndpointsFor(base).All() ==> base <= u
  {
    var e := EndpointsFor(base);
    forall u | u in e.All() ensures base <= u {
      var path :| path in [AuthPath, HubsPath, ProjectsPath, TopFoldersPath, FolderContentsPath,
                           FolderContentsRelPath, ItemVersionsPath, VersionDetailsPath] && u == base + path;
      assert (base + path)[..|base|] == base;
    }
  }

  /** `s` contains the placeholder `p`. */
  predicate Mentions(s: string, p: string) {
    IndexOf(s, p).Some?
  }

  lemma OccursAtEnd(x: string, p: string)
    ensures OccursAt(x + p, p, |x|)
  {
    assert (x + p)[|x|..|x| + |p|] == p;
  }

  lemma OccursExtended(s: string, p: string, i: nat, t: string)
    requires OccursAt(s, p, i)
    ensures OccursAt(s + t, p, i)
  {
    assert (s + t)[i..i + |p|] == s[i..i + |p|];
  }

  lemma OccursBehind(base: string, s: string, p: string, i: nat)
    requires OccursAt(s, p, i)
    ensures OccursAt(base + s, p, |base| + i) && Mentions(base + s, p)
  {
    assert (base + s)[|base| + i..|base| + i + |p|] == s[i..i + |p|];
    assert OccursAt(base + s, p, |base| + i);
  }

  lemma ProjectsMentions(base: string)
    ensures Mentions(base + ProjectsPath, HubId)
  {
    var a := "/project/v1/hubs/";
    OccursAtEnd(a, HubId);
    OccursExtended(a + HubId, HubId, |a|, "/projects");
    OccursBehind(base, ProjectsPath, HubId, |a|);
  }

  lemma TopFoldersMentions(base: string)
    ensures Mentions(base + TopFoldersPath, HubId) && Mentions(base + TopFoldersPath, ProjectId)
  {
    var a := "/project/v1/hubs/";
    var b := a + HubId + "/projects/";
    OccursAtEnd(a, HubId);
    OccursExtended(a + HubId, HubId, |a|, "/projects/");
    OccursExtended(b, HubId, |a|, ProjectId);
    OccursExtended(b + ProjectId, HubId, |a|, "/folders");
    OccursBehind(base, TopFoldersPath, HubId, |a|);
    OccursAtEnd(b, ProjectId);
    OccursExtended(b + ProjectId, ProjectId, |b|, "/folders");
    OccursBehind(base, TopFoldersPath, ProjectId, |b|);
  }

  lemma FolderContentsMentions(base: string)
    ensures Mentions(base + FolderContentsPath, ProjectId) && Mentions(base + FolderContentsPath, FolderId)
    ensures Mentions(base + FolderContentsRelPath, ProjectId) && Mentions(base + FolderContentsRelPath, FolderId)
  {
    var a := "/data/v1/projects/";
    var b := a + ProjectId + "/folders/";
    OccursAtEnd(a, ProjectId);
    OccursExtended(a + ProjectId, ProjectId, |a|, "/folders/");
    OccursExtended(b, ProjectId, |a|, FolderId);
    OccursExtended(b + FolderId, ProjectId, |a|, "/contents");
    OccursBehind(base, FolderContentsPath, ProjectId, |a|);
    OccursExtended(b + FolderId, ProjectId, |a|, "/relationships/contents");
    OccursBehind(base, FolderContentsRelPath, ProjectId, |a|);
    OccursAtEnd(b, FolderId);
    OccursExtended(b + FolderId, FolderId, |b|, "/contents");
    OccursBehind(base, FolderContentsPath, FolderId, |b|);
    OccursExtended(b + FolderId, FolderId, |b|, "/relationships/contents");
    OccursBehind(base, FolderContentsRelPath, FolderId, |b|);
  }

  lemma ItemVersionsMentions(base: string)
    ensures Mentions(base + ItemVersionsPath, ProjectId) && Mentions(base + ItemVersionsPath, ItemId)
  {
    var a := "/data/v1/projects/";
    var b := a + ProjectId + "/items/";
    OccursAtEnd(a, ProjectId);
    OccursExtended(a + ProjectId, ProjectId, |a|, "/items/");
    OccursExtended(b, ProjectId, |a|, ItemId);
    OccursExtended(b + ItemId, ProjectId, |a|, "/versions");
    OccursBehind(base, ItemVersionsPath, ProjectId, |a|);
    OccursAtEnd(b, ItemId);
    OccursExtended(b + ItemId, ItemId, |b|, "/versions");
    OccursBehind(base, ItemVersionsPath, ItemId, |b|);
  }

  lemma VersionDetailsMentions(base: string)
    ensures Mentions(base + VersionDetailsPath, ProjectId) && Mentions(base + VersionDetailsPath, VersionId)
  {
    var a := "/data/v1/projects/";
    var b := a + ProjectId + "/versions/";
    OccursAtEnd(a, ProjectId);
    OccursExtended(a + ProjectId, ProjectId, |a|, "/versions/");
    OccursExtended(b, ProjectId, |a|, VersionId);
    OccursBehind(base, VersionDetailsPath, ProjectId, |a|);
    OccursAtEnd(b, VersionId);
    OccursBehind(base, VersionDetailsPath, VersionId, |b|);
  }

  /** The placeholders each template carries, whatever the base URL. */
  lemma TemplatePlaceholders(base: string)
    ensures var e := EndpointsFor(base);
      && Mentions(e.project, HubId)
      && Mentions(e.topFolders, HubId) && Mentions(e.topFolders, ProjectId)
      && Mentions(e.folderContents, ProjectId) && Mentions(e.folderContents, FolderId)
      && Mentions(e.folderContentsRel, ProjectId) && Mentions(e.folderContentsRel, FolderId)
      && Mentions(e.itemVersions, ProjectId) && Mentions(e.itemVersions, ItemId)
      && Mentions(e.versionDetails, ProjectId) && Mentions(e.versionDetails, VersionId)
  {
    ProjectsMentions(base);
    TopFoldersMentions(base);
    FolderContentsMentions(base);
    ItemVersionsMentions(base);
    VersionDetailsMentions(base);
  }

  /** The two folder-contents templates share everything up to the folder
      and differ only by the `/relationships` segment before `/contents`. */
  lemma RelationshipsVariant(base: string)
    ensures var e := EndpointsFor(base);
      var stem := base + "/data/v1/projects/" + ProjectId + "/folders/" + FolderId;
      e.folderContents == stem + "/contents" && e.folderContentsRel == stem + "/relationships/contents"
  {
    var path := "/data/v1/projects/" + ProjectId + "/folders/" + FolderId;
    Associative(base, path, "/contents");
    Associative(base, path, "/relationships/contents");
  }

  const BearerPrefix := "Bearer "

  /** `getAuthHeaders(accessToken)`. */
  function AuthHeaders(accessToken: string): (h: map<string, string>)
    ensures h.Keys == {"Authorization", "Content-Type"}
    ensures h["Content-Type"] == "application/json"
    ensures |h["Authorization"]| >= |BearerPrefix| && h["Authorization"][..|BearerPrefix|] == BearerPrefix
  {
    map["Authorization" := BearerPrefix + accessToken, "Content-Type" := "application/json"]
  }

  /** What an upstream server reads back from an `Authorization` header. */
  function BearerToken(authorization: string): Option<string> {
    if |authorization| >= |BearerPrefix| && authorization[..|BearerPrefix|] == BearerPrefix
    then Some(authorization[|BearerPrefix|..])
    else None
  }

  /** The header carries exactly the token it was built from. */
  lemma BearerRoundTrip(accessToken: string)
    ensures BearerToken(AuthHeaders(accessToken)["Authorization"]) == Some(accessToken)
  {
    var a := AuthHeaders(accessToken)["Authorization"];
    assert a[|BearerPrefix|..] == accessToken;
  }
}
