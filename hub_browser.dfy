/** The browser side of the hub browser: the `apiCall` success check, the
    navigator's icon, label and folder/file choice, the "load once" guard
    of a folder element, the viewer's one-time initialisation, and the
    order in which a version's model URN is looked for. DOM updates are
    reduced to the state they leave behind (a container, its entries, the
    notice it shows). */
module HubBrowser {
  import opened Wrappers
  import opened JsValues
  import ApsRoutes

  const EmptyList := Arr([])
  const DefaultApiError := "API 호출 실패"

  /** Why a step on the browser side threw: the body was not JSON, a member
      of `null` was read (or a method called on a value without it), the
      server reported a failure, or the token route answered not-ok. */
  datatype ClientError = NotJson | TypeError | ApiFailed(message: Json) | TokenUnavailable

  /** What `apiCall` resolves to: `{ data, included }`. */
  datatype Payload = Payload(data: Json, included: Json)

  /** `response.ok`. */
  predicate HttpOk(status: int) {
    200 <= status <= 299
  }

  /** `apiCall(endpoint)` given the HTTP status and the parsed body
      (`None` when the body is not JSON). */
  function ApiCall(status: int, body: Option<Json>): (r: Result<Payload, ClientError>)
    ensures r.Ok? <==> HttpOk(status) && body.Some? && Truthy(Get(body.value, "success"))
    ensures r.Ok? ==> r.value == Payload(Or(Get(body.value, "data"), EmptyList), Or(Get(body.value, "included"), EmptyList))
    ensures r.Ok? ==> Truthy(r.value.data) && Truthy(r.value.included)
    ensures body.None? ==> r == Err(NotJson)
    ensures body.Some? && body.value.Null? ==> r == Err(TypeError)
    ensures r.Err? && body.Some? && !body.value.Null? ==> r.error == ApiFailed(Or(Get(body.value, "error"), Str(DefaultApiError)))
  {
    match body
    case None => Err(NotJson)
    case Some(data) =>
      if data.Null? then Err(TypeError)
      else if !HttpOk(status) || !Truthy(Get(data, "success")) then Err(ApiFailed(Or(Get(data, "error"), Str(DefaultApiError))))
      else Ok(Payload(Or(Get(data, "data"), EmptyList), Or(Get(data, "included"), EmptyList)))
  }

  /** The browser accepts exactly the server's success replies: a success
      reply reaches the caller with `data` and `included` defaulted to
      `[]`, and a failure reply is thrown with the server's message. */
  lemma ClientReadsServerReply(r: ApsRoutes.Reply)
    ensures var (status, body) := ApsRoutes.Wire(r);
      && (r.Success? ==> ApiCall(status, Some(body)) == Ok(Payload(Or(r.data, EmptyList), Or(r.included, EmptyList))))
      && (r.Failure? ==> ApiCall(status, Some(body)) == Err(ApiFailed(Or(Str(r.message), Str(DefaultApiError)))))
  {
    var (status, body) := ApsRoutes.Wire(r);
    if r.Success? {
      assert Get(body, "success") == Bool(true);
      assert Get(body, "data") == r.data && Get(body, "included") == r.included;
    } else {
      assert Get(body, "success") == Bool(false);
      assert Get(body, "error") == Str(r.message);
    }
  }

  /** For the list routes the defaults change nothing: the browser sees the
      very lists the server sent. */
  lemma ListRoundTrip(token: ApsRoutes.TokenResult, url: string, upstream: ApsRoutes.Upstream)
    ensures var x := ApsRoutes.Fetch(token, url, upstream, false);
      x.reply.Success? ==>
        var (status, body) := ApsRoutes.Wire(x.reply);
        ApiCall(status, Some(body)) == Ok(Payload(x.reply.data, x.reply.included))
  {
    var x := ApsRoutes.Fetch(token, url, upstream, false);
    ClientReadsServerReply(x.reply);
  }

  const HubIcon := "\U{1F3E2}"
  const ProjectIcon := "\U{1F4C1}"
  const FolderIcon := "\U{1F4C2}"
  const FileIcon := "\U{1F4C4}"

  /** `getIcon(type)`: the icon table, with the file icon for every other
      type. */
  function Icon(kind: string): (icon: string)
    ensures icon == HubIcon <==> kind == "hub"
    ensures icon == ProjectIcon <==> kind == "project"
    ensures icon == FolderIcon <==> kind == "folder"
    ensures icon == FileIcon <==> kind != "hub" && kind != "project" && kind != "folder"
  {
    var icons := map["hub" := HubIcon, "project" := ProjectIcon, "folder" := FolderIcon, "file" := FileIcon];
    if kind in icons then icons[kind] else FileIcon
  }

  /** `item.attributes?.name || item.attributes?.displayName || item.id`. */
  function Label(item: Json): (shown: Json)
    ensures var name := Get(Get(item, "attributes"), "name");
      var displayName := Get(Get(item, "attributes"), "displayName");
      && (Truthy(name) ==> shown == name)
      && (!Truthy(name) && Truthy(displayName) ==> shown == displayName)
      && (!Truthy(name) && !Truthy(displayName) ==> shown == Get(item, "id"))
  {
    var attributes := Get(item, "attributes");
    var chain := [Get(attributes, "name"), Get(attributes, "displayName"), Get(item, "id")];
    assert chain[0] == Get(attributes, "name") && chain[1] == Get(attributes, "displayName");
    Coalesce(chain)
  }

  const FolderType := Str("folders")
  const Bim360FolderType := Str("folders:autodesk.bim360:Folder")

  /** `itemType === 'folders' || itemType === 'folders:autodesk.bim360:Folder'`. */
  predicate IsFolder(item: Json) {
    Get(item, "type") == FolderType || Get(item, "type") == Bim360FolderType
  }

  /** One entry of a folder listing: what `createNavItem` is given, the
      item and the type it shows it as. */
  datatype NavEntry = NavEntry(kind: string, item: Json)

  /** The entry for one element of the contents. */
  function Describe(item: Json): (e: NavEntry)
    ensures e.item == item
    ensures e.kind == "folder" <==> IsFolder(item)
    ensures e.kind == "file" <==> !IsFolder(item)
  {
    NavEntry(if IsFolder(item) then "folder" else "file", item)
  }

  /** An entry shows the folder icon exactly for a folder and the file icon
      for everything else, under the label of its item. */
  lemma EntryShows(item: Json)
    ensures Icon(Describe(item).kind) == FolderIcon <==> IsFolder(item)
    ensures Icon(Describe(item).kind) == FileIcon <==> !IsFolder(item)
  {
  }

  /** The entries for a listing, or `None` when an element is `null` (the
      source then throws reading its `type`). */
  function DescribeAll(items: seq<Json>): (r: Option<seq<NavEntry>>)
    ensures r.Some? <==> NullFree(items)
    ensures r.Some? ==> |r.value| == |items| && forall i :: 0 <= i < |items| ==> r.value[i] == Describe(items[i])
  {
    if items == [] then Some([])
    else
      var front := items[..|items| - 1];
      var last := items[|items| - 1];
      assert forall i :: 0 <= i < |front| ==> front[i] == items[i];
      match DescribeAll(front)
      case None => None
      case Some(entries) => if last.Null? then None else Some(entries + [Describe(last)])
  }

  /** No element of `items` is `null`. */
  predicate NullFree(items: seq<Json>) {
    forall i :: 0 <= i < |items| ==> !items[i].Null?
  }

  /** What a folder's children container shows besides its entries. */
  datatype Notice = Blank | Loading | EmptyFolder | Broken(error: ClientError)

  /** The `.nav-item-children` container: its `dataset.loaded` flag, the
      entries appended to it and its notice. */
  datatype Children = Children(loaded: bool, entries: seq<NavEntry>, notice: Notice)

  /** `contents.length === 0` for a truthy value. */
  predicate EmptyLength(contents: Json) {
    match contents
    case Arr(items) => items == []
    case Obj(_) => Get(contents, "length") == Num(0)
    case _ => false
  }

  /** The container once the contents request has settled. */
  function Listing(result: Result<Payload, ClientError>): (c: Children)
    ensures result.Err? ==> c == Children(false, [], Broken(result.error))
    ensures result.Ok? ==> c.loaded
    ensures result.Ok? ==>
      var contents := result.value.data;
      && (!Truthy(contents) || EmptyLength(contents) ==> c == Children(true, [], EmptyFolder))
      && (Truthy(contents) && !EmptyLength(contents) && contents.Arr? && NullFree(contents.items) ==>
            c == Children(true, DescribeAll(contents.items).value, Blank))
      && (Truthy(contents) && !EmptyLength(contents) && !(contents.Arr? && NullFree(contents.items)) ==>
            c == Children(true, [], Broken(TypeError)))
    ensures c.entries != [] ==>
      (&& c.notice == Blank && result.Ok? && result.value.data.Arr?
       && DescribeAll(result.value.data.items) == Some(c.entries))
  {
    match result
    case Err(e) => Children(false, [], Broken(e))
    case Ok(payload) =>
      var contents := payload.data;
      if !Truthy(contents) || EmptyLength(contents) then Children(true, [], EmptyFolder)
      else if !contents.Arr? then Children(true, [], Broken(TypeError))
      else match DescribeAll(contents.items)
        case None => Children(true, [], Broken(TypeError))
        case Some(entries) => Children(true, entries, Blank)
  }

  /** A folder's element in the navigator. `pending` is "its contents
      request has not settled"; `requests` counts the contents requests
      made for it. */
  class FolderElement {
    var expanded: bool
    var active: bool
    var children: Option<Children>
    var pending: bool
    ghost var requests: nat

    /** The contents are requested at most once, and exactly when the
        container exists; while the request is pending the container is not
        marked loaded. */
    ghost predicate Valid()
      reads this
    {
      && requests <= 1
      && (requests == 1 <==> children.Some?)
      && (pending ==> children.Some? && !children.value.loaded)
    }

    constructor ()
      ensures Valid() && !expanded && !active && children == None && !pending && requests == 0
    {
      expanded := false;
      active := false;
      children := None;
      pending := false;
      requests := 0;
    }

    /** A click: `loadFolderContents` up to its `await`. The contents are
        requested only when there is no container yet. */
    method Click() returns (fetch: bool)
      requires Valid()
      modifies this
      ensures Valid()
      ensures expanded == !old(expanded) && active
      ensures fetch <==> old(children).None?
      ensures fetch ==> children == Some(Children(false, [], Loading)) && pending && requests == old(requests) + 1
      ensures !fetch ==> children == old(children) && pending == old(pending) && requests == old(requests)
    {
      expanded := !expanded;
      active := true;
      if children.Some? && children.value.loaded {
        return false;
      }
      if children.None? {
        children := Some(Children(false, [], Loading));
        pending := true;
        requests := requests + 1;
        return true;
      }
      return false;
    }

    /** The contents request settles: the container is filled from the
        listing or shows why it is not. */
    method ContentsArrived(result: Result<Payload, ClientError>)
      requires Valid() && pending
      modifies this
      ensures Valid() && !pending
      ensures children == Some(Listing(result))
      ensures expanded == old(expanded) && active == old(active) && requests == old(requests)
    {
      pending := false;
      if result.Err? {
        children := Some(Children(false, [], Broken(result.error)));
        return;
      }
      var contents := result.value.data;
      if !Truthy(contents) || EmptyLength(contents) {
        children := Some(Children(true, [], EmptyFolder));
        return;
      }
      if !contents.Arr? {
        children := Some(Children(true, [], Broken(TypeError)));
        return;
      }
      var items := contents.items;
      var entries: seq<NavEntry> := [];
      var i := 0;
      while i < |items|
        invariant 0 <= i <= |items|
        invariant DescribeAll(items[..i]) == Some(entries)
      {
        if items[i].Null? {
          assert DescribeAll(items).None?;
          children := Some(Children(true, [], Broken(TypeError)));
          return;
        }
        assert items[..i + 1][..i] == items[..i];
        entries := entries + [Describe(items[i])];
        i := i + 1;
      }
      assert items[..i] == items;
      children := Some(Children(true, entries, Blank));
    }
  }

  const DerivativeType := Str("derivatives")
  const Bim360DerivativeType := Str("derivatives:autodesk.bim360:Derivative")

  predicate IsDerivative(item: Json) {
    Get(item, "type") == DerivativeType || Get(item, "type") == Bim360DerivativeType
  }

  /** `items.find(isDerivative)` from position `from`: the index of the
      first derivative, `None` when there is none, or a TypeError when a
      `null` element comes first. */
  function FindDerivative(items: seq<Json>, from: nat): (r: Result<Option<nat>, ClientError>)
    requires from <= |items|
    ensures r.Err? ==> r.error == TypeError
    ensures r.Ok? && r.value.Some? ==> from <= r.value.value < |items|
    decreases |items| - from
  {
    if from == |items| then Ok(None)
    else if items[from].Null? then Err(TypeError)
    else if IsDerivative(items[from]) then Ok(Some(from))
    else FindDerivative(items, from + 1)
  }

  /** What `find` promises: the first derivative, after only non-null
      non-derivatives. */
  lemma {:induction false} FindDerivativeFinds(items: seq<Json>, from: nat)
    requires from <= |items|
    ensures FindDerivative(items, from) == Ok(None) <==> forall j :: from <= j < |items| ==> !items[j].Null? && !IsDerivative(items[j])
    ensures FindDerivative(items, from).Ok? && FindDerivative(items, from).value.Some? ==>
      var k := FindDerivative(items, from).value.value;
      from <= k < |items| && IsDerivative(items[k]) && forall j :: from <= j < k ==> !items[j].Null? && !IsDerivative(items[j])
    ensures FindDerivative(items, from).Err? <==> NullBeforeDerivative(items, from)
    decreases |items| - from
  {
    if from == |items| {
    } else if items[from].Null? {
      assert NullAt(items, from, from);
    } else if IsDerivative(items[from]) {
      assert forall j :: from <= j < |items| ==> !NullAt(items, from, j);
    } else {
      FindDerivativeFinds(items, from + 1);
      if NullBeforeDerivative(items, from) {
        var j :| from <= j < |items| && NullAt(items, from, j);
        assert NullAt(items, from + 1, j);
      }
      if NullBeforeDerivative(items, from + 1) {
        var j :| from + 1 <= j < |items| && NullAt(items, from + 1, j);
        assert NullAt(items, from, j);
      }
    }
  }

  /** A derivative with only non-null non-derivatives before it is the one
      `find` returns. */
  lemma {:induction false} DerivativeFound(items: seq<Json>, from: nat, k: nat)
    requires from <= k < |items| && IsDerivative(items[k])
    requires forall j :: from <= j < k ==> !items[j].Null? && !IsDerivative(items[j])
    ensures FindDerivative(items, from) == Ok(Some(k))
    decreases k - from
  {
    if from < k {
      DerivativeFound(items, from + 1, k);
    }
  }

  /** Element `j` is `null` and no derivative lies between `from` and it. */
  predicate NullAt(items: seq<Json>, from: nat, j: nat)
    requires from <= j < |items|
  {
    items[j].Null? && forall i :: from <= i < j ==> !IsDerivative(items[i])
  }

  /** `find` reaches a `null` element before any derivative. */
  predicate NullBeforeDerivative(items: seq<Json>, from: nat) {
    exists j :: from <= j < |items| && NullAt(items, from, j)
  }

  /** Source 1: `relationships.derivatives.data.id`. */
  function RelationshipUrn(version: Json): Json {
    Get(Get(Get(Get(version, "relationships"), "derivatives"), "data"), "id")
  }

  /** Source 2, on the derivative found: `id || attributes.urn || attributes.id`. */
  function DerivativeUrn(derivative: Json): Json {
    var attributes := Get(derivative, "attributes");
    Coalesce([Get(derivative, "id"), Get(attributes, "urn"), Get(attributes, "id")])
  }

  /** Source 3: `attributes.derivatives?.urn || attributes.urn || attributes.storageUrn`. */
  function AttributeUrn(version: Json): Json {
    var attributes := Get(version, "attributes");
    Coalesce([Get(Get(attributes, "derivatives"), "urn"), Get(attributes, "urn"), Get(attributes, "storageUrn")])
  }

  /** The URN `loadVersionInViewer` settles on, from the version's data and
      the `included` list of the details reply. */
  function Urn(version: Json, included: Json): Result<Json, ClientError> {
    if version.Null? then Err(TypeError)
    else if Truthy(RelationshipUrn(version)) then Ok(RelationshipUrn(version))
    else
      var list := Or(included, EmptyList);
      if !list.Arr? then Err(TypeError)
      else match FindDerivative(list.items, 0)
        case Err(e) => Err(e)
        case Ok(found) =>
          var urn := if found.Some? then DerivativeUrn(list.items[found.value]) else Null;
          if !Truthy(urn) && Truthy(Get(version, "attributes")) then Ok(AttributeUrn(version)) else Ok(urn)
  }

  /** The three sources in order: a source is used only when every earlier
      one gives nothing. */
  lemma UrnPrecedence(version: Json, included: Json)
    ensures version.Null? ==> Urn(version, included) == Err(TypeError)
    ensures !version.Null? && Truthy(RelationshipUrn(version)) ==> Urn(version, included) == Ok(RelationshipUrn(version))
    ensures !Truthy(included) ==> Urn(version, included) == Urn(version, EmptyList)
    ensures !version.Null? && !Truthy(RelationshipUrn(version)) && !Or(included, EmptyList).Arr? ==>
      Urn(version, included) == Err(TypeError)
    ensures !version.Null? && !Truthy(RelationshipUrn(version)) && included.Arr? ==>
      var items := included.items;
      var attributes := Get(version, "attributes");
      match FindDerivative(items, 0)
      case Err(_) => Urn(version, included) == Err(TypeError)
      case Ok(None) => Urn(version, included) == Ok(if Truthy(attributes) then AttributeUrn(version) else Null)
      case Ok(Some(k)) =>
        Urn(version, included) == Ok(
          if Truthy(DerivativeUrn(items[k])) then DerivativeUrn(items[k])
          else if Truthy(attributes) then AttributeUrn(version)
          else DerivativeUrn(items[k]))
  {
  }

  /** No URN at all means every source came up empty. */
  lemma NoUrnMeansNoSource(version: Json, included: seq<Json>)
    requires !version.Null? && Urn(version, Arr(included)).Ok? && !Truthy(Urn(version, Arr(included)).value)
    ensures !Truthy(RelationshipUrn(version))
    ensures FindDerivative(included, 0).Ok? && FindDerivative(included, 0).value.Some? ==>
      !Truthy(DerivativeUrn(included[FindDerivative(included, 0).value.value]))
    ensures Truthy(Get(version, "attributes")) ==> !Truthy(AttributeUrn(version))
  {
  }

  /** URN resolution as the source writes it: `let urn` reassigned across
      the three sources, with `find` as a loop. */
  method ResolveUrn(version: Json, included: Json) returns (r: Result<Json, ClientError>)
    ensures r == Urn(version, included)
  {
    if version.Null? {
      return Err(TypeError);
    }
    var urn := Null;
    if Truthy(RelationshipUrn(version)) {
      urn := RelationshipUrn(version);
    } else {
      var list := Or(included, EmptyList);
      if !list.Arr? {
        return Err(TypeError);
      }
      var items := list.items;
      var i := 0;
      var found: Option<nat> := None;
      while i < |items| && found.None?
        invariant 0 <= i <= |items|
        invariant found.None? ==> FindDerivative(items, 0) == FindDerivative(items, i)
        invariant found.Some? ==> FindDerivative(items, 0) == Ok(found) && found.value < |items|
        decreases |items| - i, if found.None? then 1 else 0
      {
        if items[i].Null? {
          return Err(TypeError);
        }
        if IsDerivative(items[i]) {
          found := Some(i);
        } else {
          i := i + 1;
        }
      }
      if found.Some? {
        urn := DerivativeUrn(items[found.value]);
      }
    }
    if !Truthy(urn) && Truthy(Get(version, "attributes")) {
      urn := AttributeUrn(version);
    }
    return Ok(urn);
  }

  /** What happens after the URN is known. A non-string URN is rendered
      by JavaScript's string conversion, which is not modelled. */
  datatype ViewerAction = NoUrn | LoadDocument(documentId: string) | LoadCoerced(urn: Json) | Alert(error: ClientError)

  const UrnScheme := "urn:"

  /** `if (!urn) return; Document.load(`urn:${urn}`)`. */
  function DocumentFor(urn: Json): (a: ViewerAction)
    ensures a.NoUrn? <==> !Truthy(urn)
    ensures a.LoadDocument? <==> urn.Str? && urn.s != ""
    ensures a.LoadDocument? ==> |a.documentId| > |UrnScheme| && a.documentId[..|UrnScheme|] == UrnScheme && a.documentId[|UrnScheme|..] == urn.s
    ensures a.LoadCoerced? <==> Truthy(urn) && !urn.Str?
    ensures a.LoadCoerced? ==> a.urn == urn
    ensures !a.Alert?
  {
    if !Truthy(urn) then NoUrn
    else if urn.Str? then LoadDocument(UrnScheme + urn.s)
    else LoadCoerced(urn)
  }

  /** The viewer and its initialisation flag. `created` counts the viewers
      constructed. */
  class ViewerHost {
    var viewer: Option<nat>
    var accessToken: Json
    var isViewerInitialized: bool
    ghost var created: nat

    /** A viewer exists exactly once the flag is set, and it is the only
        one ever constructed. */
    ghost predicate Valid()
      reads this
    {
      && (isViewerInitialized <==> viewer.Some?)
      && created == (if isViewerInitialized then 1 else 0)
      && (viewer.Some? ==> viewer.value == 0)
    }

    constructor ()
      ensures Valid() && !isViewerInitialized && viewer == None && accessToken == Null
    {
      viewer := None;
      accessToken := Null;
      isViewerInitialized := false;
      created := 0;
    }

    /** `initViewer()` given the token route's status and parsed body:
        an initialised viewer is returned as it is; otherwise a viewer is
        made once the token could be fetched. */
    method InitViewer(tokenStatus: int, tokenBody: Option<Json>) returns (r: Result<nat, ClientError>)
      requires Valid()
      modifies this
      ensures Valid()
      ensures old(isViewerInitialized) ==> r == Ok(old(viewer).value) && viewer == old(viewer) && accessToken == old(accessToken)
      ensures !old(isViewerInitialized) && !HttpOk(tokenStatus) ==> r == Err(TokenUnavailable) && !isViewerInitialized
      ensures !old(isViewerInitialized) && HttpOk(tokenStatus) && tokenBody.None? ==> r == Err(NotJson) && !isViewerInitialized
      ensures !old(isViewerInitialized) && HttpOk(tokenStatus) && tokenBody.Some? && tokenBody.value.Null? ==> r == Err(TypeError) && !isViewerInitialized
      ensures !old(isViewerInitialized) && HttpOk(tokenStatus) && tokenBody.Some? && !tokenBody.value.Null? ==> r.Ok?
      ensures r.Ok? <==> isViewerInitialized
      ensures !old(isViewerInitialized) && r.Ok? ==> accessToken == Get(tokenBody.value, "access_token") && viewer == Some(r.value)
      ensures r.Err? ==> accessToken == old(accessToken) && viewer == old(viewer)
    {
      if isViewerInitialized {
        return Ok(viewer.value);
      }
      if !HttpOk(tokenStatus) {
        return Err(TokenUnavailable);
      }
      if tokenBody.None? {
        return Err(NotJson);
      }
      if tokenBody.value.Null? {
        return Err(TypeError);
      }
      accessToken := Get(tokenBody.value, "access_token");
      viewer := Some(0);
      created := created + 1;
      isViewerInitialized := true;
      return Ok(viewer.value);
    }

    /** `loadVersionInViewer`: initialise the viewer when needed, then
        resolve the URN from the details reply and decide what to load.
        Every thrown error ends in an alert. */
    method LoadVersionInViewer(tokenStatus: int, tokenBody: Option<Json>, details: Result<Payload, ClientError>)
      returns (action: ViewerAction)
      requires Valid()
      modifies this
      ensures Valid()
      ensures old(isViewerInitialized) ==> viewer == old(viewer) && accessToken == old(accessToken)
      ensures !old(isViewerInitialized) ==>
        (isViewerInitialized <==> HttpOk(tokenStatus) && tokenBody.Some? && !tokenBody.value.Null?)
      ensures !old(isViewerInitialized) && isViewerInitialized ==> accessToken == Get(tokenBody.value, "access_token")
      ensures !isViewerInitialized ==> (accessToken == old(accessToken)
        && action == Alert(if !HttpOk(tokenStatus) then TokenUnavailable else if tokenBody.None? then NotJson else TypeError))
      ensures isViewerInitialized && details.Err? ==> action == Alert(details.error)
      ensures isViewerInitialized && details.Ok? ==>
        action == match Urn(details.value.data, details.value.included)
          case Err(e) => Alert(e)
          case Ok(urn) => DocumentFor(urn)
    {
      if !isViewerInitialized {
        var init := InitViewer(tokenStatus, tokenBody);
        if init.Err? {
          return Alert(init.error);
        }
      }
      if details.Err? {
        return Alert(details.error);
      }
      var urn := ResolveUrn(details.value.data, details.value.included);
      if urn.Err? {
        return Alert(urn.error);
      }
      return DocumentFor(urn.value);
    }
  }
}
