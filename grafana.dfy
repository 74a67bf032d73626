/** The Grafana HTTP client: folder bootstrap, dashboard and datasource
    creation, and the home-page sequence. Every HTTP response is an input, and
    the client keeps a log of the requests it has issued, so each operation is
    specified by what it sends, in which order, and what it returns. */
module Grafana {
  import opened Http
  import opened GoText

  datatype Folder = Folder(id: int, uid: string, title: string)
  datatype GrafanaDashboard = GrafanaDashboard(id: int, title: string, uri: string)
  datatype DashboardSpec = DashboardSpec(dashboard: GrafanaDashboard)

  datatype Verb = Get | Post | Put

  /** The API paths the client uses, relative to the base URL. */
  datatype Endpoint =
    | FoldersApi                          // /api/folders
    | DashboardsImport                    // /api/dashboards/import
    | Datasources                         // /api/datasources
    | DashboardBySlug(slug: string)       // /api/dashboards/db/<slug>
    | StarredDashboard(dashboardId: int)  // /api/user/stars/dashboard/<id>
    | OrgPreferences                      // /api/org/preferences

  /** Request bodies. JsonWithFolderId(doc, id) is doc with its top-level
      "folderId" set to id. */
  datatype Body =
    | NoBody
    | Json(document: string)
    | JsonWithFolderId(document: string, folderId: int)
    | FolderTitle(title: string)          // {"title": <title>}
    | HomeDashboard(dashboardId: int)     // {"homeDashboardId": <id>}

  datatype Request = Request(verb: Verb, endpoint: Endpoint, body: Body)

  /** The id getDashboardId uses for "no dashboard yet". */
  const NoDashboardId: int := -1
  /** How many times getDashboardId asks for a dashboard. */
  const MaxIdAttempts: nat := 10

  function DashboardImport(body: Body): Request { Request(Post, DashboardsImport, body) }
  function DatasourceCreate(body: Body): Request { Request(Post, Datasources, body) }
  function FolderCreate(title: string): Request { Request(Post, FoldersApi, FolderTitle(title)) }
  const FolderListing: Request := Request(Get, FoldersApi, NoBody)
  function DashboardLookup(slug: string): Request { Request(Get, DashboardBySlug(slug), NoBody) }
  function Star(dashboardId: int): Request { Request(Post, StarredDashboard(dashboardId), NoBody) }
  function HomePreference(dashboardId: int): Request { Request(Put, OrgPreferences, HomeDashboard(dashboardId)) }

  /** GrafanaDashboard.Slug: the uri with one leading "db/" removed. */
  function Slug(d: GrafanaDashboard): (slug: string)
    ensures "db/" <= d.uri ==> "db/" + slug == d.uri
    ensures !("db/" <= d.uri) ==> slug == d.uri
  {
    TrimPrefix(d.uri, "db/")
  }

  /** Only one "db/" is removed: a uri "db/" + s always has slug s, even when
      s itself starts with "db/". */
  lemma SlugStripsOnePrefix(id: int, title: string, s: string)
    ensures Slug(GrafanaDashboard(id, title, "db/" + s)) == s
  {
    var d := GrafanaDashboard(id, title, "db/" + s);
    assert "db/" <= d.uri;
  }

  // ---------------------------------------------------------------------------
  // Folder table

  /** The table SetFolders builds from a listing: folders are entered in
      order, so for a repeated title the later folder's id is kept. */
  function FolderTable(listing: seq<Folder>): map<string, int>
  {
    if listing == [] then map[]
    else
      var last := listing[|listing| - 1];
      FolderTable(listing[..|listing| - 1])[last.title := last.id]
  }

  /** The table holds exactly the titles of the listing. */
  lemma {:induction false} FolderTableTitles(listing: seq<Folder>)
    ensures FolderTable(listing).Keys == set f | f in listing :: f.title
  {
    if listing != [] {
      var front := listing[..|listing| - 1];
      FolderTableTitles(front);
      assert listing == front + [listing[|listing| - 1]];
    }
  }

  /** The id kept for a title is that of the last listed folder with the title. */
  lemma {:induction false} FolderTableLastWins(listing: seq<Folder>, j: nat)
    requires j < |listing|
    requires forall k | j < k < |listing| :: listing[k].title != listing[j].title
    ensures listing[j].title in FolderTable(listing)
    ensures FolderTable(listing)[listing[j].title] == listing[j].id
  {
    if j < |listing| - 1 {
      FolderTableLastWins(listing[..|listing| - 1], j);
    }
  }

  /** The folder posts CreateFolder issues for the given titles, in order. */
  function FolderPosts(titles: seq<string>): (posts: seq<Request>)
    ensures |posts| == |titles|
    ensures forall i | 0 <= i < |titles| :: posts[i] == FolderCreate(titles[i])
  {
    if titles == [] then []
    else FolderPosts(titles[..|titles| - 1]) + [FolderCreate(titles[|titles| - 1])]
  }

  /** The index of the first response that doRequest rejects, or the number of
      responses if it rejects none. */
  function FirstFailure(responses: seq<Response<()>>): (k: nat)
    ensures k <= |responses|
    ensures forall j | 0 <= j < k :: DoRequest(responses[j]).Ok?
    ensures k < |responses| ==> DoRequest(responses[k]).Err?
  {
    if responses == [] then 0
    else if DoRequest(responses[0]).Err? then 0
    else 1 + FirstFailure(responses[1..])
  }

  /** FirstFailure is the only index with its two properties: every response
      before it succeeds and the one at it (if any) fails. */
  lemma FirstFailureAt(responses: seq<Response<()>>, i: nat)
    requires i <= |responses|
    requires forall j | 0 <= j < i :: DoRequest(responses[j]).Ok?
    requires i < |responses| ==> DoRequest(responses[i]).Err?
    ensures FirstFailure(responses) == i
  {
  }

  // ---------------------------------------------------------------------------
  // Dashboard id lookup

  datatype Lookup = Lookup(id: int, err: Outcome)

  /** One attempt of getDashboardId: -1 with an error unless the response has
      status 200 and a decodable body, in which case the decoded id and no
      error. */
  function Attempt(response: Response<Decoding<DashboardSpec>>): (r: Lookup)
    ensures r.err.Ok? <==> response.Reply? && response.status == StatusOK && response.body.Parsed?
    ensures r.err.Err? ==> r.id == NoDashboardId
    ensures r.err.Ok? ==> r.id == response.body.value.dashboard.id
  {
    match response
    case TransportFailure(reason) => Lookup(NoDashboardId, Err(Transport(reason)))
    case Reply(status, body) =>
      if status != StatusOK then Lookup(NoDashboardId, Err(WrongStatus(status)))
      else match body
        case Malformed(reason) => Lookup(NoDashboardId, Err(Undecodable(reason)))
        case Parsed(spec) => Lookup(spec.dashboard.id, Ok)
  }

  /** The index of the first response that yields an id other than -1, or the
      number of responses if none does. */
  function FirstResolved(responses: seq<Response<Decoding<DashboardSpec>>>): (k: nat)
    ensures k <= |responses|
    ensures forall j | 0 <= j < k :: Attempt(responses[j]).id == NoDashboardId
    ensures k < |responses| ==> Attempt(responses[k]).id != NoDashboardId
  {
    if responses == [] then 0
    else if Attempt(responses[0]).id != NoDashboardId then 0
    else 1 + FirstResolved(responses[1..])
  }

  /** How many attempts getDashboardId makes: up to and including the first
      one that yields an id, and never more than the responses offered. */
  function AttemptCount(responses: seq<Response<Decoding<DashboardSpec>>>): (n: nat)
    requires |responses| >= 1
    ensures 1 <= n <= |responses|
    ensures forall j | 0 <= j < n - 1 :: Attempt(responses[j]).id == NoDashboardId
    ensures n < |responses| ==> Attempt(responses[n - 1]).id != NoDashboardId
  {
    var k := FirstResolved(responses);
    if k < |responses| then k + 1 else |responses|
  }

  /** getDashboardId: asks up to ten times, stops right after the first
      attempt whose id is not -1, and returns that last attempt's id and
      error. `responses[i]` is the server's answer to attempt i. The six-second
      pause before each attempt is not modelled. */
  method GetDashboardId(responses: seq<Response<Decoding<DashboardSpec>>>)
    returns (id: int, err: Outcome, attempts: nat)
    requires |responses| == MaxIdAttempts
    ensures 1 <= attempts <= MaxIdAttempts
    ensures forall j | 0 <= j < attempts - 1 :: Attempt(responses[j]).id == NoDashboardId
    ensures attempts < MaxIdAttempts ==> id != NoDashboardId
    ensures Lookup(id, err) == Attempt(responses[attempts - 1])
    ensures attempts == AttemptCount(responses)
  {
    id, err := 0, Ok;
    var i := 0;
    while i < MaxIdAttempts
      invariant 0 <= i <= MaxIdAttempts
      invariant forall j | 0 <= j < i :: Attempt(responses[j]).id == NoDashboardId
      invariant i > 0 ==> Lookup(id, err) == Attempt(responses[i - 1])
    {
      var r := Attempt(responses[i]);
      id, err := r.id, r.err;
      i := i + 1;
      if id != NoDashboardId {
        break;
      }
    }
    attempts := i;
  }

  /** When no attempt yields an id, all ten are made, and the tenth attempt's
      result is what UpdateHomePage acts on: either an error, which it returns
      without starring anything, or a 200 reply whose dashboard id is itself
      -1, which it goes on to star. */
  lemma NeverResolvedUsesAllAttempts(responses: seq<Response<Decoding<DashboardSpec>>>)
    requires |responses| == MaxIdAttempts
    requires forall j | 0 <= j < |responses| :: Attempt(responses[j]).id == NoDashboardId
    ensures AttemptCount(responses) == MaxIdAttempts
    ensures var last := responses[MaxIdAttempts - 1];
            Attempt(last).err.Err? ||
            (last.Reply? && last.status == StatusOK && last.body.Parsed? &&
             last.body.value.dashboard.id == NoDashboardId)
  {
    assert Attempt(responses[MaxIdAttempts - 1]).id == NoDashboardId;
  }

  /** The one way an attempt yields -1 without an error: the server answers
      200 with a dashboard whose id is itself -1. */
  lemma MinusOneWithoutError(response: Response<Decoding<DashboardSpec>>)
    ensures Attempt(response) == Lookup(NoDashboardId, Ok) <==>
              response.Reply? && response.status == StatusOK && response.body.Parsed? &&
              response.body.value.dashboard.id == NoDashboardId
  {
  }

  function Repeat(r: Request, n: nat): (rs: seq<Request>)
    ensures |rs| == n && forall i | 0 <= i < n :: rs[i] == r
  {
    if n == 0 then [] else Repeat(r, n - 1) + [r]
  }

  // ---------------------------------------------------------------------------
  // The client

  class APIClient {
    /** The comma-separated folder names to create at bootstrap. */
    const folderNames: string
    /** Title -> id of the Grafana folders, as last fetched (the package-level
        `Folders` map; nil, i.e. empty, until SetFolders succeeds). */
    var folders: map<string, int>
    /** Every request this client has issued, oldest first. */
    var requests: seq<Request>

    constructor (folderNames: string)
      ensures this.folderNames == folderNames
      ensures folders == map[] && requests == []
    {
      this.folderNames := folderNames;
      folders := map[];
      requests := [];
    }

    /** The folder names, split on commas as strings.Split does. */
    function FolderNameList(): (names: seq<string>)
      ensures |names| >= 1
      ensures forall i | 0 <= i < |names| :: ',' !in names[i]
      ensures Join(names, ',') == folderNames
    {
      JoinSplit(folderNames, ',');
      Split(folderNames, ',')
    }

    /** doRestApis: issues one request and applies the status rule. */
    method DoRestApi(request: Request, response: Response<()>) returns (outcome: Outcome)
      modifies this`requests
      ensures requests == old(requests) + [request]
      ensures outcome == DoRequest(response)
    {
      requests := requests + [request];
      outcome := DoRequest(response);
    }

    /** Posts a dashboard document to /api/dashboards/import. */
    method CreateDashboard(body: Body, response: Response<()>) returns (outcome: Outcome)
      modifies this`requests
      ensures requests == old(requests) + [DashboardImport(body)]
      ensures outcome == DoRequest(response)
    {
      outcome := DoRestApi(DashboardImport(body), response);
    }

    /** Posts a datasource document to /api/datasources. */
    method CreateDatasource(body: Body, response: Response<()>) returns (outcome: Outcome)
      modifies this`requests
      ensures requests == old(requests) + [DatasourceCreate(body)]
      ensures outcome == DoRequest(response)
    {
      outcome := DoRestApi(DatasourceCreate(body), response);
    }

    /** Posts one folder per comma-separated name, in order, and stops at the
        first post that fails, returning its error; later names are not
        posted. `responses[i]` answers the post of the i-th name. */
    method CreateFolder(responses: seq<Response<()>>) returns (err: Outcome)
      requires |responses| == |FolderNameList()|
      modifies this`requests
      ensures var names := FolderNameList();
              var k := FirstFailure(responses);
              && requests == old(requests) + FolderPosts(names[..if k < |names| then k + 1 else |names|])
              && err == (if k < |names| then DoRequest(responses[k]) else Ok)
    {
      var names := Split(folderNames, ',');
      var i := 0;
      while i < |names|
        invariant 0 <= i <= |names|
        invariant forall j | 0 <= j < i :: DoRequest(responses[j]).Ok?
        invariant requests == old(requests) + FolderPosts(names[..i])
      {
        var outcome := DoRestApi(FolderCreate(names[i]), responses[i]);
        assert names[..i + 1][..i] == names[..i];
        assert FolderPosts(names[..i + 1]) == FolderPosts(names[..i]) + [FolderCreate(names[i])];
        if outcome.Err? {
          FirstFailureAt(responses, i);
          assert requests == old(requests) + FolderPosts(names[..i + 1]);
          err := outcome;
          return;
        }
        i := i + 1;
      }
      assert names[..i] == names;
      FirstFailureAt(responses, i);
      assert requests == old(requests) + FolderPosts(names);
      err := Ok;
    }

    /** Creates the configured folders (ignoring whether that worked), then
        fetches the folder listing. A listing that does not arrive or does
        not decode is an error and leaves the table as it was; otherwise the
        table is replaced by one built from the listing alone. The listing's
        status code is not checked. */
    method SetFolders(folderResponses: seq<Response<()>>, listing: Response<Decoding<seq<Folder>>>)
      returns (err: Outcome)
      requires |folderResponses| == |FolderNameList()|
      modifies this`requests, this`folders
      ensures var names := FolderNameList();
              var k := FirstFailure(folderResponses);
              requests == old(requests) + FolderPosts(names[..if k < |names| then k + 1 else |names|]) + [FolderListing]
      ensures listing.TransportFailure? ==> err == Err(Transport(listing.reason)) && folders == old(folders)
      ensures listing.Reply? && listing.body.Malformed? ==> err == Err(FolderListUndecodable) && folders == old(folders)
      ensures listing.Reply? && listing.body.Parsed? ==> err == Ok && folders == FolderTable(listing.body.value)
    {
      var createErr := CreateFolder(folderResponses);
      requests := requests + [FolderListing];
      match listing
      case TransportFailure(reason) =>
        err := Err(Transport(reason));
      case Reply(_, Malformed(_)) =>
        err := Err(FolderListUndecodable);
      case Reply(_, Parsed(list)) =>
        folders := map[];
        var i := 0;
        while i < |list|
          invariant 0 <= i <= |list|
          invariant folders == FolderTable(list[..i])
          modifies this`folders
        {
          folders := folders[list[i].title := list[i].id];
          i := i + 1;
          assert list[..i][..i - 1] == list[..i - 1];
        }
        assert list[..i] == list;
        err := Ok;
    }

    /** starDashboard: POST /api/user/stars/dashboard/<id>. */
    method StarDashboard(dashboardId: int, response: Response<()>) returns (outcome: Outcome)
      modifies this`requests
      ensures requests == old(requests) + [Star(dashboardId)]
      ensures outcome == DoRequest(response)
    {
      outcome := DoRestApi(Star(dashboardId), response);
    }

    /** updateHomeDashboard: PUT {"homeDashboardId": id} to /api/org/preferences. */
    method UpdateHomeDashboard(dashboardId: int, response: Response<()>) returns (outcome: Outcome)
      modifies this`requests
      ensures requests == old(requests) + [HomePreference(dashboardId)]
      ensures outcome == DoRequest(response)
    {
      outcome := DoRestApi(HomePreference(dashboardId), response);
    }

    /** Makes dashboard `hp` the home page in three steps: resolve its id, star
        it, set the organisation preference to it. The first failing step's
        error is returned, no later step is taken and nothing earlier is
        undone. */
    method UpdateHomePage(hp: string, lookups: seq<Response<Decoding<DashboardSpec>>>,
                          starResponse: Response<()>, prefResponse: Response<()>)
      returns (err: Outcome)
      requires |lookups| == MaxIdAttempts
      modifies this`requests
      ensures var n := AttemptCount(lookups);
              var found := Attempt(lookups[n - 1]);
              var gets := old(requests) + Repeat(DashboardLookup(hp), n);
              if found.err.Err? then
                requests == gets && err == found.err
              else if DoRequest(starResponse).Err? then
                requests == gets + [Star(found.id)] && err == DoRequest(starResponse)
              else
                requests == gets + [Star(found.id), HomePreference(found.id)] && err == DoRequest(prefResponse)
    {
      var dbid, lookupErr, attempts := GetDashboardId(lookups);
      requests := requests + Repeat(DashboardLookup(hp), attempts);
      if lookupErr.Err? {
        return lookupErr;
      }
      err := StarDashboard(dbid, starResponse);
      if err.Err? {
        return;
      }
      err := UpdateHomeDashboard(dbid, prefResponse);
    }
  }
}
