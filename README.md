# grafana-operator reconciliation core, in Dafny

This project models the reconciliation rules of grafana-operator. The operator
watches Kubernetes ConfigMaps and keeps a Grafana instance in step with them.

- **The ConfigMap handler** (`ConfigMapController.CreateDashboards`). It reads
  the `grafana.net/dashboards`, `grafana.net/datasource` and `grafana.net/folder`
  annotations and resolves the folder name to an id through the folder table.
  It then walks the ConfigMap's entries. An entry is skipped when its content's
  SHA-1 is already in the controller's `hashes` set. Otherwise the hash is
  recorded and exactly one create call is issued: the datasource API gets the
  payload unmodified, or the dashboard import API gets it with `folderId` set.
- **The Grafana client** (`APIClient`). It has the folder bootstrap
  (`CreateFolder`, `SetFolders`), the create calls, the bounded retry of
  `getDashboardId`, the three-step `UpdateHomePage` and the "success iff status
  200" rule of `doRequest`.

How the model is built:

- HTTP responses are inputs. Each operation takes the server's answer to each
  request it may send.
- The client keeps `requests`, a log of every request it has issued. Each
  method states exactly what it appends to that log and what it returns.
- Endpoints and bodies are datatypes. `JsonWithFolderId(doc, id)` stands for
  `sjson.Set(doc, "folderId", id)`. `FolderTitle` and `HomeDashboard` stand for
  the two JSON bodies the client marshals.
- The package-level `Folders` map is the `folders` field of `APIClient`. The
  controller reads it through its client `g`.
- `computeSha1` is a function-valued constant of the controller. It is
  uninterpreted, so every property holds for any hash function.
- Go's `range` over `ConfigMap.Data` has no fixed order. `order` stands for it:
  any duplicate-free listing of exactly the data keys (`IsRangeOrder`).
- `CreateDashboards` returns a per-entry log of `AlreadyPosted`, `Marked` and
  `Posted` events. They stand for the skip line, the recording of the hash
  (which has no log line of its own) and the create call with its
  "Created"/"Failed" line. The log is proved equal
  to the specification function `Reconcile`, built on `Walk`. The handler's
  properties are lemmas about `Walk` and `Reconcile`.

Modules: `Http` (http.dfy), `GoText` (gotext.dfy: `strings.Split`,
`strings.TrimPrefix`, `strconv.ParseBool`), `Grafana` (grafana.dfy) and
`Controller` (controller.dfy).

Behaviours of the code that are easy to miss:

- The folder listing's status code is never checked. A non-200 reply whose
  body decodes as a folder list still replaces the table.
- `CreateFolder` stops at the first failed post, so the remaining folder names
  are never created. `SetFolders` still goes on to fetch the listing.
- An attempt of `getDashboardId` that decodes a dashboard whose id is -1
  returns (-1, no error). If that is the last attempt, `UpdateHomePage` goes on
  to star dashboard -1 (`MinusOneWithoutError`, `UpdateHomePage`).
- `strings.Split("", ",")` is `[""]`, so an empty folder-name list posts one
  folder titled "".

## Model

| member | source | states |
|---|---|---|
| `GoText.ParseBool` | pkg/controller/controller.go:84-85 | exactly "1","t","T","TRUE","true","True" parse as true and the six false spellings as false; every other string, "" included, is a syntax error |
| `Controller.Interpret` | pkg/controller/controller.go:80-85 | each flag is on iff its annotation is present and one of ParseBool's true spellings; an absent or malformed value is off, never an error; the folder name is the annotation's value, or empty when it is absent |
| `Controller.ResolveFolderId` | pkg/controller/controller.go:86-95 | the id is `Folders[fd]` exactly when the dashboards flag is on, `fd` is non-empty and a key of the table; in every other case it is 0; so it is always 0 or an id from the table |
| `Controller.ConfigMapController.constructor` | pkg/controller/controller.go:49 | a new controller starts with an empty hash set |
| `Controller.ConfigMapController.CreateDashboards` | pkg/controller/controller.go:78-124 | the returned log is `Reconcile` of the old hashes, the ConfigMap and the folder table; `hashes` becomes the old set plus the marked hashes, which is the old set plus every entry's content hash when a flag is on and the old set otherwise; the client's request log grows by exactly the posted requests; the folder table is untouched |
| `Controller.ConfigMapController.HandleEntry` | pkg/controller/controller.go:101-114 | one entry: a known content hash sends nothing and adds a skip event; a new one is recorded, then exactly one create goes to the route's API; the set gains the entry's hash either way |
| `Controller.ConfigMapController.PostEntries` | pkg/controller/controller.go:99-120 | the loop's log is `Walk` from the old hashes; the set grows by exactly the marked hashes and the request log by exactly the posted requests |
| `Controller.LoopStep` | pkg/controller/controller.go:99-120 | one turn of the entry loop keeps its invariants: the log so far followed by the rest of the walk is the whole walk, the hashes are the initial ones plus those marked, and the requests are those posted |
| `Controller.WalkHandlesEveryEntry` | pkg/controller/controller.go:99-120 | every entry is handled (skipped or posted) in visiting order, whatever Grafana answered to earlier creates: a failed create never stops later entries |
| `Controller.WalkIgnoresOutcomes` | pkg/controller/controller.go:107-119 | the requests sent and the hashes marked do not depend on the outcomes of the create calls: a failed create does not un-mark its hash |
| `Controller.WalkMarksBeforePosting` | pkg/controller/controller.go:101-114 | in the log, every post directly follows the marking of its hash (the order of the log; that a failed create stays marked is stated by `WalkIgnoresOutcomes` and `RedeliveryIsNoOp`) |
| `Controller.WalkRecordsContentHashes` | pkg/controller/controller.go:99-106 | every marked or posted hash is the hash of that entry's content |
| `Controller.WalkPostsEachNewContentOnce` | pkg/controller/controller.go:99-106 | no post carries a hash that was already in the set, no two posts carry the same hash, and the posted hashes are exactly the entries' content hashes minus the known ones: each new content is posted once even when several keys hold it |
| `Controller.WalkMarksEveryContent` | pkg/controller/controller.go:101-106 | the known hashes plus the marked ones are the known hashes plus the hashes of all entries' contents |
| `Controller.WalkRoutesPosts` | pkg/controller/controller.go:107-114 | with the datasource route every post is a datasource create with the payload unmodified; otherwise every post is a dashboard import with `folderId` set to the route's folder id |
| `Controller.WalkOfKnownContentSendsNothing` | pkg/controller/controller.go:101-105 | when every entry's hash is already known, nothing is sent and nothing is marked |
| `Controller.UnflaggedConfigMapIsIgnored` | pkg/controller/controller.go:97-123 | a ConfigMap with neither flag set to a true spelling yields no event, so no create call and no change to the hashes |
| `Controller.ReconcileRoutesPosts` | pkg/controller/controller.go:86-114 | with the datasource flag on, even alongside the dashboards flag, every create goes to the datasource API unmodified; otherwise every create is a dashboard import into `ResolveFolderId`'s folder |
| `Controller.RedeliveryIsNoOp` | pkg/controller/controller.go:99-106 | handling a ConfigMap again after its first handling sends nothing, whatever the visiting order, the outcomes or the folder table |
| `Controller.DashboardGoesToNamedFolder` | pkg/controller/controller.go:86-113 | a dashboard ConfigMap annotated with folder "ops", which the table maps to 7, sends exactly one dashboard import with `folderId` 7 |
| `Http.DoRequest` | pkg/grafana/grafana.go:287-296 | a request succeeds iff a reply arrives with status exactly 200; a transport failure is passed on; any other status is an unexpected-status error |
| `GoText.TrimPrefix` | pkg/grafana/grafana.go:69 | when the prefix is present, prefix + result is the input; otherwise the input is unchanged |
| `Grafana.Slug` | pkg/grafana/grafana.go:66-70 | "db/" + slug is the uri when the uri starts with "db/"; otherwise the slug is the uri |
| `Grafana.SlugStripsOnePrefix` | pkg/grafana/grafana.go:66-70 | only one "db/" is removed: the slug of "db/" + s is s, even when s starts with "db/" |
| `GoText.Split` | pkg/grafana/grafana.go:135 | splitting on ',' gives at least one piece and no piece contains ',' |
| `GoText.JoinSplit` | pkg/grafana/grafana.go:135 | joining the pieces with ',' gives back the folder-name string |
| `GoText.SplitJoin` | pkg/grafana/grafana.go:135 | a non-empty list of comma-free names survives join then split |
| `Grafana.APIClient.FolderNameList` | pkg/grafana/grafana.go:135 | the folder names are at least one piece, none contains a comma, and they join back to the configured string; with `SplitJoin` this fixes them as the result of strings.Split |
| `Grafana.FolderPosts` | pkg/grafana/grafana.go:137-146 | one folder post per name, in the names' order, each with body `{"title": name}` |
| `Grafana.FirstFailure` | pkg/grafana/grafana.go:137-146 | every response before the returned index succeeds under the status rule, and the one at the index (if any) fails |
| `Grafana.FirstFailureAt` | pkg/grafana/grafana.go:137-146 | the first failing index is unique: an index before which all posts succeed and at which one fails (or the end) is `FirstFailure` |
| `Grafana.APIClient.CreateFolder` | pkg/grafana/grafana.go:132-148 | posts the names in order up to and including the first failing post and no further, then returns that post's error (no error if none failed) |
| `Grafana.FolderTableTitles` | pkg/grafana/grafana.go:123-126 | the rebuilt table's titles are exactly the listed titles: no earlier entry survives |
| `Grafana.FolderTableLastWins` | pkg/grafana/grafana.go:123-126 | for a repeated title the table holds the id of the last listed folder with that title |
| `Grafana.APIClient.SetFolders` | pkg/grafana/grafana.go:105-129 | creates the folders, then always issues the listing GET, even when a folder post failed; a listing that does not arrive or does not decode returns that error and leaves the table unchanged; otherwise the table becomes exactly the listing's table and no error is returned |
| `Grafana.Attempt` | pkg/grafana/grafana.go:193-213 | one id lookup has no error iff the reply has status 200 and a decodable body, and then yields the decoded id; every failed lookup yields -1 |
| `Grafana.FirstResolved` | pkg/grafana/grafana.go:191-218 | every attempt before the returned index yields -1, and the attempt at the index (if any) yields another id |
| `Grafana.AttemptCount` | pkg/grafana/grafana.go:191-218 | between 1 and the number of responses; all attempts but the last yield -1; fewer than all only when the last one made yields an id |
| `Grafana.GetDashboardId` | pkg/grafana/grafana.go:187-220 | makes at most 10 attempts and stops right after the first whose id is not -1; returns the last attempt's id and error, so -1 and the last error when no attempt found an id |
| `Grafana.NeverResolvedUsesAllAttempts` | pkg/grafana/grafana.go:191-219 | when no attempt yields an id, all 10 are made, and the tenth either failed (so `UpdateHomePage` returns its error and stars nothing) or was a 200 reply with dashboard id -1 (which `UpdateHomePage` then stars) |
| `Grafana.MinusOneWithoutError` | pkg/grafana/grafana.go:193-216 | an attempt yields -1 without an error exactly when the server answers 200 with a dashboard whose id is -1 |
| `Grafana.APIClient.constructor` | pkg/grafana/grafana.go:304-310 | a new client has the given folder names, an empty folder table and has sent nothing |
| `Grafana.APIClient.DoRestApi` | pkg/grafana/grafana.go:272-285 | sends exactly the one request and returns the status rule's verdict on its response |
| `Grafana.APIClient.CreateDashboard` | pkg/grafana/grafana.go:98-102 | sends one POST to /api/dashboards/import with the given body, and its outcome is the status rule's verdict |
| `Grafana.APIClient.CreateDatasource` | pkg/grafana/grafana.go:150-154 | sends one POST to /api/datasources with the given body, and its outcome is the status rule's verdict |
| `Grafana.APIClient.StarDashboard` | pkg/grafana/grafana.go:222-229 | sends one POST to /api/user/stars/dashboard/id with no body |
| `Grafana.APIClient.UpdateHomeDashboard` | pkg/grafana/grafana.go:231-245 | sends one PUT to /api/org/preferences with body `{"homeDashboardId": id}` |
| `Grafana.APIClient.UpdateHomePage` | pkg/grafana/grafana.go:157-185 | makes the id lookups; stars only when the lookup returned no error; sets the preference to the same id only when the star succeeded; returns the first failing step's error with no later request and no undo of earlier ones |

## Left out

- `cmd/main.go`: flag parsing, the fatal exit on a missing URL, basic-auth URL
  decoration, signal handling, the WaitGroup and the home-page goroutine. These
  are process wiring. The goroutine runs `UpdateHomePage` next to the
  controller, so the two interleave their requests; the model runs each
  operation on its own and does not capture that interleaving.
- `NewConfigMapController` and `Run` (pkg/controller/controller.go:32-76): the
  informer, the ListWatch and the resync period. They are Kubernetes watch
  wiring. Only the starting state of the controller (an empty hash set) is kept.
- `WaitForGrafanaUp` (pkg/grafana/grafana.go:247-270): time-based polling
  through an external library. `CreateFolder` discards its result, so leaving
  it out changes no modelled outcome; its health requests are not in the log.
- `SearchDashboard` and `DeleteDashboard`: thin HTTP wrappers that the
  reconcile flow never calls.
- `makeUrl` and `path.Join`: URLs are modelled as the `Endpoint` datatype.
- The Content-Type header and the bearer token from `GRAFANA_BEARER_TOKEN`.
  Every `doRestApis` request carries them, but the id-lookup GETs of
  `getDashboardId` and the folder listing GET carry neither. Whether Grafana
  accepts a request is part of the response given to the model, so a
  rejection for a missing or wrong token appears only as that response's
  status.
- The failure of `http.NewRequest`: the request URLs are built by `makeUrl` from
  a base URL that was already parsed, so this failure is not modelled.
- JSON encoding and decoding, `sjson.Set` and SHA-1 internals. A decoded body
  is a `Decoding` input; the two marshalled bodies, which cannot fail, are
  datatype values; the hash is an uninterpreted function.
- The six-second sleep before each `getDashboardId` attempt. Only the number
  and order of the attempts are modelled.
- Logging other than the per-entry events.
- `Controller.WalkPostsEachNewContentOnce`: states "once per content" per
  content hash. Two different payloads with the same SHA-1 would count as one
  content, and the model does not exclude that.
