/** The ConfigMap handler: reads a ConfigMap's annotations, resolves the
    target folder, and creates in Grafana each payload whose content has not
    been posted before. The set of posted content hashes lives on the
    controller for the whole process lifetime. */
module Controller {
  import opened Http
  import opened GoText
  import opened Grafana

  const DashboardsAnnotation: string := "grafana.net/dashboards"
  const DatasourceAnnotation: string := "grafana.net/datasource"
  const FolderAnnotation: string := "grafana.net/folder"

  /** The part of a Kubernetes ConfigMap the handler reads. */
  datatype ConfigMap = ConfigMap(
    namespace: string,
    name: string,
    annotations: map<string, string>,
    data: map<string, string>)

  /** What a ConfigMap's annotations ask for. */
  datatype Intent = Intent(dashboards: bool, datasource: bool, folder: string)

  /** A Go map lookup: the value, or "" when the key is absent. */
  function Annotation(annotations: map<string, string>, key: string): string
  {
    if key in annotations then annotations[key] else ""
  }

  /** A flag annotation read with strconv.ParseBool, its error discarded. */
  function Flag(annotations: map<string, string>, key: string): bool
  {
    match ParseBool(Annotation(annotations, key))
    case Bool(b) => b
    case SyntaxError(_) => false
  }

  /** The two flags are on only for one of ParseBool's true spellings; an
      absent annotation or any other value turns them off, never an error.
      The folder name is the annotation's value, or empty when it is absent. */
  function Interpret(annotations: map<string, string>): (intent: Intent)
    ensures intent.dashboards <==>
              DashboardsAnnotation in annotations && annotations[DashboardsAnnotation] in TrueSpellings
    ensures intent.datasource <==>
              DatasourceAnnotation in annotations && annotations[DatasourceAnnotation] in TrueSpellings
    ensures intent.folder == (if FolderAnnotation in annotations then annotations[FolderAnnotation] else "")
    ensures intent.folder == "" <==>
              FolderAnnotation !in annotations || annotations[FolderAnnotation] == ""
  {
    Intent(
      Flag(annotations, DashboardsAnnotation),
      Flag(annotations, DatasourceAnnotation),
      Annotation(annotations, FolderAnnotation))
  }

  /** The folder id dashboards go to: the id of the named folder when
      dashboards are on, a folder is named and the table knows it; 0 (the
      General folder) in every other case. */
  function ResolveFolderId(intent: Intent, folders: map<string, int>): (id: int)
    ensures intent.dashboards && intent.folder != "" && intent.folder in folders ==>
              id == folders[intent.folder]
    ensures !(intent.dashboards && intent.folder != "" && intent.folder in folders) ==> id == 0
    ensures id == 0 || id in folders.Values
  {
    if intent.dashboards && intent.folder != "" && intent.folder in folders then
      folders[intent.folder]
    else
      0
  }

  /** Where the new entries of one ConfigMap go. */
  datatype Route = Route(datasource: bool, folderId: int)

  /** The create request for one payload: datasources are posted unmodified,
      dashboards with their folder id set. */
  function EntryRequest(route: Route, payload: string): Request
  {
    if route.datasource then DatasourceCreate(Json(payload))
    else DashboardImport(JsonWithFolderId(payload, route.folderId))
  }

  /** What the handler does with each entry, in order: an entry whose hash was
      already posted is skipped; a new one is first marked, then posted. */
  datatype Event =
    | AlreadyPosted(key: string)
    | Marked(key: string, hash: string)
    | Posted(key: string, hash: string, request: Request, outcome: Outcome)

  /** What the handler does with one entry whose content hashes to `h`:
      skip it when `h` was seen, otherwise mark `h` and then post the entry. */
  function Step(seen: set<string>, k: string, h: string, payload: string,
                outcome: Response<()>, route: Route): seq<Event>
  {
    if h in seen then [AlreadyPosted(k)]
    else [Marked(k, h), Posted(k, h, EntryRequest(route, payload), DoRequest(outcome))]
  }

  /** The loop over the entries `keys` of `data`, starting from the hashes
      `seen`; `outcomes[i]` is Grafana's answer to a create for `keys[i]`. */
  function Walk(sha1: string -> string, seen: set<string>, data: map<string, string>,
                keys: seq<string>, outcomes: seq<Response<()>>, route: Route): seq<Event>
    requires |outcomes| == |keys|
    requires forall k | k in keys :: k in data
    decreases |keys|
  {
    if keys == [] then []
    else
      var h := sha1(data[keys[0]]);
      Step(seen, keys[0], h, data[keys[0]], outcomes[0], route)
        + Walk(sha1, seen + {h}, data, keys[1..], outcomes[1..], route)
  }

  /** The whole handler for one ConfigMap whose entries are visited in `order`,
      with `folders` as the folder table. */
  function Reconcile(sha1: string -> string, seen: set<string>, obj: ConfigMap,
                     folders: map<string, int>, order: seq<string>, outcomes: seq<Response<()>>): seq<Event>
    requires |outcomes| == |order|
    requires forall k | k in order :: k in obj.data
  {
    var intent := Interpret(obj.annotations);
    if intent.dashboards || intent.datasource then
      Walk(sha1, seen, obj.data, order, outcomes,
           Route(intent.datasource, ResolveFolderId(intent, folders)))
    else
      []
  }

  // ---------------------------------------------------------------------------
  // Views of an event log

  /** The requests sent to Grafana, in order. */
  function Sent(events: seq<Event>): seq<Request>
  {
    if events == [] then []
    else (if events[0].Posted? then [events[0].request] else []) + Sent(events[1..])
  }

  /** The hashes marked as posted. */
  function MarkedHashes(events: seq<Event>): set<string>
  {
    if events == [] then {}
    else (if events[0].Marked? then {events[0].hash} else {}) + MarkedHashes(events[1..])
  }

  /** The hashes of the posted entries, in order. */
  function PostedHashes(events: seq<Event>): seq<string>
  {
    if events == [] then []
    else (if events[0].Posted? then [events[0].hash] else []) + PostedHashes(events[1..])
  }

  /** The entries handled, skipped or posted, in order. */
  function HandledKeys(events: seq<Event>): seq<string>
  {
    if events == [] then []
    else (if events[0].Marked? then [] else [events[0].key]) + HandledKeys(events[1..])
  }

  /** The hashes of the contents of the given entries. */
  function ContentHashes(sha1: string -> string, data: map<string, string>, keys: seq<string>): set<string>
    requires forall k | k in keys :: k in data
  {
    if keys == [] then {} else {sha1(data[keys[0]])} + ContentHashes(sha1, data, keys[1..])
  }

  ghost predicate Distinct<T>(s: seq<T>)
  {
    forall i, j | 0 <= i < j < |s| :: s[i] != s[j]
  }

  lemma {:induction false} SentAppend(a: seq<Event>, b: seq<Event>)
    ensures Sent(a + b) == Sent(a) + Sent(b)
  {
    if a == [] {
      assert a + b == b;
    } else {
      var head := if a[0].Posted? then [a[0].request] else [];
      assert (a + b)[0] == a[0];
      assert (a + b)[1..] == a[1..] + b;
      assert Sent(a + b) == head + Sent(a[1..] + b);
      SentAppend(a[1..], b);
      assert head + (Sent(a[1..]) + Sent(b)) == (head + Sent(a[1..])) + Sent(b);
    }
  }

  lemma {:induction false} MarkedAppend(a: seq<Event>, b: seq<Event>)
    ensures MarkedHashes(a + b) == MarkedHashes(a) + MarkedHashes(b)
  {
    if a == [] {
      assert a + b == b;
    } else {
      assert (a + b)[0] == a[0];
      assert (a + b)[1..] == a[1..] + b;
      MarkedAppend(a[1..], b);
    }
  }

  /** What one step contributes to each view of the log. */
  lemma StepViews(seen: set<string>, k: string, h: string, payload: string,
                  outcome: Response<()>, route: Route, rest: seq<Event>)
    ensures var events := Step(seen, k, h, payload, outcome, route) + rest;
            && Sent(events) == (if h in seen then [] else [EntryRequest(route, payload)]) + Sent(rest)
            && MarkedHashes(events) == (if h in seen then {} else {h}) + MarkedHashes(rest)
            && PostedHashes(events) == (if h in seen then [] else [h]) + PostedHashes(rest)
            && HandledKeys(events) == [k] + HandledKeys(rest)
  {
    var events := Step(seen, k, h, payload, outcome, route) + rest;
    if h in seen {
      assert events[0] == AlreadyPosted(k) && events[1..] == rest;
    } else {
      assert events[0] == Marked(k, h);
      assert events[1..][0].Posted? && events[1..][0].request == EntryRequest(route, payload);
      assert events[1..][0].hash == h && events[1..][0].key == k;
      assert events[1..][1..] == rest;
    }
  }

  lemma ElementsCons<T>(x: T, s: seq<T>)
    ensures (set y | y in [x] + s) == {x} + (set y | y in s)
  {
  }

  lemma DistinctCons<T>(x: T, s: seq<T>)
    requires Distinct(s) && x !in s
    ensures Distinct([x] + s)
  {
    var t := [x] + s;
    forall i, j | 0 <= i < j < |t| ensures t[i] != t[j] {
      if i > 0 {
        assert t[i] == s[i - 1] && t[j] == s[j - 1];
      } else {
        assert t[j] == s[j - 1];
      }
    }
  }

  lemma {:induction false} ContentHashesContain(sha1: string -> string, data: map<string, string>,
                                                keys: seq<string>, k: string)
    requires forall k | k in keys :: k in data
    requires k in keys
    ensures sha1(data[k]) in ContentHashes(sha1, data, keys)
  {
    if keys[0] != k {
      ContentHashesContain(sha1, data, keys[1..], k);
    }
  }

  /** Walk over the suffix of `keys` from position i takes one step, then
      walks the rest. */
  lemma WalkUnfold(sha1: string -> string, seen: set<string>, data: map<string, string>,
                   keys: seq<string>, outcomes: seq<Response<()>>, route: Route, i: nat)
    requires |outcomes| == |keys|
    requires forall k | k in keys :: k in data
    requires i < |keys|
    ensures var h := sha1(data[keys[i]]);
            Walk(sha1, seen, data, keys[i..], outcomes[i..], route)
              == Step(seen, keys[i], h, data[keys[i]], outcomes[i], route)
                 + Walk(sha1, seen + {h}, data, keys[i + 1..], outcomes[i + 1..], route)
  {
    assert keys[i..][0] == keys[i] && keys[i..][1..] == keys[i + 1..];
    assert outcomes[i..][0] == outcomes[i] && outcomes[i..][1..] == outcomes[i + 1..];
  }

  // ---------------------------------------------------------------------------
  // Properties of the loop

  /** Failure isolation: every entry is handled, in order, whatever Grafana
      answered for the entries before it. */
  lemma {:induction false} WalkHandlesEveryEntry(sha1: string -> string, seen: set<string>,
      data: map<string, string>, keys: seq<string>, outcomes: seq<Response<()>>, route: Route)
    requires |outcomes| == |keys|
    requires forall k | k in keys :: k in data
    ensures HandledKeys(Walk(sha1, seen, data, keys, outcomes, route)) == keys
    decreases |keys|
  {
    if keys != [] {
      var h := sha1(data[keys[0]]);
      var rest := Walk(sha1, seen + {h}, data, keys[1..], outcomes[1..], route);
      WalkHandlesEveryEntry(sha1, seen + {h}, data, keys[1..], outcomes[1..], route);
      StepViews(seen, keys[0], h, data[keys[0]], outcomes[0], route, rest);
      assert keys == [keys[0]] + keys[1..];
    }
  }

  /** Grafana's answers are only logged: what is sent and what is marked is
      the same whatever the outcomes of the create calls. */
  lemma {:induction false} WalkIgnoresOutcomes(sha1: string -> string, seen: set<string>,
      data: map<string, string>, keys: seq<string>, outcomes: seq<Response<()>>,
      otherOutcomes: seq<Response<()>>, route: Route)
    requires |outcomes| == |keys| && |otherOutcomes| == |keys|
    requires forall k | k in keys :: k in data
    ensures Sent(Walk(sha1, seen, data, keys, outcomes, route))
         == Sent(Walk(sha1, seen, data, keys, otherOutcomes, route))
    ensures MarkedHashes(Walk(sha1, seen, data, keys, outcomes, route))
         == MarkedHashes(Walk(sha1, seen, data, keys, otherOutcomes, route))
    decreases |keys|
  {
    if keys != [] {
      var k := keys[0];
      var h := sha1(data[k]);
      var rest := Walk(sha1, seen + {h}, data, keys[1..], outcomes[1..], route);
      var rest' := Walk(sha1, seen + {h}, data, keys[1..], otherOutcomes[1..], route);
      WalkIgnoresOutcomes(sha1, seen + {h}, data, keys[1..], outcomes[1..], otherOutcomes[1..], route);
      StepViews(seen, k, h, data[k], outcomes[0], route, rest);
      StepViews(seen, k, h, data[k], otherOutcomes[0], route, rest');
    }
  }

  /** Mark before create: every post in the log comes right after the marking
      of its hash. */
  ghost predicate MarksBeforePosting(events: seq<Event>)
  {
    forall j | 0 <= j < |events| && events[j].Posted? ::
      j > 0 && events[j - 1] == Marked(events[j].key, events[j].hash)
  }

  /** In the log, each post directly follows the marking of its hash. This is
      the order of the log, not of the state: the hash set itself is updated
      before the create call in HandleEntry. What can be observed of that
      order, that a failed create stays marked and is never retried, is stated
      by WalkIgnoresOutcomes, RedeliveryIsNoOp and CreateDashboards' ensures. */
  lemma {:induction false} WalkMarksBeforePosting(sha1: string -> string, seen: set<string>,
      data: map<string, string>, keys: seq<string>, outcomes: seq<Response<()>>, route: Route)
    requires |outcomes| == |keys|
    requires forall k | k in keys :: k in data
    ensures MarksBeforePosting(Walk(sha1, seen, data, keys, outcomes, route))
    decreases |keys|
  {
    if keys != [] {
      var k := keys[0];
      var h := sha1(data[k]);
      var events := Walk(sha1, seen, data, keys, outcomes, route);
      var rest := Walk(sha1, seen + {h}, data, keys[1..], outcomes[1..], route);
      WalkMarksBeforePosting(sha1, seen + {h}, data, keys[1..], outcomes[1..], route);
      assert MarksBeforePosting(rest);
      var step := Step(seen, k, h, data[k], outcomes[0], route);
      assert events == step + rest;
      forall j | 0 <= j < |events| && events[j].Posted?
        ensures j > 0 && events[j - 1] == Marked(events[j].key, events[j].hash)
      {
        if j >= |step| {
          var r := j - |step|;
          assert events[j] == rest[r] && rest[r].Posted?;
          assert events[j - 1] == rest[r - 1];
        } else {
          assert h !in seen && j == 1;
          assert events[0] == Marked(k, h) && events[1].key == k && events[1].hash == h;
        }
      }
    }
  }

  /** Every hash the walk records or posts is the hash of that entry's content. */
  lemma {:induction false} WalkRecordsContentHashes(sha1: string -> string, seen: set<string>,
      data: map<string, string>, keys: seq<string>, outcomes: seq<Response<()>>, route: Route)
    requires |outcomes| == |keys|
    requires forall k | k in keys :: k in data
    ensures var events := Walk(sha1, seen, data, keys, outcomes, route);
            forall j | 0 <= j < |events| && !events[j].AlreadyPosted? ::
              events[j].key in data && events[j].hash == sha1(data[events[j].key])
    decreases |keys|
  {
    if keys != [] {
      var k := keys[0];
      var h := sha1(data[k]);
      var events := Walk(sha1, seen, data, keys, outcomes, route);
      var rest := Walk(sha1, seen + {h}, data, keys[1..], outcomes[1..], route);
      WalkRecordsContentHashes(sha1, seen + {h}, data, keys[1..], outcomes[1..], route);
      assert var events := Walk(sha1, seen + {h}, data, keys[1..], outcomes[1..], route);
            forall j | 0 <= j < |events| && !events[j].AlreadyPosted? ::
              events[j].key in data && events[j].hash == sha1(data[events[j].key]);
      assert forall j | 0 <= j < |rest| && !rest[j].AlreadyPosted? ::
        rest[j].key in data && rest[j].hash == sha1(data[rest[j].key]);
      var step := Step(seen, k, h, data[k], outcomes[0], route);
      assert events == step + rest;
      forall j | 0 <= j < |events| && !events[j].AlreadyPosted?
        ensures events[j].key in data && events[j].hash == sha1(data[events[j].key])
      {
        if j >= |step| {
          assert events[j] == rest[j - |step|];
        } else {
          assert h !in seen && events[j] == step[j];
          assert events[j].key == k && events[j].hash == h;
        }
      }
    }
  }

  /** At most once per content: no post carries a hash seen before the call,
      no two posts carry the same hash, and the posted hashes are exactly the
      new content hashes of the entries, so each new content is posted once
      however many entries hold it. */
  lemma {:induction false} WalkPostsEachNewContentOnce(sha1: string -> string, seen: set<string>,
      data: map<string, string>, keys: seq<string>, outcomes: seq<Response<()>>, route: Route)
    requires |outcomes| == |keys|
    requires forall k | k in keys :: k in data
    ensures var posted := PostedHashes(Walk(sha1, seen, data, keys, outcomes, route));
            && Distinct(posted)
            && (forall i | 0 <= i < |posted| :: posted[i] !in seen)
            && (set h | h in posted) == ContentHashes(sha1, data, keys) - seen
    decreases |keys|
  {
    if keys != [] {
      var k := keys[0];
      var h := sha1(data[k]);
      var rest := Walk(sha1, seen + {h}, data, keys[1..], outcomes[1..], route);
      WalkPostsEachNewContentOnce(sha1, seen + {h}, data, keys[1..], outcomes[1..], route);
      StepViews(seen, k, h, data[k], outcomes[0], route, rest);
      var posted := PostedHashes(Walk(sha1, seen, data, keys, outcomes, route));
      var restPosted := PostedHashes(rest);
      var content := ContentHashes(sha1, data, keys);
      var restContent := ContentHashes(sha1, data, keys[1..]);
      assert content == {h} + restContent;
      if h in seen {
        assert posted == restPosted;
        assert content - seen == restContent - (seen + {h});
      } else {
        assert posted == [h] + restPosted;
        DistinctCons(h, restPosted);
        ElementsCons(h, restPosted);
        assert content - seen == {h} + (restContent - (seen + {h}));
      }
    }
  }

  /** The hashes the walk marks, together with those seen before, are the
      seen hashes plus the hashes of all entries' contents. */
  lemma {:induction false} WalkMarksEveryContent(sha1: string -> string, seen: set<string>,
      data: map<string, string>, keys: seq<string>, outcomes: seq<Response<()>>, route: Route)
    requires |outcomes| == |keys|
    requires forall k | k in keys :: k in data
    ensures seen + MarkedHashes(Walk(sha1, seen, data, keys, outcomes, route))
         == seen + ContentHashes(sha1, data, keys)
    decreases |keys|
  {
    if keys != [] {
      var k := keys[0];
      var h := sha1(data[k]);
      var rest := Walk(sha1, seen + {h}, data, keys[1..], outcomes[1..], route);
      WalkMarksEveryContent(sha1, seen + {h}, data, keys[1..], outcomes[1..], route);
      StepViews(seen, k, h, data[k], outcomes[0], route, rest);
    }
  }

  /** Routing: with the datasource flag every post goes, unmodified, to the
      datasource API; otherwise every post is a dashboard import whose
      folderId is the resolved folder id. */
  lemma {:induction false} WalkRoutesPosts(sha1: string -> string, seen: set<string>,
      data: map<string, string>, keys: seq<string>, outcomes: seq<Response<()>>, route: Route)
    requires |outcomes| == |keys|
    requires forall k | k in keys :: k in data
    ensures var events := Walk(sha1, seen, data, keys, outcomes, route);
            forall e | e in events && e.Posted? ::
              && e.key in data
              && (route.datasource ==> e.request == DatasourceCreate(Json(data[e.key])))
              && (!route.datasource ==> e.request == DashboardImport(JsonWithFolderId(data[e.key], route.folderId)))
    decreases |keys|
  {
    if keys != [] {
      var h := sha1(data[keys[0]]);
      WalkRoutesPosts(sha1, seen + {h}, data, keys[1..], outcomes[1..], route);
    }
  }

  /** Once every content hash is known, the walk only skips: nothing is sent
      and nothing new is marked. */
  lemma {:induction false} WalkOfKnownContentSendsNothing(sha1: string -> string, seen: set<string>,
      data: map<string, string>, keys: seq<string>, outcomes: seq<Response<()>>, route: Route)
    requires |outcomes| == |keys|
    requires forall k | k in keys :: k in data
    requires forall k | k in keys :: sha1(data[k]) in seen
    ensures Sent(Walk(sha1, seen, data, keys, outcomes, route)) == []
    ensures MarkedHashes(Walk(sha1, seen, data, keys, outcomes, route)) == {}
    decreases |keys|
  {
    if keys != [] {
      var h := sha1(data[keys[0]]);
      assert seen + {h} == seen;
      WalkOfKnownContentSendsNothing(sha1, seen, data, keys[1..], outcomes[1..], route);
      var rest := Walk(sha1, seen, data, keys[1..], outcomes[1..], route);
      StepViews(seen, keys[0], h, data[keys[0]], outcomes[0], route, rest);
    }
  }

  // ---------------------------------------------------------------------------
  // Properties of the handler

  /** A ConfigMap with neither flag on is ignored: no event, nothing sent. */
  lemma UnflaggedConfigMapIsIgnored(sha1: string -> string, seen: set<string>, obj: ConfigMap,
      folders: map<string, int>, order: seq<string>, outcomes: seq<Response<()>>)
    requires |outcomes| == |order|
    requires forall k | k in order :: k in obj.data
    requires DashboardsAnnotation !in obj.annotations || obj.annotations[DashboardsAnnotation] !in TrueSpellings
    requires DatasourceAnnotation !in obj.annotations || obj.annotations[DatasourceAnnotation] !in TrueSpellings
    ensures Reconcile(sha1, seen, obj, folders, order, outcomes) == []
  {
  }

  /** With the datasource flag on, every new entry goes unmodified to the
      datasource API, even when the dashboards flag is on too; otherwise every
      new entry is imported as a dashboard into the resolved folder. */
  lemma ReconcileRoutesPosts(sha1: string -> string, seen: set<string>, obj: ConfigMap,
      folders: map<string, int>, order: seq<string>, outcomes: seq<Response<()>>)
    requires |outcomes| == |order|
    requires forall k | k in order :: k in obj.data
    ensures var intent := Interpret(obj.annotations);
            forall e | e in Reconcile(sha1, seen, obj, folders, order, outcomes) && e.Posted? ::
              && e.key in obj.data
              && (intent.datasource ==> e.request == DatasourceCreate(Json(obj.data[e.key])))
              && (!intent.datasource ==>
                    e.request == DashboardImport(JsonWithFolderId(obj.data[e.key], ResolveFolderId(intent, folders))))
  {
    var intent := Interpret(obj.annotations);
    if intent.dashboards || intent.datasource {
      WalkRoutesPosts(sha1, seen, obj.data, order, outcomes,
                      Route(intent.datasource, ResolveFolderId(intent, folders)));
    }
  }

  /** Redelivery is a no-op: handling a ConfigMap again, after the hashes its
      first handling marked were recorded, sends nothing, in whatever order
      the entries come, whatever the folder table is by then. */
  lemma RedeliveryIsNoOp(sha1: string -> string, seen: set<string>, obj: ConfigMap,
      folders: map<string, int>, order: seq<string>, outcomes: seq<Response<()>>,
      laterFolders: map<string, int>, laterOrder: seq<string>, laterOutcomes: seq<Response<()>>)
    requires |outcomes| == |order| && |laterOutcomes| == |laterOrder|
    requires forall k | k in order :: k in obj.data
    requires forall k | k in laterOrder :: k in order
    ensures var first := Reconcile(sha1, seen, obj, folders, order, outcomes);
            Sent(Reconcile(sha1, seen + MarkedHashes(first), obj, laterFolders, laterOrder, laterOutcomes)) == []
  {
    var intent := Interpret(obj.annotations);
    if intent.dashboards || intent.datasource {
      var first := Reconcile(sha1, seen, obj, folders, order, outcomes);
      var route := Route(intent.datasource, ResolveFolderId(intent, folders));
      WalkMarksEveryContent(sha1, seen, obj.data, order, outcomes, route);
      forall k | k in laterOrder ensures sha1(obj.data[k]) in seen + MarkedHashes(first) {
        ContentHashesContain(sha1, obj.data, order, k);
      }
      WalkOfKnownContentSendsNothing(sha1, seen + MarkedHashes(first), obj.data, laterOrder, laterOutcomes,
        Route(intent.datasource, ResolveFolderId(intent, laterFolders)));
    }
  }

  /** A dashboard ConfigMap naming folder "ops", which the table maps to 7,
      posts its one entry as a dashboard import with folderId 7. */
  lemma DashboardGoesToNamedFolder(sha1: string -> string, payload: string, outcome: Response<()>)
    ensures var obj := ConfigMap("monitoring", "dashboards",
                                 map[DashboardsAnnotation := "true", FolderAnnotation := "ops"],
                                 map["a.json" := payload]);
            Sent(Reconcile(sha1, {}, obj, map["ops" := 7], ["a.json"], [outcome]))
              == [DashboardImport(JsonWithFolderId(payload, 7))]
  {
    var obj := ConfigMap("monitoring", "dashboards",
                         map[DashboardsAnnotation := "true", FolderAnnotation := "ops"],
                         map["a.json" := payload]);
    var intent := Interpret(obj.annotations);
    assert intent == Intent(true, false, "ops");
    assert ResolveFolderId(intent, map["ops" := 7]) == 7;
    var route := Route(false, 7);
    var h := sha1(payload);
    var rest := Walk(sha1, {h}, obj.data, [], [], route);
    assert rest == [];
    StepViews({}, "a.json", h, payload, outcome, route, rest);
    assert Reconcile(sha1, {}, obj, map["ops" := 7], ["a.json"], [outcome])
        == Step({}, "a.json", h, payload, outcome, route) + rest;
  }

  /** One turn of the handler's loop keeps its three invariants: the log so
      far followed by the rest of the walk is the whole walk, the hashes are
      the initial ones plus those marked, and the requests are those posted. */
  lemma LoopStep(sha1: string -> string, initial: set<string>, data: map<string, string>,
                 keys: seq<string>, outcomes: seq<Response<()>>, route: Route,
                 i: nat, done: seq<Event>, seen: set<string>)
    requires |outcomes| == |keys|
    requires forall k | k in keys :: k in data
    requires i < |keys|
    requires seen == initial + MarkedHashes(done)
    requires done + Walk(sha1, seen, data, keys[i..], outcomes[i..], route)
          == Walk(sha1, initial, data, keys, outcomes, route)
    ensures var h := sha1(data[keys[i]]);
            var step := Step(seen, keys[i], h, data[keys[i]], outcomes[i], route);
            && seen + {h} == initial + MarkedHashes(done + step)
            && Sent(done + step) == Sent(done) + (if h in seen then [] else [EntryRequest(route, data[keys[i]])])
            && (done + step) + Walk(sha1, seen + {h}, data, keys[i + 1..], outcomes[i + 1..], route)
               == Walk(sha1, initial, data, keys, outcomes, route)
  {
    var h := sha1(data[keys[i]]);
    var step := Step(seen, keys[i], h, data[keys[i]], outcomes[i], route);
    var rest := Walk(sha1, seen + {h}, data, keys[i + 1..], outcomes[i + 1..], route);
    WalkUnfold(sha1, seen, data, keys, outcomes, route, i);
    assert done + step + rest == done + (step + rest);
    StepViews(seen, keys[i], h, data[keys[i]], outcomes[i], route, []);
    assert step + [] == step;
    assert MarkedHashes(step) == (if h in seen then {} else {h});
    assert Sent(step) == (if h in seen then [] else [EntryRequest(route, data[keys[i]])]);
    SentAppend(done, step);
    MarkedAppend(done, step);
  }

  // ---------------------------------------------------------------------------
  // The controller

  /** Go's range over a map visits each key exactly once, in some order. */
  ghost predicate IsRangeOrder(order: seq<string>, data: map<string, string>)
  {
    Distinct(order) && (forall k | k in order :: k in data) && (forall k | k in data :: k in order)
  }

  class ConfigMapController {
    /** The Grafana client creates go through (and whose folder table is read). */
    const g: APIClient
    /** computeSha1: the hex SHA-1 digest of a payload, as an uninterpreted function. */
    const computeSha1: string -> string
    /** Hashes of every payload posted so far (or being posted). Never shrinks. */
    var hashes: set<string>

    constructor (g: APIClient, computeSha1: string -> string)
      ensures this.g == g && this.computeSha1 == computeSha1
      ensures hashes == {}
    {
      this.g := g;
      this.computeSha1 := computeSha1;
      hashes := {};
    }

    /** One turn of the entry loop: skips an entry whose content hash is
        already recorded; otherwise records the hash first and then posts the
        entry, to the datasource API or as a dashboard import into the folder. */
    method HandleEntry(k: string, v: string, route: Route, outcome: Response<()>)
      returns (step: seq<Event>)
      modifies this`hashes, g`requests
      ensures step == Step(old(hashes), k, computeSha1(v), v, outcome, route)
      ensures hashes == old(hashes) + {computeSha1(v)}
      ensures g.requests == old(g.requests)
                            + (if computeSha1(v) in old(hashes) then [] else [EntryRequest(route, v)])
    {
      var vSha := computeSha1(v);
      if vSha in hashes {
        step := [AlreadyPosted(k)];
      } else {
        hashes := hashes + {vSha};
        var err;
        if route.datasource {
          err := g.CreateDatasource(Json(v), outcome);
        } else {
          err := g.CreateDashboard(JsonWithFolderId(v, route.folderId), outcome);
        }
        step := [Marked(k, vSha), Posted(k, vSha, EntryRequest(route, v), err)];
      }
    }

    /** The loop over the entries of a flagged ConfigMap, in the order `keys`,
        with each new content routed by `route`. */
    method PostEntries(data: map<string, string>, keys: seq<string>, outcomes: seq<Response<()>>,
                       route: Route)
      returns (events: seq<Event>)
      requires forall k | k in keys :: k in data
      requires |outcomes| == |keys|
      modifies this`hashes, g`requests
      ensures events == Walk(computeSha1, old(hashes), data, keys, outcomes, route)
      ensures hashes == old(hashes) + MarkedHashes(events)
      ensures g.requests == old(g.requests) + Sent(events)
    {
      events := [];
      var i := 0;
      while i < |keys|
        invariant 0 <= i <= |keys|
        invariant hashes == old(hashes) + MarkedHashes(events)
        invariant g.requests == old(g.requests) + Sent(events)
        invariant events + Walk(computeSha1, hashes, data, keys[i..], outcomes[i..], route)
               == Walk(computeSha1, old(hashes), data, keys, outcomes, route)
      {
        ghost var done, seen := events, hashes;
        LoopStep(computeSha1, old(hashes), data, keys, outcomes, route, i, done, seen);
        var step := HandleEntry(keys[i], data[keys[i]], route, outcomes[i]);
        events := events + step;
        i := i + 1;
      }
      assert keys[i..] == [];
      assert events + [] == events;
    }

    /** Handles one ConfigMap. `order` is the order in which Go's range visits
        its entries; `outcomes[i]` is Grafana's answer to a create call for
        entry `order[i]`. Returns the per-entry log. */
    method CreateDashboards(obj: ConfigMap, order: seq<string>, outcomes: seq<Response<()>>)
      returns (events: seq<Event>)
      requires IsRangeOrder(order, obj.data)
      requires |outcomes| == |order|
      modifies this`hashes, g`requests
      ensures events == Reconcile(computeSha1, old(hashes), obj, g.folders, order, outcomes)
      ensures hashes == old(hashes) + MarkedHashes(events)
      ensures g.requests == old(g.requests) + Sent(events)
      ensures var intent := Interpret(obj.annotations);
              hashes == if intent.dashboards || intent.datasource
                        then old(hashes) + ContentHashes(computeSha1, obj.data, order)
                        else old(hashes)
    {
      var intent := Interpret(obj.annotations);
      var folderId := ResolveFolderId(intent, g.folders);
      if intent.dashboards || intent.datasource {
        var route := Route(intent.datasource, folderId);
        events := PostEntries(obj.data, order, outcomes, route);
        WalkMarksEveryContent(computeSha1, old(hashes), obj.data, order, outcomes, route);
      } else {
        events := [];
      }
    }
  }
}
