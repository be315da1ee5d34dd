/** The `post_save` handler of ccres_api/hkd/signals/create_dashboards.py: it makes one
    folder per station, reads the folders back, and builds one dashboard per instrument
    model of each station, one time-series panel per parameter. The catalog queries are
    parameters (`modelsOf`, `parametersOf`); grafanalib's `Dashboard` and `TimeSeries` are
    plain records. */
module DashboardSignal {
  import opened Wrappers
  import opened Dict
  import opened Strings
  import opened Json
  import opened Exceptions
  import opened AcceptableCodes
  import opened Http
  import FluxQuery
  import ContactAddons
  import FM = FolderManager
  import DM = DashboardManager

  datatype Station = Station(name: string)
  datatype InstrumentModel = InstrumentModel(model: string, description: string)
  datatype Parameter = Parameter(name: string, unit: string)

  datatype Target = Target(expr: string, datasource: string)
  datatype GridPos = GridPos(h: int, w: int, x: int, y: int)
  datatype Panel = TimeSeries(title: string, dataSource: string, targets: seq<Target>, gridPos: GridPos)
  datatype Dashboard = Dashboard(title: string, description: string, tags: seq<string>, timezone: string, panels: seq<Panel>)

  /** The folder entry's title is the station name. A missing or `None` title is skipped,
      and only a string can equal the name. */
  predicate TitleIs(item: Json, name: string) {
    item.JObj? && Get(item.fields, "title") == Some(JStr(name))
  }

  /** `sub_json.get("uid")` of a dictionary, with `None` as `JNull`. */
  function UidOf(item: Json): Json
    requires item.JObj?
  {
    match Get(item.fields, "uid")
    case Some(v) => v
    case None => JNull
  }

  /** The loop of `_get_uid_of_station` over the entries: `.get` on an entry that is not
      a dictionary raises; the first entry titled `name` decides. */
  function UidIn(items: seq<Json>, name: string): Result<Json, Error>
    decreases |items|
  {
    if |items| == 0 then Ok(JNull)
    else
      var title :- GetKey(items[0], "title");
      if title == Some(JStr(name)) then Ok(UidOf(items[0]))
      else UidIn(items[1..], name)
  }

  /** `_get_uid_of_station`: `None` (here `JNull`) when no entry has the title. */
  function StationUid(name: string, folderJson: Json): Result<Json, Error> {
    var items :- Iterate(folderJson);
    UidIn(items, name)
  }

  /** The folder list as Grafana returns it: a list of dictionaries. */
  predicate FolderList(folderJson: Json) {
    folderJson.JArr? && forall i :: 0 <= i < |folderJson.items| ==> folderJson.items[i].JObj?
  }

  /** The lookup returns the uid of the FIRST entry titled `name`, and `None` when there is
      none; an entry before it that is not a dictionary raises. */
  lemma {:induction false} UidInSpec(items: seq<Json>, name: string, i: nat)
    requires i <= |items|
    requires forall j :: 0 <= j < i ==> items[j].JObj? && !TitleIs(items[j], name)
    ensures i < |items| && TitleIs(items[i], name) ==> UidIn(items, name) == Ok(UidOf(items[i]))
    ensures i == |items| ==> UidIn(items, name) == Ok(JNull)
    ensures i < |items| && !items[i].JObj? ==> UidIn(items, name) == Err(AttributeError("get"))
  {
    if i > 0 {
      assert items[0].JObj? && !TitleIs(items[0], name);
      UidInSpec(items[1..], name, i - 1);
    }
  }

  /** On a folder list the lookup never raises, and the entry it answers from is the first
      with the title; a matching entry without `uid` answers `None` just as no match does. */
  lemma StationUidSpec(name: string, folderJson: Json)
    requires FolderList(folderJson)
    ensures var items := folderJson.items;
      var r := StationUid(name, folderJson);
      && r.Ok?
      && ((forall j :: 0 <= j < |items| ==> !TitleIs(items[j], name)) ==> r.value == JNull)
      && (forall i :: 0 <= i < |items| && TitleIs(items[i], name)
                       && (forall j :: 0 <= j < i ==> !TitleIs(items[j], name)) ==>
            r.value == UidOf(items[i]) && (!HasKey(items[i].fields, "uid") ==> r.value == JNull))
  {
    var items := folderJson.items;
    assert Iterate(folderJson) == Ok(items);
    if forall j :: 0 <= j < |items| ==> !TitleIs(items[j], name) {
      UidInSpec(items, name, |items|);
    } else {
      var i :| 0 <= i < |items| && TitleIs(items[i], name);
      var first := FirstTitled(items, name, i);
      UidInSpec(items, name, first);
    }
    forall i | 0 <= i < |items| && TitleIs(items[i], name) && (forall j :: 0 <= j < i ==> !TitleIs(items[j], name))
      ensures UidIn(items, name) == Ok(UidOf(items[i]))
    {
      UidInSpec(items, name, i);
    }
  }

  /** The first index with the title, given one. */
  lemma {:induction false} FirstTitledExists(items: seq<Json>, name: string, i: nat)
    requires i < |items| && TitleIs(items[i], name)
    ensures exists f :: 0 <= f <= i && TitleIs(items[f], name) && forall j :: 0 <= j < f ==> !TitleIs(items[j], name)
  {
    if exists j :: 0 <= j < i && TitleIs(items[j], name) {
      var j :| 0 <= j < i && TitleIs(items[j], name);
      FirstTitledExists(items, name, j);
    }
  }

  function FirstTitled(items: seq<Json>, name: string, i: nat): (f: nat)
    requires i < |items| && TitleIs(items[i], name)
    ensures f <= i && TitleIs(items[f], name) && forall j :: 0 <= j < f ==> !TitleIs(items[j], name)
  {
    FirstTitledExists(items, name, i);
    var f :| 0 <= f <= i && TitleIs(items[f], name) && forall j :: 0 <= j < f ==> !TitleIs(items[j], name);
    f
  }

  const StartBound := "v.timeRangeStart"
  const StopBound := "v.timeRangeStop"

  /** The builder `build_panels` sets up for one parameter: the dashboard's time range,
      then the model as measurement, the parameter as field and the station as site. */
  function PanelQuery(bucket: string, station: Station, im: InstrumentModel, p: Parameter): FluxQuery.Builder {
    FluxQuery.Builder(bucket, Some(StartBound), Some(StopBound),
                      [("_measurement", im.model), ("_field", p.name), ("site", station.name)])
  }

  /** The chained builder calls of `build_panels` for one parameter. The three filters
      are distinct columns, so they stay in the order they were set. */
  method SetUpQuery(bucket: string, station: Station, im: InstrumentModel, p: Parameter)
    returns (b: FluxQuery.Builder)
    ensures b == PanelQuery(bucket, station, im, p)
  {
    var b0 := FluxQuery.Range(FluxQuery.New(bucket), StartBound, Some(StopBound));
    PanelColumnsDistinct();
    FluxQuery.FilterThree(b0, "_measurement", im.model, "_field", p.name, "site", station.name);
    var b1 := FluxQuery.Filter(b0, "_measurement", im.model);
    var b2 := FluxQuery.Filter(b1, "_field", p.name);
    b := FluxQuery.Filter(b2, "site", station.name);
  }

  /** The three columns a panel filters on are distinct. */
  lemma PanelColumnsDistinct()
    ensures "_measurement" != "_field" && "_measurement" != "site" && "_field" != "site"
  {
    assert "_field"[1] != "_measurement"[1];
    assert "site"[0] != "_measurement"[0] && "site"[0] != "_field"[0];
  }

  /** The query of a panel has five lines: the bucket, the dashboard's time range, and
      the measurement, field and site filters, in that order. */
  lemma PanelQuerySpec(bucket: string, station: Station, im: InstrumentModel, p: Parameter)
    ensures FluxQuery.Lines(PanelQuery(bucket, station, im, p))
            == [FluxQuery.FromLine(bucket),
                FluxQuery.Indent + FluxQuery.RangeLine(StartBound, Some(StopBound)),
                FluxQuery.Indent + FluxQuery.FilterLine("_measurement", im.model),
                FluxQuery.Indent + FluxQuery.FilterLine("_field", p.name),
                FluxQuery.Indent + FluxQuery.FilterLine("site", station.name)]
  {
    var b := PanelQuery(bucket, station, im, p);
    var lines := FluxQuery.Lines(b);
    assert |lines| == 5;
    assert lines[2] == FluxQuery.Indent + FluxQuery.FilterLine(b.filters[0].0, b.filters[0].1);
    assert lines[3] == FluxQuery.Indent + FluxQuery.FilterLine(b.filters[1].0, b.filters[1].1);
    assert lines[4] == FluxQuery.Indent + FluxQuery.FilterLine(b.filters[2].0, b.filters[2].1);
  }

  /** The built query of a parameter's panel. */
  function PanelExpr(bucket: string, station: Station, im: InstrumentModel, p: Parameter): string {
    Join(FluxQuery.Lines(PanelQuery(bucket, station, im, p)), "\n")
  }

  /** `"<name> [<unit>]"`. */
  function PanelTitle(p: Parameter): (r: string)
    ensures |r| >= 3 && StartsWith(r, p.name) && r[|r| - 1] == ']'
  {
    p.name + " [" + p.unit + "]"
  }

  const PanelGrid := GridPos(8, 16, 0, 0)

  /** The panel of one parameter: its title, and one InfluxDB target holding its query. */
  function PanelFor(bucket: string, station: Station, im: InstrumentModel, p: Parameter): Panel {
    TimeSeries(PanelTitle(p), "default", [Target(PanelExpr(bucket, station, im, p), "InfluxDB")], PanelGrid)
  }

  /** `build_panels`: one panel per parameter, in order, each holding the query `build`
      returns for it. */
  method BuildPanels(bucket: string, station: Station, im: InstrumentModel, parameters: seq<Parameter>)
    returns (panels: seq<Panel>)
    ensures |panels| == |parameters|
    ensures forall i :: 0 <= i < |parameters| ==> panels[i] == PanelFor(bucket, station, im, parameters[i])
  {
    panels := [];
    for i := 0 to |parameters|
      invariant |panels| == i
      invariant forall j :: 0 <= j < i ==> panels[j] == PanelFor(bucket, station, im, parameters[j])
    {
      var b := SetUpQuery(bucket, station, im, parameters[i]);
      var query := FluxQuery.Build(b);
      assert query == Ok(PanelExpr(bucket, station, im, parameters[i]));
      var panel := TimeSeries(PanelTitle(parameters[i]), "default", [Target(query.value, "InfluxDB")], PanelGrid);
      assert panel == PanelFor(bucket, station, im, parameters[i]);
      panels := panels + [panel];
    }
  }

  /** `add_dashboard` has no `folder_uid` parameter, so the call in `add_dashboards`
      raises. */
  const FolderUidKeyword := TypeError("DashboardManager.add_dashboard() got an unexpected keyword argument 'folder_uid'")

  /** `add_dashboards`, ending with the push whose response is `res`. */
  method AddDashboards(dm: DM.Manager, folderJson: Json, stations: seq<Station>,
                       modelsOf: Station -> seq<InstrumentModel>, parametersOf: InstrumentModel -> seq<Parameter>,
                       bucket: string, res: Response)
    returns (sent: seq<Request>, r: Result<Response, Error>)
    ensures r.Ok? ==> && sent == [DM.PushRequest(dm)] && r == DM.Push(dm, res)
                      && forall i :: 0 <= i < |stations| ==> modelsOf(stations[i]) == []
    ensures FolderList(folderJson) && (exists i :: 0 <= i < |stations| && modelsOf(stations[i]) != []) ==>
              sent == [] && r == Err(FolderUidKeyword)
    ensures FolderList(folderJson) && (forall i :: 0 <= i < |stations| ==> modelsOf(stations[i]) == []) ==>
              sent == [DM.PushRequest(dm)] && r == DM.Push(dm, res)
  {
    sent := [];
    for i := 0 to |stations|
      invariant forall j :: 0 <= j < i ==> modelsOf(stations[j]) == []
    {
      var uid := StationUid(stations[i].name, folderJson);
      if uid.Err? {
        if FolderList(folderJson) {
          StationUidSpec(stations[i].name, folderJson);
        }
        return sent, Err(uid.error);
      }
      var models := modelsOf(stations[i]);
      if |models| > 0 {
        var panels := BuildPanels(bucket, stations[i], models[0], parametersOf(models[0]));
        var dashboard := Dashboard(models[0].model, models[0].description, [models[0].model], "browser", panels);
        return sent, Err(FolderUidKeyword);
      }
    }
    sent := [DM.PushRequest(dm)];
    r := DM.Push(dm, res);
  }

  /** The dashboard `add_dashboards` builds for one instrument model of a station. */
  function DashboardFor(bucket: string, station: Station, im: InstrumentModel, parameters: seq<Parameter>): Dashboard {
    Dashboard(im.model, im.description, [im.model], "browser",
              seq(|parameters|, i requires 0 <= i < |parameters| => PanelFor(bucket, station, im, parameters[i])))
  }

  /** The station and instrument model whose dashboard is added last: the last model of
      the last station that has any. */
  function LastPlaced(stations: seq<Station>, modelsOf: Station -> seq<InstrumentModel>): Option<(nat, InstrumentModel)>
    decreases |stations|
  {
    if |stations| == 0 then None
    else
      var models := modelsOf(stations[|stations| - 1]);
      if |models| > 0 then Some((|stations| - 1, models[|models| - 1]))
      else LastPlaced(stations[..|stations| - 1], modelsOf)
  }

  /** `LastPlaced` names a station that has models, with its last model, and no later
      station has any; it is `None` exactly when no station has a model. */
  lemma {:induction false} LastPlacedSpec(stations: seq<Station>, modelsOf: Station -> seq<InstrumentModel>)
    ensures LastPlaced(stations, modelsOf).None? <==> forall i :: 0 <= i < |stations| ==> modelsOf(stations[i]) == []
    ensures LastPlaced(stations, modelsOf).Some? ==>
      var k := LastPlaced(stations, modelsOf).value.0;
      && k < |stations| && |modelsOf(stations[k])| > 0
      && LastPlaced(stations, modelsOf).value.1 == modelsOf(stations[k])[|modelsOf(stations[k])| - 1]
      && forall j :: k < j < |stations| ==> modelsOf(stations[j]) == []
    decreases |stations|
  {
    if |stations| > 0 && |modelsOf(stations[|stations| - 1])| == 0 {
      var front := stations[..|stations| - 1];
      LastPlacedSpec(front, modelsOf);
      assert forall i :: 0 <= i < |front| ==> front[i] == stations[i];
    }
  }

  /** A station's folder uid, `None` when the lookup raises (which a folder list never does). */
  function UidValue(name: string, folderJson: Json): Json {
    match StationUid(name, folderJson)
    case Ok(u) => u
    case Err(_) => JNull
  }

  /** The intended manager after the loops of `add_dashboards`: the last dashboard built,
      filed in its station's folder. */
  function Placed(dm: DM.FiledManager, stations: seq<Station>, modelsOf: Station -> seq<InstrumentModel>,
                  parametersOf: InstrumentModel -> seq<Parameter>, bucket: string, toJson: Dashboard -> Json,
                  folderJson: Json): DM.FiledManager
  {
    match LastPlaced(stations, modelsOf)
    case None => dm
    case Some(p) =>
      if p.0 < |stations| then
        DM.AddDashboardTo(dm, toJson(DashboardFor(bucket, stations[p.0], p.1, parametersOf(p.1))),
                          UidValue(stations[p.0].name, folderJson))
      else dm
  }

  /** The loops of the intended `add_dashboards`: every station's uid is looked up and
      each of its models' dashboards is added with it; `failed` is the first station whose
      lookup raises. */
  method FileStations(dm: DM.FiledManager, folderJson: Json, stations: seq<Station>,
                      modelsOf: Station -> seq<InstrumentModel>, parametersOf: InstrumentModel -> seq<Parameter>,
                      bucket: string, toJson: Dashboard -> Json)
    returns (m: DM.FiledManager, failed: Option<nat>)
    ensures failed.None? <==> forall i :: 0 <= i < |stations| ==> StationUid(stations[i].name, folderJson).Ok?
    ensures failed.None? ==> m == Placed(dm, stations, modelsOf, parametersOf, bucket, toJson, folderJson)
    ensures failed.Some? ==> && failed.value < |stations| && StationUid(stations[failed.value].name, folderJson).Err?
                             && forall j :: 0 <= j < failed.value ==> StationUid(stations[j].name, folderJson).Ok?
  {
    m := dm;
    for i := 0 to |stations|
      invariant forall j :: 0 <= j < i ==> StationUid(stations[j].name, folderJson).Ok?
      invariant m == Placed(dm, stations[..i], modelsOf, parametersOf, bucket, toJson, folderJson)
    {
      var uid := StationUid(stations[i].name, folderJson);
      if uid.Err? {
        return m, Some(i);
      }
      m := AddStationDashboards(m, stations[i], modelsOf(stations[i]), parametersOf, bucket, toJson, uid.value);
      PlacedStep(dm, stations, i, modelsOf, parametersOf, bucket, toJson, folderJson);
    }
    assert stations[..|stations|] == stations;
    failed := None;
  }

  /** `add_dashboards` with the evidently intended `add_dashboard(dashboard, folder_uid)`:
      every dashboard is added with its station's folder, then the manager is pushed.
      grafanalib's `to_json_data` is the parameter `toJson`. */
  method AddDashboardsFiled(dm: DM.FiledManager, folderJson: Json, stations: seq<Station>,
                            modelsOf: Station -> seq<InstrumentModel>, parametersOf: InstrumentModel -> seq<Parameter>,
                            bucket: string, toJson: Dashboard -> Json, res: Response)
    returns (sent: seq<Request>, r: Result<Response, Error>)
    ensures (forall i :: 0 <= i < |stations| ==> StationUid(stations[i].name, folderJson).Ok?) ==>
              && sent == [DM.FiledPushRequest(Placed(dm, stations, modelsOf, parametersOf, bucket, toJson, folderJson))]
              && r == CheckPost(res, false)
    ensures (exists i :: 0 <= i < |stations| && StationUid(stations[i].name, folderJson).Err?) ==>
              && sent == []
              && exists i :: && 0 <= i < |stations| && StationUid(stations[i].name, folderJson).Err?
                             && (forall j :: 0 <= j < i ==> StationUid(stations[j].name, folderJson).Ok?)
                             && r == Err(StationUid(stations[i].name, folderJson).error)
  {
    var m, failed := FileStations(dm, folderJson, stations, modelsOf, parametersOf, bucket, toJson);
    if failed.Some? {
      var i := failed.value;
      return [], Err(StationUid(stations[i].name, folderJson).error);
    }
    sent := [DM.FiledPushRequest(m)];
    r := CheckPost(res, false);
  }

  /** The inner loop of the intended `add_dashboards` for one station: each model's
      dashboard replaces the one held, filed in the station's folder. */
  method AddStationDashboards(m: DM.FiledManager, station: Station, models: seq<InstrumentModel>,
                              parametersOf: InstrumentModel -> seq<Parameter>, bucket: string,
                              toJson: Dashboard -> Json, uid: Json)
    returns (next: DM.FiledManager)
    ensures |models| == 0 ==> next == m
    ensures |models| > 0 ==>
      next == DM.AddDashboardTo(m, toJson(DashboardFor(bucket, station, models[|models| - 1], parametersOf(models[|models| - 1]))), uid)
  {
    next := m;
    for j := 0 to |models|
      invariant next.url == m.url
      invariant j == 0 ==> next == m
      invariant j > 0 ==> next == DM.AddDashboardTo(m, toJson(DashboardFor(bucket, station, models[j - 1], parametersOf(models[j - 1]))), uid)
    {
      var panels := BuildPanels(bucket, station, models[j], parametersOf(models[j]));
      var dashboard := Dashboard(models[j].model, models[j].description, [models[j].model], "browser", panels);
      assert dashboard == DashboardFor(bucket, station, models[j], parametersOf(models[j]));
      next := DM.AddDashboardTo(next, toJson(dashboard), uid);
    }
  }

  /** One more station: the manager is unchanged if it has no model, and otherwise holds
      its last model's dashboard in its folder. */
  lemma PlacedStep(dm: DM.FiledManager, stations: seq<Station>, i: nat, modelsOf: Station -> seq<InstrumentModel>,
                   parametersOf: InstrumentModel -> seq<Parameter>, bucket: string, toJson: Dashboard -> Json,
                   folderJson: Json)
    requires i < |stations|
    ensures var models := modelsOf(stations[i]);
      var next := Placed(dm, stations[..i + 1], modelsOf, parametersOf, bucket, toJson, folderJson);
      && (|models| == 0 ==> next == Placed(dm, stations[..i], modelsOf, parametersOf, bucket, toJson, folderJson))
      && (|models| > 0 ==> next == DM.AddDashboardTo(dm, toJson(DashboardFor(bucket, stations[i], models[|models| - 1],
                                                                parametersOf(models[|models| - 1]))),
                                                     UidValue(stations[i].name, folderJson)))
  {
    var front, grown := stations[..i], stations[..i + 1];
    assert grown[..i] == front && grown[i] == stations[i];
    LastPlacedSpec(front, modelsOf);
    if LastPlaced(front, modelsOf).Some? {
      assert grown[LastPlaced(front, modelsOf).value.0] == front[LastPlaced(front, modelsOf).value.0];
    }
  }

  /** With the intended `add_dashboard`, a folder list makes the run post the last dashboard
      built, in the folder of its own station, and the empty dashboard in no folder when no
      station has a model. */
  lemma FiledIntoStationFolder(dm: DM.FiledManager, folderJson: Json, stations: seq<Station>,
                               modelsOf: Station -> seq<InstrumentModel>, parametersOf: InstrumentModel -> seq<Parameter>,
                               bucket: string, toJson: Dashboard -> Json)
    requires FolderList(folderJson) && dm == DM.NewFiled(dm.url)
    ensures forall i :: 0 <= i < |stations| ==> StationUid(stations[i].name, folderJson).Ok?
    ensures var body := DM.FiledPushRequest(Placed(dm, stations, modelsOf, parametersOf, bucket, toJson, folderJson)).body;
      match LastPlaced(stations, modelsOf)
      case None => DM.DashboardOf(body) == Some(JObj([])) && DM.FolderOf(body) == Some(JStr(""))
      case Some(p) =>
        && p.0 < |stations|
        && DM.DashboardOf(body) == Some(toJson(DashboardFor(bucket, stations[p.0], p.1, parametersOf(p.1))))
        && DM.FolderOf(body) == Some(StationUid(stations[p.0].name, folderJson).value)
  {
    forall i | 0 <= i < |stations|
      ensures StationUid(stations[i].name, folderJson).Ok?
    {
      StationUidSpec(stations[i].name, folderJson);
    }
    LastPlacedSpec(stations, modelsOf);
    var m := Placed(dm, stations, modelsOf, parametersOf, bucket, toJson, folderJson);
    DM.EnvelopeInSpec(m.config, m.folderUid);
  }

  /** The folder each station gets. */
  function StationFolders(stations: seq<Station>): (r: seq<Json>)
    ensures |r| == |stations|
    ensures forall i :: 0 <= i < |stations| ==> r[i] == ContactAddons.FolderJson(ContactAddons.Folder(stations[i].name, None))
  {
    seq(|stations|, i requires 0 <= i < |stations| => ContactAddons.FolderJson(ContactAddons.Folder(stations[i].name, None)))
  }

  /** Each station's folder is the dictionary `{"title": <station name>}`: the name is the
      title the uid lookup later matches, and no uid is sent, so Grafana picks one. */
  lemma StationFoldersTitled(stations: seq<Station>)
    ensures var r := StationFolders(stations);
      forall i :: 0 <= i < |stations| ==>
        && r[i] == JObj([("title", JStr(stations[i].name))])
        && TitleIs(r[i], stations[i].name)
        && !HasKey(r[i].fields, "uid")
  {
    forall i | 0 <= i < |stations|
      ensures StationFolders(stations)[i] == JObj([("title", JStr(stations[i].name))])
    {
      ContactAddons.FolderJsonSpec(ContactAddons.Folder(stations[i].name, None));
    }
  }

  /** `create_folders` over the answers `net`: one folder per station is queued behind
      what the manager holds, then the whole queue is pushed. */
  method CreateFolders(fm: FM.Manager, stations: seq<Station>, net: Network)
    returns (queued: FM.Manager, sent: seq<Request>, r: Result<seq<Response>, Error>)
    ensures queued == fm.(queue := fm.queue + StationFolders(stations))
    ensures r.Ok? <==> FM.AcceptedUpTo(net, |queued.queue|)
    ensures r.Ok? ==> sent == FM.Requests(fm.url, queued.queue)
  {
    queued := fm;
    for i := 0 to |stations|
      invariant queued == fm.(queue := fm.queue + StationFolders(stations[..i]))
    {
      assert StationFolders(stations[..i + 1]) == StationFolders(stations[..i]) + [StationFolders(stations)[i]];
      queued := FM.AddFolder(queued, FM.TypedFolder(ContactAddons.Folder(stations[i].name, None)));
    }
    assert stations[..|stations|] == stations;
    sent, r := FM.Push(queued, net);
  }

  /** Every request the handler answers before the dashboards: the folder GET, the folder
      posts and the folder GET again, were accepted. */
  predicate FoldersAccepted(net: Network, n: nat) {
    forall k: nat :: k <= n + 1 ==> IsAcceptable(net(k).status)
  }

  /** The requests of a run that reaches the dashboards. */
  function FolderPhase(url: string, stations: seq<Station>): seq<Request> {
    [GET(FM.Endpoint(url))] + FM.Requests(url, StationFolders(stations)) + [GET(FM.Endpoint(url))]
  }

  /** `create_grafana_dashboards` over the answers `net`: an update does nothing; a
      creation queues and pushes one folder per station BEFORE fetching the folders, and
      only then turns to the dashboards. Since `add_dashboard` rejects its `folder_uid`
      argument, the run raises as soon as a station has an instrument model, and otherwise
      posts the empty dashboard. */
  method CreateDashboards(created: bool, url: string, bucket: string, stations: seq<Station>,
                          modelsOf: Station -> seq<InstrumentModel>, parametersOf: InstrumentModel -> seq<Parameter>,
                          net: Network)
    returns (sent: seq<Request>, r: Result<(), Error>)
    ensures !created ==> sent == [] && r == Ok(())
    ensures created ==> |sent| >= 1 && sent[0] == GET(FM.Endpoint(url))
    ensures created && r.Ok? ==>
              && sent == FolderPhase(url, stations) + [DM.PushRequest(DM.New(url))]
              && forall i :: 0 <= i < |stations| ==> modelsOf(stations[i]) == []
    ensures created && FoldersAccepted(net, |stations|) && FolderList(net(|stations| + 1).body) ==>
              if exists i :: 0 <= i < |stations| && modelsOf(stations[i]) != []
              then sent == FolderPhase(url, stations) && r == Err(FolderUidKeyword)
              else sent == FolderPhase(url, stations) + [DM.PushRequest(DM.New(url))]
                   && (r.Ok? <==> IsAcceptable(net(|stations| + 2).status))
  {
    if !created {
      return [], Ok(());
    }
    var n := |stations|;
    var dm := DM.New(url);
    sent := [GET(FM.Endpoint(url))];
    var fm0 := FM.New(url, net(0));
    if fm0.Err? {
      return sent, Err(fm0.error);
    }
    var pushNet: Network := (k: nat) => net(1 + k);
    var fm, posted, pushed := CreateFolders(fm0.value, stations, pushNet);
    if FoldersAccepted(net, n) {
      assert FM.AcceptedUpTo(pushNet, n);
    }
    sent := sent + posted;
    if pushed.Err? {
      return sent, Err(pushed.error);
    }
    sent := sent + [GET(FM.Endpoint(url))];
    assert sent == FolderPhase(url, stations);
    var fetched := FM.Fetch(fm, net(n + 1));
    if fetched.Err? {
      return sent, Err(fetched.error);
    }
    var dashSent, dashRes := AddDashboards(dm, fetched.value.fetched, stations, modelsOf, parametersOf, bucket, net(n + 2));
    sent := sent + dashSent;
    if dashRes.Err? {
      return sent, Err(dashRes.error);
    }
    r := Ok(());
  }
}
