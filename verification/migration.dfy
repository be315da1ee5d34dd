/** `GrafanaAlertMigrator6to9._get_alert_rule_payload`
    (ccres_api/services/grafana_api/migrators/6to9.py): a Grafana 6 alert, whose queries sit
    inside its classic conditions, becomes a Grafana 9 alert rule holding one query per
    condition followed by one classic-condition expression over those queries. The three
    lookups that go through the two sessions are parameters. */
module AlertMigration {
  import opened Wrappers
  import opened Dict
  import opened Strings
  import opened Json
  import opened Exceptions
  import Loops

  /** What the payload needs from the two Grafanas: the folder of the alert's dashboard
      (`_get_folder_uid`), the new uid of an old datasource id (`_get_datasource_uid_from_id`)
      and `_string_to_time`. Each of them may raise. */
  datatype Lookups = Lookups(
    folderUid: Result<Json, Error>,
    datasourceUid: Json -> Result<Json, Error>,
    toTime: Json -> Result<int, Error>)

  /** One query taken out of a condition. */
  datatype Query = Query(datasourceUid: Json, model: Json, refId: Json, from: int, to: int)

  /** The rule, before it is written out as a dictionary. `conditions` are the classic
      conditions with their queries replaced; `condition` is the expression's refId. */
  datatype Rule = Rule(
    dashboardUid: Json, panelId: Json,
    folderUid: Json, title: Json, forDuration: Json, orgId: Json,
    queries: seq<Query>, conditions: seq<Json>, condition: string, interval: Json)

  const ExpressionUid := "-100"
  const ClassicType := "classic_conditions"
  const RuleGroup := "SIRTA"

  /** The query of one condition; the time range comes from its second and third params. */
  function QueryOf(cond: Json, lk: Lookups): (r: Result<Query, Error>)
    ensures r.Ok? ==> cond.JObj?
  {
    var query :- Index(cond, "query");
    var id :- Index(query, "datasourceId");
    var uid :- lk.datasourceUid(id);
    var model :- Index(query, "model");
    var refId :- Index(model, "refId");
    var params :- Index(query, "params");
    var p1 :- At(params, 1);
    var from :- lk.toTime(p1);
    var p2 :- At(params, 2);
    var to :- lk.toTime(p2);
    Ok(Query(uid, model, refId, from, to))
  }

  /** Each condition's query, or the exception it raises. */
  function Outcomes(conds: seq<Json>, lk: Lookups): (r: seq<Result<Query, Error>>)
    ensures |r| == |conds| && forall i :: 0 <= i < |conds| ==> r[i] == QueryOf(conds[i], lk)
  {
    seq(|conds|, i requires 0 <= i < |conds| => QueryOf(conds[i], lk))
  }

  /** The first loop: the conditions' queries in order, or the first exception. */
  function Queries(conds: seq<Json>, lk: Lookups): Result<seq<Query>, Error> {
    Loops.Collect(Outcomes(conds, lk))
  }

  /** The queries are the conditions' own, in order; an alert whose conditions all give a
      query has them all read, and a condition that fails leaves the loop with its exception. */
  lemma QueriesSpec(conds: seq<Json>, lk: Lookups)
    ensures var r := Queries(conds, lk);
      && (r.Ok? <==> forall i :: 0 <= i < |conds| ==> QueryOf(conds[i], lk).Ok?)
      && (r.Ok? ==> |r.value| == |conds| && forall i :: 0 <= i < |conds| ==> QueryOf(conds[i], lk) == Ok(r.value[i]))
      && (r.Err? ==> exists i :: && 0 <= i < |conds| && QueryOf(conds[i], lk).Err?
                                 && (forall j :: 0 <= j < i ==> QueryOf(conds[j], lk).Ok?)
                                 && r.error == QueryOf(conds[i], lk).error)
  {
    Loops.CollectSpec(Outcomes(conds, lk));
  }

  /** The second loop's edit of one condition: its `query` becomes `{"params": [refId]}`. */
  function Reparam(cond: Json, q: Query): (r: Json)
    requires cond.JObj?
  {
    JObj(Put(cond.fields, "query", JObj([("params", JArr([q.refId]))])))
  }

  /** The edited condition points at its query by refId and keeps every other key. */
  lemma ReparamSpec(cond: Json, q: Query)
    requires cond.JObj?
    ensures var r := Reparam(cond, q);
      && r.JObj?
      && Get(r.fields, "query") == Some(JObj([("params", JArr([q.refId]))]))
      && forall k :: k != "query" ==> Get(r.fields, k) == Get(cond.fields, k)
  {
  }

  function Reparams(conds: seq<Json>, qs: seq<Query>): (r: seq<Json>)
    requires |conds| == |qs| && forall i :: 0 <= i < |conds| ==> conds[i].JObj?
    ensures |r| == |conds|
  {
    seq(|conds|, i requires 0 <= i < |conds| => Reparam(conds[i], qs[i]))
  }

  /** `chr(ord(last) + 1)`: `ord` needs a one-character string. A code point that would land
      on a surrogate is refused, because a string here cannot hold one. */
  function NextRefId(last: Json): (r: Result<string, Error>)
    ensures r.Ok? <==> last.JStr? && |last.s| == 1 && !(0xD7FF <= last.s[0] as int < 0xDFFF) && last.s[0] as int < 0x10FFFF
    ensures r.Ok? ==> |r.value| == 1 && r.value[0] as int == last.s[0] as int + 1
  {
    if !last.JStr? then Err(TypeError("ord() expected string of length 1, but " + TypeName(last) + " found"))
    else if |last.s| != 1 then Err(TypeError("ord() expected a character, but string of length " + IntToString(|last.s|) + " found"))
    else
      var n := last.s[0] as int + 1;
      if n >= 0x110000 then Err(ValueError("chr() arg not in range(0x110000)"))
      else if 0xD800 <= n < 0xE000 then Err(ValueError("surrogate"))
      else Ok([n as char])
  }

  /** Letters step to the next letter, and the step is undone by going one code point back. */
  lemma NextRefIdLetters(c: char)
    requires 'A' <= c < 'Z'
    ensures NextRefId(JStr([c])) == Ok([(c as int + 1) as char])
    ensures NextRefId(JStr("A")) == Ok("B")
  {
  }

  /** The conditions of an alert's settings, as the loops visit them. */
  function Conditions(details: Json): Result<seq<Json>, Error> {
    var settings :- Index(details, "Settings");
    var conds :- Index(settings, "conditions");
    Iterate(conds)
  }

  /** What the payload reads before the conditions, in that order. */
  datatype Header = Header(dashboardUid: Json, panelId: Json, folderUid: Json, title: Json,
                           forDuration: Json, orgId: Json, settings: Json)

  function ReadHeader(details: Json, alert: Json, lk: Lookups): (r: Result<Header, Error>)
    ensures r.Ok? ==> Index(alert, "dashboardUid") == Ok(r.value.dashboardUid) && Index(alert, "panelId") == Ok(r.value.panelId)
  {
    var dashboardUid :- Index(alert, "dashboardUid");
    var panelId :- Index(alert, "panelId");
    var folderUid :- lk.folderUid;
    var title :- Index(details, "Name");
    var settings :- Index(details, "Settings");
    var forDuration :- Index(settings, "for");
    var orgId :- Index(details, "OrgId");
    Ok(Header(dashboardUid, panelId, folderUid, title, forDuration, orgId, settings))
  }

  /** What the two loops and the refId step produce. */
  datatype Body = Body(queries: seq<Query>, conditions: seq<Json>, condition: string)

  /** The loops over the conditions. */
  function ReadBody(details: Json, lk: Lookups): Result<Body, Error> {
    var conds :- Conditions(details);
    var qs :- Queries(conds, lk);
    QueriesSpec(conds, lk);
    if |qs| == 0 then Err(IndexError)
    else
      var next := NextRefId(qs[|qs| - 1].refId);
      if next.Err? then Err(next.error) else Ok(Body(qs, Reparams(conds, qs), next.value))
  }

  /** One query per condition, each taken from its own condition, the conditions edited to
      point at them, and an expression refId that follows the last query's. Without
      conditions, `Data[-1]` raises. */
  lemma ReadBodySpec(details: Json, lk: Lookups)
    ensures var r := ReadBody(details, lk);
      && (r.Ok? ==> Conditions(details).Ok?)
      && (r.Ok? ==> var conds := Conditions(details).value;
           && |r.value.queries| == |conds| > 0 && |r.value.conditions| == |conds|
           && (forall i :: 0 <= i < |conds| ==> QueryOf(conds[i], lk) == Ok(r.value.queries[i]))
           && (forall i :: 0 <= i < |conds| ==> conds[i].JObj? && r.value.conditions[i] == Reparam(conds[i], r.value.queries[i]))
           && NextRefId(r.value.queries[|conds| - 1].refId) == Ok(r.value.condition))
      && (Conditions(details) == Ok([]) ==> r == Err(IndexError))
  {
    if ReadBody(details, lk).Ok? {
      ReadBodyOk(details, lk);
    }
    if Conditions(details) == Ok([]) {
      QueriesSpec([], lk);
    }
  }

  lemma ReadBodyOk(details: Json, lk: Lookups)
    requires ReadBody(details, lk).Ok?
    ensures Conditions(details).Ok?
    ensures var b := ReadBody(details, lk).value;
      var conds := Conditions(details).value;
      && |b.queries| == |conds| > 0 && |b.conditions| == |conds|
      && (forall i :: 0 <= i < |conds| ==> QueryOf(conds[i], lk) == Ok(b.queries[i]))
      && (forall i :: 0 <= i < |conds| ==> conds[i].JObj? && b.conditions[i] == Reparam(conds[i], b.queries[i]))
      && NextRefId(b.queries[|conds| - 1].refId) == Ok(b.condition)
  {
    var conds := Conditions(details).value;
    var qs := Queries(conds, lk).value;
    QueriesSpec(conds, lk);
    var next := NextRefId(qs[|qs| - 1].refId);
    assert ReadBody(details, lk) == Ok(Body(qs, Reparams(conds, qs), next.value));
  }

  /** `_get_alert_rule_payload(alert_details, alert)`: `frequency` is read last. */
  function Payload(details: Json, alert: Json, lk: Lookups): Result<Rule, Error> {
    var h :- ReadHeader(details, alert, lk);
    var b :- ReadBody(details, lk);
    var interval :- Index(h.settings, "frequency");
    Ok(Rule(h.dashboardUid, h.panelId, h.folderUid, h.title, h.forDuration, h.orgId,
            b.queries, b.conditions, b.condition, interval))
  }

  /** A rule is made of what the header and the loops read; it keeps the alert's dashboard
      uid and panel id for the annotations. */
  lemma PayloadSpec(details: Json, alert: Json, lk: Lookups)
    requires Payload(details, alert, lk).Ok?
    ensures ReadHeader(details, alert, lk).Ok? && ReadBody(details, lk).Ok?
    ensures var p := Payload(details, alert, lk).value;
      var b := ReadBody(details, lk).value;
      && p.queries == b.queries && p.conditions == b.conditions && p.condition == b.condition
      && Index(alert, "dashboardUid") == Ok(p.dashboardUid) && Index(alert, "panelId") == Ok(p.panelId)
  {
    var h := ReadHeader(details, alert, lk).value;
    assert Payload(details, alert, lk).value.dashboardUid == h.dashboardUid;
    assert Payload(details, alert, lk).value.panelId == h.panelId;
  }

  /** An alert without conditions fails on `payload["Data"][-1]` once its header was read. */
  lemma NoConditionsFails(details: Json, alert: Json, lk: Lookups)
    requires Conditions(details) == Ok([])
    ensures Payload(details, alert, lk).Err?
    ensures ReadHeader(details, alert, lk).Ok? ==> Payload(details, alert, lk) == Err(IndexError)
  {
  }

  const QueryKeys := ["DatasourceUID", "Model", "QueryType", "RefId", "relativeTimeRange"]

  function Range(from: int, to: int): Json {
    JObj([("from", JInt(from)), ("to", JInt(to))])
  }

  /** `Data`'s entry for a query. */
  function QueryJson(q: Query): Json {
    JObj(Zip(QueryKeys, [q.datasourceUid, q.model, JStr(""), q.refId, Range(q.from, q.to)]))
  }

  const ExpressionSource := JObj([("name", JStr("Expression")), ("type", JStr("__expr__")), ("uid", JStr("__expr__"))])

  const ClassicKeys := ["DatasourceUid", "Model", "RefId", "relativeTimeRange"]
  const ModelKeys := ["conditions", "datasource", "type", "refId"]

  function ClassicModel(conditions: seq<Json>, refId: string): Json {
    JObj(Zip(ModelKeys, [JArr(conditions), ExpressionSource, JStr(ClassicType), JStr(refId)]))
  }

  /** `Data`'s last entry: the classic condition over the queries. */
  function ClassicJson(conditions: seq<Json>, refId: string): Json {
    JObj(Zip(ClassicKeys, [JStr(ExpressionUid), ClassicModel(conditions, refId), JStr(refId), Range(600, 0)]))
  }

  function DataJson(p: Rule): (r: seq<Json>)
    ensures |r| == |p.queries| + 1
  {
    seq(|p.queries|, i requires 0 <= i < |p.queries| => QueryJson(p.queries[i])) + [ClassicJson(p.conditions, p.condition)]
  }

  /** The payload's keys, in the order the code assigns them. */
  const RuleKeys := ["Annotations", "FolderUID", "Title", "for", "OrgID", "ExecErrState", "NoDataState",
                     "Labels", "RuleGroup", "Data", "interval", "Condition"]

  function Annotations(p: Rule): Json {
    JObj([("__dashboardUid__", JStr(Str(p.dashboardUid))), ("__panelId__", JStr(Str(p.panelId)))])
  }

  const DefaultLabels := JObj([("default", JStr("default"))])

  function RuleValues(p: Rule): seq<Json> {
    [Annotations(p), p.folderUid, p.title, p.forDuration, p.orgId, JStr("Error"), JStr("NoData"),
     DefaultLabels, JStr(RuleGroup), JArr(DataJson(p)), p.interval, JStr(p.condition)]
  }

  /** The payload dictionary. */
  function RuleJson(p: Rule): Json {
    JObj(Zip(RuleKeys, RuleValues(p)))
  }

  lemma RuleKeysDistinct()
    ensures Distinct(RuleKeys)
  {
  }

  /** Each payload key maps to its own value. */
  lemma RuleField(p: Rule, i: int)
    requires 0 <= i < |RuleKeys|
    ensures Get(RuleJson(p).fields, RuleKeys[i]) == Some(RuleValues(p)[i])
  {
    RuleKeysDistinct();
    ZipGet(RuleKeys, RuleValues(p), i);
  }

  lemma RuleKeysAt()
    ensures RuleKeys[0] == "Annotations" && RuleKeys[5] == "ExecErrState" && RuleKeys[6] == "NoDataState"
    ensures RuleKeys[7] == "Labels" && RuleKeys[8] == "RuleGroup" && RuleKeys[9] == "Data" && RuleKeys[11] == "Condition"
  {
  }

  lemma ClassicKeysDistinct()
    ensures Distinct(ClassicKeys) && Distinct(ModelKeys)
  {
  }

  /** The states a Grafana 6 alert does not have are fixed. */
  lemma RuleJsonStates(p: Rule)
    ensures var f := RuleJson(p).fields;
      && Get(f, "ExecErrState") == Some(JStr("Error"))
      && Get(f, "NoDataState") == Some(JStr("NoData"))
  {
    RuleKeysAt();
    RuleField(p, 5);
    RuleField(p, 6);
  }

  /** The labels and the rule group are fixed, and the annotations are the `str` of the
      alert's dashboard uid and panel id. */
  lemma RuleJsonLabels(p: Rule)
    ensures var f := RuleJson(p).fields;
      && Get(f, "Labels") == Some(JObj([("default", JStr("default"))]))
      && Get(f, "RuleGroup") == Some(JStr("SIRTA"))
      && Get(f, "Annotations") == Some(JObj([("__dashboardUid__", JStr(Str(p.dashboardUid))), ("__panelId__", JStr(Str(p.panelId)))]))
  {
    RuleKeysAt();
    RuleField(p, 0);
    RuleField(p, 7);
    RuleField(p, 8);
  }

  /** `Data` holds one entry per query, in order, then exactly one classic entry, and the
      rule's `Condition` is that entry's refId. */
  lemma RuleJsonData(p: Rule)
    ensures var f := RuleJson(p).fields;
      var data := DataJson(p);
      && Get(f, "Data") == Some(JArr(data))
      && Get(f, "Condition") == Some(JStr(p.condition))
      && (forall i :: 0 <= i < |p.queries| ==> data[i] == QueryJson(p.queries[i]))
      && data[|p.queries|] == ClassicJson(p.conditions, p.condition)
  {
    RuleKeysAt();
    RuleField(p, 9);
    RuleField(p, 11);
  }

  /** The classic entry: the expression datasource, the refId (which its model repeats), a
      fixed ten-minute range, and a `classic_conditions` model over the edited conditions. */
  lemma ClassicJsonSpec(conditions: seq<Json>, refId: string)
    ensures var f := ClassicJson(conditions, refId).fields;
      var m := ClassicModel(conditions, refId).fields;
      && Get(f, "RefId") == Some(JStr(refId))
      && Get(f, "DatasourceUid") == Some(JStr("-100"))
      && Get(f, "relativeTimeRange") == Some(JObj([("from", JInt(600)), ("to", JInt(0))]))
      && Get(f, "Model") == Some(ClassicModel(conditions, refId))
      && Get(m, "type") == Some(JStr("classic_conditions"))
      && Get(m, "refId") == Some(JStr(refId))
      && Get(m, "conditions") == Some(JArr(conditions))
  {
    ClassicKeysDistinct();
    var cvals := [JStr(ExpressionUid), ClassicModel(conditions, refId), JStr(refId), Range(600, 0)];
    ZipGet(ClassicKeys, cvals, 0);
    ZipGet(ClassicKeys, cvals, 1);
    ZipGet(ClassicKeys, cvals, 2);
    ZipGet(ClassicKeys, cvals, 3);
    var mvals := [JArr(conditions), ExpressionSource, JStr(ClassicType), JStr(refId)];
    ZipGet(ModelKeys, mvals, 0);
    ZipGet(ModelKeys, mvals, 2);
    ZipGet(ModelKeys, mvals, 3);
  }
}

/** `GrafanaDashboardMigrator6to9.migrate` (same file): every folder of the old Grafana is
    posted to the new one, then each of its dashboards is read from the old Grafana and
    posted to the new one as a new dashboard of that folder. */
module DashboardMigration {
  import opened Wrappers
  import opened Dict
  import opened Strings
  import opened Json
  import opened Exceptions
  import opened AcceptableCodes
  import opened Http

  /** The folder statuses the migration lets through. Unlike `AcceptableCodes`, it does not
      include 202. */
  const FolderStatuses: seq<int> := [200, 409, 412]

  /** A folder's status passes the migration's check exactly when the managers would accept
      it and it is not 202. */
  lemma FolderStatusesVsAcceptable(status: int)
    ensures status in FolderStatuses <==> IsAcceptable(status) && status != 202
  {
    AcceptableExactly(status);
  }

  /** The folder posted to the new Grafana: only its title and uid. */
  function FolderPayload(folder: Json): (r: Result<Json, Error>)
    ensures r.Ok? ==> && r.value.JObj?
                      && Index(folder, "title").Ok? && Get(r.value.fields, "title") == Some(Index(folder, "title").value)
                      && Index(folder, "uid").Ok? && Get(r.value.fields, "uid") == Some(Index(folder, "uid").value)
                      && Keys(r.value.fields) == ["title", "uid"]
  {
    var title :- Index(folder, "title");
    var uid :- Index(folder, "uid");
    Ok(JObj([("title", title), ("uid", uid)]))
  }

  function FoldersUrl(newUrl: string): string {
    newUrl + "/folders/"
  }

  /** `search` with `params={"type": "dash-db", "folderIds": id}`. */
  function SearchUrl(baseUrl: string, id: Json): string {
    baseUrl + "/search?type=dash-db&folderIds=" + Str(id)
  }

  function DashboardUrl(baseUrl: string, uid: Json): string {
    baseUrl + "/dashboards/uid/" + Str(uid)
  }

  function DashboardsUrl(newUrl: string): string {
    newUrl + "/dashboards/db"
  }

  /** A body that posts a new dashboard: its `dashboard` is a dictionary whose `id` is `None`. */
  predicate NewDashboard(body: Json) {
    && body.JObj? && Get(body.fields, "dashboard").Some?
    && Get(body.fields, "dashboard").value.JObj?
    && Get(Get(body.fields, "dashboard").value.fields, "id") == Some(JNull)
  }

  /** The body posted for a dashboard fetched as `got`: its `dashboard` with `id` set to
      `None`, so that the new Grafana creates it, placed in the folder `folderUid`. */
  function DashboardPost(got: Json, folderUid: Json): (r: Result<Json, Error>)
    ensures r.Ok? ==> NewDashboard(r.value) && Get(r.value.fields, "folderUid") == Some(folderUid)
  {
    var dashboard :- Index(got, "dashboard");
    var cleared :- SetItem(dashboard, "id", JNull);
    Ok(JObj([("dashboard", cleared), ("folderUid", folderUid)]))
  }

  /** The posted dashboard is the fetched one with `id` set to `None` and nothing else
      changed; it is posted exactly when the fetched `dashboard` is a dictionary, and the
      body holds nothing but the dashboard and the folder. */
  lemma DashboardPostSpec(got: Json, folderUid: Json)
    ensures var r := DashboardPost(got, folderUid);
      && (r.Ok? <==> Index(got, "dashboard").Ok? && Index(got, "dashboard").value.JObj?)
      && (r.Ok? ==> && Keys(r.value.fields) == ["dashboard", "folderUid"]
                    && var d := Get(r.value.fields, "dashboard").value;
                       forall k :: k != "id" ==> Get(d.fields, k) == Get(Index(got, "dashboard").value.fields, k))
  {
  }

  /** A request of a folder's dashboard phase: any POST is a new dashboard into the folder. */
  predicate PostsInto(req: Request, newUrl: string, folderUid: Json) {
    req.POST? ==> req.url == DashboardsUrl(newUrl) && NewDashboard(req.body) && Get(req.body.fields, "folderUid") == Some(folderUid)
  }

  predicate AllInto(sent: seq<Request>, newUrl: string, folderUid: Json) {
    forall k :: 0 <= k < |sent| ==> PostsInto(sent[k], newUrl, folderUid)
  }

  /** A request of the migration: any POST to the dashboards endpoint is a new dashboard. */
  predicate PostsNew(req: Request, newUrl: string) {
    req.POST? && req.url == DashboardsUrl(newUrl) ==> NewDashboard(req.body)
  }

  predicate AllNew(sent: seq<Request>, newUrl: string) {
    forall k :: 0 <= k < |sent| ==> PostsNew(sent[k], newUrl)
  }

  lemma AllIntoAppend(a: seq<Request>, b: seq<Request>, newUrl: string, folderUid: Json)
    requires AllInto(a, newUrl, folderUid) && AllInto(b, newUrl, folderUid)
    ensures AllInto(a + b, newUrl, folderUid)
  {
    forall k | 0 <= k < |a + b|
      ensures PostsInto((a + b)[k], newUrl, folderUid)
    {
      if k >= |a| {
        assert (a + b)[k] == b[k - |a|];
      }
    }
  }

  lemma AllNewAppend(a: seq<Request>, b: seq<Request>, newUrl: string)
    requires AllNew(a, newUrl) && AllNew(b, newUrl)
    ensures AllNew(a + b, newUrl)
  {
    forall k | 0 <= k < |a + b|
      ensures PostsNew((a + b)[k], newUrl)
    {
      if k >= |a| {
        assert (a + b)[k] == b[k - |a|];
      }
    }
  }

  /** The folder's own POST is not a dashboard's, so a folder phase posts only new dashboards. */
  lemma FolderPhaseNew(folderPost: Json, rest: seq<Request>, newUrl: string, folderUid: Json)
    requires AllInto(rest, newUrl, folderUid)
    ensures AllNew([POST(FoldersUrl(newUrl), folderPost)] + rest, newUrl)
  {
    assert |FoldersUrl(newUrl)| != |DashboardsUrl(newUrl)|;
    var all := [POST(FoldersUrl(newUrl), folderPost)] + rest;
    forall k | 0 <= k < |all|
      ensures PostsNew(all[k], newUrl)
    {
      if k > 0 {
        assert all[k] == rest[k - 1];
      }
    }
  }

  /** One dashboard: its GET from the old Grafana, answered by `res`, then the POST of its
      cleared copy into the folder. */
  method MigrateDashboard(baseUrl: string, newUrl: string, dashboard: Json, folderUid: Json, res: Response)
    returns (sent: seq<Request>, r: Result<(), Error>)
    ensures AllInto(sent, newUrl, folderUid)
    ensures Index(dashboard, "uid").Err? ==> sent == [] && r == Err(Index(dashboard, "uid").error)
    ensures Index(dashboard, "uid").Ok? ==> |sent| >= 1 && sent[0] == GET(DashboardUrl(baseUrl, Index(dashboard, "uid").value))
    ensures r.Ok? <==> Index(dashboard, "uid").Ok? && DashboardPost(res.body, folderUid).Ok?
    ensures r.Ok? ==> |sent| == 2 && sent[1] == POST(DashboardsUrl(newUrl), DashboardPost(res.body, folderUid).value)
  {
    var uid := Index(dashboard, "uid");
    if uid.Err? {
      return [], Err(uid.error);
    }
    var get := GET(DashboardUrl(baseUrl, uid.value));
    var post := DashboardPost(res.body, folderUid);
    if post.Err? {
      assert PostsInto(get, newUrl, folderUid);
      return [get], Err(post.error);
    }
    PostedInto(get, newUrl, post.value, folderUid);
    return [get, POST(DashboardsUrl(newUrl), post.value)], Ok(());
  }

  /** A GET followed by the POST of a new dashboard into the folder stays in the folder. */
  lemma PostedInto(get: Request, newUrl: string, body: Json, folderUid: Json)
    requires get.GET?
    requires NewDashboard(body) && Get(body.fields, "folderUid") == Some(folderUid)
    ensures AllInto([get, POST(DashboardsUrl(newUrl), body)], newUrl, folderUid)
  {
    assert PostsInto(get, newUrl, folderUid);
  }

  /** The dashboards of a folder, in order; the first exception stops the run. */
  method MigrateDashboards(baseUrl: string, newUrl: string, dashboards: seq<Json>, folderUid: Json, net: Network)
    returns (sent: seq<Request>, r: Result<(), Error>)
    ensures AllInto(sent, newUrl, folderUid)
    ensures r.Ok? ==> |sent| == 2 * |dashboards|
  {
    sent := [];
    for j := 0 to |dashboards|
      invariant |sent| == 2 * j
      invariant AllInto(sent, newUrl, folderUid)
    {
      var more, done := MigrateDashboard(baseUrl, newUrl, dashboards[j], folderUid, net(2 * j));
      AllIntoAppend(sent, more, newUrl, folderUid);
      sent := sent + more;
      if done.Err? {
        return sent, done;
      }
    }
    r := Ok(());
  }

  /** The check on the folder's POST: anything but 200, 409 or 412 raises, quoting the status
      and the content. */
  function CheckFolder(res: Response): (r: Result<(), Error>)
    ensures r.Ok? <==> res.status in FolderStatuses
  {
    if res.status !in FolderStatuses then Err(RequestException(IntToString(res.status) + " : " + res.content))
    else Ok(())
  }

  /** One folder's migration, over the answers `net`: the folder's POST comes first, and a
      refused folder stops everything before any dashboard is read; otherwise the folder's
      dashboards are searched, then migrated into it. */
  method MigrateFolder(baseUrl: string, newUrl: string, folder: Json, net: Network)
    returns (sent: seq<Request>, r: Result<(), Error>)
    ensures FolderPayload(folder).Err? ==> sent == [] && r == Err(FolderPayload(folder).error)
    ensures FolderPayload(folder).Ok? ==> |sent| >= 1 && sent[0] == POST(FoldersUrl(newUrl), FolderPayload(folder).value)
    ensures FolderPayload(folder).Ok? && net(0).status !in FolderStatuses ==>
              |sent| == 1 && r == CheckFolder(net(0))
    ensures r.Ok? ==> net(0).status in FolderStatuses
    ensures |sent| >= 1 ==> AllInto(sent[1..], newUrl, Index(folder, "uid").value)
    ensures AllNew(sent, newUrl)
  {
    var payload := FolderPayload(folder);
    if payload.Err? {
      return [], Err(payload.error);
    }
    var uid := Index(folder, "uid").value;
    var head := POST(FoldersUrl(newUrl), payload.value);
    var checked := CheckFolder(net(0));
    if checked.Err? {
      FolderPhaseNew(payload.value, [], newUrl, uid);
      return [head], checked;
    }
    var rest, done := FolderDashboards(baseUrl, newUrl, folder, uid, net);
    FolderPhaseNew(payload.value, rest, newUrl, uid);
    sent := [head] + rest;
    assert sent[1..] == rest;
    r := done;
  }

  /** A folder's dashboard phase, over the answers `net` (the folder's POST took the first):
      the search for its dashboards, then their migration into it. */
  method FolderDashboards(baseUrl: string, newUrl: string, folder: Json, folderUid: Json, net: Network)
    returns (sent: seq<Request>, r: Result<(), Error>)
    ensures AllInto(sent, newUrl, folderUid)
    ensures Index(folder, "id").Ok? ==> |sent| >= 1 && sent[0] == GET(SearchUrl(baseUrl, Index(folder, "id").value))
  {
    var id := Index(folder, "id");
    if id.Err? {
      return [], Err(id.error);
    }
    var search := GET(SearchUrl(baseUrl, id.value));
    var dashboards := Iterate(net(1).body);
    if dashboards.Err? {
      return [search], Err(dashboards.error);
    }
    var more, done := MigrateDashboards(baseUrl, newUrl, dashboards.value, folderUid, (k: nat) => net(2 + k));
    AllIntoAppend([search], more, newUrl, folderUid);
    sent := [search] + more;
    r := done;
  }

  /** `migrate` over the answers `net`: the folders in order, stopping at the first
      exception; every dashboard it posts is posted as a new one. */
  method Migrate(baseUrl: string, newUrl: string, baseFolders: Json, net: Network)
    returns (sent: seq<Request>, r: Result<(), Error>)
    ensures Iterate(baseFolders).Err? ==> sent == [] && r == Err(Iterate(baseFolders).error)
    ensures AllNew(sent, newUrl)
  {
    sent := [];
    var folders := Iterate(baseFolders);
    if folders.Err? {
      return [], Err(folders.error);
    }
    for i := 0 to |folders.value|
      invariant AllNew(sent, newUrl)
    {
      var offset := |sent|;
      var more, done := MigrateFolder(baseUrl, newUrl, folders.value[i], (k: nat) => net(offset + k));
      AllNewAppend(sent, more, newUrl);
      sent := sent + more;
      if done.Err? {
        return sent, done;
      }
    }
    r := Ok(());
  }
}
