/** `DashboardManager` (ccres_api/services/grafana_api/dashboard_manager.py): it holds one
    dashboard and posts it wrapped in the envelope Grafana's dashboard API expects. */
module DashboardManager {
  import opened Wrappers
  import opened Dict
  import opened Json
  import opened Exceptions
  import opened AcceptableCodes
  import opened Http

  /** `config` is the dashboard to post; a grafanalib `Dashboard` is held as its `to_json_data()`. */
  datatype Manager = Manager(url: string, config: Json)

  function Endpoint(url: string): string {
    url + "/dashboards/db/"
  }

  /** `__init__`: nothing is fetched; the dashboard starts as `{}`. */
  function New(url: string): Manager {
    Manager(url, JObj([]))
  }

  /** `get`. */
  function GetConfig(m: Manager): Json {
    m.config
  }

  /** `add_dashboard`: the dashboard replaces the one held. */
  function AddDashboard(m: Manager, dashboard: Json): Manager {
    m.(config := dashboard)
  }

  const Message := "Updated from API"

  /** The envelope posted for `dashboard` in the folder `folderUid`. */
  function EnvelopeIn(dashboard: Json, folderUid: Json): (r: Json)
    ensures r.JObj? && Keys(r.fields) == ["dashboard", "overwrite", "folderUid", "message"]
  {
    JObj([("dashboard", dashboard), ("overwrite", JBool(false)), ("folderUid", folderUid), ("message", JStr(Message))])
  }

  /** The envelope `push` posts: the folder slot is always `""`. */
  function Envelope(dashboard: Json): (r: Json)
    ensures r.JObj? && Keys(r.fields) == ["dashboard", "overwrite", "folderUid", "message"]
  {
    EnvelopeIn(dashboard, JStr(""))
  }

  /** Reading the dashboard back out of a posted envelope. */
  function DashboardOf(body: Json): Option<Json> {
    if body.JObj? then Get(body.fields, "dashboard") else None
  }

  /** Reading the folder back out of a posted envelope. */
  function FolderOf(body: Json): Option<Json> {
    if body.JObj? then Get(body.fields, "folderUid") else None
  }

  function PushRequest(m: Manager): Request {
    POST(Endpoint(m.url), Envelope(m.config))
  }

  /** `push`: the response `res` to `PushRequest(m)`. */
  function Push(m: Manager, res: Response): (r: Result<Response, Error>)
    ensures r.Ok? <==> IsAcceptable(res.status)
    ensures r.Ok? ==> r.value == res
    ensures r.Err? ==> r.error == HttpError(res.status, StatusLine(res))
  {
    CheckPost(res, false)
  }

  /** The envelope carries the dashboard unchanged, never overwrites, names no folder and
      says it comes from the API. */
  lemma EnvelopeSpec(dashboard: Json)
    ensures var f := Envelope(dashboard).fields;
      && DashboardOf(Envelope(dashboard)) == Some(dashboard)
      && Get(f, "overwrite") == Some(JBool(false))
      && Get(f, "folderUid") == Some(JStr(""))
      && Get(f, "message") == Some(JStr("Updated from API"))
  {
    var f := Envelope(dashboard).fields;
    EnvelopeUnique(dashboard);
    GetAt(f, 0);
    GetAt(f, 1);
    GetAt(f, 2);
    GetAt(f, 3);
  }

  /** The four keys of the envelope are distinct. */
  lemma EnvelopeUnique(dashboard: Json, folderUid: Json := JStr(""))
    ensures UniqueKeys(EnvelopeIn(dashboard, folderUid).fields)
  {
    var f := EnvelopeIn(dashboard, folderUid).fields;
    assert f[0].0[0] == 'd' && f[1].0[0] == 'o' && f[2].0[0] == 'f' && f[3].0[0] == 'm';
  }

  /** Only the last dashboard added is kept, and it is what `get` returns and `push` posts;
      without any, the posted dashboard is `{}`. */
  lemma LastDashboardWins(m: Manager, first: Json, second: Json)
    ensures AddDashboard(AddDashboard(m, first), second) == AddDashboard(m, second)
    ensures GetConfig(AddDashboard(m, second)) == second
    ensures DashboardOf(PushRequest(AddDashboard(m, second)).body) == Some(second)
    ensures DashboardOf(PushRequest(New(m.url)).body) == Some(JObj([]))
  {
    EnvelopeSpec(second);
    EnvelopeSpec(JObj([]));
  }

  /** The evidently intended manager: `add_dashboard(dashboard, folder_uid)` keeps the folder
      next to the dashboard, and `push` posts it in the `folderUid` slot that is otherwise `""`. */
  datatype FiledManager = FiledManager(url: string, config: Json, folderUid: Json)

  /** Before any add, the intended manager posts what the written one does. */
  function NewFiled(url: string): FiledManager {
    FiledManager(url, JObj([]), JStr(""))
  }

  /** The intended `add_dashboard`: the dashboard and its folder replace the ones held. */
  function AddDashboardTo(m: FiledManager, dashboard: Json, folderUid: Json): FiledManager {
    m.(config := dashboard, folderUid := folderUid)
  }

  function FiledPushRequest(m: FiledManager): Request {
    POST(Endpoint(m.url), EnvelopeIn(m.config, m.folderUid))
  }

  /** The envelope carries the dashboard and the folder unchanged, never overwrites and says
      it comes from the API. */
  lemma EnvelopeInSpec(dashboard: Json, folderUid: Json)
    ensures var e := EnvelopeIn(dashboard, folderUid);
      && DashboardOf(e) == Some(dashboard)
      && FolderOf(e) == Some(folderUid)
      && Get(e.fields, "overwrite") == Some(JBool(false))
      && Get(e.fields, "message") == Some(JStr("Updated from API"))
  {
    var f := EnvelopeIn(dashboard, folderUid).fields;
    EnvelopeUnique(dashboard, folderUid);
    GetAt(f, 0);
    GetAt(f, 1);
    GetAt(f, 2);
    GetAt(f, 3);
  }

  /** The last dashboard added, with its folder, is the one posted; the written manager's
      post is the intended one's with the folder left at `""`. */
  lemma LastFiledWins(m: FiledManager, first: Json, firstUid: Json, second: Json, secondUid: Json)
    ensures AddDashboardTo(AddDashboardTo(m, first, firstUid), second, secondUid) == AddDashboardTo(m, second, secondUid)
    ensures var body := FiledPushRequest(AddDashboardTo(m, second, secondUid)).body;
      DashboardOf(body) == Some(second) && FolderOf(body) == Some(secondUid)
    ensures FiledPushRequest(NewFiled(m.url)) == PushRequest(New(m.url))
    ensures FiledPushRequest(FiledManager(m.url, second, JStr(""))) == PushRequest(AddDashboard(New(m.url), second))
  {
    EnvelopeInSpec(second, secondUid);
  }
}
