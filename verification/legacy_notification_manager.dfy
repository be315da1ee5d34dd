/** The older `NotificationManager` (grafana_api/notification_manager.py): it fetches the
    alertmanager configuration, appends receivers and routes to it without looking at what
    is already there, and posts it back. The receiver and route edits below are shared
    with the older `GrafanaAlertManager`. */
module LegacyNotificationManager {
  import opened Wrappers
  import opened Dict
  import opened Json
  import opened Exceptions
  import opened AcceptableCodes
  import opened Http
  import NM = NotificationManager

  /** `config` is the fetched document, edited in place. */
  datatype Manager = Manager(url: string, config: Json)

  function PushRequest(m: Manager): Request {
    POST(NM.Endpoint(m.url), m.config)
  }

  /** `__init__`: the response `res` to the GET of the endpoint is checked before its
      body becomes the configuration. */
  function New(url: string, res: Response): (r: Result<Manager, Error>)
    ensures r.Ok? <==> IsAcceptable(res.status)
    ensures r.Err? ==> r.error.HttpError? && r.error.status == res.status
    ensures r.Err? ==> r.error.message == FetchPrefix + StatusLine(res)
    ensures r.Ok? ==> r.value == Manager(url, res.body)
  {
    var body :- CheckFetch(res);
    Ok(Manager(url, body))
  }

  /** `config["alertmanager_config"]["receivers"].append(receiver)` on a document. */
  function AppendReceiver(doc: Json, receiver: Json): Result<Json, Error> {
    var config :- Index(doc, "alertmanager_config");
    var receivers :- Index(config, "receivers");
    var appended :- AppendTo(receivers, receiver);
    Ok(NM.WithReceivers(doc, config, appended))
  }

  /** `config["alertmanager_config"]["route"]["routes"].append(route)` on a document. */
  function AppendRoute(doc: Json, route: Json): Result<Json, Error> {
    var config :- Index(doc, "alertmanager_config");
    var r :- Index(config, "route");
    var routes :- Index(r, "routes");
    var appended :- AppendTo(routes, route);
    Ok(NM.WithRoutes(doc, config, r, appended))
  }

  /** Reading back the document after a receivers edit: the routes are as before. */
  lemma WithReceiversKeepsRoutes(doc: Json, config: Json, receivers: seq<Json>)
    requires doc.JObj? && config.JObj? && NM.ConfigOf(doc) == Some(config)
    ensures var d := NM.WithReceivers(doc, config, JArr(receivers));
      NM.ReceiversOf(d) == Some(receivers) && NM.RoutesOf(d) == NM.RoutesOf(doc)
  {
    var config2 := JObj(Put(config.fields, "receivers", JArr(receivers)));
    var d := NM.WithReceivers(doc, config, JArr(receivers));
    assert NM.ConfigOf(d) == Some(config2);
    NM.PutOther(config.fields, "receivers", JArr(receivers), "route");
    assert NM.RoutesOf(d) == NM.RoutesOf(doc);
  }

  /** The append succeeds exactly on a document whose receivers are a list; it adds the
      receiver after the others, whatever names they carry, and leaves the routes alone. */
  lemma AppendReceiverSpec(doc: Json, receiver: Json)
    ensures var r := AppendReceiver(doc, receiver);
      && (r.Ok? <==> NM.ReceiversOf(doc).Some?)
      && (r.Ok? ==> && NM.ReceiversOf(r.value) == Some(NM.ReceiversOf(doc).value + [receiver])
                    && NM.RoutesOf(r.value) == NM.RoutesOf(doc))
  {
    if NM.ReceiversOf(doc).Some? {
      var config := NM.ConfigOf(doc).value;
      assert Index(doc, "alertmanager_config") == Ok(config);
      WithReceiversKeepsRoutes(doc, config, NM.ReceiversOf(doc).value + [receiver]);
    }
  }

  /** The route append succeeds exactly on a document whose routes are a list; it adds
      the route after the others and leaves the receivers alone. */
  lemma AppendRouteSpec(doc: Json, route: Json)
    ensures var r := AppendRoute(doc, route);
      && (r.Ok? <==> NM.RoutesOf(doc).Some?)
      && (r.Ok? ==> && NM.RoutesOf(r.value) == Some(NM.RoutesOf(doc).value + [route])
                    && NM.ReceiversOf(r.value) == NM.ReceiversOf(doc))
  {
    if NM.RoutesOf(doc).Some? {
      var config := NM.ConfigOf(doc).value;
      assert Index(doc, "alertmanager_config") == Ok(config);
      assert Index(config, "route") == Ok(NM.RouteOf(doc));
      NM.WithRoutesOf(doc, config, NM.RouteOf(doc), NM.RoutesOf(doc).value + [route]);
    }
  }

  /** `add_contact_point`: the receiver is always appended. */
  function AddContactPoint(m: Manager, a: NM.ContactArg): Result<Manager, Error> {
    var name :- NM.ContactName(a);
    var doc :- AppendReceiver(m.config, NM.NewReceiver(NM.ContactDict(a), name));
    Ok(m.(config := doc))
  }

  /** `add_notification_policy`. */
  function AddNotificationPolicy(m: Manager, p: NM.PolicyArg): Result<Manager, Error> {
    var dict :- NM.PolicyDict(p);
    var doc :- AppendRoute(m.config, dict);
    Ok(m.(config := doc))
  }

  /** `push`: the response `res` to `PushRequest(m)`; a 400 adds the contact-point hint. */
  function Push(m: Manager, res: Response): (r: Result<Response, Error>)
    ensures r.Ok? <==> IsAcceptable(res.status)
    ensures r.Ok? ==> r.value == res
    ensures r.Err? ==> r.error.HttpError? && r.error.status == res.status
    ensures r.Err? ==> r.error.message == StatusLine(res) + (if res.status == 400 then ContactHint else "")
  {
    CheckPost(res, true)
  }

  /** A named contact on a document with a receivers list: exactly one receiver
      `{grafana_managed_receiver_configs: [contact], name}` is appended, named after the
      object's `name` or the dictionary's `"name"`; the routes are unchanged. */
  lemma AddContactAppends(m: Manager, a: NM.ContactArg)
    requires NM.ReceiversOf(m.config).Some? && NM.ContactName(a).Ok?
    ensures var r := AddContactPoint(m, a);
      && r.Ok? && r.value.url == m.url
      && NM.ReceiversOf(r.value.config) ==
           Some(NM.ReceiversOf(m.config).value + [NM.NewReceiver(NM.ContactDict(a), NM.ContactName(a).value)])
      && NM.RoutesOf(r.value.config) == NM.RoutesOf(m.config)
  {
    AppendReceiverSpec(m.config, NM.NewReceiver(NM.ContactDict(a), NM.ContactName(a).value));
  }

  /** There is no check for an existing name: adding a contact whose name some receiver
      already has leaves two receivers of that name. */
  lemma AddContactDuplicates(m: Manager, a: NM.ContactArg, i: nat)
    requires NM.ReceiversOf(m.config).Some? && NM.ContactName(a).Ok?
    requires i < |NM.ReceiversOf(m.config).value| && NM.Named(NM.ReceiversOf(m.config).value[i], NM.ContactName(a).value)
    ensures var r := AddContactPoint(m, a);
      && r.Ok? && NM.ReceiversOf(r.value.config).Some?
      && var items := NM.ReceiversOf(r.value.config).value;
      && |items| == |NM.ReceiversOf(m.config).value| + 1
      && NM.Named(items[i], NM.ContactName(a).value)
      && NM.Named(items[|items| - 1], NM.ContactName(a).value)
  {
    AddContactAppends(m, a);
  }

  /** A policy on a document with a routes list: exactly one route is appended; the
      receivers are unchanged. */
  lemma AddPolicyAppends(m: Manager, p: NM.PolicyArg)
    requires NM.RoutesOf(m.config).Some? && NM.PolicyDict(p).Ok?
    ensures var r := AddNotificationPolicy(m, p);
      && r.Ok? && r.value.url == m.url
      && NM.RoutesOf(r.value.config) == Some(NM.RoutesOf(m.config).value + [NM.PolicyDict(p).value])
      && NM.ReceiversOf(r.value.config) == NM.ReceiversOf(m.config)
  {
    AppendRouteSpec(m.config, NM.PolicyDict(p).value);
  }
}
