/** `GrafanaAlertManager` (grafana_api/alert_manager.py): the oldest manager. It takes
    whatever the GET returns, appends serialized contact points and routes, and hands back
    the POST's response without looking at its status. */
module LegacyAlertManager {
  import opened Wrappers
  import opened Json
  import opened Exceptions
  import opened AcceptableCodes
  import opened Http
  import opened Serializer
  import NM = NotificationManager
  import LNM = LegacyNotificationManager

  datatype Manager = Manager(url: string, config: Json)

  function FetchRequest(url: string): Request {
    GET(NM.Endpoint(url))
  }

  /** `commit` posts the configuration to the same endpoint. */
  function CommitRequest(m: Manager): Request {
    POST(NM.Endpoint(m.url), m.config)
  }

  /** `__init__`: the body of the response `res` to `FetchRequest(url)`, whatever its status. */
  function New(url: string, res: Response): Manager {
    Manager(url, res.body)
  }

  /** `commit`: the response to `CommitRequest(m)`, returned as it is. */
  function Commit(m: Manager, res: Response): Response {
    res
  }

  /** The older `NotificationManager` refuses a configuration whose GET failed; this
      manager keeps the body of any response, and its `commit` never raises. */
  lemma UncheckedStatus(url: string, res: Response, m: Manager, res2: Response)
    ensures !IsAcceptable(res.status) ==> LNM.New(url, res).Err? && New(url, res).config == res.body
    ensures !IsAcceptable(res2.status) ==> LNM.Push(LNM.Manager(m.url, m.config), res2).Err? && Commit(m, res2) == res2
  {
  }

  /** `contact_point.name`, which is plain data. */
  function ContactName(contact: Instance): Result<Json, Error> {
    var v :- Attribute(contact, "name");
    AsJson(v)
  }

  /** `add_contact_point`: the name is read before the contact is serialized. */
  function AddContactPoint(m: Manager, contact: Instance): Result<Manager, Error> {
    var name :- ContactName(contact);
    var dict :- Serialize(contact);
    var doc :- LNM.AppendReceiver(m.config, NM.NewReceiver(dict, name));
    Ok(m.(config := doc))
  }

  /** `add_notification_policy`. */
  function AddNotificationPolicy(m: Manager, route: Instance): Result<Manager, Error> {
    var dict :- Serialize(route);
    var doc :- LNM.AppendRoute(m.config, dict);
    Ok(m.(config := doc))
  }

  /** A contact that has a name and serializes: exactly one receiver
      `{grafana_managed_receiver_configs: [serialized contact], name}` is appended whatever
      the existing names; the routes are unchanged; an unreadable contact changes nothing. */
  lemma AddContactAppends(m: Manager, contact: Instance)
    requires NM.ReceiversOf(m.config).Some?
    ensures var r := AddContactPoint(m, contact);
      && (r.Ok? <==> ContactName(contact).Ok? && Serialize(contact).Ok?)
      && (r.Ok? ==>
            && r.value.url == m.url
            && NM.ReceiversOf(r.value.config) ==
                 Some(NM.ReceiversOf(m.config).value + [NM.NewReceiver(Serialize(contact).value, ContactName(contact).value)])
            && NM.RoutesOf(r.value.config) == NM.RoutesOf(m.config))
  {
    if ContactName(contact).Ok? && Serialize(contact).Ok? {
      LNM.AppendReceiverSpec(m.config, NM.NewReceiver(Serialize(contact).value, ContactName(contact).value));
    }
  }

  /** A route that serializes is appended as one more route; the receivers are unchanged. */
  lemma AddPolicyAppends(m: Manager, route: Instance)
    requires NM.RoutesOf(m.config).Some?
    ensures var r := AddNotificationPolicy(m, route);
      && (r.Ok? <==> Serialize(route).Ok?)
      && (r.Ok? ==>
            && r.value.url == m.url
            && NM.RoutesOf(r.value.config) == Some(NM.RoutesOf(m.config).value + [Serialize(route).value])
            && NM.ReceiversOf(r.value.config) == NM.ReceiversOf(m.config))
  {
    if Serialize(route).Ok? {
      LNM.AppendRouteSpec(m.config, Serialize(route).value);
    }
  }
}
