/** The current `NotificationManager` (ccres_api/services/grafana_api/notification_manager.py):
    it fetches the alertmanager configuration once, keeps a shallow copy to edit, upserts
    receivers by name, appends routes, and posts the copy back. A request's response is a
    parameter; `get_encodable_dict` is the identity. */
module NotificationManager {
  import opened Wrappers
  import opened Dict
  import opened Json
  import opened Exceptions
  import opened AcceptableCodes
  import opened Http
  import ContactAddons
  import PolicyAddons

  /** `fetched` is `fetched_json`, `toPush` is `to_push_json`. `shared` records that
      `toPush` is still the shallow copy made at construction: the two dictionaries then
      share their nested values, so every edit below (all of them are nested) shows in both. */
  datatype Manager = Manager(url: string, fetched: Json, toPush: Json, shared: bool)

  predicate Valid(m: Manager) {
    m.shared ==> m.fetched == m.toPush
  }

  function Endpoint(url: string): string {
    url + "/alertmanager/grafana/config/api/v1/alerts"
  }

  function FetchRequest(m: Manager): Request {
    GET(Endpoint(m.url))
  }

  function PushRequest(m: Manager): Request {
    POST(Endpoint(m.url), m.toPush)
  }

  /** `__init__`: the response `res` to the initial GET is checked, its body kept, and the
      body shallow-copied for editing. */
  function New(url: string, res: Response): (r: Result<Manager, Error>)
    ensures r.Ok? <==> IsAcceptable(res.status) && (res.body.JObj? || res.body.JArr?)
    ensures !IsAcceptable(res.status) ==> r.Err? && r.error.HttpError? && r.error.status == res.status
    ensures r.Ok? ==> r.value.url == url && r.value.fetched == res.body && r.value.toPush == res.body && Valid(r.value)
  {
    var fetched :- CheckFetch(res);
    var toPush :- Copy(fetched);
    Ok(Manager(url, fetched, toPush, true))
  }

  /** `fetch`: replaces `fetched_json` only; the copy being edited is not refreshed. */
  function Fetch(m: Manager, res: Response): (r: Result<Manager, Error>)
    requires Valid(m)
    ensures r.Ok? <==> IsAcceptable(res.status)
    ensures r.Err? ==> r.error.HttpError? && r.error.status == res.status
    ensures r.Ok? ==> r.value.fetched == res.body && r.value.toPush == m.toPush && r.value.url == m.url && Valid(r.value)
  {
    var body :- CheckFetch(res);
    Ok(m.(fetched := body, shared := false))
  }

  /** `push`: the response `res` to the POST of `PushRequest(m)`; on a 400 the error
      adds the contact-point hint. */
  function Push(m: Manager, res: Response): (r: Result<Response, Error>)
    ensures r.Ok? <==> IsAcceptable(res.status)
    ensures r.Ok? ==> r.value == res
    ensures r.Err? ==> r.error.HttpError? && r.error.status == res.status
    ensures r.Err? && res.status == 400 ==> r.error.message == StatusLine(res) + ContactHint
    ensures r.Err? && res.status != 400 ==> r.error.message == StatusLine(res)
  {
    CheckPost(res, true)
  }

  /** An edit of the copy; while the copy is shared the fetched document sees it too. */
  function Edited(m: Manager, toPush: Json): (r: Manager)
    ensures Valid(r) && r.toPush == toPush && r.url == m.url
  {
    m.(toPush := toPush, fetched := if m.shared then toPush else m.fetched)
  }

  /** The argument of `add_contact_point`: a `ContactPoint` or a plain dictionary. */
  datatype ContactArg = TypedContact(contact: ContactAddons.ContactPoint) | RawContact(dict: Json)

  function ContactName(a: ContactArg): Result<Json, Error> {
    match a
    case TypedContact(c) => Ok(JStr(c.name))
    case RawContact(d) => Index(d, "name")
  }

  function ContactDict(a: ContactArg): Json {
    match a
    case TypedContact(c) => ContactAddons.ContactPointJson(c)
    case RawContact(d) => d
  }

  const Configs := "grafana_managed_receiver_configs"

  /** The receiver appended for a new name. */
  function NewReceiver(dict: Json, name: Json): Json {
    JObj([(Configs, JArr([dict])), ("name", name)])
  }

  /** One turn of the scan: skip an item without `"name"`, else compare its name. */
  function ScanStep(item: Json, name: Json): Result<bool, Error> {
    var has :- Contains(item, "name");
    if !has then Ok(false)
    else
      var v :- Index(item, "name");
      Ok(v == name)
  }

  /** The outcome of each turn of the scan, in order. */
  function Steps(items: seq<Json>, name: Json): (r: seq<Result<bool, Error>>)
    ensures |r| == |items|
    ensures forall i :: 0 <= i < |items| ==> r[i] == ScanStep(items[i], name)
  {
    seq(|items|, i requires 0 <= i < |items| => ScanStep(items[i], name))
  }

  /** The loop over the turns' outcomes: each hit overwrites the index found so far; the
      first turn that raises aborts. */
  function LastHit(steps: seq<Result<bool, Error>>): Result<Option<nat>, Error>
    decreases |steps|
  {
    if |steps| == 0 then Ok(None)
    else
      var n := |steps| - 1;
      var before :- LastHit(steps[..n]);
      var hit :- steps[n];
      Ok(if hit then Some(n) else before)
  }

  /** The scan over the receivers for the name. */
  function Scan(items: seq<Json>, name: Json): Result<Option<nat>, Error> {
    LastHit(Steps(items, name))
  }

  /** The loop succeeds exactly when every turn does. */
  lemma {:induction false} LastHitOk(steps: seq<Result<bool, Error>>)
    ensures LastHit(steps).Ok? <==> forall i :: 0 <= i < |steps| ==> steps[i].Ok?
  {
    if |steps| > 0 {
      var n := |steps| - 1;
      LastHitOk(steps[..n]);
      assert forall i :: 0 <= i < n ==> steps[..n][i] == steps[i];
    }
  }

  /** A successful loop finds the LAST hit, if there is one. */
  lemma {:induction false} LastHitFound(steps: seq<Result<bool, Error>>)
    requires LastHit(steps).Ok?
    ensures var r := LastHit(steps).value;
      && (r.Some? <==> exists i :: 0 <= i < |steps| && steps[i] == Ok(true))
      && (r.Some? ==> && r.value < |steps| && steps[r.value] == Ok(true)
                      && forall j :: r.value < j < |steps| ==> steps[j] == Ok(false))
  {
    if |steps| > 0 {
      var n := |steps| - 1;
      var pre := steps[..n];
      assert forall i :: 0 <= i < n ==> pre[i] == steps[i];
      LastHitFound(pre);
    }
  }

  /** A failing loop raises the error of the first turn that raises. */
  lemma {:induction false} LastHitError(steps: seq<Result<bool, Error>>)
    requires LastHit(steps).Err?
    ensures exists i :: && 0 <= i < |steps| && steps[i] == Err(LastHit(steps).error)
                        && forall j :: 0 <= j < i ==> steps[j].Ok?
  {
    var n := |steps| - 1;
    var pre := steps[..n];
    assert forall i :: 0 <= i < n ==> pre[i] == steps[i];
    if LastHit(pre).Err? {
      LastHitError(pre);
      var i :| && 0 <= i < n && pre[i] == Err(LastHit(pre).error) && forall j :: 0 <= j < i ==> pre[j].Ok?;
      assert steps[i] == Err(LastHit(steps).error);
    } else {
      LastHitOk(pre);
    }
  }

  /** The scan over the receivers: it succeeds exactly when every turn does; then it finds
      the last receiver the turn hits, if any; otherwise it raises the error of the first
      turn that raises. */
  lemma ScanSpec(items: seq<Json>, name: Json)
    ensures var r := Scan(items, name);
      && (r.Ok? <==> forall i :: 0 <= i < |items| ==> ScanStep(items[i], name).Ok?)
      && (r.Ok? ==> (r.value.Some? <==> exists i :: 0 <= i < |items| && ScanStep(items[i], name) == Ok(true)))
      && (r.Ok? && r.value.Some? ==>
            && r.value.value < |items| && ScanStep(items[r.value.value], name) == Ok(true)
            && forall j :: r.value.value < j < |items| ==> ScanStep(items[j], name) == Ok(false))
      && (r.Err? ==> exists i :: && 0 <= i < |items| && ScanStep(items[i], name) == Err(r.error)
                                 && forall j :: 0 <= j < i ==> ScanStep(items[j], name).Ok?)
  {
    var steps := Steps(items, name);
    LastHitOk(steps);
    if LastHit(steps).Ok? {
      LastHitFound(steps);
    } else {
      LastHitError(steps);
    }
  }

  /** On a dictionary a step never raises: it hits exactly the receivers named `name`;
      a receiver without `"name"` is never hit. */
  predicate Named(item: Json, name: Json) {
    item.JObj? && Get(item.fields, "name") == Some(name)
  }

  lemma StepOnDict(item: Json, name: Json)
    requires item.JObj?
    ensures ScanStep(item, name) == Ok(Named(item, name))
  {
  }

  /** Replacing one item by another that the scan treats alike leaves the scan's result unchanged. */
  lemma ScanUpdate(items: seq<Json>, name: Json, i: nat, x: Json)
    requires i < |items|
    requires ScanStep(x, name) == ScanStep(items[i], name)
    ensures Scan(items[i := x], name) == Scan(items, name)
  {
    assert Steps(items[i := x], name) == Steps(items, name);
  }

  /** `receivers[idx]["grafana_managed_receiver_configs"] = [contact_dict]`. */
  function SetConfigs(receivers: Json, i: nat, dict: Json): Result<Json, Error> {
    if receivers.JArr? && i < |receivers.items| && receivers.items[i].JObj? then
      var item := receivers.items[i];
      Ok(JArr(receivers.items[i := JObj(Put(item.fields, Configs, JArr([dict])))]))
    else Err(TypeError("'" + TypeName(receivers) + "' object does not support item assignment"))
  }

  /** The receivers list after the upsert. */
  function Upsert(receivers: Json, name: Json, dict: Json): Result<Json, Error> {
    var items :- Iterate(receivers);
    var idx :- Scan(items, name);
    match idx
    case None => AppendTo(receivers, NewReceiver(dict, name))
    case Some(i) => SetConfigs(receivers, i, dict)
  }

  /** The document with a new `alertmanager_config.receivers`. */
  function WithReceivers(doc: Json, config: Json, receivers: Json): Json
    requires doc.JObj? && config.JObj?
  {
    JObj(Put(doc.fields, "alertmanager_config", JObj(Put(config.fields, "receivers", receivers))))
  }

  /** `add_contact_point`. */
  function AddContactPoint(m: Manager, a: ContactArg): Result<Manager, Error> {
    var name :- ContactName(a);
    var dict := ContactDict(a);
    var config :- Index(m.toPush, "alertmanager_config");
    var receivers :- Index(config, "receivers");
    var updated :- Upsert(receivers, name, dict);
    Ok(Edited(m, WithReceivers(m.toPush, config, updated)))
  }

  /** A looked-up value, when it is a dictionary. */
  function DictValue(o: Option<Json>): (r: Option<Json>)
    ensures r.Some? ==> r.value.JObj?
  {
    if o.Some? && o.value.JObj? then o else None
  }

  /** A looked-up value, when it is a list. */
  function ListValue(o: Option<Json>): Option<seq<Json>> {
    if o.Some? && o.value.JArr? then Some(o.value.items) else None
  }

  /** `alertmanager_config` of a document, when it is a dictionary. */
  function ConfigOf(doc: Json): (r: Option<Json>)
    ensures r.Some? ==> r.value.JObj?
  {
    if doc.JObj? then DictValue(Get(doc.fields, "alertmanager_config")) else None
  }

  /** `alertmanager_config.receivers` of a document, when it is a list. */
  function ReceiversOf(doc: Json): Option<seq<Json>> {
    var c := ConfigOf(doc);
    if c.Some? then ListValue(Get(c.value.fields, "receivers")) else None
  }

  /** A configuration whose receivers are a list of dictionaries. */
  predicate WellFormed(doc: Json) {
    ReceiversOf(doc).Some? && forall i :: 0 <= i < |ReceiversOf(doc).value| ==> ReceiversOf(doc).value[i].JObj?
  }

  lemma ScanDicts(items: seq<Json>, name: Json)
    requires forall i :: 0 <= i < |items| ==> items[i].JObj?
    ensures var r := Scan(items, name);
      && r.Ok?
      && (r.value.None? <==> forall i :: 0 <= i < |items| ==> !Named(items[i], name))
      && (r.value.Some? ==> r.value.value < |items| && Named(items[r.value.value], name)
                            && forall j :: r.value.value < j < |items| ==> !Named(items[j], name))
  {
    forall i | 0 <= i < |items|
      ensures ScanStep(items[i], name) == Ok(Named(items[i], name))
    {
      StepOnDict(items[i], name);
    }
    ScanSpec(items, name);
  }

  /** Reading back the receivers of an edited document. */
  lemma WithReceiversOf(doc: Json, config: Json, receivers: Json)
    requires doc.JObj? && config.JObj? && receivers.JArr?
    ensures ReceiversOf(WithReceivers(doc, config, receivers)) == Some(receivers.items)
  {
  }

  /** On a well-formed document the contact is added by the upsert of its receivers. */
  lemma AddContactVia(m: Manager, a: ContactArg)
    requires WellFormed(m.toPush) && ContactName(a).Ok?
    ensures var config := ConfigOf(m.toPush).value;
      var receivers := JArr(ReceiversOf(m.toPush).value);
      var u := Upsert(receivers, ContactName(a).value, ContactDict(a));
      && Index(m.toPush, "alertmanager_config") == Ok(config)
      && Index(config, "receivers") == Ok(receivers)
      && AddContactPoint(m, a) == if u.Ok? then Ok(Edited(m, WithReceivers(m.toPush, config, u.value))) else Err(u.error)
  {
  }

  /** A name no receiver has: the new receiver is appended. */
  lemma UpsertNew(items: seq<Json>, name: Json, dict: Json)
    requires forall i :: 0 <= i < |items| ==> items[i].JObj? && !Named(items[i], name)
    ensures Upsert(JArr(items), name, dict) == Ok(JArr(items + [NewReceiver(dict, name)]))
  {
    ScanDicts(items, name);
  }

  /** A name some receiver has: the last such receiver gets the new configs. */
  lemma UpsertExisting(items: seq<Json>, name: Json, dict: Json)
    requires forall i :: 0 <= i < |items| ==> items[i].JObj?
    requires exists i :: 0 <= i < |items| && Named(items[i], name)
    ensures exists i :: && 0 <= i < |items| && Named(items[i], name)
                        && (forall j :: i < j < |items| ==> !Named(items[j], name))
                        && Upsert(JArr(items), name, dict) == Ok(JArr(items[i := JObj(Put(items[i].fields, Configs, JArr([dict])))]))
  {
    UpsertAt(items, name, dict);
  }

  /** The index the scan finds for a known name, and the upsert at that index. */
  lemma UpsertAt(items: seq<Json>, name: Json, dict: Json)
    requires forall i :: 0 <= i < |items| ==> items[i].JObj?
    requires exists i :: 0 <= i < |items| && Named(items[i], name)
    ensures Scan(items, name).Ok? && Scan(items, name).value.Some?
    ensures var i := Scan(items, name).value.value;
      && 0 <= i < |items| && Named(items[i], name)
      && (forall j :: i < j < |items| ==> !Named(items[j], name))
      && Upsert(JArr(items), name, dict) == Ok(JArr(items[i := JObj(Put(items[i].fields, Configs, JArr([dict])))]))
  {
    ScanDicts(items, name);
    var i := Scan(items, name).value.value;
    assert Iterate(JArr(items)) == Ok(items);
    assert Upsert(JArr(items), name, dict) == SetConfigs(JArr(items), i, dict);
  }

  /** A new name: exactly one receiver `{grafana_managed_receiver_configs: [contact], name}`
      is appended, after the others, which are unchanged. */
  lemma AddContactNew(m: Manager, a: ContactArg)
    requires WellFormed(m.toPush) && ContactName(a).Ok?
    requires forall i :: 0 <= i < |ReceiversOf(m.toPush).value| ==> !Named(ReceiversOf(m.toPush).value[i], ContactName(a).value)
    ensures var r := AddContactPoint(m, a);
      && r.Ok? && Valid(r.value)
      && ReceiversOf(r.value.toPush) ==
           Some(ReceiversOf(m.toPush).value + [NewReceiver(ContactDict(a), ContactName(a).value)])
  {
    var items := ReceiversOf(m.toPush).value;
    AddContactVia(m, a);
    UpsertNew(items, ContactName(a).value, ContactDict(a));
    WithReceiversOf(m.toPush, ConfigOf(m.toPush).value, JArr(items + [NewReceiver(ContactDict(a), ContactName(a).value)]));
  }

  /** A known name: the LAST receiver of that name gets `grafana_managed_receiver_configs`
      set to `[contact]`, its other keys kept; every other receiver, the nameless ones
      included, is unchanged, and the list keeps its length. */
  lemma AddContactExisting(m: Manager, a: ContactArg)
    requires WellFormed(m.toPush) && ContactName(a).Ok?
    requires exists i :: 0 <= i < |ReceiversOf(m.toPush).value| && Named(ReceiversOf(m.toPush).value[i], ContactName(a).value)
    ensures var r := AddContactPoint(m, a);
      var items := ReceiversOf(m.toPush).value;
      var name := ContactName(a).value;
      && r.Ok? && Valid(r.value)
      && exists i :: && 0 <= i < |items| && Named(items[i], name)
                     && (forall j :: i < j < |items| ==> !Named(items[j], name))
                     && ReceiversOf(r.value.toPush) == Some(items[i := JObj(Put(items[i].fields, Configs, JArr([ContactDict(a)])))])
  {
    var items := ReceiversOf(m.toPush).value;
    var name := ContactName(a).value;
    AddContactVia(m, a);
    UpsertAt(items, name, ContactDict(a));
    var i := Scan(items, name).value.value;
    var updated := JArr(items[i := JObj(Put(items[i].fields, Configs, JArr([ContactDict(a)])))]);
    WithReceiversOf(m.toPush, ConfigOf(m.toPush).value, updated);
    assert AddContactPoint(m, a) == Ok(Edited(m, WithReceivers(m.toPush, ConfigOf(m.toPush).value, updated)));
    assert ReceiversOf(AddContactPoint(m, a).value.toPush) == Some(updated.items);
  }

  /** The updated receiver: the configs replaced, every other key (its name included) kept. */
  lemma SetConfigsItem(item: Json, dict: Json)
    requires item.JObj?
    ensures var f := Put(item.fields, Configs, JArr([dict]));
      && Get(f, Configs) == Some(JArr([dict]))
      && forall k :: k != Configs ==> Get(f, k) == Get(item.fields, k)
  {
  }

  /** Adding the same contact twice is adding it once. */
  lemma AddContactIdempotent(m: Manager, a: ContactArg)
    requires AddContactPoint(m, a).Ok?
    ensures AddContactPoint(AddContactPoint(m, a).value, a) == AddContactPoint(m, a)
  {
    var name := ContactName(a).value;
    var dict := ContactDict(a);
    var config := Index(m.toPush, "alertmanager_config").value;
    var receivers := Index(config, "receivers").value;
    AddContactOn(m, a, config, receivers);
    var updated := Upsert(receivers, name, dict).value;
    var doc := WithReceivers(m.toPush, config, updated);
    var config2 := JObj(Put(config.fields, "receivers", updated));
    assert Index(doc, "alertmanager_config") == Ok(config2);
    assert Index(config2, "receivers") == Ok(updated);
    var m2 := Edited(m, doc);
    AddContactOn(m2, a, config2, updated);
    UpsertIdempotent(receivers, name, dict);
    PutTwice(config.fields, "receivers", updated);
    PutTwice(m.toPush.fields, "alertmanager_config", config2);
    assert WithReceivers(doc, config2, updated) == doc;
  }

  /** `add_contact_point` once the configuration and its receivers are known. */
  lemma AddContactOn(m: Manager, a: ContactArg, config: Json, receivers: Json)
    requires ContactName(a).Ok?
    requires Index(m.toPush, "alertmanager_config") == Ok(config) && Index(config, "receivers") == Ok(receivers)
    ensures var u := Upsert(receivers, ContactName(a).value, ContactDict(a));
      AddContactPoint(m, a) == if u.Ok? then Ok(Edited(m, WithReceivers(m.toPush, config, u.value))) else Err(u.error)
  {
  }

  /** Setting the configs keeps the receiver's name, so the scan treats it alike. */
  lemma StepAfterSetConfigs(item: Json, name: Json, dict: Json)
    requires item.JObj?
    ensures ScanStep(JObj(Put(item.fields, Configs, JArr([dict]))), name) == ScanStep(item, name)
  {
    var x := JObj(Put(item.fields, Configs, JArr([dict])));
    SetConfigsItem(item, dict);
    StepOnDict(item, name);
    StepOnDict(x, name);
  }

  /** After an append, the appended receiver is the last hit and already holds the configs. */
  lemma UpsertIdempotentNew(items: seq<Json>, name: Json, dict: Json)
    requires Scan(items, name) == Ok(None)
    ensures var items2 := items + [NewReceiver(dict, name)];
      Upsert(JArr(items2), name, dict) == Ok(JArr(items2))
  {
    var nr := NewReceiver(dict, name);
    var items2 := items + [nr];
    assert Steps(items2, name)[..|items|] == Steps(items, name);
    assert Named(nr, name);
    assert Scan(items2, name) == Ok(Some(|items|));
    assert nr.fields[0].0 == Configs;
    assert Replace(nr.fields, Configs, JArr([dict])) == nr.fields;
    assert items2[|items| := nr] == items2;
  }

  /** After an update, the updated receiver is still the last hit and already holds the configs. */
  lemma UpsertIdempotentExisting(items: seq<Json>, name: Json, dict: Json, i: nat)
    requires Scan(items, name) == Ok(Some(i)) && i < |items| && items[i].JObj?
    ensures var items2 := items[i := JObj(Put(items[i].fields, Configs, JArr([dict])))];
      Upsert(JArr(items2), name, dict) == Ok(JArr(items2))
  {
    var item := items[i];
    var x := JObj(Put(item.fields, Configs, JArr([dict])));
    var items2 := items[i := x];
    StepAfterSetConfigs(item, name, dict);
    ScanUpdate(items, name, i, x);
    assert Iterate(JArr(items2)) == Ok(items2);
    PutTwice(item.fields, Configs, JArr([dict]));
    assert JObj(Put(x.fields, Configs, JArr([dict]))) == x;
    assert items2[i] == x && items2[i := x] == items2;
    assert SetConfigs(JArr(items2), i, dict) == Ok(JArr(items2));
  }

  /** The upsert is idempotent on the receivers list. */
  lemma UpsertIdempotent(receivers: Json, name: Json, dict: Json)
    requires Upsert(receivers, name, dict).Ok?
    ensures Upsert(Upsert(receivers, name, dict).value, name, dict) == Upsert(receivers, name, dict)
  {
    var items := Iterate(receivers).value;
    var idx := Scan(items, name).value;
    if idx.None? {
      UpsertIdempotentNew(items, name, dict);
    } else {
      UpsertIdempotentExisting(items, name, dict, idx.value);
    }
  }

  /** The argument of `add_notification_policy`: a `Notification` or a plain dictionary. */
  datatype PolicyArg = TypedPolicy(policy: PolicyAddons.Notification) | RawPolicy(dict: Json)

  function PolicyDict(p: PolicyArg): Result<Json, Error> {
    match p
    case TypedPolicy(n) => PolicyAddons.NotificationJson(n)
    case RawPolicy(d) => Ok(d)
  }

  /** `add_notification_policy`: append to `alertmanager_config.route.routes`. */
  function AddNotificationPolicy(m: Manager, p: PolicyArg): Result<Manager, Error> {
    var dict :- PolicyDict(p);
    AppendPolicy(m, dict)
  }

  /** The second half of `add_notification_policy`, once the policy is a dictionary. */
  function AppendPolicy(m: Manager, dict: Json): Result<Manager, Error> {
    var config :- Index(m.toPush, "alertmanager_config");
    var route :- Index(config, "route");
    var routes :- Index(route, "routes");
    var appended :- AppendTo(routes, dict);
    Ok(Edited(m, WithRoutes(m.toPush, config, route, appended)))
  }

  /** The document with a new `alertmanager_config.route.routes`. */
  function WithRoutes(doc: Json, config: Json, route: Json, routes: Json): Json
    requires doc.JObj? && config.JObj? && route.JObj?
  {
    JObj(Put(doc.fields, "alertmanager_config", JObj(Put(config.fields, "route", JObj(Put(route.fields, "routes", routes))))))
  }

  /** `alertmanager_config.route.routes` of a document, when it is a list. */
  function RoutesOf(doc: Json): Option<seq<Json>> {
    var c := ConfigOf(doc);
    if c.Some? then
      var r := DictValue(Get(c.value.fields, "route"));
      if r.Some? then ListValue(Get(r.value.fields, "routes")) else None
    else None
  }

  /** The route of a document whose routes are a list. */
  function RouteOf(doc: Json): Json
    requires RoutesOf(doc).Some?
  {
    Get(ConfigOf(doc).value.fields, "route").value
  }

  /** On a document with a routes list the policy is appended by the route edit. */
  lemma AddPolicyVia(m: Manager, p: PolicyArg)
    requires RoutesOf(m.toPush).Some? && PolicyDict(p).Ok?
    ensures AddNotificationPolicy(m, p) ==
      Ok(Edited(m, WithRoutes(m.toPush, ConfigOf(m.toPush).value, RouteOf(m.toPush),
                              JArr(RoutesOf(m.toPush).value + [PolicyDict(p).value]))))
  {
    AppendPolicyVia(m, PolicyDict(p).value);
  }

  lemma AppendPolicyVia(m: Manager, dict: Json)
    requires RoutesOf(m.toPush).Some?
    ensures AppendPolicy(m, dict) ==
      Ok(Edited(m, WithRoutes(m.toPush, ConfigOf(m.toPush).value, RouteOf(m.toPush), JArr(RoutesOf(m.toPush).value + [dict]))))
  {
    var config := ConfigOf(m.toPush).value;
    var route := RouteOf(m.toPush);
    var routes := Get(route.fields, "routes").value;
    assert Index(m.toPush, "alertmanager_config") == Ok(config);
    assert route.JObj? && Index(config, "route") == Ok(route);
    assert routes == JArr(RoutesOf(m.toPush).value);
    assert Index(route, "routes") == Ok(routes);
  }

  /** Assigning one key leaves every other key as it was. */
  lemma PutOther(d: Assoc<Json>, k: string, v: Json, other: string)
    requires other != k
    ensures Get(Put(d, k, v), other) == Get(d, other)
  {
  }

  /** Reading back an edited document: the new routes, the same receivers. */
  lemma WithRoutesOf(doc: Json, config: Json, route: Json, routes: seq<Json>)
    requires doc.JObj? && config.JObj? && route.JObj?
    requires ConfigOf(doc) == Some(config) && Get(config.fields, "route") == Some(route)
    ensures var d := WithRoutes(doc, config, route, JArr(routes));
      RoutesOf(d) == Some(routes) && ReceiversOf(d) == ReceiversOf(doc)
  {
    var route2 := JObj(Put(route.fields, "routes", JArr(routes)));
    var config2 := JObj(Put(config.fields, "route", route2));
    var d := WithRoutes(doc, config, route, JArr(routes));
    assert ConfigOf(d) == Some(config2);
    assert Get(config2.fields, "route") == Some(route2);
    assert Get(route2.fields, "routes") == Some(JArr(routes));
    assert DictValue(Get(config2.fields, "route")) == Some(route2);
    assert ListValue(Get(route2.fields, "routes")) == Some(routes);
    PutOther(config.fields, "route", route2, "receivers");
    assert ReceiversOf(d) == ReceiversOf(doc);
  }

  /** The policy is appended, without de-duplication, as exactly one more route; the
      receivers are untouched. */
  lemma AddPolicyAppends(m: Manager, p: PolicyArg)
    requires RoutesOf(m.toPush).Some? && PolicyDict(p).Ok?
    ensures var r := AddNotificationPolicy(m, p);
      && r.Ok? && Valid(r.value)
      && RoutesOf(r.value.toPush) == Some(RoutesOf(m.toPush).value + [PolicyDict(p).value])
      && ReceiversOf(r.value.toPush) == ReceiversOf(m.toPush)
  {
    AddPolicyVia(m, p);
    WithRoutesOf(m.toPush, ConfigOf(m.toPush).value, RouteOf(m.toPush), RoutesOf(m.toPush).value + [PolicyDict(p).value]);
  }
}
