/** `AlertRulev9Fixed.to_json_data` (grafana_api/addons/alert.py): the data list holds one
    entry per trigger, a query `Target` being wrapped with its time range and datasource.
    The grafanalib values it reads are opaque here: a target is its `refId`, its
    `datasource` and its own serialization; any other trigger is its serialization. */
module AlertAddon {
  import opened Wrappers
  import opened Dict
  import opened Json

  datatype Trigger =
    | TargetTrigger(refId: Json, datasource: Json, model: Json)
    | OtherTrigger(json: Json)

  /** The attributes of an `AlertRulev9` the serialization reads. */
  datatype AlertRule = AlertRule(
    uid: Json, evaluateFor: Json, labels: Json, annotations: Json, title: Json, condition: Json,
    triggers: seq<Trigger>, timeRangeFrom: int, timeRangeTo: int,
    noDataAlertState: Json, errorAlertState: Json)

  /** The data entry of one trigger. */
  function TriggerJson(rule: AlertRule, t: Trigger): Json {
    match t
    case TargetTrigger(refId, datasource, model) =>
      JObj([("refId", refId),
            ("relativeTimeRange", JObj([("from", JInt(rule.timeRangeFrom)), ("to", JInt(rule.timeRangeTo))])),
            ("datasourceUid", datasource),
            ("model", model)])
    case OtherTrigger(json) => json
  }

  /** What a target's entry tells: its `refId`, the rule's time range, its datasource as
      `datasourceUid` and its own serialization as `model`. */
  function TargetOf(rule: AlertRule, entry: Json): (r: Option<Trigger>)
    ensures r.Some? ==> r.value.TargetTrigger?
  {
    if entry.JObj? && Keys(entry.fields) == ["refId", "relativeTimeRange", "datasourceUid", "model"]
       && entry.fields[1].1 == JObj([("from", JInt(rule.timeRangeFrom)), ("to", JInt(rule.timeRangeTo))])
    then Some(TargetTrigger(entry.fields[0].1, entry.fields[2].1, entry.fields[3].1))
    else None
  }

  /** A target's entry gives the target back; any other trigger is its own serialization. */
  lemma TriggerJsonSpec(rule: AlertRule, t: Trigger)
    ensures t.TargetTrigger? ==> TargetOf(rule, TriggerJson(rule, t)) == Some(t)
    ensures t.OtherTrigger? ==> TriggerJson(rule, t) == t.json
  {
    if t.TargetTrigger? {
      var e := TriggerJson(rule, t);
      assert Keys(e.fields) == ["refId", "relativeTimeRange", "datasourceUid", "model"];
    }
  }

  /** The loop over `self.triggers`, extending `data` by one entry at a time. */
  method TriggersData(rule: AlertRule) returns (data: seq<Json>)
    ensures |data| == |rule.triggers|
    ensures forall i :: 0 <= i < |data| ==> data[i] == TriggerJson(rule, rule.triggers[i])
  {
    data := [];
    for i := 0 to |rule.triggers|
      invariant |data| == i
      invariant forall j :: 0 <= j < i ==> data[j] == TriggerJson(rule, rule.triggers[j])
    {
      data := data + [TriggerJson(rule, rule.triggers[i])];
    }
  }

  const RuleKeys := ["uid", "for", "labels", "annotations", "grafana_alert"]

  const GrafanaAlertKeys := ["title", "condition", "data", "no_data_state", "exec_err_state"]

  function GrafanaAlertJson(rule: AlertRule, data: seq<Json>): Json {
    JObj(Zip(GrafanaAlertKeys, [rule.title, rule.condition, JArr(data), rule.noDataAlertState, rule.errorAlertState]))
  }

  /** `AlertRulev9Fixed.to_json_data`, given the data list. */
  function AlertRuleJson(rule: AlertRule, data: seq<Json>): Json {
    JObj(Zip(RuleKeys, [rule.uid, rule.evaluateFor, rule.labels, rule.annotations, GrafanaAlertJson(rule, data)]))
  }

  /** The `data` list inside a serialized rule. */
  function DataOf(j: Json): seq<Json> {
    if j.JObj? && |j.fields| == 5 && j.fields[4].1.JObj? && |j.fields[4].1.fields| == 5 && j.fields[4].1.fields[2].1.JArr?
    then j.fields[4].1.fields[2].1.items
    else []
  }

  /** The serialization: the rule's envelope around a data list holding one entry per
      trigger, in trigger order. */
  method AlertRuleToJson(rule: AlertRule) returns (r: Json)
    ensures r == AlertRuleJson(rule, DataOf(r))
    ensures |DataOf(r)| == |rule.triggers|
    ensures forall i :: 0 <= i < |rule.triggers| ==> DataOf(r)[i] == TriggerJson(rule, rule.triggers[i])
  {
    var data := TriggersData(rule);
    r := AlertRuleJson(rule, data);
  }

  lemma RuleKeysDistinct()
    ensures Distinct(RuleKeys) && Distinct(GrafanaAlertKeys)
  {
  }

  /** The envelope: `for` is the evaluation time; `uid`, `labels` and `annotations` are
      copied; `grafana_alert` comes last. */
  lemma AlertRuleJsonSpec(rule: AlertRule, data: seq<Json>)
    ensures var f := AlertRuleJson(rule, data).fields;
      && Keys(f) == RuleKeys
      && Get(f, "uid") == Some(rule.uid)
      && Get(f, "for") == Some(rule.evaluateFor)
      && Get(f, "labels") == Some(rule.labels)
      && Get(f, "annotations") == Some(rule.annotations)
      && Get(f, "grafana_alert") == Some(GrafanaAlertJson(rule, data))
  {
    var vs := [rule.uid, rule.evaluateFor, rule.labels, rule.annotations, GrafanaAlertJson(rule, data)];
    RuleKeysDistinct();
    ZipGet(RuleKeys, vs, 0);
    ZipGet(RuleKeys, vs, 1);
    ZipGet(RuleKeys, vs, 2);
    ZipGet(RuleKeys, vs, 3);
    ZipGet(RuleKeys, vs, 4);
  }

  /** `grafana_alert` carries the title, condition, data and the two states. */
  lemma GrafanaAlertJsonSpec(rule: AlertRule, data: seq<Json>)
    ensures var a := GrafanaAlertJson(rule, data).fields;
      && Keys(a) == GrafanaAlertKeys
      && Get(a, "title") == Some(rule.title)
      && Get(a, "condition") == Some(rule.condition)
      && Get(a, "data") == Some(JArr(data))
      && Get(a, "no_data_state") == Some(rule.noDataAlertState)
      && Get(a, "exec_err_state") == Some(rule.errorAlertState)
  {
    var ws := [rule.title, rule.condition, JArr(data), rule.noDataAlertState, rule.errorAlertState];
    RuleKeysDistinct();
    ZipGet(GrafanaAlertKeys, ws, 0);
    ZipGet(GrafanaAlertKeys, ws, 1);
    ZipGet(GrafanaAlertKeys, ws, 2);
    ZipGet(GrafanaAlertKeys, ws, 3);
    ZipGet(GrafanaAlertKeys, ws, 4);
  }
}
