/** The alert-rule dataclasses of grafana_api/models/alert.py: their fields in
    declaration order, their defaults, the data model's `validate()`, and what
    `serialize` makes of them. */
module AlertModels {
  import opened Wrappers
  import opened Dict
  import opened Strings
  import opened Json
  import opened Exceptions
  import opened Validation
  import opened Utils
  import opened Serializer

  /** `EvaluatorType`: `NO_VALUE` repeats the value of `OUTSIDE_RANGE`, so Python's
      `Enum` makes it an alias of that member rather than a member of its own. */
  datatype EvaluatorType = GreaterThan | LowerThan | WithinRange | OutsideRange

  function EvaluatorValue(e: EvaluatorType): string {
    match e
    case GreaterThan => "gt"
    case LowerThan => "lt"
    case WithinRange => "within_range"
    case OutsideRange => "outside_range"
  }

  /** `EvaluatorType[name]`. */
  function EvaluatorByName(name: string): (r: Option<EvaluatorType>)
    ensures r.Some? <==> name in {"GREATER_THAN", "LOWER_THAN", "WITHIN_RANGE", "OUTSIDE_RANGE", "NO_VALUE"}
  {
    match name
    case "GREATER_THAN" => Some(GreaterThan)
    case "LOWER_THAN" => Some(LowerThan)
    case "WITHIN_RANGE" => Some(WithinRange)
    case "OUTSIDE_RANGE" => Some(OutsideRange)
    case "NO_VALUE" => Some(OutsideRange)
    case _ => None
  }

  /** `EvaluatorType(value)`: the member that carries `value`. */
  function EvaluatorByValue(value: string): (r: Option<EvaluatorType>)
    ensures r.Some? ==> EvaluatorValue(r.value) == value
  {
    match value
    case "gt" => Some(GreaterThan)
    case "lt" => Some(LowerThan)
    case "within_range" => Some(WithinRange)
    case "outside_range" => Some(OutsideRange)
    case _ => None
  }

  /** Looking a member up by its value gives the member back, and `NO_VALUE` is the
      very member `OUTSIDE_RANGE`. */
  lemma EvaluatorMembers(e: EvaluatorType)
    ensures EvaluatorByValue(EvaluatorValue(e)) == Some(e)
    ensures EvaluatorByName("NO_VALUE") == EvaluatorByName("OUTSIDE_RANGE")
    ensures EvaluatorValue(EvaluatorByName("NO_VALUE").value) == "outside_range"
  {
  }

  /** `GrafanaRelativeTimeRange(_from=300, to=0)`. */
  function NewRelativeTimeRange(from: int := 300, to: int := 0): Instance {
    Build(RelativeTimeRange, ["_from", "to"], [Plain(JInt(from)), Plain(JInt(to))], Some(["_from"]))
  }

  /** `_from` is emitted as `from`, and the bookkeeping list is not emitted. */
  lemma RelativeTimeRangeSerialize(from: int, to: int)
    ensures Serialize(NewRelativeTimeRange(from, to)) == Ok(JObj([("from", JInt(from)), ("to", JInt(to))]))
    ensures Serialize(NewRelativeTimeRange()) == Ok(JObj([("from", JInt(300)), ("to", JInt(0))]))
  {
    RelativeTimeRangeOut(from, to);
    RelativeTimeRangeOut(300, 0);
  }

  lemma RelativeTimeRangeOut(from: int, to: int)
    ensures Serialize(NewRelativeTimeRange(from, to)) == Ok(JObj([("from", JInt(from)), ("to", JInt(to))]))
  {
    var names := ["_from", "to"];
    var ks := RenamedKeys(names, Some(["_from"]));
    assert StartsWith("_from", "_") && "_from"[1..] == "from";
    assert ks == ["from", "to"];
    SerializePlainBuilt(RelativeTimeRange, names, [Plain(JInt(from)), Plain(JInt(to))], Some(["_from"]), [JInt(from), JInt(to)]);
    assert Zip(ks, [JInt(from), JInt(to)]) == [("from", JInt(from)), ("to", JInt(to))];
    CleanNoneFixpoint([("from", JInt(from)), ("to", JInt(to))]);
  }

  const DatasourceFields := ["type", "uid"]

  /** `GrafanaDatasource(type, uid)`. */
  function NewDatasource(kind: string, uid: Option<string>): Instance
  {
    Build(Datasource, DatasourceFields,
          [Plain(JStr(kind)), Plain(OptStr(uid))],
          None)
  }

  lemma DatasourcePlain(kind: string, uid: Option<string>)
    ensures [Plain(JStr(kind)), Plain(OptStr(uid))] ==
      Plains([JStr(kind), OptStr(uid)])
  {
  }

  lemma DatasourceKeys()
    ensures RenamedKeys(DatasourceFields, None) == ["type", "uid"]
  {
  }

  lemma DatasourceDistinct()
    ensures Distinct(["type", "uid"]) && RemoveKey !in DatasourceFields
  {
  }

  lemma DatasourceZip(kind: string, uid: Option<string>, jsons: seq<Json>)
    requires jsons == [JStr(kind), OptStr(uid)]
    ensures Zip(["type", "uid"], jsons) == [("type", JStr(kind)), ("uid", OptStr(uid))]
  {
  }

  /** Once every field is plain JSON, the output is the cleaned dictionary under the emitted keys. */
  lemma DatasourcePlainsBuilt(jsons: seq<Json>)
    requires |jsons| == |DatasourceFields|
    ensures Serialize(Build(Datasource, DatasourceFields, Plains(jsons), None)) == Ok(JObj(CleanNone(Zip(["type", "uid"], jsons))))
  {
    DatasourceKeys();
    DatasourceDistinct();
    SerializePlainsBuilt(Datasource, DatasourceFields, jsons, None);
  }

  /** `uid` is emitted only when it is not `None`. */
  lemma DatasourceSerialize(kind: string, uid: Option<string>)
    ensures Serialize(NewDatasource(kind, uid)) ==
      Ok(JObj(CleanNone([("type", JStr(kind)), ("uid", OptStr(uid))])))
  {
    var jsons := [JStr(kind), OptStr(uid)];
    DatasourcePlain(kind, uid);
    DatasourcePlainsBuilt(jsons);
    DatasourceZip(kind, uid, jsons);
  }

  /** The four `params`/`type` classes of a classic condition. */
  predicate IsParamsClass(cls: Class) {
    cls == Evaluator || cls == Operator || cls == Query || cls == Reducer
  }

  /** `ModelEvaluator(params=[], type="")`, and likewise `ModelOperator`, `ModelQuery`, `ModelReducer`. */
  function NewParams(cls: Class, params: seq<Json> := [], kind: string := ""): Instance
    requires IsParamsClass(cls)
  {
    Build(cls, ["params", "type"], [Plain(JArr(params)), Plain(JStr(kind))], None)
  }

  /** Both fields are always emitted, the empty defaults included. */
  lemma ParamsSerialize(cls: Class, params: seq<Json>, kind: string)
    requires IsParamsClass(cls)
    ensures Serialize(NewParams(cls, params, kind)) == Ok(JObj([("params", JArr(params)), ("type", JStr(kind))]))
    ensures Serialize(NewParams(cls)) == Ok(JObj([("params", JArr([])), ("type", JStr(""))]))
  {
    ParamsOut(cls, params, kind);
    ParamsOut(cls, [], "");
  }

  lemma ParamsOut(cls: Class, params: seq<Json>, kind: string)
    requires IsParamsClass(cls)
    ensures Serialize(NewParams(cls, params, kind)) == Ok(JObj([("params", JArr(params)), ("type", JStr(kind))]))
  {
    var names := ["params", "type"];
    var jsons := [JArr(params), JStr(kind)];
    assert RenamedKeys(names, None) == names;
    SerializePlainBuilt(cls, names, [Plain(JArr(params)), Plain(JStr(kind))], None, jsons);
    assert Zip(names, jsons) == [("params", JArr(params)), ("type", JStr(kind))];
    CleanNoneFixpoint([("params", JArr(params)), ("type", JStr(kind))]);
  }

  const ConditionFields := ["evaluator", "operator", "query", "reducer", "type"]

  /** `ModelAlertRuleGrafanaAlertDataModelCondition`, whose defaults are empty evaluator,
      operator, query and reducer and the type `"query"`. */
  function NewCondition(evaluator: Instance := NewParams(Evaluator), operator: Instance := NewParams(Operator),
     query: Instance := NewParams(Query), reducer: Instance := NewParams(Reducer), kind: string := "query"): Instance
  {
    Build(DataModelCondition, ConditionFields,
          [Obj(evaluator), Obj(operator), Obj(query), Obj(reducer), Plain(JStr(kind))],
          None)
  }

  lemma ConditionKeys()
    ensures RenamedKeys(ConditionFields, None) == ["evaluator", "operator", "query", "reducer", "type"]
  {
  }

  lemma ConditionDistinct()
    ensures Distinct(["evaluator", "operator", "query", "reducer", "type"]) && RemoveKey !in ConditionFields
  {
  }

  lemma ConditionZip(kind: string, evaluatorJson: Json, operatorJson: Json, queryJson: Json, reducerJson: Json, jsons: seq<Json>)
    requires jsons == [evaluatorJson, operatorJson, queryJson, reducerJson, JStr(kind)]
    requires evaluatorJson != JNull
    requires operatorJson != JNull
    requires queryJson != JNull
    requires reducerJson != JNull
    ensures Zip(["evaluator", "operator", "query", "reducer", "type"], jsons) == [("evaluator", evaluatorJson), ("operator", operatorJson), ("query", queryJson), ("reducer", reducerJson),
       ("type", JStr(kind))]
    ensures CleanNone(Zip(["evaluator", "operator", "query", "reducer", "type"], jsons)) == Zip(["evaluator", "operator", "query", "reducer", "type"], jsons)
  {
    CleanNoneFixpoint(Zip(["evaluator", "operator", "query", "reducer", "type"], jsons));
  }

  /** Each field of a condition serializes to its JSON. */
  lemma ConditionValues(evaluator: Instance, operator: Instance, query: Instance, reducer: Instance, kind: string,
    evaluatorJson: Json, operatorJson: Json, queryJson: Json, reducerJson: Json)
    requires evaluator.cls != RegexpsMatcher && operator.cls != RegexpsMatcher && query.cls != RegexpsMatcher && reducer.cls != RegexpsMatcher
    requires Serialize(evaluator) == Ok(evaluatorJson)
    requires Serialize(operator) == Ok(operatorJson)
    requires Serialize(query) == Ok(queryJson)
    requires Serialize(reducer) == Ok(reducerJson)
    ensures var values := [Obj(evaluator), Obj(operator), Obj(query), Obj(reducer), Plain(JStr(kind))];
      var jsons := [evaluatorJson, operatorJson, queryJson, reducerJson, JStr(kind)];
      forall i :: 0 <= i < 5 ==> !HasConverter(DataModelCondition, ConditionFields[i]) && SerializeValue(values[i]) == Ok(jsons[i])
  {
    SerializedObj(evaluator, evaluatorJson);
    SerializedObj(operator, operatorJson);
    SerializedObj(query, queryJson);
    SerializedObj(reducer, reducerJson);
  }

  /** The nested instances are replaced by their serializations, in declaration order. */
  lemma ConditionSerialize(evaluator: Instance, operator: Instance, query: Instance, reducer: Instance, kind: string,
    evaluatorJson: Json, operatorJson: Json, queryJson: Json, reducerJson: Json)
    requires evaluator.cls != RegexpsMatcher && operator.cls != RegexpsMatcher && query.cls != RegexpsMatcher && reducer.cls != RegexpsMatcher
    requires Serialize(evaluator) == Ok(evaluatorJson)
    requires Serialize(operator) == Ok(operatorJson)
    requires Serialize(query) == Ok(queryJson)
    requires Serialize(reducer) == Ok(reducerJson)
    ensures Serialize(NewCondition(evaluator, operator, query, reducer, kind)) ==
      Ok(JObj([("evaluator", evaluatorJson), ("operator", operatorJson), ("query", queryJson),
         ("reducer", reducerJson), ("type", JStr(kind))]))
  {
    var values := [Obj(evaluator), Obj(operator), Obj(query), Obj(reducer), Plain(JStr(kind))];
    var jsons := [evaluatorJson, operatorJson, queryJson, reducerJson, JStr(kind)];
    ConditionValues(evaluator, operator, query, reducer, kind, evaluatorJson, operatorJson, queryJson, reducerJson);
    ConditionKeys();
    ConditionDistinct();
    SerializePlainBuilt(DataModelCondition, ConditionFields, values, None, jsons);
    ConditionZip(kind, evaluatorJson, operatorJson, queryJson, reducerJson, jsons);
  }

  /** The classic condition with every default serializes to empty parameters and type `"query"`. */
  lemma DefaultConditionSerialize()
    ensures var empty := JObj([("params", JArr([])), ("type", JStr(""))]);
      Serialize(NewCondition()) == Ok(JObj([("evaluator", empty), ("operator", empty), ("query", empty), ("reducer", empty), ("type", JStr("query"))]))
  {
    ParamsSerialize(Evaluator, [], "");
    ParamsSerialize(Operator, [], "");
    ParamsSerialize(Query, [], "");
    ParamsSerialize(Reducer, [], "");
    var empty := JObj([("params", JArr([])), ("type", JStr(""))]);
    ConditionSerialize(NewParams(Evaluator), NewParams(Operator), NewParams(Query), NewParams(Reducer), "query", empty, empty, empty, empty);
  }

  const DataModelFields := ["datasource", "refId", "intervalMs", "maxDataPoints", "query", "conditions", "type", "expression", "reducer", "hide"]

  /** The fields of `ModelAlertRuleGrafanaAlertDataModel`, with its defaults. */
  function DataModelOf(datasource: Option<Instance> := None, refId: Option<string> := None, intervalMs: int := 300000,
     maxDataPoints: int := 100, query: Option<string> := None, conditions: Option<seq<Instance>> := None,
     kind: Option<string> := None, expression: Option<string> := None, reducer: Option<string> := None,
     hidden: bool := false): Instance
  {
    Build(DataModel, DataModelFields,
          [OptObj(datasource), Plain(OptStr(refId)), Plain(JInt(intervalMs)), Plain(JInt(maxDataPoints)),
           Plain(OptStr(query)), OptObjs(conditions), Plain(OptStr(kind)), Plain(OptStr(expression)),
           Plain(OptStr(reducer)), Plain(JBool(hidden))],
          None)
  }

  lemma DataModelKeys()
    ensures RenamedKeys(DataModelFields, None) == ["datasource", "refId", "intervalMs", "maxDataPoints", "query", "conditions", "type", "expression",
       "reducer", "hide"]
  {
  }

  lemma DataModelDistinct()
    ensures Distinct(["datasource", "refId", "intervalMs", "maxDataPoints", "query", "conditions", "type", "expression",
       "reducer", "hide"]) && RemoveKey !in DataModelFields
  {
  }

  lemma DataModelZip(refId: Option<string>, intervalMs: int, maxDataPoints: int, query: Option<string>, kind: Option<string>,
    expression: Option<string>, reducer: Option<string>, hidden: bool, datasourceJson: Json,
    conditionsJson: Json, jsons: seq<Json>)
    requires jsons == [datasourceJson, OptStr(refId), JInt(intervalMs), JInt(maxDataPoints), OptStr(query), conditionsJson,
       OptStr(kind), OptStr(expression), OptStr(reducer), JBool(hidden)]
    ensures Zip(["datasource", "refId", "intervalMs", "maxDataPoints", "query", "conditions", "type", "expression",
       "reducer", "hide"], jsons) == [("datasource", datasourceJson), ("refId", OptStr(refId)), ("intervalMs", JInt(intervalMs)),
       ("maxDataPoints", JInt(maxDataPoints)), ("query", OptStr(query)), ("conditions", conditionsJson),
       ("type", OptStr(kind)), ("expression", OptStr(expression)), ("reducer", OptStr(reducer)),
       ("hide", JBool(hidden))]
  {
    ZipOf10(["datasource", "refId", "intervalMs", "maxDataPoints", "query", "conditions", "type", "expression",
       "reducer", "hide"], jsons);
  }

  lemma DataModelReplaceDatasourceStage(datasource: Option<Instance>, refId: Option<string>, intervalMs: int, maxDataPoints: int,
    query: Option<string>, conditions: Option<seq<Instance>>, kind: Option<string>, expression: Option<string>,
    reducer: Option<string>, hidden: bool, datasourceJson: Json, conditionsJson: Json)
    ensures [OptObj(datasource), Plain(OptStr(refId)), Plain(JInt(intervalMs)), Plain(JInt(maxDataPoints)),
       Plain(OptStr(query)), OptObjs(conditions), Plain(OptStr(kind)), Plain(OptStr(expression)),
       Plain(OptStr(reducer)), Plain(JBool(hidden))][0 := Plain(datasourceJson)] ==
      [Plain(datasourceJson), Plain(OptStr(refId)), Plain(JInt(intervalMs)), Plain(JInt(maxDataPoints)),
         Plain(OptStr(query)), OptObjs(conditions), Plain(OptStr(kind)), Plain(OptStr(expression)),
         Plain(OptStr(reducer)), Plain(JBool(hidden))]
  {
  }

  lemma DataModelReplaceDatasource(datasource: Option<Instance>, refId: Option<string>, intervalMs: int, maxDataPoints: int,
    query: Option<string>, conditions: Option<seq<Instance>>, kind: Option<string>, expression: Option<string>,
    reducer: Option<string>, hidden: bool, datasourceJson: Json, conditionsJson: Json)
    requires SerializeValue(OptObj(datasource)) == Ok(datasourceJson)
    ensures Serialize(Build(DataModel, DataModelFields, [OptObj(datasource), Plain(OptStr(refId)), Plain(JInt(intervalMs)), Plain(JInt(maxDataPoints)),
         Plain(OptStr(query)), OptObjs(conditions), Plain(OptStr(kind)), Plain(OptStr(expression)),
         Plain(OptStr(reducer)), Plain(JBool(hidden))], None)) ==
      Serialize(Build(DataModel, DataModelFields, [Plain(datasourceJson), Plain(OptStr(refId)), Plain(JInt(intervalMs)), Plain(JInt(maxDataPoints)),
         Plain(OptStr(query)), OptObjs(conditions), Plain(OptStr(kind)), Plain(OptStr(expression)),
         Plain(OptStr(reducer)), Plain(JBool(hidden))], None))
  {
    var values := [OptObj(datasource), Plain(OptStr(refId)), Plain(JInt(intervalMs)), Plain(JInt(maxDataPoints)),
       Plain(OptStr(query)), OptObjs(conditions), Plain(OptStr(kind)), Plain(OptStr(expression)),
       Plain(OptStr(reducer)), Plain(JBool(hidden))];
    DataModelDistinct();
    SubstituteField(DataModel, DataModelFields, values, None, 0, OptObj(datasource), datasourceJson);
    DataModelReplaceDatasourceStage(datasource, refId, intervalMs, maxDataPoints, query, conditions, kind, expression, reducer, hidden, datasourceJson, conditionsJson);
  }

  lemma DataModelReplaceConditionsStage(datasource: Option<Instance>, refId: Option<string>, intervalMs: int, maxDataPoints: int,
    query: Option<string>, conditions: Option<seq<Instance>>, kind: Option<string>, expression: Option<string>,
    reducer: Option<string>, hidden: bool, datasourceJson: Json, conditionsJson: Json)
    ensures [Plain(datasourceJson), Plain(OptStr(refId)), Plain(JInt(intervalMs)), Plain(JInt(maxDataPoints)),
       Plain(OptStr(query)), OptObjs(conditions), Plain(OptStr(kind)), Plain(OptStr(expression)),
       Plain(OptStr(reducer)), Plain(JBool(hidden))][5 := Plain(conditionsJson)] ==
      Plains([datasourceJson, OptStr(refId), JInt(intervalMs), JInt(maxDataPoints), OptStr(query), conditionsJson,
         OptStr(kind), OptStr(expression), OptStr(reducer), JBool(hidden)])
  {
    ReplacePlain([Plain(datasourceJson), Plain(OptStr(refId)), Plain(JInt(intervalMs)), Plain(JInt(maxDataPoints)),
       Plain(OptStr(query)), OptObjs(conditions), Plain(OptStr(kind)), Plain(OptStr(expression)),
       Plain(OptStr(reducer)), Plain(JBool(hidden))],
      [datasourceJson, OptStr(refId), JInt(intervalMs), JInt(maxDataPoints), OptStr(query), conditionsJson,
         OptStr(kind), OptStr(expression), OptStr(reducer), JBool(hidden)], 5);
  }

  lemma DataModelReplaceConditions(datasource: Option<Instance>, refId: Option<string>, intervalMs: int, maxDataPoints: int,
    query: Option<string>, conditions: Option<seq<Instance>>, kind: Option<string>, expression: Option<string>,
    reducer: Option<string>, hidden: bool, datasourceJson: Json, conditionsJson: Json)
    requires SerializeValue(OptObjs(conditions)) == Ok(conditionsJson)
    ensures Serialize(Build(DataModel, DataModelFields, [Plain(datasourceJson), Plain(OptStr(refId)), Plain(JInt(intervalMs)), Plain(JInt(maxDataPoints)),
         Plain(OptStr(query)), OptObjs(conditions), Plain(OptStr(kind)), Plain(OptStr(expression)),
         Plain(OptStr(reducer)), Plain(JBool(hidden))], None)) ==
      Serialize(Build(DataModel, DataModelFields, Plains([datasourceJson, OptStr(refId), JInt(intervalMs), JInt(maxDataPoints), OptStr(query), conditionsJson,
         OptStr(kind), OptStr(expression), OptStr(reducer), JBool(hidden)]), None))
  {
    var values := [Plain(datasourceJson), Plain(OptStr(refId)), Plain(JInt(intervalMs)), Plain(JInt(maxDataPoints)),
       Plain(OptStr(query)), OptObjs(conditions), Plain(OptStr(kind)), Plain(OptStr(expression)),
       Plain(OptStr(reducer)), Plain(JBool(hidden))];
    DataModelDistinct();
    SubstituteField(DataModel, DataModelFields, values, None, 5, OptObjs(conditions), conditionsJson);
    DataModelReplaceConditionsStage(datasource, refId, intervalMs, maxDataPoints, query, conditions, kind, expression, reducer, hidden, datasourceJson, conditionsJson);
  }

  lemma DataModelSubst(datasource: Option<Instance>, refId: Option<string>, intervalMs: int, maxDataPoints: int,
    query: Option<string>, conditions: Option<seq<Instance>>, kind: Option<string>, expression: Option<string>,
    reducer: Option<string>, hidden: bool, datasourceJson: Json, conditionsJson: Json)
    requires SerializeValue(OptObj(datasource)) == Ok(datasourceJson)
    requires SerializeValue(OptObjs(conditions)) == Ok(conditionsJson)
    ensures Serialize(DataModelOf(datasource, refId, intervalMs, maxDataPoints, query, conditions, kind, expression, reducer, hidden)) ==
      Serialize(Build(DataModel, DataModelFields, Plains([datasourceJson, OptStr(refId), JInt(intervalMs), JInt(maxDataPoints), OptStr(query), conditionsJson,
         OptStr(kind), OptStr(expression), OptStr(reducer), JBool(hidden)]), None))
  {
    DataModelReplaceDatasource(datasource, refId, intervalMs, maxDataPoints, query, conditions, kind, expression, reducer, hidden, datasourceJson, conditionsJson);
    DataModelReplaceConditions(datasource, refId, intervalMs, maxDataPoints, query, conditions, kind, expression, reducer, hidden, datasourceJson, conditionsJson);
  }

  /** Once every field is plain JSON, the output is the cleaned dictionary under the emitted keys. */
  lemma DataModelPlainsBuilt(jsons: seq<Json>)
    requires |jsons| == |DataModelFields|
    ensures Serialize(Build(DataModel, DataModelFields, Plains(jsons), None)) == Ok(JObj(CleanNone(Zip(["datasource", "refId", "intervalMs", "maxDataPoints", "query", "conditions", "type", "expression",
       "reducer", "hide"], jsons))))
  {
    DataModelKeys();
    DataModelDistinct();
    SerializePlainsBuilt(DataModel, DataModelFields, jsons, None);
  }

  /** A data model serializes its fields under their own names, `None` ones dropped. */
  lemma DataModelSerialize(datasource: Option<Instance>, refId: Option<string>, intervalMs: int, maxDataPoints: int,
    query: Option<string>, conditions: Option<seq<Instance>>, kind: Option<string>, expression: Option<string>,
    reducer: Option<string>, hidden: bool, datasourceJson: Json, conditionsJson: Json)
    requires SerializeValue(OptObj(datasource)) == Ok(datasourceJson)
    requires SerializeValue(OptObjs(conditions)) == Ok(conditionsJson)
    ensures Serialize(DataModelOf(datasource, refId, intervalMs, maxDataPoints, query, conditions, kind, expression, reducer, hidden)) ==
      Ok(JObj(CleanNone([("datasource", datasourceJson), ("refId", OptStr(refId)), ("intervalMs", JInt(intervalMs)),
         ("maxDataPoints", JInt(maxDataPoints)), ("query", OptStr(query)), ("conditions", conditionsJson),
         ("type", OptStr(kind)), ("expression", OptStr(expression)), ("reducer", OptStr(reducer)),
         ("hide", JBool(hidden))])))
  {
    var jsons := [datasourceJson, OptStr(refId), JInt(intervalMs), JInt(maxDataPoints), OptStr(query), conditionsJson,
       OptStr(kind), OptStr(expression), OptStr(reducer), JBool(hidden)];
    DataModelSubst(datasource, refId, intervalMs, maxDataPoints, query, conditions, kind, expression, reducer, hidden, datasourceJson, conditionsJson);
    DataModelPlainsBuilt(jsons);
    DataModelZip(refId, intervalMs, maxDataPoints, query, kind, expression, reducer, hidden, datasourceJson, conditionsJson, jsons);
  }

  const DataModelError := ValueError("You need to provide at least one of the following: conditions, query")

  /** `ModelAlertRuleGrafanaAlertDataModel.validate`. */
  function DataModelValidate(fields: Assoc<Value>): Option<Error> {
    if Get(fields, "conditions") == Some(Plain(JNull)) && Get(fields, "query") == Some(Plain(JNull)) then Some(DataModelError) else None
  }

  function DataModelHooks(): Hooks<Value> {
    Hooks(_ => None, Some(DataModelValidate))
  }

  function DataModelValues(datasource: Option<Instance>, refId: Option<string>, intervalMs: int, maxDataPoints: int,
                           query: Option<string>, conditions: Option<seq<Instance>>, kind: Option<string>,
                           expression: Option<string>, reducer: Option<string>, hidden: bool): seq<Value>
  {
    [OptObj(datasource), Plain(OptStr(refId)), Plain(JInt(intervalMs)), Plain(JInt(maxDataPoints)),
     Plain(OptStr(query)), OptObjs(conditions), Plain(OptStr(kind)),
     Plain(OptStr(expression)), Plain(OptStr(reducer)), Plain(JBool(hidden))]
  }

  /** `ModelAlertRuleGrafanaAlertDataModel(...)`: construction runs `validate()`. */
  function NewDataModel(datasource: Option<Instance> := None, refId: Option<string> := None, intervalMs: int := 300000,
                        maxDataPoints: int := 100, query: Option<string> := None, conditions: Option<seq<Instance>> := None,
                        kind: Option<string> := None, expression: Option<string> := None, reducer: Option<string> := None,
                        hidden: bool := false): Result<Instance, Error>
  {
    var inst := Build(DataModel, DataModelFields, DataModelValues(datasource, refId, intervalMs, maxDataPoints, query, conditions, kind, expression, reducer, hidden), None);
    var fields :- SerializerPostInit(inst.fields, DataModelHooks());
    Ok(Instance(DataModel, fields))
  }

  /** Each field of a built data model is found under its own name. */
  lemma DataModelGet(datasource: Option<Instance>, refId: Option<string>, intervalMs: int, maxDataPoints: int,
                     query: Option<string>, conditions: Option<seq<Instance>>, kind: Option<string>,
                     expression: Option<string>, reducer: Option<string>, hidden: bool, i: nat)
    requires i < |DataModelFields|
    ensures var values := DataModelValues(datasource, refId, intervalMs, maxDataPoints, query, conditions, kind, expression, reducer, hidden);
      Get(Build(DataModel, DataModelFields, values, None).fields, DataModelFields[i]) == Some(values[i])
  {
    var values := DataModelValues(datasource, refId, intervalMs, maxDataPoints, query, conditions, kind, expression, reducer, hidden);
    assert Distinct(DataModelFields);
    GetBuilt(DataModel, DataModelFields, values, None, i);
  }

  /** Construction fails, with the `ValueError`, exactly when both `conditions` and `query` are
      `None`; otherwise the instance holds the given fields. */
  lemma DataModelConstruct(datasource: Option<Instance>, refId: Option<string>, intervalMs: int, maxDataPoints: int,
                           query: Option<string>, conditions: Option<seq<Instance>>, kind: Option<string>,
                           expression: Option<string>, reducer: Option<string>, hidden: bool)
    ensures var r := NewDataModel(datasource, refId, intervalMs, maxDataPoints, query, conditions, kind, expression, reducer, hidden);
      && (r.Err? <==> conditions.None? && query.None?)
      && (r.Err? ==> r.error == DataModelError)
      && (r.Ok? ==> r.value == Build(DataModel, DataModelFields, DataModelValues(datasource, refId, intervalMs, maxDataPoints, query, conditions, kind, expression, reducer, hidden), None))
  {
    var values := DataModelValues(datasource, refId, intervalMs, maxDataPoints, query, conditions, kind, expression, reducer, hidden);
    var fields := Build(DataModel, DataModelFields, values, None).fields;
    DataModelValidateBuilt(datasource, refId, intervalMs, maxDataPoints, query, conditions, kind, expression, reducer, hidden);
    ValidateOnly(fields, DataModelHooks());
  }

  /** `validate()` on a built model rejects exactly a missing `query` together with missing `conditions`. */
  lemma DataModelValidateBuilt(datasource: Option<Instance>, refId: Option<string>, intervalMs: int, maxDataPoints: int,
                               query: Option<string>, conditions: Option<seq<Instance>>, kind: Option<string>,
                               expression: Option<string>, reducer: Option<string>, hidden: bool)
    ensures var fields := Build(DataModel, DataModelFields, DataModelValues(datasource, refId, intervalMs, maxDataPoints, query, conditions, kind, expression, reducer, hidden), None).fields;
      DataModelValidate(fields) == if conditions.None? && query.None? then Some(DataModelError) else None
  {
    DataModelQueryConditions(datasource, refId, intervalMs, maxDataPoints, query, conditions, kind, expression, reducer, hidden);
    assert (Plain(OptStr(query)) == Plain(JNull)) == query.None?;
    assert (OptObjs(conditions) == Plain(JNull)) == conditions.None?;
  }

  /** `validate()` reads the built model's `query` and `conditions`. */
  lemma DataModelQueryConditions(datasource: Option<Instance>, refId: Option<string>, intervalMs: int, maxDataPoints: int,
                                 query: Option<string>, conditions: Option<seq<Instance>>, kind: Option<string>,
                                 expression: Option<string>, reducer: Option<string>, hidden: bool)
    ensures var fields := Build(DataModel, DataModelFields, DataModelValues(datasource, refId, intervalMs, maxDataPoints, query, conditions, kind, expression, reducer, hidden), None).fields;
      Get(fields, "query") == Some(Plain(OptStr(query))) && Get(fields, "conditions") == Some(OptObjs(conditions))
  {
    DataModelQueryConditionsNames();
    DataModelGet(datasource, refId, intervalMs, maxDataPoints, query, conditions, kind, expression, reducer, hidden, 4);
    DataModelGet(datasource, refId, intervalMs, maxDataPoints, query, conditions, kind, expression, reducer, hidden, 5);
  }

  lemma DataModelQueryConditionsNames()
    ensures DataModelFields[4] == "query" && DataModelFields[5] == "conditions"
  {
  }

  lemma DataModelDefaultFields(query: string)
    ensures var fields := Build(DataModel, DataModelFields, DataModelValues(None, None, 300000, 100, Some(query), None, None, None, None, false), None).fields;
      Get(fields, "intervalMs") == Some(Plain(JInt(300000)))
      && Get(fields, "maxDataPoints") == Some(Plain(JInt(100)))
      && Get(fields, "hide") == Some(Plain(JBool(false)))
  {
    DataModelDefaultsAt(query);
    DataModelGet(None, None, 300000, 100, Some(query), None, None, None, None, false, 2);
    DataModelGet(None, None, 300000, 100, Some(query), None, None, None, None, false, 3);
    DataModelGet(None, None, 300000, 100, Some(query), None, None, None, None, false, 9);
  }

  lemma DataModelDefaultsAt(query: string)
    ensures DataModelFields[2] == "intervalMs" && DataModelFields[3] == "maxDataPoints" && DataModelFields[9] == "hide"
    ensures var values := DataModelValues(None, None, 300000, 100, Some(query), None, None, None, None, false);
      values[2] == Plain(JInt(300000)) && values[3] == Plain(JInt(100)) && values[9] == Plain(JBool(false))
  {
  }

  /** The defaults: a 300000 ms interval, 100 data points, not hidden. */
  lemma DataModelDefaults(query: string)
    ensures NewDataModel(query := Some(query)).Ok?
    ensures var fields := NewDataModel(query := Some(query)).value.fields;
      Get(fields, "intervalMs") == Some(Plain(JInt(300000)))
      && Get(fields, "maxDataPoints") == Some(Plain(JInt(100)))
      && Get(fields, "hide") == Some(Plain(JBool(false)))
  {
    DataModelConstruct(None, None, 300000, 100, Some(query), None, None, None, None, false);
    DataModelDefaultFields(query);
  }

  const AlertDataFields := ["refId", "datasourceUid", "model", "relativeTimeRange", "queryType"]

  /** `ModelAlertRuleGrafanaAlertData`: the relative time range defaults to 300..0 and the query type to `""`. */
  function NewAlertData(refId: string, datasourceUid: string, model: Instance,
     relativeTimeRange: Instance := NewRelativeTimeRange(), queryType: string := ""): Instance
  {
    Build(AlertData, AlertDataFields,
          [Plain(JStr(refId)), Plain(JStr(datasourceUid)), Obj(model), Obj(relativeTimeRange),
           Plain(JStr(queryType))],
          None)
  }

  lemma AlertDataKeys()
    ensures RenamedKeys(AlertDataFields, None) == ["refId", "datasourceUid", "model", "relativeTimeRange", "queryType"]
  {
  }

  lemma AlertDataDistinct()
    ensures Distinct(["refId", "datasourceUid", "model", "relativeTimeRange", "queryType"]) && RemoveKey !in AlertDataFields
  {
  }

  lemma AlertDataZip(refId: string, datasourceUid: string, queryType: string, modelJson: Json, relativeTimeRangeJson: Json,
    jsons: seq<Json>)
    requires jsons == [JStr(refId), JStr(datasourceUid), modelJson, relativeTimeRangeJson, JStr(queryType)]
    requires modelJson != JNull
    requires relativeTimeRangeJson != JNull
    ensures Zip(["refId", "datasourceUid", "model", "relativeTimeRange", "queryType"], jsons) == [("refId", JStr(refId)), ("datasourceUid", JStr(datasourceUid)), ("model", modelJson),
       ("relativeTimeRange", relativeTimeRangeJson), ("queryType", JStr(queryType))]
    ensures CleanNone(Zip(["refId", "datasourceUid", "model", "relativeTimeRange", "queryType"], jsons)) == Zip(["refId", "datasourceUid", "model", "relativeTimeRange", "queryType"], jsons)
  {
    CleanNoneFixpoint(Zip(["refId", "datasourceUid", "model", "relativeTimeRange", "queryType"], jsons));
  }

  /** Each field of alert data serializes to its JSON. */
  lemma AlertDataValues(refId: string, datasourceUid: string, model: Instance, relativeTimeRange: Instance, queryType: string,
    modelJson: Json, relativeTimeRangeJson: Json)
    requires model.cls != RegexpsMatcher && relativeTimeRange.cls != RegexpsMatcher
    requires Serialize(model) == Ok(modelJson)
    requires Serialize(relativeTimeRange) == Ok(relativeTimeRangeJson)
    ensures var values := [Plain(JStr(refId)), Plain(JStr(datasourceUid)), Obj(model), Obj(relativeTimeRange), Plain(JStr(queryType))];
      var jsons := [JStr(refId), JStr(datasourceUid), modelJson, relativeTimeRangeJson, JStr(queryType)];
      forall i :: 0 <= i < 5 ==> !HasConverter(AlertData, AlertDataFields[i]) && SerializeValue(values[i]) == Ok(jsons[i])
  {
    SerializedObj(model, modelJson);
    SerializedObj(relativeTimeRange, relativeTimeRangeJson);
  }

  /** The model and the time range are replaced by their serializations. */
  lemma AlertDataSerialize(refId: string, datasourceUid: string, model: Instance, relativeTimeRange: Instance, queryType: string,
    modelJson: Json, relativeTimeRangeJson: Json)
    requires model.cls != RegexpsMatcher && relativeTimeRange.cls != RegexpsMatcher
    requires Serialize(model) == Ok(modelJson)
    requires Serialize(relativeTimeRange) == Ok(relativeTimeRangeJson)
    ensures Serialize(NewAlertData(refId, datasourceUid, model, relativeTimeRange, queryType)) ==
      Ok(JObj([("refId", JStr(refId)), ("datasourceUid", JStr(datasourceUid)), ("model", modelJson),
         ("relativeTimeRange", relativeTimeRangeJson), ("queryType", JStr(queryType))]))
  {
    var values := [Plain(JStr(refId)), Plain(JStr(datasourceUid)), Obj(model), Obj(relativeTimeRange), Plain(JStr(queryType))];
    var jsons := [JStr(refId), JStr(datasourceUid), modelJson, relativeTimeRangeJson, JStr(queryType)];
    AlertDataValues(refId, datasourceUid, model, relativeTimeRange, queryType, modelJson, relativeTimeRangeJson);
    AlertDataKeys();
    AlertDataDistinct();
    SerializePlainBuilt(AlertData, AlertDataFields, values, None, jsons);
    AlertDataZip(refId, datasourceUid, queryType, modelJson, relativeTimeRangeJson, jsons);
  }

  /** With the default time range, `relativeTimeRange` is emitted as `{"from": 300, "to": 0}`. */
  lemma AlertDataDefaultRange(refId: string, datasourceUid: string, model: Instance, modelJson: Json)
    requires model.cls != RegexpsMatcher
    requires Serialize(model) == Ok(modelJson)
    ensures Serialize(NewAlertData(refId, datasourceUid, model)) ==
      Ok(JObj([("refId", JStr(refId)), ("datasourceUid", JStr(datasourceUid)), ("model", modelJson),
               ("relativeTimeRange", JObj([("from", JInt(300)), ("to", JInt(0))])), ("queryType", JStr(""))]))
  {
    RelativeTimeRangeSerialize(300, 0);
    AlertDataSerialize(refId, datasourceUid, model, NewRelativeTimeRange(), "", modelJson, JObj([("from", JInt(300)), ("to", JInt(0))]));
  }

  const GrafanaAlertFields := ["title", "condition", "data", "_for", "no_data_state", "orgID", "folderUID", "rule_group", "execErrState", "annotations", "id", "labels", "provenance", "uid", "updated"]

  /** `ModelAlertRuleGrafanaAlert`: `no_data_state` defaults to `"NoData"`, `execErrState` to `"Error"`,
      every optional field to `None`; `_for` is listed for renaming. */
  function NewGrafanaAlert(title: string, condition: string, data: seq<Instance>, forDuration: string,
     noDataState: string := "NoData", orgID: Option<int> := None, folderUID: Option<string> := None,
     ruleGroup: Option<string> := None, execErrState: string := "Error", annotations: Option<string> := None,
     id: Option<string> := None, labels: Option<Assoc<string>> := None, provenance: Option<string> := None,
     uid: Option<string> := None, updated: Option<string> := None): Instance
  {
    Build(GrafanaAlert, GrafanaAlertFields,
          [Plain(JStr(title)), Plain(JStr(condition)), ListOf(Objs(data)), Plain(JStr(forDuration)),
           Plain(JStr(noDataState)), Plain(OptInt(orgID)), Plain(OptStr(folderUID)), Plain(OptStr(ruleGroup)),
           Plain(JStr(execErrState)), Plain(OptStr(annotations)), Plain(OptStr(id)), Plain(OptStrObj(labels)),
           Plain(OptStr(provenance)), Plain(OptStr(uid)), Plain(OptStr(updated))],
          Some(["_for"]))
  }

  lemma GrafanaAlertKeys()
    ensures RenamedKeys(GrafanaAlertFields, Some(["_for"])) == ["title", "condition", "data", "for", "no_data_state", "orgID", "folderUID", "rule_group", "execErrState",
       "annotations", "id", "labels", "provenance", "uid", "updated"]
  {
    assert StartsWith("_for", "_") && "_for"[1..] == "for";
  }

  lemma GrafanaAlertDistinct()
    ensures Distinct(["title", "condition", "data", "for", "no_data_state", "orgID", "folderUID", "rule_group", "execErrState",
       "annotations", "id", "labels", "provenance", "uid", "updated"]) && RemoveKey !in GrafanaAlertFields
  {
  }

  lemma GrafanaAlertZip(title: string, condition: string, forDuration: string, noDataState: string, orgID: Option<int>,
    folderUID: Option<string>, ruleGroup: Option<string>, execErrState: string, annotations: Option<string>,
    id: Option<string>, labels: Option<Assoc<string>>, provenance: Option<string>, uid: Option<string>,
    updated: Option<string>, dataJson: seq<Json>, jsons: seq<Json>)
    requires jsons == [JStr(title), JStr(condition), JArr(dataJson), JStr(forDuration), JStr(noDataState), OptInt(orgID),
       OptStr(folderUID), OptStr(ruleGroup), JStr(execErrState), OptStr(annotations), OptStr(id),
       OptStrObj(labels), OptStr(provenance), OptStr(uid), OptStr(updated)]
    ensures Zip(["title", "condition", "data", "for", "no_data_state", "orgID", "folderUID", "rule_group", "execErrState",
       "annotations", "id", "labels", "provenance", "uid", "updated"], jsons) == [("title", JStr(title)), ("condition", JStr(condition)), ("data", JArr(dataJson)),
       ("for", JStr(forDuration)), ("no_data_state", JStr(noDataState)), ("orgID", OptInt(orgID)),
       ("folderUID", OptStr(folderUID)), ("rule_group", OptStr(ruleGroup)),
       ("execErrState", JStr(execErrState)), ("annotations", OptStr(annotations)), ("id", OptStr(id)),
       ("labels", OptStrObj(labels)), ("provenance", OptStr(provenance)), ("uid", OptStr(uid)),
       ("updated", OptStr(updated))]
  {
    ZipOf15(["title", "condition", "data", "for", "no_data_state", "orgID", "folderUID", "rule_group", "execErrState",
       "annotations", "id", "labels", "provenance", "uid", "updated"], jsons);
  }

  lemma GrafanaAlertReplaceDataStage(title: string, condition: string, data: seq<Instance>, forDuration: string, noDataState: string,
    orgID: Option<int>, folderUID: Option<string>, ruleGroup: Option<string>, execErrState: string,
    annotations: Option<string>, id: Option<string>, labels: Option<Assoc<string>>, provenance: Option<string>,
    uid: Option<string>, updated: Option<string>, dataJson: seq<Json>)
    ensures [Plain(JStr(title)), Plain(JStr(condition)), ListOf(Objs(data)), Plain(JStr(forDuration)),
       Plain(JStr(noDataState)), Plain(OptInt(orgID)), Plain(OptStr(folderUID)), Plain(OptStr(ruleGroup)),
       Plain(JStr(execErrState)), Plain(OptStr(annotations)), Plain(OptStr(id)), Plain(OptStrObj(labels)),
       Plain(OptStr(provenance)), Plain(OptStr(uid)), Plain(OptStr(updated))][2 := Plain(JArr(dataJson))] ==
      Plains([JStr(title), JStr(condition), JArr(dataJson), JStr(forDuration), JStr(noDataState), OptInt(orgID),
         OptStr(folderUID), OptStr(ruleGroup), JStr(execErrState), OptStr(annotations), OptStr(id),
         OptStrObj(labels), OptStr(provenance), OptStr(uid), OptStr(updated)])
  {
    ReplacePlain([Plain(JStr(title)), Plain(JStr(condition)), ListOf(Objs(data)), Plain(JStr(forDuration)),
       Plain(JStr(noDataState)), Plain(OptInt(orgID)), Plain(OptStr(folderUID)), Plain(OptStr(ruleGroup)),
       Plain(JStr(execErrState)), Plain(OptStr(annotations)), Plain(OptStr(id)), Plain(OptStrObj(labels)),
       Plain(OptStr(provenance)), Plain(OptStr(uid)), Plain(OptStr(updated))],
      [JStr(title), JStr(condition), JArr(dataJson), JStr(forDuration), JStr(noDataState), OptInt(orgID),
         OptStr(folderUID), OptStr(ruleGroup), JStr(execErrState), OptStr(annotations), OptStr(id),
         OptStrObj(labels), OptStr(provenance), OptStr(uid), OptStr(updated)], 2);
  }

  lemma GrafanaAlertReplaceData(title: string, condition: string, data: seq<Instance>, forDuration: string, noDataState: string,
    orgID: Option<int>, folderUID: Option<string>, ruleGroup: Option<string>, execErrState: string,
    annotations: Option<string>, id: Option<string>, labels: Option<Assoc<string>>, provenance: Option<string>,
    uid: Option<string>, updated: Option<string>, dataJson: seq<Json>)
    requires SerializeValue(ListOf(Objs(data))) == Ok(JArr(dataJson))
    ensures Serialize(Build(GrafanaAlert, GrafanaAlertFields, [Plain(JStr(title)), Plain(JStr(condition)), ListOf(Objs(data)), Plain(JStr(forDuration)),
         Plain(JStr(noDataState)), Plain(OptInt(orgID)), Plain(OptStr(folderUID)), Plain(OptStr(ruleGroup)),
         Plain(JStr(execErrState)), Plain(OptStr(annotations)), Plain(OptStr(id)), Plain(OptStrObj(labels)),
         Plain(OptStr(provenance)), Plain(OptStr(uid)), Plain(OptStr(updated))], Some(["_for"]))) ==
      Serialize(Build(GrafanaAlert, GrafanaAlertFields, Plains([JStr(title), JStr(condition), JArr(dataJson), JStr(forDuration), JStr(noDataState), OptInt(orgID),
         OptStr(folderUID), OptStr(ruleGroup), JStr(execErrState), OptStr(annotations), OptStr(id),
         OptStrObj(labels), OptStr(provenance), OptStr(uid), OptStr(updated)]), Some(["_for"])))
  {
    var values := [Plain(JStr(title)), Plain(JStr(condition)), ListOf(Objs(data)), Plain(JStr(forDuration)),
       Plain(JStr(noDataState)), Plain(OptInt(orgID)), Plain(OptStr(folderUID)), Plain(OptStr(ruleGroup)),
       Plain(JStr(execErrState)), Plain(OptStr(annotations)), Plain(OptStr(id)), Plain(OptStrObj(labels)),
       Plain(OptStr(provenance)), Plain(OptStr(uid)), Plain(OptStr(updated))];
    GrafanaAlertDistinct();
    SubstituteField(GrafanaAlert, GrafanaAlertFields, values, Some(["_for"]), 2, ListOf(Objs(data)), JArr(dataJson));
    GrafanaAlertReplaceDataStage(title, condition, data, forDuration, noDataState, orgID, folderUID, ruleGroup, execErrState, annotations, id, labels, provenance, uid, updated, dataJson);
  }

  lemma GrafanaAlertSubst(title: string, condition: string, data: seq<Instance>, forDuration: string, noDataState: string,
    orgID: Option<int>, folderUID: Option<string>, ruleGroup: Option<string>, execErrState: string,
    annotations: Option<string>, id: Option<string>, labels: Option<Assoc<string>>, provenance: Option<string>,
    uid: Option<string>, updated: Option<string>, dataJson: seq<Json>)
    requires SerializeValue(ListOf(Objs(data))) == Ok(JArr(dataJson))
    ensures Serialize(NewGrafanaAlert(title, condition, data, forDuration, noDataState, orgID, folderUID, ruleGroup, execErrState, annotations,
       id, labels, provenance, uid, updated)) ==
      Serialize(Build(GrafanaAlert, GrafanaAlertFields, Plains([JStr(title), JStr(condition), JArr(dataJson), JStr(forDuration), JStr(noDataState), OptInt(orgID),
         OptStr(folderUID), OptStr(ruleGroup), JStr(execErrState), OptStr(annotations), OptStr(id),
         OptStrObj(labels), OptStr(provenance), OptStr(uid), OptStr(updated)]), Some(["_for"])))
  {
    GrafanaAlertReplaceData(title, condition, data, forDuration, noDataState, orgID, folderUID, ruleGroup, execErrState, annotations, id, labels, provenance, uid, updated, dataJson);
  }

  /** Once every field is plain JSON, the output is the cleaned dictionary under the emitted keys. */
  lemma GrafanaAlertPlainsBuilt(jsons: seq<Json>)
    requires |jsons| == |GrafanaAlertFields|
    ensures Serialize(Build(GrafanaAlert, GrafanaAlertFields, Plains(jsons), Some(["_for"]))) == Ok(JObj(CleanNone(Zip(["title", "condition", "data", "for", "no_data_state", "orgID", "folderUID", "rule_group", "execErrState",
       "annotations", "id", "labels", "provenance", "uid", "updated"], jsons))))
  {
    GrafanaAlertKeys();
    GrafanaAlertDistinct();
    SerializePlainsBuilt(GrafanaAlert, GrafanaAlertFields, jsons, Some(["_for"]));
  }

  /** `_for` is emitted as `for`, the data items are serialized in order, `None` fields are dropped. */
  lemma GrafanaAlertSerialize(title: string, condition: string, data: seq<Instance>, forDuration: string, noDataState: string,
    orgID: Option<int>, folderUID: Option<string>, ruleGroup: Option<string>, execErrState: string,
    annotations: Option<string>, id: Option<string>, labels: Option<Assoc<string>>, provenance: Option<string>,
    uid: Option<string>, updated: Option<string>, dataJson: seq<Json>)
    requires |data| == |dataJson| && forall i :: 0 <= i < |data| ==> Serialize(data[i]) == Ok(dataJson[i])
    ensures Serialize(NewGrafanaAlert(title, condition, data, forDuration, noDataState, orgID, folderUID, ruleGroup, execErrState, annotations,
       id, labels, provenance, uid, updated)) ==
      Ok(JObj(CleanNone([("title", JStr(title)), ("condition", JStr(condition)), ("data", JArr(dataJson)),
         ("for", JStr(forDuration)), ("no_data_state", JStr(noDataState)), ("orgID", OptInt(orgID)),
         ("folderUID", OptStr(folderUID)), ("rule_group", OptStr(ruleGroup)),
         ("execErrState", JStr(execErrState)), ("annotations", OptStr(annotations)), ("id", OptStr(id)),
         ("labels", OptStrObj(labels)), ("provenance", OptStr(provenance)), ("uid", OptStr(uid)),
         ("updated", OptStr(updated))])))
  {
    var jsons := [JStr(title), JStr(condition), JArr(dataJson), JStr(forDuration), JStr(noDataState), OptInt(orgID),
       OptStr(folderUID), OptStr(ruleGroup), JStr(execErrState), OptStr(annotations), OptStr(id),
       OptStrObj(labels), OptStr(provenance), OptStr(uid), OptStr(updated)];
    SerializeObjList(data, dataJson);
    GrafanaAlertSubst(title, condition, data, forDuration, noDataState, orgID, folderUID, ruleGroup, execErrState, annotations, id, labels, provenance, uid, updated, dataJson);
    GrafanaAlertPlainsBuilt(jsons);
    GrafanaAlertZip(title, condition, forDuration, noDataState, orgID, folderUID, ruleGroup, execErrState, annotations, id, labels, provenance, uid, updated, dataJson, jsons);
  }

  /** Of the defaults after the rule group, only the error state is emitted. */
  lemma GrafanaAlertErrorStateClean()
    ensures CleanNone([("execErrState", JStr("Error")), ("annotations", JNull), ("id", JNull), ("labels", JNull), ("provenance", JNull), ("uid", JNull), ("updated", JNull)]) ==
      [("execErrState", JStr("Error"))]
  {
    var rest := [("annotations", JNull), ("id", JNull), ("labels", JNull), ("provenance", JNull), ("uid", JNull), ("updated", JNull)];
    CleanNoneSegments([("execErrState", JStr("Error"))], rest, []);
    assert [("execErrState", JStr("Error"))] + rest + [] == [("execErrState", JStr("Error")), ("annotations", JNull), ("id", JNull), ("labels", JNull), ("provenance", JNull), ("uid", JNull), ("updated", JNull)];
  }

  /** The default entries fall into the given ones, the unset ones up to the rule group, and the rest. */
  lemma GrafanaAlertDefaultsSplit(title: string, condition: string, forDuration: string, dataJson: seq<Json>)
    ensures [("title", JStr(title)), ("condition", JStr(condition)), ("data", JArr(dataJson)), ("for", JStr(forDuration)), ("no_data_state", JStr("NoData"))]
      + [("orgID", JNull), ("folderUID", JNull), ("rule_group", JNull)]
      + [("execErrState", JStr("Error")), ("annotations", JNull), ("id", JNull), ("labels", JNull), ("provenance", JNull), ("uid", JNull), ("updated", JNull)] ==
      [("title", JStr(title)), ("condition", JStr(condition)), ("data", JArr(dataJson)), ("for", JStr(forDuration)), ("no_data_state", JStr("NoData")), ("orgID", JNull), ("folderUID", JNull), ("rule_group", JNull), ("execErrState", JStr("Error")), ("annotations", JNull), ("id", JNull), ("labels", JNull), ("provenance", JNull), ("uid", JNull), ("updated", JNull)]
  {
  }

  lemma GrafanaAlertDefaultsClean(title: string, condition: string, forDuration: string, dataJson: seq<Json>)
    ensures CleanNone([("title", JStr(title)), ("condition", JStr(condition)), ("data", JArr(dataJson)), ("for", JStr(forDuration)), ("no_data_state", JStr("NoData")), ("orgID", JNull), ("folderUID", JNull), ("rule_group", JNull), ("execErrState", JStr("Error")), ("annotations", JNull), ("id", JNull), ("labels", JNull), ("provenance", JNull), ("uid", JNull), ("updated", JNull)]) == [("title", JStr(title)), ("condition", JStr(condition)), ("data", JArr(dataJson)), ("for", JStr(forDuration)), ("no_data_state", JStr("NoData")), ("execErrState", JStr("Error"))]
  {
    GrafanaAlertDefaultsSplit(title, condition, forDuration, dataJson);
    CleanNoneSegments([("title", JStr(title)), ("condition", JStr(condition)), ("data", JArr(dataJson)), ("for", JStr(forDuration)), ("no_data_state", JStr("NoData"))],
      [("orgID", JNull), ("folderUID", JNull), ("rule_group", JNull)],
      [("execErrState", JStr("Error")), ("annotations", JNull), ("id", JNull), ("labels", JNull), ("provenance", JNull), ("uid", JNull), ("updated", JNull)]);
    GrafanaAlertErrorStateClean();
  }

  /** With only the required fields given, the alert carries the `"NoData"` and `"Error"`
      states and nothing else besides them. */
  lemma GrafanaAlertDefaults(title: string, condition: string, data: seq<Instance>, forDuration: string, dataJson: seq<Json>)
    requires |data| == |dataJson| && forall i :: 0 <= i < |data| ==> Serialize(data[i]) == Ok(dataJson[i])
    ensures Serialize(NewGrafanaAlert(title, condition, data, forDuration)) ==
      Ok(JObj([("title", JStr(title)), ("condition", JStr(condition)), ("data", JArr(dataJson)),
         ("for", JStr(forDuration)), ("no_data_state", JStr("NoData")), ("execErrState", JStr("Error"))]))
  {
    GrafanaAlertSerialize(title, condition, data, forDuration, "NoData", None, None, None, "Error", None, None, None, None, None, None, dataJson);
    GrafanaAlertDefaultsClean(title, condition, forDuration, dataJson);
  }

  const AnnotationsFields := ["__dashboardUid__", "__panelId__", "__alertId__", "description", "runbook_url", "summary"]

  /** `GrafanaAnnotations`: every field optional, `None` by default. The dunder names are
      kept as they are: Python does not mangle names that end with two underscores. */
  function NewAnnotations(dashboardUid: Option<string> := None, panelId: Option<string> := None, alertId: Option<int> := None,
     description: Option<string> := None, runbookUrl: Option<string> := None, summary: Option<string> := None): Instance
  {
    Build(Annotations, AnnotationsFields,
          [Plain(OptStr(dashboardUid)), Plain(OptStr(panelId)), Plain(OptInt(alertId)),
           Plain(OptStr(description)), Plain(OptStr(runbookUrl)), Plain(OptStr(summary))],
          None)
  }

  lemma AnnotationsPlain(dashboardUid: Option<string>, panelId: Option<string>, alertId: Option<int>, description: Option<string>,
    runbookUrl: Option<string>, summary: Option<string>)
    ensures [Plain(OptStr(dashboardUid)), Plain(OptStr(panelId)), Plain(OptInt(alertId)), Plain(OptStr(description)),
       Plain(OptStr(runbookUrl)), Plain(OptStr(summary))] ==
      Plains([OptStr(dashboardUid), OptStr(panelId), OptInt(alertId), OptStr(description), OptStr(runbookUrl),
         OptStr(summary)])
  {
  }

  lemma AnnotationsKeys()
    ensures RenamedKeys(AnnotationsFields, None) == ["__dashboardUid__", "__panelId__", "__alertId__", "description", "runbook_url", "summary"]
  {
  }

  lemma AnnotationsDistinct()
    ensures Distinct(["__dashboardUid__", "__panelId__", "__alertId__", "description", "runbook_url", "summary"]) && RemoveKey !in AnnotationsFields
  {
  }

  lemma AnnotationsZip(dashboardUid: Option<string>, panelId: Option<string>, alertId: Option<int>, description: Option<string>,
    runbookUrl: Option<string>, summary: Option<string>, jsons: seq<Json>)
    requires jsons == [OptStr(dashboardUid), OptStr(panelId), OptInt(alertId), OptStr(description), OptStr(runbookUrl),
       OptStr(summary)]
    ensures Zip(["__dashboardUid__", "__panelId__", "__alertId__", "description", "runbook_url", "summary"], jsons) == [("__dashboardUid__", OptStr(dashboardUid)), ("__panelId__", OptStr(panelId)),
       ("__alertId__", OptInt(alertId)), ("description", OptStr(description)),
       ("runbook_url", OptStr(runbookUrl)), ("summary", OptStr(summary))]
  {
    ZipOf6(["__dashboardUid__", "__panelId__", "__alertId__", "description", "runbook_url", "summary"], jsons);
  }

  /** Once every field is plain JSON, the output is the cleaned dictionary under the emitted keys. */
  lemma AnnotationsPlainsBuilt(jsons: seq<Json>)
    requires |jsons| == |AnnotationsFields|
    ensures Serialize(Build(Annotations, AnnotationsFields, Plains(jsons), None)) == Ok(JObj(CleanNone(Zip(["__dashboardUid__", "__panelId__", "__alertId__", "description", "runbook_url", "summary"], jsons))))
  {
    AnnotationsKeys();
    AnnotationsDistinct();
    SerializePlainsBuilt(Annotations, AnnotationsFields, jsons, None);
  }

  /** Only the annotations that are set are emitted, under their own names. */
  lemma AnnotationsSerialize(dashboardUid: Option<string>, panelId: Option<string>, alertId: Option<int>, description: Option<string>,
    runbookUrl: Option<string>, summary: Option<string>)
    ensures Serialize(NewAnnotations(dashboardUid, panelId, alertId, description, runbookUrl, summary)) ==
      Ok(JObj(CleanNone([("__dashboardUid__", OptStr(dashboardUid)), ("__panelId__", OptStr(panelId)),
         ("__alertId__", OptInt(alertId)), ("description", OptStr(description)),
         ("runbook_url", OptStr(runbookUrl)), ("summary", OptStr(summary))])))
  {
    var jsons := [OptStr(dashboardUid), OptStr(panelId), OptInt(alertId), OptStr(description), OptStr(runbookUrl),
       OptStr(summary)];
    AnnotationsPlain(dashboardUid, panelId, alertId, description, runbookUrl, summary);
    AnnotationsPlainsBuilt(jsons);
    AnnotationsZip(dashboardUid, panelId, alertId, description, runbookUrl, summary, jsons);
  }

  lemma AnnotationsDefaultsClean()
    ensures CleanNone([("__dashboardUid__", JNull), ("__panelId__", JNull), ("__alertId__", JNull), ("description", JNull), ("runbook_url", JNull), ("summary", JNull)]) == []
  {
    CleanNoneNulls([("__dashboardUid__", JNull), ("__panelId__", JNull), ("__alertId__", JNull), ("description", JNull), ("runbook_url", JNull), ("summary", JNull)]);
  }

  /** Empty annotations serialize to an empty dictionary. */
  lemma AnnotationsDefaults()
    ensures Serialize(NewAnnotations()) ==
      Ok(JObj([]))
  {
    AnnotationsSerialize(None, None, None, None, None, None);
    AnnotationsDefaultsClean();
  }

  const AlertRuleFields := ["_for", "grafana_alert", "annotations"]

  /** `ModelAlertRule`: `_for` is listed for renaming, `annotations` defaults to `None`. */
  function NewAlertRule(forDuration: string, grafanaAlert: Instance, annotations: Option<Instance> := None): Instance
  {
    Build(AlertRule, AlertRuleFields,
          [Plain(JStr(forDuration)), Obj(grafanaAlert), OptObj(annotations)],
          Some(["_for"]))
  }

  lemma AlertRuleKeys()
    ensures RenamedKeys(AlertRuleFields, Some(["_for"])) == ["for", "grafana_alert", "annotations"]
  {
    assert StartsWith("_for", "_") && "_for"[1..] == "for";
  }

  lemma AlertRuleDistinct()
    ensures Distinct(["for", "grafana_alert", "annotations"]) && RemoveKey !in AlertRuleFields
  {
  }

  lemma AlertRuleZip(forDuration: string, grafanaAlertJson: Json, annotationsJson: Json, jsons: seq<Json>)
    requires jsons == [JStr(forDuration), grafanaAlertJson, annotationsJson]
    ensures Zip(["for", "grafana_alert", "annotations"], jsons) == [("for", JStr(forDuration)), ("grafana_alert", grafanaAlertJson), ("annotations", annotationsJson)]
  {
  }

  lemma AlertRuleReplaceGrafanaAlertStage(forDuration: string, grafanaAlert: Instance, annotations: Option<Instance>, grafanaAlertJson: Json,
    annotationsJson: Json)
    ensures [Plain(JStr(forDuration)), Obj(grafanaAlert), OptObj(annotations)][1 := Plain(grafanaAlertJson)] ==
      [Plain(JStr(forDuration)), Plain(grafanaAlertJson), OptObj(annotations)]
  {
  }

  lemma AlertRuleReplaceGrafanaAlert(forDuration: string, grafanaAlert: Instance, annotations: Option<Instance>, grafanaAlertJson: Json,
    annotationsJson: Json)
    requires SerializeValue(Obj(grafanaAlert)) == Ok(grafanaAlertJson)
    ensures Serialize(Build(AlertRule, AlertRuleFields, [Plain(JStr(forDuration)), Obj(grafanaAlert), OptObj(annotations)], Some(["_for"]))) ==
      Serialize(Build(AlertRule, AlertRuleFields, [Plain(JStr(forDuration)), Plain(grafanaAlertJson), OptObj(annotations)], Some(["_for"])))
  {
    var values := [Plain(JStr(forDuration)), Obj(grafanaAlert), OptObj(annotations)];
    AlertRuleDistinct();
    SubstituteField(AlertRule, AlertRuleFields, values, Some(["_for"]), 1, Obj(grafanaAlert), grafanaAlertJson);
    AlertRuleReplaceGrafanaAlertStage(forDuration, grafanaAlert, annotations, grafanaAlertJson, annotationsJson);
  }

  lemma AlertRuleReplaceAnnotationsStage(forDuration: string, grafanaAlert: Instance, annotations: Option<Instance>, grafanaAlertJson: Json,
    annotationsJson: Json)
    ensures [Plain(JStr(forDuration)), Plain(grafanaAlertJson), OptObj(annotations)][2 := Plain(annotationsJson)] ==
      Plains([JStr(forDuration), grafanaAlertJson, annotationsJson])
  {
    ReplacePlain([Plain(JStr(forDuration)), Plain(grafanaAlertJson), OptObj(annotations)],
      [JStr(forDuration), grafanaAlertJson, annotationsJson], 2);
  }

  lemma AlertRuleReplaceAnnotations(forDuration: string, grafanaAlert: Instance, annotations: Option<Instance>, grafanaAlertJson: Json,
    annotationsJson: Json)
    requires SerializeValue(OptObj(annotations)) == Ok(annotationsJson)
    ensures Serialize(Build(AlertRule, AlertRuleFields, [Plain(JStr(forDuration)), Plain(grafanaAlertJson), OptObj(annotations)], Some(["_for"]))) ==
      Serialize(Build(AlertRule, AlertRuleFields, Plains([JStr(forDuration), grafanaAlertJson, annotationsJson]), Some(["_for"])))
  {
    var values := [Plain(JStr(forDuration)), Plain(grafanaAlertJson), OptObj(annotations)];
    AlertRuleDistinct();
    SubstituteField(AlertRule, AlertRuleFields, values, Some(["_for"]), 2, OptObj(annotations), annotationsJson);
    AlertRuleReplaceAnnotationsStage(forDuration, grafanaAlert, annotations, grafanaAlertJson, annotationsJson);
  }

  lemma AlertRuleSubst(forDuration: string, grafanaAlert: Instance, annotations: Option<Instance>, grafanaAlertJson: Json,
    annotationsJson: Json)
    requires SerializeValue(Obj(grafanaAlert)) == Ok(grafanaAlertJson)
    requires SerializeValue(OptObj(annotations)) == Ok(annotationsJson)
    ensures Serialize(NewAlertRule(forDuration, grafanaAlert, annotations)) ==
      Serialize(Build(AlertRule, AlertRuleFields, Plains([JStr(forDuration), grafanaAlertJson, annotationsJson]), Some(["_for"])))
  {
    AlertRuleReplaceGrafanaAlert(forDuration, grafanaAlert, annotations, grafanaAlertJson, annotationsJson);
    AlertRuleReplaceAnnotations(forDuration, grafanaAlert, annotations, grafanaAlertJson, annotationsJson);
  }

  /** Once every field is plain JSON, the output is the cleaned dictionary under the emitted keys. */
  lemma AlertRulePlainsBuilt(jsons: seq<Json>)
    requires |jsons| == |AlertRuleFields|
    ensures Serialize(Build(AlertRule, AlertRuleFields, Plains(jsons), Some(["_for"]))) == Ok(JObj(CleanNone(Zip(["for", "grafana_alert", "annotations"], jsons))))
  {
    AlertRuleKeys();
    AlertRuleDistinct();
    SerializePlainsBuilt(AlertRule, AlertRuleFields, jsons, Some(["_for"]));
  }

  /** `_for` is emitted as `for`; missing annotations are dropped. */
  lemma AlertRuleSerialize(forDuration: string, grafanaAlert: Instance, annotations: Option<Instance>, grafanaAlertJson: Json,
    annotationsJson: Json)
    requires grafanaAlert.cls != RegexpsMatcher
    requires Serialize(grafanaAlert) == Ok(grafanaAlertJson)
    requires SerializeValue(OptObj(annotations)) == Ok(annotationsJson)
    ensures Serialize(NewAlertRule(forDuration, grafanaAlert, annotations)) ==
      Ok(JObj(CleanNone([("for", JStr(forDuration)), ("grafana_alert", grafanaAlertJson), ("annotations", annotationsJson)])))
  {
    var jsons := [JStr(forDuration), grafanaAlertJson, annotationsJson];
    SerializedObj(grafanaAlert, grafanaAlertJson);
    AlertRuleSubst(forDuration, grafanaAlert, annotations, grafanaAlertJson, annotationsJson);
    AlertRulePlainsBuilt(jsons);
    AlertRuleZip(forDuration, grafanaAlertJson, annotationsJson, jsons);
  }

  lemma AlertRuleDefaultsClean(forDuration: string, grafanaAlertJson: Json)
    requires grafanaAlertJson != JNull
    ensures CleanNone([("for", JStr(forDuration)), ("grafana_alert", grafanaAlertJson), ("annotations", JNull)]) == [("for", JStr(forDuration)), ("grafana_alert", grafanaAlertJson)]
  {
    var kept := [("for", JStr(forDuration)), ("grafana_alert", grafanaAlertJson)];
    CleanNoneSegments(kept, [("annotations", JNull)], []);
    assert kept + [("annotations", JNull)] + [] == [("for", JStr(forDuration)), ("grafana_alert", grafanaAlertJson), ("annotations", JNull)];
  }

  /** Without annotations, a rule is its duration under `for` and its alert. */
  lemma AlertRuleDefaults(forDuration: string, grafanaAlert: Instance, grafanaAlertJson: Json)
    requires grafanaAlert.cls != RegexpsMatcher
    requires Serialize(grafanaAlert) == Ok(grafanaAlertJson)
    ensures Serialize(NewAlertRule(forDuration, grafanaAlert)) ==
      Ok(JObj([("for", JStr(forDuration)), ("grafana_alert", grafanaAlertJson)]))
  {
    AlertRuleSerialize(forDuration, grafanaAlert, None, grafanaAlertJson, JNull);
    SerializedObj(grafanaAlert, grafanaAlertJson);
    AlertRuleDefaultsClean(forDuration, grafanaAlertJson);
  }

  const AlertGroupFields := ["name", "interval", "rules", "labels"]

  /** `ModelAlert`, a rule group: name, evaluation interval, rules, optional labels. */
  function NewAlertGroup(name: string, interval: string, rules: seq<Instance>, labels: Option<Assoc<string>> := None): Instance
  {
    Build(AlertGroup, AlertGroupFields,
          [Plain(JStr(name)), Plain(JStr(interval)), ListOf(Objs(rules)), Plain(OptStrObj(labels))],
          None)
  }

  lemma AlertGroupKeys()
    ensures RenamedKeys(AlertGroupFields, None) == ["name", "interval", "rules", "labels"]
  {
  }

  lemma AlertGroupDistinct()
    ensures Distinct(["name", "interval", "rules", "labels"]) && RemoveKey !in AlertGroupFields
  {
  }

  lemma AlertGroupZip(name: string, interval: string, labels: Option<Assoc<string>>, rulesJson: seq<Json>, jsons: seq<Json>)
    requires jsons == [JStr(name), JStr(interval), JArr(rulesJson), OptStrObj(labels)]
    ensures Zip(["name", "interval", "rules", "labels"], jsons) == [("name", JStr(name)), ("interval", JStr(interval)), ("rules", JArr(rulesJson)),
       ("labels", OptStrObj(labels))]
  {
  }

  lemma AlertGroupReplaceRulesStage(name: string, interval: string, rules: seq<Instance>, labels: Option<Assoc<string>>, rulesJson: seq<Json>)
    ensures [Plain(JStr(name)), Plain(JStr(interval)), ListOf(Objs(rules)), Plain(OptStrObj(labels))][2 := Plain(JArr(rulesJson))] ==
      Plains([JStr(name), JStr(interval), JArr(rulesJson), OptStrObj(labels)])
  {
    ReplacePlain([Plain(JStr(name)), Plain(JStr(interval)), ListOf(Objs(rules)), Plain(OptStrObj(labels))],
      [JStr(name), JStr(interval), JArr(rulesJson), OptStrObj(labels)], 2);
  }

  lemma AlertGroupReplaceRules(name: string, interval: string, rules: seq<Instance>, labels: Option<Assoc<string>>, rulesJson: seq<Json>)
    requires SerializeValue(ListOf(Objs(rules))) == Ok(JArr(rulesJson))
    ensures Serialize(Build(AlertGroup, AlertGroupFields, [Plain(JStr(name)), Plain(JStr(interval)), ListOf(Objs(rules)), Plain(OptStrObj(labels))], None)) ==
      Serialize(Build(AlertGroup, AlertGroupFields, Plains([JStr(name), JStr(interval), JArr(rulesJson), OptStrObj(labels)]), None))
  {
    var values := [Plain(JStr(name)), Plain(JStr(interval)), ListOf(Objs(rules)), Plain(OptStrObj(labels))];
    AlertGroupDistinct();
    SubstituteField(AlertGroup, AlertGroupFields, values, None, 2, ListOf(Objs(rules)), JArr(rulesJson));
    AlertGroupReplaceRulesStage(name, interval, rules, labels, rulesJson);
  }

  lemma AlertGroupSubst(name: string, interval: string, rules: seq<Instance>, labels: Option<Assoc<string>>, rulesJson: seq<Json>)
    requires SerializeValue(ListOf(Objs(rules))) == Ok(JArr(rulesJson))
    ensures Serialize(NewAlertGroup(name, interval, rules, labels)) ==
      Serialize(Build(AlertGroup, AlertGroupFields, Plains([JStr(name), JStr(interval), JArr(rulesJson), OptStrObj(labels)]), None))
  {
    AlertGroupReplaceRules(name, interval, rules, labels, rulesJson);
  }

  /** Once every field is plain JSON, the output is the cleaned dictionary under the emitted keys. */
  lemma AlertGroupPlainsBuilt(jsons: seq<Json>)
    requires |jsons| == |AlertGroupFields|
    ensures Serialize(Build(AlertGroup, AlertGroupFields, Plains(jsons), None)) == Ok(JObj(CleanNone(Zip(["name", "interval", "rules", "labels"], jsons))))
  {
    AlertGroupKeys();
    AlertGroupDistinct();
    SerializePlainsBuilt(AlertGroup, AlertGroupFields, jsons, None);
  }

  /** The rules are serialized in order; missing labels are dropped. */
  lemma AlertGroupSerialize(name: string, interval: string, rules: seq<Instance>, labels: Option<Assoc<string>>, rulesJson: seq<Json>)
    requires |rules| == |rulesJson| && forall i :: 0 <= i < |rules| ==> Serialize(rules[i]) == Ok(rulesJson[i])
    ensures Serialize(NewAlertGroup(name, interval, rules, labels)) ==
      Ok(JObj(CleanNone([("name", JStr(name)), ("interval", JStr(interval)), ("rules", JArr(rulesJson)),
         ("labels", OptStrObj(labels))])))
  {
    var jsons := [JStr(name), JStr(interval), JArr(rulesJson), OptStrObj(labels)];
    SerializeObjList(rules, rulesJson);
    AlertGroupSubst(name, interval, rules, labels, rulesJson);
    AlertGroupPlainsBuilt(jsons);
    AlertGroupZip(name, interval, labels, rulesJson, jsons);
  }
}
