/** The notification-policy dataclasses of grafana_api/notification_policies.py:
    the matcher with its own `serialize`, and the route with its `_continue` field. */
module RouteModels {
  import opened Wrappers
  import opened Dict
  import opened Strings
  import opened Json
  import opened Exceptions
  import opened Utils
  import opened Serializer

  /** `GrafanaMatchType`: `NOT_EQUAL` repeats the value of `EQUAL`, so Python's `Enum`
      makes it an alias of `EQUAL` rather than a member of its own. */
  datatype MatchType = Equal | MatchRegex | DoesntMatchRegex

  function MatchTypeValue(t: MatchType): string {
    match t
    case Equal => "="
    case MatchRegex => "=~"
    case DoesntMatchRegex => "!~"
  }

  /** `GrafanaMatchType[name]`. */
  function MatchTypeByName(name: string): (r: Option<MatchType>)
    ensures r.Some? <==> name in {"EQUAL", "NOT_EQUAL", "MATCH_REGEX", "DOESNT_MATCH_REGEX"}
  {
    match name
    case "EQUAL" => Some(Equal)
    case "NOT_EQUAL" => Some(Equal)
    case "MATCH_REGEX" => Some(MatchRegex)
    case "DOESNT_MATCH_REGEX" => Some(DoesntMatchRegex)
    case _ => None
  }

  /** `GrafanaMatchType(value)`. */
  function MatchTypeByValue(value: string): (r: Option<MatchType>)
    ensures r.Some? ==> MatchTypeValue(r.value) == value
  {
    match value
    case "=" => Some(Equal)
    case "=~" => Some(MatchRegex)
    case "!~" => Some(DoesntMatchRegex)
    case _ => None
  }

  /** The values are distinct, so a member is found again from its value; asking for
      `NOT_EQUAL` gives the member `EQUAL`, whose value is `"="`. */
  lemma MatchTypeMembers(t: MatchType)
    ensures MatchTypeByValue(MatchTypeValue(t)) == Some(t)
    ensures MatchTypeByName("NOT_EQUAL") == MatchTypeByName("EQUAL") == Some(Equal)
    ensures MatchTypeValue(MatchTypeByName("NOT_EQUAL").value) == "="
  {
  }

  const MatcherFields := ["name", "type", "value"]

  /** `GrafanaRegexpsMatcherModel(name, type, value)`. The type is a string enum, so the
      member and its value are the same string; a plain string is accepted as well. */
  function MatcherOf(name: string, kind: string, value: string): Instance {
    Build(RegexpsMatcher, MatcherFields, [Plain(JStr(name)), Plain(JStr(kind)), Plain(JStr(value))], None)
  }

  function NewMatcher(name: string, kind: MatchType, value: string): Instance {
    MatcherOf(name, MatchTypeValue(kind), value)
  }

  lemma MatcherGet(values: seq<Value>, i: nat)
    requires |values| == |MatcherFields| && i < |MatcherFields|
    ensures Get(Build(RegexpsMatcher, MatcherFields, values, None).fields, MatcherFields[i]) == Some(values[i])
  {
    assert Distinct(MatcherFields);
    GetBuilt(RegexpsMatcher, MatcherFields, values, None, i);
  }

  lemma MatcherSerializeBuilt(n: Json, k: Json, v: Json)
    ensures MatcherSerialize(Build(RegexpsMatcher, MatcherFields, [Plain(n), Plain(k), Plain(v)], None)) == Ok(JArr([n, k, v]))
  {
    var values := [Plain(n), Plain(k), Plain(v)];
    MatcherGet(values, 0);
    MatcherGet(values, 1);
    MatcherGet(values, 2);
  }

  /** The matcher serializes to the list `[name, type, value]`, not to a dictionary. */
  lemma MatcherSerializeTriple(name: string, kind: string, value: string)
    ensures Serialize(MatcherOf(name, kind, value)) == Ok(JArr([JStr(name), JStr(kind), JStr(value)]))
  {
    MatcherSerializeBuilt(JStr(name), JStr(kind), JStr(value));
  }

  /** An enum type is emitted by its value, so `NOT_EQUAL` is emitted as `"="`. */
  lemma MatcherSerializeEnum(name: string, kind: MatchType, value: string)
    ensures Serialize(NewMatcher(name, kind, value)) == Ok(JArr([JStr(name), JStr(MatchTypeValue(kind)), JStr(value)]))
    ensures Serialize(NewMatcher(name, MatchTypeByName("NOT_EQUAL").value, value)) == Ok(JArr([JStr(name), JStr("="), JStr(value)]))
  {
    MatcherSerializeTriple(name, MatchTypeValue(kind), value);
    MatcherSerializeTriple(name, "=", value);
  }

  /** The triples of a list of matchers, in order. */
  function MatcherTriples(ms: seq<(string, MatchType, string)>): (r: seq<Json>)
    ensures |r| == |ms|
    ensures forall i :: 0 <= i < |ms| ==> r[i] == JArr([JStr(ms[i].0), JStr(MatchTypeValue(ms[i].1)), JStr(ms[i].2)])
  {
    seq(|ms|, i requires 0 <= i < |ms| => JArr([JStr(ms[i].0), JStr(MatchTypeValue(ms[i].1)), JStr(ms[i].2)]))
  }

  function Matchers(ms: seq<(string, MatchType, string)>): (r: seq<Instance>)
    ensures |r| == |ms|
    ensures forall i :: 0 <= i < |ms| ==> r[i] == NewMatcher(ms[i].0, ms[i].1, ms[i].2)
  {
    seq(|ms|, i requires 0 <= i < |ms| => NewMatcher(ms[i].0, ms[i].1, ms[i].2))
  }

  /** A list of matchers serializes to their triples, in order. */
  lemma MatchersSerialize(ms: seq<(string, MatchType, string)>)
    ensures SerializeValue(OptObjs(Some(Matchers(ms)))) == Ok(JArr(MatcherTriples(ms)))
  {
    var xs := Matchers(ms);
    var js := MatcherTriples(ms);
    forall i | 0 <= i < |xs|
      ensures Serialize(xs[i]) == Ok(js[i])
    {
      MatcherSerializeEnum(ms[i].0, ms[i].1, ms[i].2);
    }
    SerializeObjList(xs, js);
  }

  const RouteFields := ["receiver", "object_matchers", "_continue", "groupBy", "groupInterval", "groupWait", "matchRe", "matchers", "muteTimeIntervals", "provenance", "repeatInterval", "routes"]

  /** `GrafanaRouteModel`: every field optional, `None` by default; `_continue` is listed for renaming. */
  function NewRoute(receiver: Option<string> := None, objectMatchers: Option<seq<Instance>> := None,
     cont: Option<string> := None, groupBy: Option<seq<string>> := None, groupInterval: Option<string> := None,
     groupWait: Option<string> := None, matchRe: Option<string> := None, matchers: Option<string> := None,
     muteTimeIntervals: Option<string> := None, provenance: Option<string> := None,
     repeatInterval: Option<string> := None, routes: Option<string> := None): Instance
  {
    Build(Route, RouteFields,
          [Plain(OptStr(receiver)), OptObjs(objectMatchers), Plain(OptStr(cont)), Plain(OptStrArr(groupBy)),
           Plain(OptStr(groupInterval)), Plain(OptStr(groupWait)), Plain(OptStr(matchRe)),
           Plain(OptStr(matchers)), Plain(OptStr(muteTimeIntervals)), Plain(OptStr(provenance)),
           Plain(OptStr(repeatInterval)), Plain(OptStr(routes))],
          Some(["_continue"]))
  }

  lemma RouteKeys()
    ensures RenamedKeys(RouteFields, Some(["_continue"])) == ["receiver", "object_matchers", "continue", "groupBy", "groupInterval", "groupWait", "matchRe",
       "matchers", "muteTimeIntervals", "provenance", "repeatInterval", "routes"]
  {
    assert StartsWith("_continue", "_") && "_continue"[1..] == "continue";
  }

  lemma RouteDistinct()
    ensures Distinct(["receiver", "object_matchers", "continue", "groupBy", "groupInterval", "groupWait", "matchRe",
       "matchers", "muteTimeIntervals", "provenance", "repeatInterval", "routes"]) && RemoveKey !in RouteFields
  {
  }

  lemma RouteZip(receiver: Option<string>, cont: Option<string>, groupBy: Option<seq<string>>, groupInterval: Option<string>,
    groupWait: Option<string>, matchRe: Option<string>, matchers: Option<string>,
    muteTimeIntervals: Option<string>, provenance: Option<string>, repeatInterval: Option<string>,
    routes: Option<string>, objectMatchersJson: Json, jsons: seq<Json>)
    requires jsons == [OptStr(receiver), objectMatchersJson, OptStr(cont), OptStrArr(groupBy), OptStr(groupInterval),
       OptStr(groupWait), OptStr(matchRe), OptStr(matchers), OptStr(muteTimeIntervals), OptStr(provenance),
       OptStr(repeatInterval), OptStr(routes)]
    ensures Zip(["receiver", "object_matchers", "continue", "groupBy", "groupInterval", "groupWait", "matchRe",
       "matchers", "muteTimeIntervals", "provenance", "repeatInterval", "routes"], jsons) == [("receiver", OptStr(receiver)), ("object_matchers", objectMatchersJson), ("continue", OptStr(cont)),
       ("groupBy", OptStrArr(groupBy)), ("groupInterval", OptStr(groupInterval)),
       ("groupWait", OptStr(groupWait)), ("matchRe", OptStr(matchRe)), ("matchers", OptStr(matchers)),
       ("muteTimeIntervals", OptStr(muteTimeIntervals)), ("provenance", OptStr(provenance)),
       ("repeatInterval", OptStr(repeatInterval)), ("routes", OptStr(routes))]
  {
    ZipOf12(["receiver", "object_matchers", "continue", "groupBy", "groupInterval", "groupWait", "matchRe",
       "matchers", "muteTimeIntervals", "provenance", "repeatInterval", "routes"], jsons);
  }

  /** One nested field replaced by its serialization. */
  lemma RouteSubstitute(values: seq<Value>, k: nat, v: Value, j: Json)
    requires |values| == |RouteFields| && k < |values|
    requires values[k] == v && SerializeValue(v) == Ok(j)
    ensures Serialize(Build(Route, RouteFields, values, Some(["_continue"]))) == Serialize(Build(Route, RouteFields, values[k := Plain(j)], Some(["_continue"])))
  {
    RouteDistinct();
    SubstituteField(Route, RouteFields, values, Some(["_continue"]), k, v, j);
  }

  lemma RouteReplaceObjectMatchersStage(receiver: Option<string>, objectMatchers: Option<seq<Instance>>, cont: Option<string>,
    groupBy: Option<seq<string>>, groupInterval: Option<string>, groupWait: Option<string>,
    matchRe: Option<string>, matchers: Option<string>, muteTimeIntervals: Option<string>,
    provenance: Option<string>, repeatInterval: Option<string>, routes: Option<string>,
    objectMatchersJson: Json)
    ensures [Plain(OptStr(receiver)), OptObjs(objectMatchers), Plain(OptStr(cont)), Plain(OptStrArr(groupBy)),
       Plain(OptStr(groupInterval)), Plain(OptStr(groupWait)), Plain(OptStr(matchRe)), Plain(OptStr(matchers)),
       Plain(OptStr(muteTimeIntervals)), Plain(OptStr(provenance)), Plain(OptStr(repeatInterval)),
       Plain(OptStr(routes))][1 := Plain(objectMatchersJson)] ==
      Plains([OptStr(receiver), objectMatchersJson, OptStr(cont), OptStrArr(groupBy), OptStr(groupInterval),
         OptStr(groupWait), OptStr(matchRe), OptStr(matchers), OptStr(muteTimeIntervals), OptStr(provenance),
         OptStr(repeatInterval), OptStr(routes)])
  {
    ReplacePlain([Plain(OptStr(receiver)), OptObjs(objectMatchers), Plain(OptStr(cont)), Plain(OptStrArr(groupBy)),
       Plain(OptStr(groupInterval)), Plain(OptStr(groupWait)), Plain(OptStr(matchRe)), Plain(OptStr(matchers)),
       Plain(OptStr(muteTimeIntervals)), Plain(OptStr(provenance)), Plain(OptStr(repeatInterval)),
       Plain(OptStr(routes))],
      [OptStr(receiver), objectMatchersJson, OptStr(cont), OptStrArr(groupBy), OptStr(groupInterval),
         OptStr(groupWait), OptStr(matchRe), OptStr(matchers), OptStr(muteTimeIntervals), OptStr(provenance),
         OptStr(repeatInterval), OptStr(routes)], 1);
  }

  lemma RouteReplaceObjectMatchers(receiver: Option<string>, objectMatchers: Option<seq<Instance>>, cont: Option<string>,
    groupBy: Option<seq<string>>, groupInterval: Option<string>, groupWait: Option<string>,
    matchRe: Option<string>, matchers: Option<string>, muteTimeIntervals: Option<string>,
    provenance: Option<string>, repeatInterval: Option<string>, routes: Option<string>,
    objectMatchersJson: Json)
    requires SerializeValue(OptObjs(objectMatchers)) == Ok(objectMatchersJson)
    ensures Serialize(Build(Route, RouteFields, [Plain(OptStr(receiver)), OptObjs(objectMatchers), Plain(OptStr(cont)), Plain(OptStrArr(groupBy)),
         Plain(OptStr(groupInterval)), Plain(OptStr(groupWait)), Plain(OptStr(matchRe)),
         Plain(OptStr(matchers)), Plain(OptStr(muteTimeIntervals)), Plain(OptStr(provenance)),
         Plain(OptStr(repeatInterval)), Plain(OptStr(routes))], Some(["_continue"]))) ==
      Serialize(Build(Route, RouteFields, Plains([OptStr(receiver), objectMatchersJson, OptStr(cont), OptStrArr(groupBy), OptStr(groupInterval),
         OptStr(groupWait), OptStr(matchRe), OptStr(matchers), OptStr(muteTimeIntervals), OptStr(provenance),
         OptStr(repeatInterval), OptStr(routes)]), Some(["_continue"])))
  {
    var values := [Plain(OptStr(receiver)), OptObjs(objectMatchers), Plain(OptStr(cont)), Plain(OptStrArr(groupBy)),
       Plain(OptStr(groupInterval)), Plain(OptStr(groupWait)), Plain(OptStr(matchRe)), Plain(OptStr(matchers)),
       Plain(OptStr(muteTimeIntervals)), Plain(OptStr(provenance)), Plain(OptStr(repeatInterval)),
       Plain(OptStr(routes))];
    RouteSubstitute(values, 1, OptObjs(objectMatchers), objectMatchersJson);
    RouteReplaceObjectMatchersStage(receiver, objectMatchers, cont, groupBy, groupInterval, groupWait, matchRe, matchers, muteTimeIntervals, provenance, repeatInterval, routes, objectMatchersJson);
  }

  lemma RouteSubst(receiver: Option<string>, objectMatchers: Option<seq<Instance>>, cont: Option<string>,
    groupBy: Option<seq<string>>, groupInterval: Option<string>, groupWait: Option<string>,
    matchRe: Option<string>, matchers: Option<string>, muteTimeIntervals: Option<string>,
    provenance: Option<string>, repeatInterval: Option<string>, routes: Option<string>,
    objectMatchersJson: Json)
    requires SerializeValue(OptObjs(objectMatchers)) == Ok(objectMatchersJson)
    ensures Serialize(NewRoute(receiver, objectMatchers, cont, groupBy, groupInterval, groupWait, matchRe, matchers, muteTimeIntervals,
       provenance, repeatInterval, routes)) ==
      Serialize(Build(Route, RouteFields, Plains([OptStr(receiver), objectMatchersJson, OptStr(cont), OptStrArr(groupBy), OptStr(groupInterval),
         OptStr(groupWait), OptStr(matchRe), OptStr(matchers), OptStr(muteTimeIntervals), OptStr(provenance),
         OptStr(repeatInterval), OptStr(routes)]), Some(["_continue"])))
  {
    RouteReplaceObjectMatchers(receiver, objectMatchers, cont, groupBy, groupInterval, groupWait, matchRe, matchers, muteTimeIntervals, provenance, repeatInterval, routes, objectMatchersJson);
  }

  /** Once every field is plain JSON, the output is the cleaned dictionary under the emitted keys. */
  lemma RoutePlainsBuilt(jsons: seq<Json>)
    requires |jsons| == |RouteFields|
    ensures Serialize(Build(Route, RouteFields, Plains(jsons), Some(["_continue"]))) == Ok(JObj(CleanNone(Zip(["receiver", "object_matchers", "continue", "groupBy", "groupInterval", "groupWait", "matchRe",
       "matchers", "muteTimeIntervals", "provenance", "repeatInterval", "routes"], jsons))))
  {
    RouteKeys();
    RouteDistinct();
    SerializePlainsBuilt(Route, RouteFields, jsons, Some(["_continue"]));
  }

  /** `_continue` is emitted as `continue`, the matchers as their triples, and `None` fields are dropped. */
  lemma RouteSerialize(receiver: Option<string>, objectMatchers: Option<seq<Instance>>, cont: Option<string>,
    groupBy: Option<seq<string>>, groupInterval: Option<string>, groupWait: Option<string>,
    matchRe: Option<string>, matchers: Option<string>, muteTimeIntervals: Option<string>,
    provenance: Option<string>, repeatInterval: Option<string>, routes: Option<string>,
    objectMatchersJson: Json)
    requires SerializeValue(OptObjs(objectMatchers)) == Ok(objectMatchersJson)
    ensures Serialize(NewRoute(receiver, objectMatchers, cont, groupBy, groupInterval, groupWait, matchRe, matchers, muteTimeIntervals,
       provenance, repeatInterval, routes)) ==
      Ok(JObj(CleanNone([("receiver", OptStr(receiver)), ("object_matchers", objectMatchersJson), ("continue", OptStr(cont)),
         ("groupBy", OptStrArr(groupBy)), ("groupInterval", OptStr(groupInterval)),
         ("groupWait", OptStr(groupWait)), ("matchRe", OptStr(matchRe)), ("matchers", OptStr(matchers)),
         ("muteTimeIntervals", OptStr(muteTimeIntervals)), ("provenance", OptStr(provenance)),
         ("repeatInterval", OptStr(repeatInterval)), ("routes", OptStr(routes))])))
  {
    var jsons := [OptStr(receiver), objectMatchersJson, OptStr(cont), OptStrArr(groupBy), OptStr(groupInterval),
       OptStr(groupWait), OptStr(matchRe), OptStr(matchers), OptStr(muteTimeIntervals), OptStr(provenance),
       OptStr(repeatInterval), OptStr(routes)];
    RouteSubst(receiver, objectMatchers, cont, groupBy, groupInterval, groupWait, matchRe, matchers, muteTimeIntervals, provenance, repeatInterval, routes, objectMatchersJson);
    RoutePlainsBuilt(jsons);
    RouteZip(receiver, cont, groupBy, groupInterval, groupWait, matchRe, matchers, muteTimeIntervals, provenance, repeatInterval, routes, objectMatchersJson, jsons);
  }

  lemma RouteDefaultsClean()
    ensures CleanNone([("receiver", JNull), ("object_matchers", JNull), ("continue", JNull), ("groupBy", JNull), ("groupInterval", JNull), ("groupWait", JNull), ("matchRe", JNull), ("matchers", JNull), ("muteTimeIntervals", JNull), ("provenance", JNull), ("repeatInterval", JNull), ("routes", JNull)]) == []
  {
    CleanNoneNulls([("receiver", JNull), ("object_matchers", JNull), ("continue", JNull), ("groupBy", JNull), ("groupInterval", JNull), ("groupWait", JNull), ("matchRe", JNull), ("matchers", JNull), ("muteTimeIntervals", JNull), ("provenance", JNull), ("repeatInterval", JNull), ("routes", JNull)]);
  }

  /** The default route serializes to an empty dictionary: neither the bookkeeping list
      nor any unset field is emitted. */
  lemma RouteDefaults()
    ensures Serialize(NewRoute()) ==
      Ok(JObj([]))
  {
    RouteSerialize(None, None, None, None, None, None, None, None, None, None, None, None, JNull);
    RouteDefaultsClean();
  }

  function RouteKeyNames(): seq<string> {
    ["receiver", "object_matchers", "continue", "groupBy", "groupInterval", "groupWait", "matchRe",
     "matchers", "muteTimeIntervals", "provenance", "repeatInterval", "routes"]
  }

  /** The emitted keys hold neither the bookkeeping key nor `_continue`, and `continue` is the third. */
  lemma RouteZipKeys(jsons: seq<Json>)
    requires |jsons| == |RouteKeyNames()|
    ensures var d := Zip(RouteKeyNames(), jsons);
      && UniqueKeys(d) && !HasKey(d, RemoveKey) && !HasKey(d, "_continue") && Get(d, "continue") == Some(jsons[2])
  {
    RouteKeyNamesAvoid();
    ZipUnique(RouteKeyNames(), jsons);
    ZipGet(RouteKeyNames(), jsons, 2);
  }

  lemma RouteKeyNamesAvoid()
    ensures Distinct(RouteKeyNames()) && RemoveKey !in RouteKeyNames() && "_continue" !in RouteKeyNames()
    ensures RouteKeyNames()[2] == "continue"
  {
    RouteDistinct();
  }

  lemma RouteCleanKeys(jsons: seq<Json>)
    requires |jsons| == |RouteKeyNames()|
    ensures var c := CleanNone(Zip(RouteKeyNames(), jsons));
      && !HasKey(c, RemoveKey) && !HasKey(c, "_continue")
      && Get(c, "continue") == (if jsons[2] == JNull then None else Some(jsons[2]))
  {
    var d := Zip(RouteKeyNames(), jsons);
    RouteZipKeys(jsons);
    CleanNoneKeys(d, RemoveKey);
    CleanNoneKeys(d, "_continue");
    CleanNoneGet(d, "continue");
  }

  /** The values a route emits, in the order of its fields. */
  function RouteJsons(receiver: Option<string>, objectMatchersJson: Json, cont: Option<string>, groupBy: Option<seq<string>>,
                      groupInterval: Option<string>, groupWait: Option<string>, matchRe: Option<string>, matchers: Option<string>,
                      muteTimeIntervals: Option<string>, provenance: Option<string>, repeatInterval: Option<string>,
                      routes: Option<string>): seq<Json>
  {
    [OptStr(receiver), objectMatchersJson, OptStr(cont), OptStrArr(groupBy), OptStr(groupInterval),
     OptStr(groupWait), OptStr(matchRe), OptStr(matchers), OptStr(muteTimeIntervals), OptStr(provenance),
     OptStr(repeatInterval), OptStr(routes)]
  }

  lemma RouteOutputKeys(receiver: Option<string>, objectMatchersJson: Json, cont: Option<string>, groupBy: Option<seq<string>>,
                          groupInterval: Option<string>, groupWait: Option<string>, matchRe: Option<string>, matchers: Option<string>,
                          muteTimeIntervals: Option<string>, provenance: Option<string>, repeatInterval: Option<string>,
                          routes: Option<string>)
    ensures var c := CleanNone(Zip(RouteKeyNames(), RouteJsons(receiver, objectMatchersJson, cont, groupBy, groupInterval, groupWait,
                                   matchRe, matchers, muteTimeIntervals, provenance, repeatInterval, routes)));
      && !HasKey(c, RemoveKey) && !HasKey(c, "_continue")
      && Get(c, "continue") == (if cont.Some? then Some(JStr(cont.value)) else None)
  {
    var jsons := RouteJsons(receiver, objectMatchersJson, cont, groupBy, groupInterval, groupWait, matchRe, matchers,
                            muteTimeIntervals, provenance, repeatInterval, routes);
    RouteCleanKeys(jsons);
    assert jsons[2] == OptStr(cont);
  }

  /** The route's output never holds the bookkeeping list nor the `_continue` spelling, and
      `continue` holds `_continue` exactly when it is set. */
  lemma RouteContinue(receiver: Option<string>, objectMatchers: Option<seq<Instance>>, cont: Option<string>,
                      groupBy: Option<seq<string>>, groupInterval: Option<string>, groupWait: Option<string>,
                      matchRe: Option<string>, matchers: Option<string>, muteTimeIntervals: Option<string>,
                      provenance: Option<string>, repeatInterval: Option<string>, routes: Option<string>,
                      objectMatchersJson: Json)
    requires SerializeValue(OptObjs(objectMatchers)) == Ok(objectMatchersJson)
    ensures var r := Serialize(NewRoute(receiver, objectMatchers, cont, groupBy, groupInterval, groupWait, matchRe, matchers,
                                        muteTimeIntervals, provenance, repeatInterval, routes));
      && r.Ok? && r.value.JObj?
      && !HasKey(r.value.fields, RemoveKey) && !HasKey(r.value.fields, "_continue")
      && Get(r.value.fields, "continue") == (if cont.Some? then Some(JStr(cont.value)) else None)
  {
    RouteSerialize(receiver, objectMatchers, cont, groupBy, groupInterval, groupWait, matchRe, matchers,
                   muteTimeIntervals, provenance, repeatInterval, routes, objectMatchersJson);
    RouteZip(receiver, cont, groupBy, groupInterval, groupWait, matchRe, matchers, muteTimeIntervals, provenance, repeatInterval,
             routes, objectMatchersJson, RouteJsons(receiver, objectMatchersJson, cont, groupBy, groupInterval, groupWait, matchRe,
                                                    matchers, muteTimeIntervals, provenance, repeatInterval, routes));
    RouteOutputKeys(receiver, objectMatchersJson, cont, groupBy, groupInterval, groupWait, matchRe, matchers,
                    muteTimeIntervals, provenance, repeatInterval, routes);
  }

  lemma RouteReceiverClean(receiver: string, matchersJson: Json)
    requires matchersJson != JNull
    ensures CleanNone([("receiver", JStr(receiver)), ("object_matchers", matchersJson), ("continue", JNull), ("groupBy", JNull),
                       ("groupInterval", JNull), ("groupWait", JNull), ("matchRe", JNull), ("matchers", JNull),
                       ("muteTimeIntervals", JNull), ("provenance", JNull), ("repeatInterval", JNull), ("routes", JNull)]) ==
      [("receiver", JStr(receiver)), ("object_matchers", matchersJson)]
  {
    RouteMatchersClean(matchersJson);
  }

  lemma RouteMatchersClean(matchersJson: Json)
    requires matchersJson != JNull
    ensures CleanNone([("object_matchers", matchersJson), ("continue", JNull), ("groupBy", JNull),
                       ("groupInterval", JNull), ("groupWait", JNull), ("matchRe", JNull), ("matchers", JNull),
                       ("muteTimeIntervals", JNull), ("provenance", JNull), ("repeatInterval", JNull), ("routes", JNull)]) ==
      [("object_matchers", matchersJson)]
  {
    var unset := [("continue", JNull), ("groupBy", JNull), ("groupInterval", JNull), ("groupWait", JNull), ("matchRe", JNull), ("matchers", JNull),
                  ("muteTimeIntervals", JNull), ("provenance", JNull), ("repeatInterval", JNull), ("routes", JNull)];
    CleanNoneSegments([("object_matchers", matchersJson)], unset, []);
    assert [("object_matchers", matchersJson)] + unset + [] == [("object_matchers", matchersJson)] + unset;
  }

  /** A route to one receiver for a list of matchers is exactly the receiver and the
      matchers' triples, in order. */
  lemma RouteReceiverMatchers(receiver: string, ms: seq<(string, MatchType, string)>)
    ensures Serialize(NewRoute(Some(receiver), Some(Matchers(ms)))) ==
      Ok(JObj([("receiver", JStr(receiver)), ("object_matchers", JArr(MatcherTriples(ms)))]))
  {
    MatchersSerialize(ms);
    RouteSerialize(Some(receiver), Some(Matchers(ms)), None, None, None, None, None, None, None, None, None, None, JArr(MatcherTriples(ms)));
    RouteReceiverClean(receiver, JArr(MatcherTriples(ms)));
  }
}
