/** The notification-policy add-ons of grafana_api/addons/notification_policies.py:
    `RegexMatcher` (a label matcher serialized as a triple) and `Notification` (a route
    whose `to_json_data` builds a dictionary literal and passes it through `clean_none`). */
module PolicyAddons {
  import opened Wrappers
  import opened Dict
  import opened Json
  import opened Exceptions
  import opened Utils
  import opened RouteModels

  /** The `type` field is `Union[str, GrafanaMatchType]`. */
  datatype MatcherType = EnumType(member: MatchType) | RawType(text: string)

  /** `RegexMatcher`. */
  datatype RegexMatcher = RegexMatcher(name: string, kind: MatcherType, value: string)

  /** `Notification`: `do_continue` is the route's `continue`, the other fields are the
      snake_case spellings of the camelCase keys. */
  datatype Notification = Notification(
    receiver: Option<string>, objectMatchers: Option<seq<RegexMatcher>>, doContinue: Option<string>,
    groupBy: Option<seq<string>>, groupInterval: Option<string>, groupWait: Option<string>,
    matchRe: Option<string>, matchers: Option<string>, muteTimeIntervals: Option<string>,
    provenance: Option<string>, repeatInterval: Option<string>, routes: Option<string>)

  /** The type as emitted: an enum member gives its value, a string passes through. */
  function TypeText(k: MatcherType): string {
    match k
    case EnumType(t) => MatchTypeValue(t)
    case RawType(s) => s
  }

  /** `RegexMatcher.to_json_data`. */
  function MatcherJson(m: RegexMatcher): (r: Json)
    ensures r.JArr? && |r.items| == 3
  {
    JArr([JStr(m.name), JStr(TypeText(m.kind)), JStr(m.value)])
  }

  /** Reading a triple back: a type string that is the value of a member is that member. */
  function MatcherFromJson(j: Json): Option<RegexMatcher> {
    if j.JArr? && |j.items| == 3 && j.items[0].JStr? && j.items[1].JStr? && j.items[2].JStr? then
      var k := j.items[1].s;
      var kind := match MatchTypeByValue(k) case Some(t) => EnumType(t) case None => RawType(k);
      Some(RegexMatcher(j.items[0].s, kind, j.items[2].s))
    else None
  }

  /** The matcher with its type written as a member whenever it is the value of one. */
  function Canonical(m: RegexMatcher): RegexMatcher {
    if m.kind.RawType? && MatchTypeByValue(m.kind.text).Some? then
      m.(kind := EnumType(MatchTypeByValue(m.kind.text).value))
    else m
  }

  /** The triple is name, type, value: reading it back gives the matcher, up to writing
      a member's value as the member. */
  lemma MatcherRoundTrip(m: RegexMatcher)
    ensures MatcherFromJson(MatcherJson(m)) == Some(Canonical(m))
    ensures m.kind.EnumType? ==> MatcherFromJson(MatcherJson(m)) == Some(m)
  {
    if m.kind.EnumType? {
      MatchTypeMembers(m.kind.member);
    }
  }

  /** An enum member and its value string serialize alike; `NOT_EQUAL` is `EQUAL`, so it
      is emitted as `"="`. */
  lemma MatcherEnumIsValue(name: string, t: MatchType, value: string)
    ensures MatcherJson(RegexMatcher(name, EnumType(t), value)) == MatcherJson(RegexMatcher(name, RawType(MatchTypeValue(t)), value))
    ensures MatcherJson(RegexMatcher(name, EnumType(MatchTypeByName("NOT_EQUAL").value), value))
            == JArr([JStr(name), JStr("="), JStr(value)])
  {
  }

  /** The list comprehension over the matchers. */
  function MatchersJson(ms: seq<RegexMatcher>): (r: seq<Json>)
    ensures |r| == |ms|
    ensures forall i :: 0 <= i < |ms| ==> r[i] == MatcherJson(ms[i])
  {
    seq(|ms|, i requires 0 <= i < |ms| => MatcherJson(ms[i]))
  }

  /** Reading the serialized matcher list back gives the matchers, in order, each up to
      writing a member's value as the member. */
  lemma MatchersRoundTrip(ms: seq<RegexMatcher>)
    ensures |MatchersJson(ms)| == |ms|
    ensures forall i :: 0 <= i < |ms| ==> MatcherFromJson(MatchersJson(ms)[i]) == Some(Canonical(ms[i]))
  {
    forall i | 0 <= i < |ms|
      ensures MatcherFromJson(MatchersJson(ms)[i]) == Some(Canonical(ms[i]))
    {
      MatcherRoundTrip(ms[i]);
    }
  }

  const NotificationKeys := ["receiver", "object_matchers", "_continue", "groupBy", "groupInterval", "groupWait",
                             "matchRe", "matchers", "muteTimeIntervals", "provenance", "repeatInterval", "routes"]

  /** The eight optional string fields after `groupBy`, in declaration order. */
  function NotificationStrings(n: Notification): (r: seq<Option<string>>)
    ensures |r| == 8
  {
    [n.groupInterval, n.groupWait, n.matchRe, n.matchers, n.muteTimeIntervals, n.provenance, n.repeatInterval, n.routes]
  }

  function NotificationValues(n: Notification, ms: seq<RegexMatcher>): (r: seq<Json>)
    ensures |r| == |NotificationKeys|
    ensures r[0] == OptStr(n.receiver) && r[1] == JArr(MatchersJson(ms))
    ensures r[2] == OptStr(n.doContinue) && r[3] == OptStrArr(n.groupBy)
    ensures forall i :: 0 <= i < 8 ==> r[i + 4] == OptStr(NotificationStrings(n)[i])
  {
    var strs := NotificationStrings(n);
    [OptStr(n.receiver), JArr(MatchersJson(ms)), OptStr(n.doContinue), OptStrArr(n.groupBy)]
      + seq(8, i requires 0 <= i < 8 => OptStr(strs[i]))
  }

  /** `Notification.to_json_data`: iterating `None` matchers raises `TypeError`. */
  function NotificationJson(n: Notification): Result<Json, Error> {
    match n.objectMatchers
    case None => Err(TypeError("'NoneType' object is not iterable"))
    case Some(ms) => Ok(CleanRecord(NotificationKeys, NotificationValues(n, ms)))
  }

  lemma NotificationKeysDistinct()
    ensures Distinct(NotificationKeys)
  {
  }

  /** The cleaned literal for given matchers. */
  lemma NotificationRecordSpec(n: Notification, ms: seq<RegexMatcher>)
    ensures var f := CleanRecord(NotificationKeys, NotificationValues(n, ms)).fields;
      && Get(f, "receiver") == (if n.receiver.Some? then Some(JStr(n.receiver.value)) else None)
      && Get(f, "object_matchers") == Some(JArr(MatchersJson(ms)))
      && Get(f, "_continue") == (if n.doContinue.Some? then Some(JStr(n.doContinue.value)) else None)
      && Get(f, "groupBy") == (if n.groupBy.Some? then Some(StrArr(n.groupBy.value)) else None)
      && (forall i :: 0 <= i < 8 ==>
            Get(f, NotificationKeys[i + 4]) ==
              if NotificationStrings(n)[i].Some? then Some(JStr(NotificationStrings(n)[i].value)) else None)
      && forall k :: HasKey(f, k) ==> k in NotificationKeys
  {
    NotificationRecordHead(n, ms);
    NotificationRecordStrings(n, ms);
    NotificationRecordKeys(n, ms);
  }

  lemma NotificationKeysAt()
    ensures NotificationKeys[0] == "receiver" && NotificationKeys[1] == "object_matchers"
    ensures NotificationKeys[2] == "_continue" && NotificationKeys[3] == "groupBy"
  {
  }

  lemma NotificationRecordHead(n: Notification, ms: seq<RegexMatcher>)
    ensures var f := CleanRecord(NotificationKeys, NotificationValues(n, ms)).fields;
      && Get(f, "receiver") == (if n.receiver.Some? then Some(JStr(n.receiver.value)) else None)
      && Get(f, "object_matchers") == Some(JArr(MatchersJson(ms)))
      && Get(f, "_continue") == (if n.doContinue.Some? then Some(JStr(n.doContinue.value)) else None)
      && Get(f, "groupBy") == (if n.groupBy.Some? then Some(StrArr(n.groupBy.value)) else None)
  {
    var vals := NotificationValues(n, ms);
    NotificationKeysAt();
    NotificationKeysDistinct();
    CleanRecordGet(NotificationKeys, vals, 0);
    CleanRecordGet(NotificationKeys, vals, 1);
    CleanRecordGet(NotificationKeys, vals, 2);
    CleanRecordGet(NotificationKeys, vals, 3);
  }

  lemma NotificationRecordStrings(n: Notification, ms: seq<RegexMatcher>)
    ensures var f := CleanRecord(NotificationKeys, NotificationValues(n, ms)).fields;
      forall i :: 0 <= i < 8 ==>
        Get(f, NotificationKeys[i + 4]) ==
          if NotificationStrings(n)[i].Some? then Some(JStr(NotificationStrings(n)[i].value)) else None
  {
    var vals := NotificationValues(n, ms);
    var f := CleanRecord(NotificationKeys, vals).fields;
    NotificationKeysDistinct();
    forall i | 0 <= i < 8
      ensures Get(f, NotificationKeys[i + 4]) ==
                if NotificationStrings(n)[i].Some? then Some(JStr(NotificationStrings(n)[i].value)) else None
    {
      CleanRecordGet(NotificationKeys, vals, i + 4);
    }
  }

  lemma NotificationRecordKeys(n: Notification, ms: seq<RegexMatcher>)
    ensures var f := CleanRecord(NotificationKeys, NotificationValues(n, ms)).fields;
      forall k :: HasKey(f, k) ==> k in NotificationKeys
  {
    var vals := NotificationValues(n, ms);
    var f := CleanRecord(NotificationKeys, vals).fields;
    forall k | HasKey(f, k)
      ensures k in NotificationKeys
    {
      if k !in NotificationKeys {
        CleanRecordKeys(NotificationKeys, vals, k);
      }
    }
  }

  /** Serialization fails exactly when there are no matchers at all. Otherwise
      `object_matchers` is always present (even empty) with the matcher triples in order,
      `do_continue` appears under `"_continue"`, every other field appears under its
      camelCase key exactly when set, and nothing else appears. */
  lemma NotificationJsonSpec(n: Notification)
    ensures var r := NotificationJson(n);
      && (r.Err? <==> n.objectMatchers.None?)
      && (r.Err? ==> r.error.TypeError?)
      && (r.Ok? ==>
           var f := r.value.fields;
           var ms := n.objectMatchers.value;
           && Get(f, "receiver") == (if n.receiver.Some? then Some(JStr(n.receiver.value)) else None)
           && Get(f, "object_matchers") == Some(JArr(MatchersJson(ms)))
           && Get(f, "_continue") == (if n.doContinue.Some? then Some(JStr(n.doContinue.value)) else None)
           && Get(f, "groupBy") == (if n.groupBy.Some? then Some(StrArr(n.groupBy.value)) else None)
           && (forall i :: 0 <= i < 8 ==>
                 Get(f, NotificationKeys[i + 4]) ==
                   if NotificationStrings(n)[i].Some? then Some(JStr(NotificationStrings(n)[i].value)) else None)
           && forall k :: HasKey(f, k) ==> k in NotificationKeys)
  {
    if n.objectMatchers.Some? {
      NotificationRecordSpec(n, n.objectMatchers.value);
    }
  }
}
