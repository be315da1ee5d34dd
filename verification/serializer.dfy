/** `GrafanaSerializer.serialize` (grafana_api/models/base.py): turns a dataclass
    instance into a JSON dictionary, field by field in declaration order, applying
    `convert_<field>` methods, serializing nested instances one level deep,
    dropping `None` values and renaming the keys listed in `remove_first_underscore`. */
module Serializer {
  import opened Wrappers
  import opened Dict
  import opened Strings
  import opened Json
  import opened Exceptions
  import opened Utils
  import Loops

  /** The GrafanaSerializer dataclasses of the model. */
  datatype Class =
    // grafana_api/models/alert.py
    | RelativeTimeRange | Datasource | Evaluator | Operator | Query | Reducer
    | DataModelCondition | DataModel | AlertData | GrafanaAlert | Annotations | AlertRule | AlertGroup
    // grafana_api/models/contact.py
    | EmailSettings | Email | SlackSettings | Slack
    // grafana_api/contact.py
    | LegacyEmailSettings | LegacyEmail | LegacySlackSettings | LegacySlack
    // grafana_api/notification_policies.py
    | RegexpsMatcher | Route

  /** An element of a list (or a value of a dict) held in a field. */
  datatype Elem = EPlain(j: Json) | EObj(o: Instance)

  /** The value of a field: plain JSON, a nested instance, or a list or dict
      whose elements may be instances. */
  datatype Value =
    | Plain(j: Json)
    | Obj(o: Instance)
    | ListOf(elems: seq<Elem>)
    | DictOf(entries: Assoc<Elem>)

  /** A dataclass instance: its class and its fields in declaration order. */
  datatype Instance = Instance(cls: Class, fields: Assoc<Value>)

  const RemoveKey := "remove_first_underscore"

  /** A list field holding instances. */
  function Objs(xs: seq<Instance>): (r: seq<Elem>)
    ensures |r| == |xs| && forall i :: 0 <= i < |xs| ==> r[i] == EObj(xs[i])
  {
    seq(|xs|, i requires 0 <= i < |xs| => EObj(xs[i]))
  }

  /** An `Optional[<dataclass>]` field. */
  function OptObj(o: Option<Instance>): Value {
    if o.Some? then Obj(o.value) else Plain(JNull)
  }

  /** An `Optional[List[<dataclass>]]` field. */
  function OptObjs(o: Option<seq<Instance>>): Value {
    if o.Some? then ListOf(Objs(o.value)) else Plain(JNull)
  }

  /** `remove_first_underscore` as the dataclasses declare it: a list of field names. */
  function Listing(names: seq<string>): Value {
    Plain(StrArr(names))
  }

  /** The classes that declare `convert_<key>`: only the e-mail settings' `convert_addresses`. */
  predicate HasConverter(cls: Class, key: string) {
    (cls == EmailSettings || cls == LegacyEmailSettings) && key == "addresses"
  }

  function Texts(items: seq<Json>): (r: seq<string>)
    requires forall i :: 0 <= i < |items| ==> items[i].JStr?
    ensures |r| == |items|
    ensures forall i :: 0 <= i < |items| ==> r[i] == items[i].s
  {
    if |items| == 0 then [] else [items[0].s] + Texts(items[1..])
  }

  function ElemTexts(elems: seq<Elem>): (r: seq<string>)
    requires forall i :: 0 <= i < |elems| ==> elems[i].EPlain? && elems[i].j.JStr?
    ensures |r| == |elems|
    ensures forall i :: 0 <= i < |elems| ==> r[i] == elems[i].j.s
  {
    if |elems| == 0 then [] else [elems[0].j.s] + ElemTexts(elems[1..])
  }

  function Chars(s: string): (r: seq<string>)
    ensures |r| == |s|
    ensures forall i :: 0 <= i < |s| ==> r[i] == [s[i]]
  {
    if |s| == 0 then [] else [[s[0]]] + Chars(s[1..])
  }

  /** `";".join(v)`: a list of strings is joined in order; a string is joined
      character by character and a dict by its keys, as Python iterates them. */
  function JoinSemicolon(v: Value): (r: Result<Json, Error>)
    ensures v.Plain? && v.j.JArr? && (forall i :: 0 <= i < |v.j.items| ==> v.j.items[i].JStr?)
      ==> r == Ok(JStr(Join(Texts(v.j.items), ";")))
    ensures v.Plain? && v.j.JArr? && (exists i :: 0 <= i < |v.j.items| && !v.j.items[i].JStr?) ==> r.Err? && r.error.TypeError?
    ensures v.ListOf? && (exists i :: 0 <= i < |v.elems| && !(v.elems[i].EPlain? && v.elems[i].j.JStr?)) ==> r.Err? && r.error.TypeError?
    ensures v.Plain? && v.j.JStr? ==> r == Ok(JStr(Join(Chars(v.j.s), ";")))
    ensures (v.Plain? && v.j.JObj? ==> r == Ok(JStr(Join(Keys(v.j.fields), ";"))))
      && (v.DictOf? ==> r == Ok(JStr(Join(Keys(v.entries), ";"))))
    ensures v.Obj? || (v.Plain? && !v.j.JArr? && !v.j.JStr? && !v.j.JObj?) ==> r.Err? && r.error.TypeError?
  {
    match v
    case Plain(JArr(items)) =>
      if forall i :: 0 <= i < |items| ==> items[i].JStr? then Ok(JStr(Join(Texts(items), ";")))
      else Err(TypeError("sequence item: expected str instance"))
    case Plain(JStr(s)) => Ok(JStr(Join(Chars(s), ";")))
    case Plain(JObj(fs)) => Ok(JStr(Join(Keys(fs), ";")))
    case ListOf(elems) =>
      if forall i :: 0 <= i < |elems| ==> elems[i].EPlain? && elems[i].j.JStr? then Ok(JStr(Join(ElemTexts(elems), ";")))
      else Err(TypeError("sequence item: expected str instance"))
    case DictOf(entries) => Ok(JStr(Join(Keys(entries), ";")))
    case _ => Err(TypeError("can only join an iterable"))
  }

  /** A string is joined character by character: its characters at the even
      positions, `;` between them. */
  lemma {:induction false} JoinChars(s: string)
    ensures var r := Join(Chars(s), ";");
      && |r| == (if |s| == 0 then 0 else 2 * |s| - 1)
      && (forall i :: 0 <= i < |r| && i % 2 == 0 ==> r[i] == s[i / 2])
      && (forall i :: 0 <= i < |r| && i % 2 == 1 ==> r[i] == ';')
  {
    if |s| >= 2 {
      JoinChars(s[1..]);
      assert Chars(s)[1..] == Chars(s[1..]);
      var t := Join(Chars(s[1..]), ";");
      var r := Join(Chars(s), ";");
      assert r == [s[0]] + ";" + t;
      forall i | 0 <= i < |r| && i % 2 == 0
        ensures r[i] == s[i / 2]
      {
        if i >= 2 {
          assert r[i] == t[i - 2] && (i - 2) % 2 == 0 && (i - 2) / 2 == i / 2 - 1;
          assert s[1..][i / 2 - 1] == s[i / 2];
        }
      }
      forall i | 0 <= i < |r| && i % 2 == 1
        ensures r[i] == ';'
      {
        if i >= 2 {
          assert r[i] == t[i - 2] && (i - 2) % 2 == 1;
        }
      }
    } else if |s| == 1 {
      assert Join(Chars(s), ";") == [s[0]];
    }
  }

  /** Joining strings that hold no `;` and splitting at `;` gives the strings back. */
  lemma JoinSemicolonSplits(items: seq<string>)
    requires |items| >= 1
    requires forall i :: 0 <= i < |items| ==> ';' !in items[i]
    ensures JoinSemicolon(Plain(StrArr(items))).Ok?
    ensures Split(JoinSemicolon(Plain(StrArr(items))).value.s, ';') == items
  {
    assert Texts(StrArr(items).items) == items;
    SplitJoin(items, ';');
  }

  /** `self.convert_<key>()`. */
  function Convert(inst: Instance, key: string): Result<Json, Error>
    requires HasConverter(inst.cls, key)
  {
    match Get(inst.fields, "addresses")
    case None => Err(AttributeError("addresses"))
    case Some(addresses) => JoinSemicolon(addresses)
  }

  /** `key in getattr(self, "remove_first_underscore")`. */
  function ValueContains(v: Value, key: string): Result<bool, Error> {
    match v
    case Plain(j) => Contains(j, key)
    case ListOf(elems) => Ok(EPlain(JStr(key)) in elems)
    case DictOf(entries) => Ok(HasKey(entries, key))
    case Obj(_) => Err(TypeError("argument of type 'GrafanaSerializer' is not iterable"))
  }

  /** `get_cleaned_key`: `None` for the bookkeeping field itself; a key listed in
      `remove_first_underscore` that starts with `_` loses that first character. */
  function CleanedKey(inst: Instance, key: string): (r: Result<Option<string>, Error>)
    ensures key == RemoveKey ==> r == Ok(None)
    ensures key != RemoveKey && !HasKey(inst.fields, RemoveKey) ==> r == Ok(Some(key))
    ensures key != RemoveKey && !StartsWith(key, "_") && r.Ok? ==> r == Ok(Some(key))
    ensures r.Ok? && r.value.Some? ==> r.value.value == key || (StartsWith(key, "_") && r.value.value == key[1..])
  {
    if key == RemoveKey then Ok(None)
    else
      match Get(inst.fields, RemoveKey)
      case None => Ok(Some(key))
      case Some(listing) =>
        var listed :- ValueContains(listing, key);
        if listed && StartsWith(key, "_") then Ok(Some(key[1..])) else Ok(Some(key))
  }

  /** The serialization of one instance: a dictionary, except for the matcher
      model whose overridden `serialize` returns `[name, type, value]`. */
  function SerializeInstance(inst: Instance): (r: Result<Json, Error>)
    decreases inst, 3, 0
  {
    if inst.cls == RegexpsMatcher then MatcherSerialize(inst)
    else
      var entries :- SerializeUpTo(inst, |inst.fields|);
      Ok(JObj(entries))
  }

  function AsJson(v: Value): Result<Json, Error> {
    if v.Plain? then Ok(v.j) else Err(TypeError("value is not JSON serializable"))
  }

  function Attribute(inst: Instance, name: string): Result<Value, Error> {
    match Get(inst.fields, name)
    case None => Err(AttributeError(name))
    case Some(v) => Ok(v)
  }

  /** `GrafanaRegexpsMatcherModel.serialize`: the enum member's value is the string itself. */
  function MatcherSerialize(inst: Instance): (r: Result<Json, Error>)
    ensures r.Ok? ==> r.value.JArr? && |r.value.items| == 3
  {
    var name :- Attribute(inst, "name");
    var kind :- Attribute(inst, "type");
    var value :- Attribute(inst, "value");
    var n :- AsJson(name);
    var k :- AsJson(kind);
    var v :- AsJson(value);
    Ok(JArr([n, k, v]))
  }

  /** The `serialize` loop over the first `n` fields. */
  function SerializeUpTo(inst: Instance, n: nat): Result<Assoc<Json>, Error>
    requires n <= |inst.fields|
    decreases inst, 2, n
  {
    if n == 0 then Ok([])
    else
      var acc :- SerializeUpTo(inst, n - 1);
      var out :- FieldOutcome(inst, n - 1);
      match out
      case None => Ok(acc)
      case Some(kv) => Ok(Put(acc, kv.0, kv.1))
  }

  /** One iteration: `_serialize(key)`, skipped if `None`, then the cleaned key,
      skipped if `None`. */
  function FieldOutcome(inst: Instance, i: nat): (r: Result<Option<(string, Json)>, Error>)
    requires i < |inst.fields|
    ensures r.Ok? && r.value.Some? ==> r.value.value.1 != JNull
    ensures r.Ok? && r.value.Some? ==> CleanedKey(inst, inst.fields[i].0) == Ok(Some(r.value.value.0))
    decreases inst, 1, 0
  {
    var v :- SerializeField(inst, i);
    if v == JNull then Ok(None)
    else
      var key :- CleanedKey(inst, inst.fields[i].0);
      if key.None? then Ok(None) else Ok(Some((key.value, v)))
  }

  /** `_serialize(key)` for field `i`. */
  function SerializeField(inst: Instance, i: nat): (r: Result<Json, Error>)
    requires i < |inst.fields|
    ensures HasConverter(inst.cls, inst.fields[i].0) && !inst.fields[i].1.Obj? ==> r == Convert(inst, inst.fields[i].0)
    ensures HasConverter(inst.cls, inst.fields[i].0) && inst.fields[i].1.Obj? ==>
      r.Err? && (Convert(inst, inst.fields[i].0).Ok? ==> r.error == AttributeError("serialize"))
    ensures !HasConverter(inst.cls, inst.fields[i].0) ==> r == SerializeValue(inst.fields[i].1)
    decreases inst, 0, 0
  {
    var key := inst.fields[i].0;
    var value := inst.fields[i].1;
    if HasConverter(inst.cls, key) then
      var converted :- Convert(inst, key);
      // `converted_value.serialize()` is attempted because the raw value has `serialize`
      if value.Obj? then Err(AttributeError("serialize")) else Ok(converted)
    else
      SerializeValue(value)
  }

  /** A field value without converter: nested instances, and instances held
      directly in a list or dict, are replaced by their serialization. A matcher
      held directly in a field serializes to a list, and `_serialize` then walks
      the matcher itself as if it were that list, which raises. */
  function SerializeValue(v: Value): (r: Result<Json, Error>)
    ensures v.Plain? ==> r == Ok(v.j)
    ensures v.Obj? && v.o.cls == RegexpsMatcher ==> r.Err? && r.error.TypeError?
    ensures v.Obj? && v.o.cls != RegexpsMatcher ==> r == SerializeInstance(v.o) && (r.Ok? ==> r.value.JObj?)
    decreases v, 4, 0
  {
    match v
    case Plain(j) => Ok(j)
    case Obj(o) =>
      if o.cls == RegexpsMatcher then Err(TypeError("'GrafanaRegexpsMatcherModel' object is not iterable"))
      else SerializeInstance(o)
    case ListOf(elems) =>
      var items :- SerializeElems(v, 0);
      Ok(JArr(items))
    case DictOf(entries) =>
      var fields :- SerializeEntries(v, 0);
      Ok(JObj(fields))
  }

  function SerializeElem(e: Elem): Result<Json, Error>
    decreases e, 5, 0
  {
    match e
    case EPlain(j) => Ok(j)
    case EObj(o) => SerializeInstance(o)
  }

  function SerializeElems(v: Value, from: nat): (r: Result<seq<Json>, Error>)
    requires v.ListOf? && from <= |v.elems|
    ensures r.Ok? ==> |r.value| == |v.elems| - from
    decreases v, 3, |v.elems| - from
  {
    if from == |v.elems| then Ok([])
    else
      var head :- SerializeElem(v.elems[from]);
      var tail :- SerializeElems(v, from + 1);
      Ok([head] + tail)
  }

  function SerializeEntries(v: Value, from: nat): (r: Result<Assoc<Json>, Error>)
    requires v.DictOf? && from <= |v.entries|
    ensures r.Ok? ==> Keys(r.value) == Keys(v.entries[from..])
    ensures r.Ok? ==> forall i :: 0 <= i < |r.value| ==> SerializeElem(v.entries[from + i].1) == Ok(r.value[i].1)
    decreases v, 3, |v.entries| - from
  {
    if from == |v.entries| then Ok([])
    else
      var head :- SerializeElem(v.entries[from].1);
      var tail :- SerializeEntries(v, from + 1);
      assert Keys(v.entries[from..]) == [v.entries[from].0] + Keys(v.entries[from + 1..]);
      Ok([(v.entries[from].0, head)] + tail)
  }

  /** The outcomes of the first `n` fields. */
  function Outcomes(inst: Instance, n: nat): (r: seq<Loops.Outcome<Json, Error>>)
    requires n <= |inst.fields|
    ensures |r| == n && forall i :: 0 <= i < n ==> r[i] == FieldOutcome(inst, i)
  {
    seq(n, i requires 0 <= i < n => FieldOutcome(inst, i))
  }

  /** The loop of `serialize` is the fold of its fields' outcomes. */
  lemma {:induction false} SerializeUpToFold(inst: Instance, n: nat)
    requires n <= |inst.fields|
    ensures SerializeUpTo(inst, n) == Loops.Fold(Outcomes(inst, n))
  {
    if n > 0 {
      SerializeUpToFold(inst, n - 1);
      assert Outcomes(inst, n)[..n - 1] == Outcomes(inst, n - 1);
    }
  }

  /** A successful loop means every field up to `n` was processed without raising. */
  lemma SerializeUpToOk(inst: Instance, n: nat, k: nat)
    requires k < n <= |inst.fields|
    requires SerializeUpTo(inst, n).Ok?
    ensures FieldOutcome(inst, k).Ok?
    ensures SerializeUpTo(inst, k + 1).Ok?
  {
    SerializeUpToFold(inst, n);
    SerializeUpToFold(inst, k + 1);
    Loops.FoldOk(Outcomes(inst, n), k);
    assert Outcomes(inst, n)[..k + 1] == Outcomes(inst, k + 1);
  }

  /** What `serialize` returns is a dictionary (no key twice) without `None` values. */
  lemma SerializeUpToClean(inst: Instance, n: nat)
    requires n <= |inst.fields| && SerializeUpTo(inst, n).Ok?
    ensures forall i :: 0 <= i < |SerializeUpTo(inst, n).value| ==> SerializeUpTo(inst, n).value[i].1 != JNull
    ensures UniqueKeys(SerializeUpTo(inst, n).value)
  {
    SerializeUpToFold(inst, n);
    Loops.FoldClean(Outcomes(inst, n), JNull);
  }

  /** The value of field `j` ends up under its cleaned key unless a later field
      claims the same key. */
  lemma SerializedUnderCleanedKey(inst: Instance, n: nat, j: nat, c: string, v: Json)
    requires j < n <= |inst.fields|
    requires SerializeUpTo(inst, n).Ok?
    requires FieldOutcome(inst, j) == Ok(Some((c, v)))
    requires forall k :: j < k < n && FieldOutcome(inst, k).Ok? && FieldOutcome(inst, k).value.Some? ==> FieldOutcome(inst, k).value.value.0 != c
    ensures Get(SerializeUpTo(inst, n).value, c) == Some(v)
  {
    var outs := Outcomes(inst, n);
    SerializeUpToFold(inst, n);
    assert forall k :: j < k < n ==> !Loops.Emits(outs, k, c);
    Loops.FoldUnder(outs, j, c, v);
  }

  /** Every emitted key is the cleaned key of a field whose value was not `None`. */
  lemma SerializedKeysComeFromFields(inst: Instance, n: nat, c: string)
    requires n <= |inst.fields|
    requires SerializeUpTo(inst, n).Ok?
    requires HasKey(SerializeUpTo(inst, n).value, c)
    ensures exists j :: 0 <= j < n && FieldOutcome(inst, j).Ok? && FieldOutcome(inst, j).value.Some? && FieldOutcome(inst, j).value.value.0 == c
  {
    var outs := Outcomes(inst, n);
    SerializeUpToFold(inst, n);
    Loops.FoldKeys(outs, c);
    var j :| Loops.Emits(outs, j, c);
    assert outs[j] == FieldOutcome(inst, j);
  }

  /** A reference reading of `serialize` for instances whose fields all serialize and
      whose cleaned keys are distinct: every field in declaration order under its cleaned
      key, the bookkeeping field dropped, `None` values kept (`clean_none` removes them). */
  function View(inst: Instance, n: nat): Result<Assoc<Json>, Error>
    requires n <= |inst.fields|
  {
    if n == 0 then Ok([])
    else
      var acc :- View(inst, n - 1);
      var v :- SerializeField(inst, n - 1);
      var key :- CleanedKey(inst, inst.fields[n - 1].0);
      if key.None? then Ok(acc) else Ok(acc + [(key.value, v)])
  }

  /** Python's dict assignment only appends when the key is new, so with distinct
      keys the loop is `clean_none` of the reference reading. */
  lemma {:induction false} SerializeUpToView(inst: Instance, n: nat)
    requires n <= |inst.fields|
    requires View(inst, n).Ok? && UniqueKeys(View(inst, n).value)
    ensures SerializeUpTo(inst, n) == Ok(CleanNone(View(inst, n).value))
  {
    if n > 0 {
      ViewPrefixUnique(inst, n);
      SerializeUpToView(inst, n - 1);
      SerializeUpToViewStep(inst, n);
    }
  }

  /** The reading one field shorter is a prefix, so its keys are unique too. */
  lemma ViewPrefixUnique(inst: Instance, n: nat)
    requires 0 < n <= |inst.fields|
    requires View(inst, n).Ok? && UniqueKeys(View(inst, n).value)
    ensures View(inst, n - 1).Ok? && UniqueKeys(View(inst, n - 1).value)
  {
    ViewStep(inst, n);
    var prev := View(inst, n - 1).value;
    var cur := View(inst, n).value;
    assert |prev| <= |cur| && cur[..|prev|] == prev;
    UniqueKeysPrefix(cur, |prev|);
  }

  /** One step of the reference reading, spelled out. */
  lemma ViewStep(inst: Instance, n: nat)
    requires 0 < n <= |inst.fields|
    requires View(inst, n).Ok?
    ensures View(inst, n - 1).Ok? && SerializeField(inst, n - 1).Ok? && CleanedKey(inst, inst.fields[n - 1].0).Ok?
    ensures var key := CleanedKey(inst, inst.fields[n - 1].0).value;
      View(inst, n).value ==
        if key.None? then View(inst, n - 1).value
        else View(inst, n - 1).value + [(key.value, SerializeField(inst, n - 1).value)]
  {
  }

  /** `get_cleaned_key` for a class whose last field is `remove_first_underscore`
      listing `names`. */
  lemma CleanedKeyListed(inst: Instance, body: Assoc<Value>, names: seq<string>, key: string)
    requires inst.fields == body + [(RemoveKey, Listing(names))]
    requires !HasKey(body, RemoveKey) && key != RemoveKey
    ensures CleanedKey(inst, key) == Ok(Some(if key in names && StartsWith(key, "_") then key[1..] else key))
  {
    GetAppend(body, RemoveKey, Listing(names), RemoveKey);
    var items := StrArr(names).items;
    assert JStr(key) in items <==> key in names by {
      if key in names {
        var i :| 0 <= i < |names| && names[i] == key;
        assert items[i] == JStr(key);
      }
    }
  }

  /** A field that is emitted extends the reference reading by its pair. */
  lemma ViewSnoc(inst: Instance, n: nat, prefix: Assoc<Json>, p: (string, Json))
    requires 0 < n <= |inst.fields|
    requires View(inst, n - 1) == Ok(prefix)
    requires SerializeField(inst, n - 1) == Ok(p.1)
    requires CleanedKey(inst, inst.fields[n - 1].0) == Ok(Some(p.0))
    requires UniqueKeys(prefix) && p.0 !in Keys(prefix)
    ensures View(inst, n) == Ok(prefix + [p])
    ensures UniqueKeys(prefix + [p]) && Keys(prefix + [p]) == Keys(prefix) + [p.0]
  {
    UniqueSnoc(prefix, p);
  }

  /** A field whose key is dropped leaves the reference reading as it was. */
  lemma ViewSkip(inst: Instance, n: nat, prefix: Assoc<Json>)
    requires 0 < n <= |inst.fields|
    requires View(inst, n - 1) == Ok(prefix)
    requires SerializeField(inst, n - 1).Ok?
    requires CleanedKey(inst, inst.fields[n - 1].0) == Ok(None)
    ensures View(inst, n) == Ok(prefix)
  {
  }

  lemma SerializeUpToViewStep(inst: Instance, n: nat)
    requires 0 < n <= |inst.fields|
    requires View(inst, n).Ok? && UniqueKeys(View(inst, n).value)
    requires SerializeUpTo(inst, n - 1) == Ok(CleanNone(View(inst, n - 1).value))
    ensures SerializeUpTo(inst, n) == Ok(CleanNone(View(inst, n).value))
  {
    ViewStep(inst, n);
    var prev := View(inst, n - 1).value;
    var v := SerializeField(inst, n - 1).value;
    var key := CleanedKey(inst, inst.fields[n - 1].0).value;
    if key.None? {
      SkippedField(inst, n);
    } else if v == JNull {
      SkippedField(inst, n);
      CleanNoneAppend(prev, (key.value, v));
      assert CleanNone(prev + [(key.value, v)]) == CleanNone(prev) + [];
      assert CleanNone(prev) + [] == CleanNone(prev);
    } else {
      StoredField(inst, n, key.value, v);
      CleanNoneAppend(prev, (key.value, v));
      NewKeyAppends(prev, key.value, v);
    }
  }

  /** A field whose value is `None`, or whose key is dropped, leaves the dictionary as it was. */
  lemma SkippedField(inst: Instance, n: nat)
    requires 0 < n <= |inst.fields|
    requires SerializeUpTo(inst, n - 1).Ok? && SerializeField(inst, n - 1).Ok? && CleanedKey(inst, inst.fields[n - 1].0).Ok?
    requires SerializeField(inst, n - 1).value == JNull || CleanedKey(inst, inst.fields[n - 1].0).value.None?
    ensures SerializeUpTo(inst, n) == SerializeUpTo(inst, n - 1)
  {
    assert FieldOutcome(inst, n - 1) == Ok(None);
  }

  /** Any other field is stored under its cleaned key. */
  lemma StoredField(inst: Instance, n: nat, k: string, v: Json)
    requires 0 < n <= |inst.fields|
    requires SerializeUpTo(inst, n - 1).Ok?
    requires SerializeField(inst, n - 1) == Ok(v) && v != JNull
    requires CleanedKey(inst, inst.fields[n - 1].0) == Ok(Some(k))
    ensures SerializeUpTo(inst, n) == Ok(Put(SerializeUpTo(inst, n - 1).value, k, v))
  {
    assert FieldOutcome(inst, n - 1) == Ok(Some((k, v)));
  }

  /** With a fresh key, storing into the cleaned dictionary is appending to it. */
  lemma NewKeyAppends(prev: Assoc<Json>, k: string, v: Json)
    requires UniqueKeys(prev + [(k, v)])
    ensures Put(CleanNone(prev), k, v) == CleanNone(prev) + [(k, v)]
  {
    var cur := prev + [(k, v)];
    forall i | 0 <= i < |prev|
      ensures prev[i].0 != k
    {
      assert cur[i] == prev[i] && cur[|prev|].0 == k;
    }
    CleanNoneKeys(prev, k);
  }

  /** The serialization of an instance, given that its reference reading exists and has distinct keys. */
  lemma SerializeByView(inst: Instance)
    requires inst.cls != RegexpsMatcher
    requires View(inst, |inst.fields|).Ok? && UniqueKeys(View(inst, |inst.fields|).value)
    ensures Serialize(inst) == Ok(JObj(CleanNone(View(inst, |inst.fields|).value)))
  {
    SerializeUpToView(inst, |inst.fields|);
  }

  /** A dataclass built from its field names and values in declaration order, with
      `remove_first_underscore` declared last when the class has one. */
  function Build(cls: Class, names: seq<string>, values: seq<Value>, listed: Option<seq<string>>): Instance
    requires |names| == |values|
  {
    Instance(cls, Zip(names, values) + if listed.Some? then [(RemoveKey, Listing(listed.value))] else [])
  }

  /** The key `get_cleaned_key` gives a field other than the bookkeeping one. */
  function RenamedKey(key: string, listed: Option<seq<string>>): string {
    if listed.Some? && key in listed.value && StartsWith(key, "_") then key[1..] else key
  }

  function RenamedKeys(names: seq<string>, listed: Option<seq<string>>): (r: seq<string>)
    ensures |r| == |names| && forall i :: 0 <= i < |names| ==> r[i] == RenamedKey(names[i], listed)
  {
    seq(|names|, i requires 0 <= i < |names| => RenamedKey(names[i], listed))
  }

  lemma BuildCleanedKey(inst: Instance, cls: Class, names: seq<string>, values: seq<Value>, listed: Option<seq<string>>, i: nat)
    requires |names| == |values| && i < |names| && RemoveKey !in names
    requires inst == Build(cls, names, values, listed)
    ensures CleanedKey(inst, names[i]) == Ok(Some(RenamedKey(names[i], listed)))
  {
    if listed.Some? {
      CleanedKeyListed(inst, Zip(names, values), listed.value, names[i]);
    } else {
      assert inst.fields == Zip(names, values);
    }
  }

  /** Pairing two sequences commutes with taking prefixes and appending. */
  lemma ZipSnoc<V>(ks: seq<string>, vs: seq<V>, n: nat)
    requires |ks| == |vs| && 0 < n <= |ks|
    ensures Zip(ks[..n], vs[..n]) == Zip(ks[..n - 1], vs[..n - 1]) + [(ks[n - 1], vs[n - 1])]
    ensures Keys(Zip(ks[..n - 1], vs[..n - 1])) == ks[..n - 1]
  {
  }

  /** The reference reading of a built instance, field by field. */
  lemma {:induction false} BuildView(inst: Instance, cls: Class, names: seq<string>, values: seq<Value>, listed: Option<seq<string>>, jsons: seq<Json>, n: nat)
    requires |names| == |values| == |jsons| && n <= |names| && RemoveKey !in names
    requires inst == Build(cls, names, values, listed)
    requires forall i :: 0 <= i < |names| ==> SerializeField(inst, i) == Ok(jsons[i])
    requires Distinct(RenamedKeys(names, listed))
    ensures View(inst, n) == Ok(Zip(RenamedKeys(names, listed)[..n], jsons[..n]))
    ensures UniqueKeys(Zip(RenamedKeys(names, listed)[..n], jsons[..n]))
  {
    var ks := RenamedKeys(names, listed);
    if n > 0 {
      BuildView(inst, cls, names, values, listed, jsons, n - 1);
      var prefix := Zip(ks[..n - 1], jsons[..n - 1]);
      assert inst.fields[n - 1].0 == names[n - 1];
      BuildCleanedKey(inst, cls, names, values, listed, n - 1);
      ZipSnoc(ks, jsons, n);
      assert ks[n - 1] !in ks[..n - 1];
      ViewSnoc(inst, n, prefix, (ks[n - 1], jsons[n - 1]));
    } else {
      assert Zip(ks[..0], jsons[..0]) == [];
    }
  }

  /** `serialize` on a built instance: every field under its cleaned key, `None` values dropped. */
  lemma SerializeBuilt(cls: Class, names: seq<string>, values: seq<Value>, listed: Option<seq<string>>, jsons: seq<Json>)
    requires cls != RegexpsMatcher
    requires |names| == |values| == |jsons| && RemoveKey !in names
    requires forall i :: 0 <= i < |names| ==> SerializeField(Build(cls, names, values, listed), i) == Ok(jsons[i])
    requires Distinct(RenamedKeys(names, listed))
    ensures Serialize(Build(cls, names, values, listed)) == Ok(JObj(CleanNone(Zip(RenamedKeys(names, listed), jsons))))
  {
    var inst := Build(cls, names, values, listed);
    var ks := RenamedKeys(names, listed);
    BuildView(inst, cls, names, values, listed, jsons, |names|);
    assert ks[..|names|] == ks && jsons[..|names|] == jsons;
    BuildViewComplete(inst, cls, names, values, listed, Zip(ks, jsons));
    SerializeByView(inst);
  }

  /** The bookkeeping field adds nothing to the reference reading. */
  lemma BuildViewComplete(inst: Instance, cls: Class, names: seq<string>, values: seq<Value>, listed: Option<seq<string>>, out: Assoc<Json>)
    requires |names| == |values| && RemoveKey !in names
    requires inst == Build(cls, names, values, listed)
    requires View(inst, |names|) == Ok(out)
    ensures View(inst, |inst.fields|) == Ok(out)
  {
    if listed.Some? {
      assert |inst.fields| == |names| + 1;
      assert inst.fields[|names|] == (RemoveKey, Listing(listed.value));
      ViewListing(inst, listed.value, out);
    }
  }

  /** A trailing `remove_first_underscore` field is skipped by the reference reading. */
  lemma ViewListing(inst: Instance, listed: seq<string>, out: Assoc<Json>)
    requires 0 < |inst.fields| && inst.fields[|inst.fields| - 1] == (RemoveKey, Listing(listed))
    requires View(inst, |inst.fields| - 1) == Ok(out)
    ensures View(inst, |inst.fields|) == Ok(out)
  {
    var last := |inst.fields| - 1;
    assert !HasConverter(inst.cls, RemoveKey);
    assert SerializeField(inst, last) == Ok(StrArr(listed));
    assert CleanedKey(inst, inst.fields[last].0) == Ok(None);
    ViewSkip(inst, last + 1, out);
  }

  /** Field `i` of a built instance, when its class declares no converter for it. */
  lemma BuildField(inst: Instance, cls: Class, names: seq<string>, values: seq<Value>, listed: Option<seq<string>>, i: nat)
    requires |names| == |values| && i < |names|
    requires inst == Build(cls, names, values, listed)
    requires !HasConverter(cls, names[i])
    ensures SerializeField(inst, i) == SerializeValue(values[i])
  {
    assert inst.fields[i] == (names[i], values[i]);
  }

  /** `serialize` on a built instance without converters: every field's own
      serialization under its cleaned key, `None` values dropped. */
  lemma SerializePlainBuilt(cls: Class, names: seq<string>, values: seq<Value>, listed: Option<seq<string>>, jsons: seq<Json>)
    requires cls != RegexpsMatcher
    requires |names| == |values| == |jsons| && RemoveKey !in names
    requires forall i :: 0 <= i < |names| ==> !HasConverter(cls, names[i]) && SerializeValue(values[i]) == Ok(jsons[i])
    requires Distinct(RenamedKeys(names, listed))
    ensures Serialize(Build(cls, names, values, listed)) == Ok(JObj(CleanNone(Zip(RenamedKeys(names, listed), jsons))))
  {
    var inst := Build(cls, names, values, listed);
    forall i | 0 <= i < |names|
      ensures SerializeField(inst, i) == Ok(jsons[i])
    {
      BuildField(inst, cls, names, values, listed, i);
    }
    SerializeBuilt(cls, names, values, listed, jsons);
  }

  /** Reading a field of a built instance by name. */
  lemma GetBuilt(cls: Class, names: seq<string>, values: seq<Value>, listed: Option<seq<string>>, i: nat)
    requires |names| == |values| && i < |names| && RemoveKey !in names && Distinct(names)
    ensures Get(Build(cls, names, values, listed).fields, names[i]) == Some(values[i])
  {
    var fields := Build(cls, names, values, listed).fields;
    var z := Zip(names, values);
    assert UniqueKeys(z);
    if listed.Some? {
      forall a, b | 0 <= a < b < |fields|
        ensures fields[a].0 != fields[b].0
      {
        if b == |z| {
          assert fields[b].0 == RemoveKey;
          assert fields[a].0 == names[a];
        }
      }
    }
    assert fields[i] == (names[i], values[i]);
    GetAt(fields, i);
  }

  /** A serialization is a dictionary (or the matcher's list), never `None`. */
  lemma SerializeNotNull(inst: Instance)
    ensures Serialize(inst).Ok? ==> Serialize(inst).value.JObj? || Serialize(inst).value.JArr?
  {
    if inst.cls != RegexpsMatcher {
      var entries := SerializeUpTo(inst, |inst.fields|);
      assert entries.Ok? ==> Serialize(inst) == Ok(JObj(entries.value));
    }
  }

  /** A field holding an instance serializes to the instance's serialization. */
  lemma SerializedObj(o: Instance, j: Json)
    requires o.cls != RegexpsMatcher
    requires Serialize(o) == Ok(j)
    ensures SerializeValue(Obj(o)) == Ok(j) && (j.JObj? || j.JArr?)
  {
    SerializeNotNull(o);
  }

  /** The serializations of the elements of a list, one by one. */
  function ElemResults(v: Value): (r: seq<Result<Json, Error>>)
    requires v.ListOf?
    ensures |r| == |v.elems| && forall i :: 0 <= i < |v.elems| ==> r[i] == SerializeElem(v.elems[i])
  {
    seq(|v.elems|, i requires 0 <= i < |v.elems| => SerializeElem(v.elems[i]))
  }

  /** A list serializes by collecting its elements' serializations; the first failure wins. */
  lemma {:induction false} SerializeElemsCollect(v: Value, from: nat)
    requires v.ListOf? && from <= |v.elems|
    ensures SerializeElems(v, from) == Loops.Collect(ElemResults(v)[from..])
    decreases |v.elems| - from
  {
    if from < |v.elems| {
      SerializeElemsCollect(v, from + 1);
      var rs := ElemResults(v)[from..];
      assert rs[0] == SerializeElem(v.elems[from]) && rs[1..] == ElemResults(v)[from + 1..];
    }
  }

  /** A list field serializes when every element does, to the elements' serializations in
      order; otherwise the first element that raises decides the exception. */
  lemma SerializeListCollect(v: Value)
    requires v.ListOf?
    ensures SerializeValue(v).Ok? ==> SerializeValue(v).value.JArr? && |SerializeValue(v).value.items| == |v.elems|
    ensures SerializeValue(v).Ok? <==> forall i :: 0 <= i < |v.elems| ==> SerializeElem(v.elems[i]).Ok?
    ensures SerializeValue(v).Ok? ==> forall i :: 0 <= i < |v.elems| ==> SerializeElem(v.elems[i]) == Ok(SerializeValue(v).value.items[i])
    ensures SerializeValue(v).Err? ==> exists i :: 0 <= i < |v.elems| && SerializeElem(v.elems[i]) == Err(SerializeValue(v).error)
  {
    var rs := ElemResults(v);
    SerializeElemsCollect(v, 0);
    assert rs[0..] == rs;
    Loops.CollectSpec(rs);
  }

  /** A dict field keeps its keys, in order, each with its value's serialization. */
  lemma SerializeDictEntries(v: Value)
    requires v.DictOf?
    ensures SerializeValue(v).Ok? ==> SerializeValue(v).value.JObj? && |SerializeValue(v).value.fields| == |v.entries|
    ensures SerializeValue(v).Ok? ==> forall i :: 0 <= i < |v.entries| ==>
      SerializeValue(v).value.fields[i].0 == v.entries[i].0 && SerializeElem(v.entries[i].1) == Ok(SerializeValue(v).value.fields[i].1)
  {
    var r := SerializeEntries(v, 0);
    if r.Ok? {
      assert v.entries[0..] == v.entries;
      assert |Keys(r.value)| == |Keys(v.entries)|;
      forall i | 0 <= i < |v.entries|
        ensures r.value[i].0 == v.entries[i].0
      {
        assert Keys(r.value)[i] == Keys(v.entries)[i];
      }
    }
  }

  /** A list of instances serializes element by element, in order. */
  lemma SerializeObjs(xs: seq<Instance>, js: seq<Json>)
    requires |xs| == |js|
    requires forall i :: 0 <= i < |xs| ==> Serialize(xs[i]) == Ok(js[i])
    ensures SerializeElems(ListOf(Objs(xs)), 0) == Ok(js)
  {
    var rs := ElemResults(ListOf(Objs(xs)));
    SerializeElemsCollect(ListOf(Objs(xs)), 0);
    assert rs[0..] == rs;
    Loops.CollectSpec(rs);
    assert Loops.Collect(rs).value == js;
  }

  /** A list field of instances serializes to the list of their serializations. */
  lemma SerializeObjList(xs: seq<Instance>, js: seq<Json>)
    requires |xs| == |js|
    requires forall i :: 0 <= i < |xs| ==> Serialize(xs[i]) == Ok(js[i])
    ensures SerializeValue(ListOf(Objs(xs))) == Ok(JArr(js))
  {
    SerializeObjs(xs, js);
  }

  /** `b` is `a` with (at most) the value of field `k` changed. */
  predicate SameButAt(a: Instance, b: Instance, k: nat) {
    && a.cls == b.cls && |a.fields| == |b.fields|
    && forall i :: 0 <= i < |a.fields| ==> a.fields[i].0 == b.fields[i].0 && (i != k ==> a.fields[i].1 == b.fields[i].1)
  }

  lemma CleanedKeyCongruent(a: Instance, b: Instance, k: nat, key: string)
    requires SameButAt(a, b, k) && k < |a.fields| && a.fields[k].0 != RemoveKey
    ensures CleanedKey(a, key) == CleanedKey(b, key)
  {
    assert forall i :: 0 <= i < |a.fields| && a.fields[i].0 == RemoveKey ==> a.fields[i].1 == b.fields[i].1;
    GetCongruent(a.fields, b.fields, RemoveKey);
    CleanedKeyFromListing(a, b, key);
  }

  /** The cleaned key depends on the instance only through its listing field. */
  lemma CleanedKeyFromListing(a: Instance, b: Instance, key: string)
    requires Get(a.fields, RemoveKey) == Get(b.fields, RemoveKey)
    ensures CleanedKey(a, key) == CleanedKey(b, key)
  {
  }

  lemma SerializeFieldCongruent(a: Instance, b: Instance, k: nat, i: nat)
    requires SameButAt(a, b, k) && k < |a.fields| && i < |a.fields|
    requires !HasConverter(a.cls, a.fields[k].0)
    requires SerializeValue(a.fields[k].1) == SerializeValue(b.fields[k].1)
    ensures SerializeField(a, i) == SerializeField(b, i)
  {
    if HasConverter(a.cls, a.fields[i].0) {
      GetCongruent(a.fields, b.fields, "addresses");
    }
  }

  /** Changing a field that has no converter into another value with the same
      serialization changes no step of the loop. */
  lemma FieldOutcomeCongruent(a: Instance, b: Instance, k: nat, i: nat)
    requires SameButAt(a, b, k) && k < |a.fields| && i < |a.fields|
    requires a.fields[k].0 != RemoveKey && !HasConverter(a.cls, a.fields[k].0)
    requires SerializeValue(a.fields[k].1) == SerializeValue(b.fields[k].1)
    ensures FieldOutcome(a, i) == FieldOutcome(b, i)
  {
    CleanedKeyCongruent(a, b, k, a.fields[i].0);
    SerializeFieldCongruent(a, b, k, i);
  }

  lemma SerializeUpToCongruent(a: Instance, b: Instance, n: nat)
    requires n <= |a.fields| == |b.fields|
    requires forall i :: 0 <= i < n ==> FieldOutcome(a, i) == FieldOutcome(b, i)
    ensures SerializeUpTo(a, n) == SerializeUpTo(b, n)
  {
    SerializeUpToFold(a, n);
    SerializeUpToFold(b, n);
    assert Outcomes(a, n) == Outcomes(b, n);
  }

  /** A nested instance (or list of them) contributes nothing but its serialization:
      replacing the field's value by that JSON leaves `serialize` unchanged. */
  lemma SubstituteField(cls: Class, names: seq<string>, values: seq<Value>, listed: Option<seq<string>>, k: nat, v: Value, j: Json)
    requires cls != RegexpsMatcher
    requires |names| == |values| && k < |names| && RemoveKey !in names
    requires !HasConverter(cls, names[k])
    requires values[k] == v && SerializeValue(v) == Ok(j)
    ensures Serialize(Build(cls, names, values, listed)) == Serialize(Build(cls, names, values[k := Plain(j)], listed))
  {
    var a := Build(cls, names, values, listed);
    var b := Build(cls, names, values[k := Plain(j)], listed);
    assert a.fields[k] == (names[k], values[k]);
    assert SameButAt(a, b, k);
    forall i | 0 <= i < |a.fields|
      ensures FieldOutcome(a, i) == FieldOutcome(b, i)
    {
      FieldOutcomeCongruent(a, b, k, i);
    }
    SerializeUpToCongruent(a, b, |a.fields|);
  }

  /** Plain JSON field values. */
  function Plains(jsons: seq<Json>): (r: seq<Value>)
    ensures |r| == |jsons| && forall i :: 0 <= i < |jsons| ==> r[i] == Plain(jsons[i])
  {
    if |jsons| == 0 then [] else [Plain(jsons[0])] + Plains(jsons[1..])
  }

  /** Field values that are each the plain JSON at the same position are `Plains` of it. */
  lemma PlainsEach(values: seq<Value>, jsons: seq<Json>)
    requires |values| == |jsons|
    requires forall i :: 0 <= i < |values| ==> values[i] == Plain(jsons[i])
    ensures values == Plains(jsons)
  {
    assert forall i :: 0 <= i < |values| ==> values[i] == Plains(jsons)[i];
  }

  lemma ReplacePlain(values: seq<Value>, jsons: seq<Json>, k: int)
    requires |values| == |jsons| && 0 <= k < |values|
    requires forall i :: 0 <= i < |values| && i != k ==> values[i] == Plain(jsons[i])
    ensures values[k := Plain(jsons[k])] == Plains(jsons)
  {
  }

  /** `serialize` on a built instance whose fields hold plain JSON and have no converter. */
  lemma SerializePlainsBuilt(cls: Class, names: seq<string>, jsons: seq<Json>, listed: Option<seq<string>>)
    requires cls != RegexpsMatcher
    requires |names| == |jsons| && RemoveKey !in names
    requires forall i :: 0 <= i < |names| ==> !HasConverter(cls, names[i])
    requires Distinct(RenamedKeys(names, listed))
    ensures Serialize(Build(cls, names, Plains(jsons), listed)) == Ok(JObj(CleanNone(Zip(RenamedKeys(names, listed), jsons))))
  {
    SerializePlainBuilt(cls, names, Plains(jsons), listed, jsons);
  }

  function Serialize(inst: Instance): Result<Json, Error> {
    SerializeInstance(inst)
  }
}
