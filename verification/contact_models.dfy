/** The contact-point dataclasses of grafana_api/models/contact.py and of its older
    copy grafana_api/contact.py. Both copies declare the same fields, defaults,
    `convert_addresses` and Slack `validate()`; each constructor below takes the
    class, so one definition serves both. */
module ContactModels {
  import opened Wrappers
  import opened Dict
  import opened Strings
  import opened Json
  import opened Exceptions
  import opened Validation
  import opened Utils
  import opened Serializer

  predicate IsEmailSettings(cls: Class) {
    cls == EmailSettings || cls == LegacyEmailSettings
  }

  const EmailSettingsFields := ["addresses", "singleEmail", "message", "subject"]

  function EmailSettingsValues(addresses: seq<string>, singleEmail: bool, message: Option<string>, subject: Option<string>): seq<Value> {
    [Plain(StrArr(addresses)), Plain(JBool(singleEmail)), Plain(OptStr(message)), Plain(OptStr(subject))]
  }

  /** `ModelGrafanaContactPointEmailSettings` (or the older `GrafanaContactPointModelEmailSettings`):
      `singleEmail` defaults to `False`, `message` and `subject` to `None`. */
  function EmailSettingsOf(cls: Class, addresses: seq<string>, singleEmail: bool := false,
                           message: Option<string> := None, subject: Option<string> := None): Instance
  {
    Build(cls, EmailSettingsFields, EmailSettingsValues(addresses, singleEmail, message, subject), None)
  }

  /** What `serialize` makes of each field: the joined addresses, then the plain values. */
  function EmailSettingsJsons(addresses: seq<string>, singleEmail: bool, message: Option<string>, subject: Option<string>): seq<Json> {
    [JStr(Join(addresses, ";")), JBool(singleEmail), OptStr(message), OptStr(subject)]
  }

  lemma EmailSettingsNames()
    ensures Distinct(EmailSettingsFields) && RemoveKey !in EmailSettingsFields
    ensures RenamedKeys(EmailSettingsFields, None) == EmailSettingsFields
  {
  }

  /** `convert_addresses` is what `serialize` emits for `addresses`: the addresses joined by `";"`. */
  lemma AddressesField(cls: Class, addresses: seq<string>, singleEmail: bool, message: Option<string>, subject: Option<string>)
    requires IsEmailSettings(cls)
    ensures SerializeField(EmailSettingsOf(cls, addresses, singleEmail, message, subject), 0) == Ok(JStr(Join(addresses, ";")))
  {
    var inst := EmailSettingsOf(cls, addresses, singleEmail, message, subject);
    var values := EmailSettingsValues(addresses, singleEmail, message, subject);
    EmailSettingsNames();
    GetBuilt(cls, EmailSettingsFields, values, None, 0);
    assert inst.fields[0] == ("addresses", Plain(StrArr(addresses)));
    JoinedAddresses(addresses);
    assert Convert(inst, "addresses") == Ok(JStr(Join(addresses, ";")));
  }

  /** Joining the JSON list of the addresses joins the addresses. */
  lemma JoinedAddresses(addresses: seq<string>)
    ensures JoinSemicolon(Plain(StrArr(addresses))) == Ok(JStr(Join(addresses, ";")))
  {
    assert Texts(StrArr(addresses).items) == addresses;
  }

  lemma EmailSettingsFieldsOut(cls: Class, addresses: seq<string>, singleEmail: bool, message: Option<string>, subject: Option<string>)
    requires IsEmailSettings(cls)
    ensures var values := EmailSettingsValues(addresses, singleEmail, message, subject);
      var jsons := EmailSettingsJsons(addresses, singleEmail, message, subject);
      forall i :: 0 <= i < |EmailSettingsFields| ==> SerializeField(Build(cls, EmailSettingsFields, values, None), i) == Ok(jsons[i])
  {
    var inst := EmailSettingsOf(cls, addresses, singleEmail, message, subject);
    var values := EmailSettingsValues(addresses, singleEmail, message, subject);
    AddressesField(cls, addresses, singleEmail, message, subject);
    BuildField(inst, cls, EmailSettingsFields, values, None, 1);
    BuildField(inst, cls, EmailSettingsFields, values, None, 2);
    BuildField(inst, cls, EmailSettingsFields, values, None, 3);
  }

  /** The settings serialize to the joined addresses and `singleEmail`, with `message` and
      `subject` only when they are set. */
  lemma EmailSettingsSerialize(cls: Class, addresses: seq<string>, singleEmail: bool, message: Option<string>, subject: Option<string>)
    requires IsEmailSettings(cls)
    ensures Serialize(EmailSettingsOf(cls, addresses, singleEmail, message, subject)) ==
      Ok(JObj(CleanNone([("addresses", JStr(Join(addresses, ";"))), ("singleEmail", JBool(singleEmail)),
                         ("message", OptStr(message)), ("subject", OptStr(subject))])))
  {
    var values := EmailSettingsValues(addresses, singleEmail, message, subject);
    var jsons := EmailSettingsJsons(addresses, singleEmail, message, subject);
    EmailSettingsFieldsOut(cls, addresses, singleEmail, message, subject);
    EmailSettingsNames();
    SerializeBuilt(cls, EmailSettingsFields, values, None, jsons);
    EmailSettingsZip(addresses, singleEmail, message, subject);
  }

  lemma EmailSettingsZip(addresses: seq<string>, singleEmail: bool, message: Option<string>, subject: Option<string>)
    ensures Zip(EmailSettingsFields, EmailSettingsJsons(addresses, singleEmail, message, subject)) ==
      [("addresses", JStr(Join(addresses, ";"))), ("singleEmail", JBool(singleEmail)), ("message", OptStr(message)), ("subject", OptStr(subject))]
  {
  }

  lemma EmailSettingsClean(addresses: seq<string>)
    ensures CleanNone([("addresses", JStr(Join(addresses, ";"))), ("singleEmail", JBool(false)), ("message", JNull), ("subject", JNull)]) ==
      [("addresses", JStr(Join(addresses, ";"))), ("singleEmail", JBool(false))]
  {
    EmailSettingsCleanTail();
  }

  lemma EmailSettingsCleanTail()
    ensures CleanNone([("singleEmail", JBool(false)), ("message", JNull), ("subject", JNull)]) == [("singleEmail", JBool(false))]
  {
  }

  /** With the defaults, the settings are the joined addresses and `singleEmail: false`;
      no address at all gives the empty string. */
  lemma EmailSettingsDefaults(cls: Class, addresses: seq<string>)
    requires IsEmailSettings(cls)
    ensures Serialize(EmailSettingsOf(cls, addresses)) ==
      Ok(JObj([("addresses", JStr(Join(addresses, ";"))), ("singleEmail", JBool(false))]))
  {
    EmailSettingsSerialize(cls, addresses, false, None, None);
    EmailSettingsClean(addresses);
  }

  /** The joined addresses give the addresses back when split on `";"`, as long as
      no address contains a `";"` itself; no address at all joins to `""`, which
      splits to one empty address. */
  lemma AddressesRoundTrip(addresses: seq<string>)
    requires forall i :: 0 <= i < |addresses| ==> ';' !in addresses[i]
    ensures |addresses| >= 1 ==> Split(Join(addresses, ";"), ';') == addresses
    ensures Join([], ";") == "" && Split(Join([], ";"), ';') == [""]
  {
    if |addresses| >= 1 {
      SplitJoin(addresses, ';');
    }
  }

  const SlackError := ValueError("token and url can't be both empty. At least one field must be filled.")

  /** `not self.<name>` on a field holding JSON. */
  predicate FieldFalsy(fields: Assoc<Value>, name: string) {
    var v := Get(fields, name);
    v.Some? && v.value.Plain? && !Truthy(v.value.j)
  }

  /** `ModelGrafanaContactPointSlackSettings.validate`. */
  function SlackValidate(fields: Assoc<Value>): Option<Error> {
    if FieldFalsy(fields, "token") && FieldFalsy(fields, "url") then Some(SlackError) else None
  }

  function SlackHooks(): Hooks<Value> {
    Hooks(_ => None, Some(SlackValidate))
  }

  /** An empty or missing `Optional[str]`. */
  predicate Blank(o: Option<string>) {
    o.None? || o.value == ""
  }

  const SlackSettingsFields := ["recipient", "token", "url", "endpointUrl", "icon_emoji", "icon_url", "mentionChannel", "mentionGroups", "mentionUsers", "text", "title", "username"]

  /** The fields of `ModelGrafanaContactPointSlackSettings` (or the older copy): `recipient`, then
      eleven optional strings, `None` by default. */
  function SlackSettingsOf(cls: Class, recipient: string, token: Option<string> := None, url: Option<string> := None,
     endpointUrl: Option<string> := None, iconEmoji: Option<string> := None, iconUrl: Option<string> := None,
     mentionChannel: Option<string> := None, mentionGroups: Option<string> := None,
     mentionUsers: Option<string> := None, text: Option<string> := None, title: Option<string> := None,
     username: Option<string> := None): Instance
  {
    Build(cls, SlackSettingsFields,
          [Plain(JStr(recipient)), Plain(OptStr(token)), Plain(OptStr(url)), Plain(OptStr(endpointUrl)),
           Plain(OptStr(iconEmoji)), Plain(OptStr(iconUrl)), Plain(OptStr(mentionChannel)),
           Plain(OptStr(mentionGroups)), Plain(OptStr(mentionUsers)), Plain(OptStr(text)), Plain(OptStr(title)),
           Plain(OptStr(username))],
          None)
  }

  lemma SlackSettingsPlain(cls: Class, recipient: string, token: Option<string>, url: Option<string>, endpointUrl: Option<string>,
    iconEmoji: Option<string>, iconUrl: Option<string>, mentionChannel: Option<string>,
    mentionGroups: Option<string>, mentionUsers: Option<string>, text: Option<string>, title: Option<string>,
    username: Option<string>)
    ensures [Plain(JStr(recipient)), Plain(OptStr(token)), Plain(OptStr(url)), Plain(OptStr(endpointUrl)),
       Plain(OptStr(iconEmoji)), Plain(OptStr(iconUrl)), Plain(OptStr(mentionChannel)),
       Plain(OptStr(mentionGroups)), Plain(OptStr(mentionUsers)), Plain(OptStr(text)), Plain(OptStr(title)),
       Plain(OptStr(username))] ==
      Plains([JStr(recipient), OptStr(token), OptStr(url), OptStr(endpointUrl), OptStr(iconEmoji), OptStr(iconUrl),
         OptStr(mentionChannel), OptStr(mentionGroups), OptStr(mentionUsers), OptStr(text), OptStr(title),
         OptStr(username)])
  {
    PlainsEach([Plain(JStr(recipient)), Plain(OptStr(token)), Plain(OptStr(url)), Plain(OptStr(endpointUrl)),
       Plain(OptStr(iconEmoji)), Plain(OptStr(iconUrl)), Plain(OptStr(mentionChannel)),
       Plain(OptStr(mentionGroups)), Plain(OptStr(mentionUsers)), Plain(OptStr(text)), Plain(OptStr(title)),
       Plain(OptStr(username))],
      [JStr(recipient), OptStr(token), OptStr(url), OptStr(endpointUrl), OptStr(iconEmoji), OptStr(iconUrl),
       OptStr(mentionChannel), OptStr(mentionGroups), OptStr(mentionUsers), OptStr(text), OptStr(title),
       OptStr(username)]);
  }

  lemma SlackSettingsKeys()
    ensures RenamedKeys(SlackSettingsFields, None) == ["recipient", "token", "url", "endpointUrl", "icon_emoji", "icon_url", "mentionChannel", "mentionGroups",
       "mentionUsers", "text", "title", "username"]
  {
  }

  lemma SlackSettingsDistinct()
    ensures Distinct(["recipient", "token", "url", "endpointUrl", "icon_emoji", "icon_url", "mentionChannel", "mentionGroups",
       "mentionUsers", "text", "title", "username"]) && RemoveKey !in SlackSettingsFields
  {
  }

  lemma SlackSettingsZip(recipient: string, token: Option<string>, url: Option<string>, endpointUrl: Option<string>,
    iconEmoji: Option<string>, iconUrl: Option<string>, mentionChannel: Option<string>,
    mentionGroups: Option<string>, mentionUsers: Option<string>, text: Option<string>, title: Option<string>,
    username: Option<string>, jsons: seq<Json>)
    requires jsons == [JStr(recipient), OptStr(token), OptStr(url), OptStr(endpointUrl), OptStr(iconEmoji), OptStr(iconUrl),
       OptStr(mentionChannel), OptStr(mentionGroups), OptStr(mentionUsers), OptStr(text), OptStr(title),
       OptStr(username)]
    ensures Zip(["recipient", "token", "url", "endpointUrl", "icon_emoji", "icon_url", "mentionChannel", "mentionGroups",
       "mentionUsers", "text", "title", "username"], jsons) == [("recipient", JStr(recipient)), ("token", OptStr(token)), ("url", OptStr(url)),
       ("endpointUrl", OptStr(endpointUrl)), ("icon_emoji", OptStr(iconEmoji)), ("icon_url", OptStr(iconUrl)),
       ("mentionChannel", OptStr(mentionChannel)), ("mentionGroups", OptStr(mentionGroups)),
       ("mentionUsers", OptStr(mentionUsers)), ("text", OptStr(text)), ("title", OptStr(title)),
       ("username", OptStr(username))]
  {
    ZipOf12(["recipient", "token", "url", "endpointUrl", "icon_emoji", "icon_url", "mentionChannel", "mentionGroups",
       "mentionUsers", "text", "title", "username"], jsons);
  }

  /** Once every field is plain JSON, the output is the cleaned dictionary under the emitted keys. */
  lemma SlackSettingsPlainsBuilt(cls: Class, jsons: seq<Json>)
    requires cls == SlackSettings || cls == LegacySlackSettings
    requires |jsons| == |SlackSettingsFields|
    ensures Serialize(Build(cls, SlackSettingsFields, Plains(jsons), None)) == Ok(JObj(CleanNone(Zip(["recipient", "token", "url", "endpointUrl", "icon_emoji", "icon_url", "mentionChannel", "mentionGroups",
       "mentionUsers", "text", "title", "username"], jsons))))
  {
    SlackSettingsKeys();
    SlackSettingsDistinct();
    SerializePlainsBuilt(cls, SlackSettingsFields, jsons, None);
  }

  /** `recipient` is always emitted; every optional field only when it is set. */
  lemma SlackSettingsSerialize(cls: Class, recipient: string, token: Option<string>, url: Option<string>, endpointUrl: Option<string>,
    iconEmoji: Option<string>, iconUrl: Option<string>, mentionChannel: Option<string>,
    mentionGroups: Option<string>, mentionUsers: Option<string>, text: Option<string>, title: Option<string>,
    username: Option<string>)
    requires cls == SlackSettings || cls == LegacySlackSettings
    ensures Serialize(SlackSettingsOf(cls, recipient, token, url, endpointUrl, iconEmoji, iconUrl, mentionChannel, mentionGroups, mentionUsers,
       text, title, username)) ==
      Ok(JObj(CleanNone([("recipient", JStr(recipient)), ("token", OptStr(token)), ("url", OptStr(url)),
         ("endpointUrl", OptStr(endpointUrl)), ("icon_emoji", OptStr(iconEmoji)), ("icon_url", OptStr(iconUrl)),
         ("mentionChannel", OptStr(mentionChannel)), ("mentionGroups", OptStr(mentionGroups)),
         ("mentionUsers", OptStr(mentionUsers)), ("text", OptStr(text)), ("title", OptStr(title)),
         ("username", OptStr(username))])))
  {
    var jsons := [JStr(recipient), OptStr(token), OptStr(url), OptStr(endpointUrl), OptStr(iconEmoji), OptStr(iconUrl),
       OptStr(mentionChannel), OptStr(mentionGroups), OptStr(mentionUsers), OptStr(text), OptStr(title),
       OptStr(username)];
    SlackSettingsPlain(cls, recipient, token, url, endpointUrl, iconEmoji, iconUrl, mentionChannel, mentionGroups, mentionUsers, text, title, username);
    SlackSettingsPlainsBuilt(cls, jsons);
    SlackSettingsZip(recipient, token, url, endpointUrl, iconEmoji, iconUrl, mentionChannel, mentionGroups, mentionUsers, text, title, username, jsons);
  }

  function SlackSettingsValues(recipient: string, token: Option<string>, url: Option<string>, endpointUrl: Option<string>,
                               iconEmoji: Option<string>, iconUrl: Option<string>, mentionChannel: Option<string>,
                               mentionGroups: Option<string>, mentionUsers: Option<string>, text: Option<string>,
                               title: Option<string>, username: Option<string>): seq<Value>
  {
    [Plain(JStr(recipient)), Plain(OptStr(token)), Plain(OptStr(url)), Plain(OptStr(endpointUrl)),
     Plain(OptStr(iconEmoji)), Plain(OptStr(iconUrl)), Plain(OptStr(mentionChannel)), Plain(OptStr(mentionGroups)),
     Plain(OptStr(mentionUsers)), Plain(OptStr(text)), Plain(OptStr(title)), Plain(OptStr(username))]
  }

  /** Constructing the Slack settings runs `validate()`. */
  function NewSlackSettings(cls: Class, recipient: string, token: Option<string> := None, url: Option<string> := None,
                            endpointUrl: Option<string> := None, iconEmoji: Option<string> := None, iconUrl: Option<string> := None,
                            mentionChannel: Option<string> := None, mentionGroups: Option<string> := None,
                            mentionUsers: Option<string> := None, text: Option<string> := None, title: Option<string> := None,
                            username: Option<string> := None): Result<Instance, Error>
    requires cls == SlackSettings || cls == LegacySlackSettings
  {
    var inst := SlackSettingsOf(cls, recipient, token, url, endpointUrl, iconEmoji, iconUrl, mentionChannel, mentionGroups,
                                mentionUsers, text, title, username);
    var fields :- SerializerPostInit(inst.fields, SlackHooks());
    Ok(Instance(cls, fields))
  }

  lemma SlackSettingsValuesBuilt(cls: Class, recipient: string, token: Option<string>, url: Option<string>, endpointUrl: Option<string>,
                                 iconEmoji: Option<string>, iconUrl: Option<string>, mentionChannel: Option<string>,
                                 mentionGroups: Option<string>, mentionUsers: Option<string>, text: Option<string>,
                                 title: Option<string>, username: Option<string>)
    ensures SlackSettingsOf(cls, recipient, token, url, endpointUrl, iconEmoji, iconUrl, mentionChannel, mentionGroups,
                            mentionUsers, text, title, username) ==
      Build(cls, SlackSettingsFields, SlackSettingsValues(recipient, token, url, endpointUrl, iconEmoji, iconUrl, mentionChannel,
                                                          mentionGroups, mentionUsers, text, title, username), None)
  {
  }

  /** Each field of built Slack settings is found under its own name. */
  lemma SlackSettingsGet(cls: Class, values: seq<Value>, i: nat)
    requires |values| == |SlackSettingsFields| && i < |SlackSettingsFields|
    ensures Get(Build(cls, SlackSettingsFields, values, None).fields, SlackSettingsFields[i]) == Some(values[i])
  {
    SlackSettingsDistinct();
    GetBuilt(cls, SlackSettingsFields, values, None, i);
  }

  /** `token` and `url` are found under their own names. */
  lemma SlackTokenUrl(cls: Class, values: seq<Value>)
    requires |values| == |SlackSettingsFields|
    ensures var fields := Build(cls, SlackSettingsFields, values, None).fields;
      Get(fields, "token") == Some(values[1]) && Get(fields, "url") == Some(values[2])
  {
    SlackTokenUrlNames();
    SlackSettingsGet(cls, values, 1);
    SlackSettingsGet(cls, values, 2);
  }

  lemma SlackTokenUrlNames()
    ensures SlackSettingsFields[1] == "token" && SlackSettingsFields[2] == "url"
  {
  }

  /** `validate()` on built settings rejects exactly a blank `token` together with a blank `url`. */
  lemma SlackValidateBuilt(cls: Class, values: seq<Value>, token: Option<string>, url: Option<string>)
    requires |values| == |SlackSettingsFields|
    requires values[1] == Plain(OptStr(token)) && values[2] == Plain(OptStr(url))
    ensures SlackValidate(Build(cls, SlackSettingsFields, values, None).fields) ==
      if Blank(token) && Blank(url) then Some(SlackError) else None
  {
    var fields := Build(cls, SlackSettingsFields, values, None).fields;
    SlackTokenUrl(cls, values);
    FalsyField(fields, "token", token);
    FalsyField(fields, "url", url);
  }

  /** A field holding an optional string is falsy exactly when the string is blank. */
  lemma FalsyField(fields: Assoc<Value>, name: string, o: Option<string>)
    requires Get(fields, name) == Some(Plain(OptStr(o)))
    ensures FieldFalsy(fields, name) <==> Blank(o)
  {
  }

  /** Construction fails, with the `ValueError`, exactly when `token` and `url` are both empty
      or missing; otherwise the settings hold the given fields. */
  lemma SlackSettingsConstruct(cls: Class, recipient: string, token: Option<string>, url: Option<string>, endpointUrl: Option<string>,
                               iconEmoji: Option<string>, iconUrl: Option<string>, mentionChannel: Option<string>,
                               mentionGroups: Option<string>, mentionUsers: Option<string>, text: Option<string>,
                               title: Option<string>, username: Option<string>)
    requires cls == SlackSettings || cls == LegacySlackSettings
    ensures var r := NewSlackSettings(cls, recipient, token, url, endpointUrl, iconEmoji, iconUrl, mentionChannel, mentionGroups,
                                      mentionUsers, text, title, username);
      && (r.Err? <==> Blank(token) && Blank(url))
      && (r.Err? ==> r.error == SlackError)
      && (r.Ok? ==> r.value == SlackSettingsOf(cls, recipient, token, url, endpointUrl, iconEmoji, iconUrl, mentionChannel,
                                               mentionGroups, mentionUsers, text, title, username))
  {
    SlackSettingsValuesBuilt(cls, recipient, token, url, endpointUrl, iconEmoji, iconUrl, mentionChannel, mentionGroups,
                             mentionUsers, text, title, username);
    var values := SlackSettingsValues(recipient, token, url, endpointUrl, iconEmoji, iconUrl, mentionChannel, mentionGroups,
                                      mentionUsers, text, title, username);
    SlackValidateBuilt(cls, values, token, url);
    var inst := SlackSettingsOf(cls, recipient, token, url, endpointUrl, iconEmoji, iconUrl, mentionChannel, mentionGroups,
                                mentionUsers, text, title, username);
    ValidateOnly(inst.fields, SlackHooks());
  }

  lemma SlackSettingsDefaultsClean(token: string, recipient: string)
    ensures CleanNone([("recipient", JStr(recipient)), ("token", JStr(token)), ("url", JNull), ("endpointUrl", JNull), ("icon_emoji", JNull), ("icon_url", JNull), ("mentionChannel", JNull), ("mentionGroups", JNull), ("mentionUsers", JNull), ("text", JNull), ("title", JNull), ("username", JNull)]) == [("recipient", JStr(recipient)), ("token", JStr(token))]
  {
    var kept := [("recipient", JStr(recipient)), ("token", JStr(token))];
    var unset := [("url", JNull), ("endpointUrl", JNull), ("icon_emoji", JNull), ("icon_url", JNull), ("mentionChannel", JNull), ("mentionGroups", JNull), ("mentionUsers", JNull), ("text", JNull), ("title", JNull), ("username", JNull)];
    CleanNoneSegments(kept, unset, []);
    assert kept + unset + [] == [("recipient", JStr(recipient)), ("token", JStr(token)), ("url", JNull), ("endpointUrl", JNull), ("icon_emoji", JNull), ("icon_url", JNull), ("mentionChannel", JNull), ("mentionGroups", JNull), ("mentionUsers", JNull), ("text", JNull), ("title", JNull), ("username", JNull)];
  }

  /** With only a recipient and a token, the settings are exactly those two. */
  lemma SlackSettingsDefaults(cls: Class, token: string, recipient: string)
    requires cls == SlackSettings || cls == LegacySlackSettings
    ensures Serialize(SlackSettingsOf(cls, recipient, Some(token))) ==
      Ok(JObj([("recipient", JStr(recipient)), ("token", JStr(token))]))
  {
    SlackSettingsSerialize(cls, recipient, Some(token), None, None, None, None, None, None, None, None, None, None);
    SlackSettingsDefaultsClean(token, recipient);
  }

  const EmailFields := ["name", "settings", "disableResolveMessage", "provenance", "type"]

  /** `ModelGrafanaContactPointEmail` (or the older `GrafanaContactPointModelEmail`): `disableResolveMessage`
      defaults to `False`, `provenance` to `None` and `type` to `"email"`. */
  function EmailOf(cls: Class, name: string, settings: Instance, disableResolveMessage: bool := false,
     provenance: Option<string> := None, kind: string := "email"): Instance
  {
    Build(cls, EmailFields,
          [Plain(JStr(name)), Obj(settings), Plain(JBool(disableResolveMessage)), Plain(OptStr(provenance)),
           Plain(JStr(kind))],
          None)
  }

  lemma EmailKeys()
    ensures RenamedKeys(EmailFields, None) == ["name", "settings", "disableResolveMessage", "provenance", "type"]
  {
  }

  lemma EmailDistinct()
    ensures Distinct(["name", "settings", "disableResolveMessage", "provenance", "type"]) && RemoveKey !in EmailFields
  {
  }

  lemma EmailZip(name: string, disableResolveMessage: bool, provenance: Option<string>, kind: string, settingsJson: Json,
    jsons: seq<Json>)
    requires jsons == [JStr(name), settingsJson, JBool(disableResolveMessage), OptStr(provenance), JStr(kind)]
    ensures Zip(["name", "settings", "disableResolveMessage", "provenance", "type"], jsons) == [("name", JStr(name)), ("settings", settingsJson),
       ("disableResolveMessage", JBool(disableResolveMessage)), ("provenance", OptStr(provenance)),
       ("type", JStr(kind))]
  {
  }

  /** Each field of an e-mail contact point serializes to its JSON. */
  lemma EmailValues(cls: Class, name: string, settings: Instance, disableResolveMessage: bool, provenance: Option<string>,
    kind: string, settingsJson: Json)
    requires settings.cls != RegexpsMatcher
    requires cls == Email || cls == LegacyEmail
    requires Serialize(settings) == Ok(settingsJson)
    ensures var values := [Plain(JStr(name)), Obj(settings), Plain(JBool(disableResolveMessage)), Plain(OptStr(provenance)), Plain(JStr(kind))];
      var jsons := [JStr(name), settingsJson, JBool(disableResolveMessage), OptStr(provenance), JStr(kind)];
      forall i :: 0 <= i < 5 ==> !HasConverter(cls, EmailFields[i]) && SerializeValue(values[i]) == Ok(jsons[i])
  {
    SerializedObj(settings, settingsJson);
  }

  /** An e-mail contact point is its name, its settings' own serialization, the flag and the type;
      `provenance` only when it is set. */
  lemma EmailSerialize(cls: Class, name: string, settings: Instance, disableResolveMessage: bool, provenance: Option<string>,
    kind: string, settingsJson: Json)
    requires settings.cls != RegexpsMatcher
    requires cls == Email || cls == LegacyEmail
    requires Serialize(settings) == Ok(settingsJson)
    ensures Serialize(EmailOf(cls, name, settings, disableResolveMessage, provenance, kind)) ==
      Ok(JObj(CleanNone([("name", JStr(name)), ("settings", settingsJson),
         ("disableResolveMessage", JBool(disableResolveMessage)), ("provenance", OptStr(provenance)),
         ("type", JStr(kind))])))
  {
    var values := [Plain(JStr(name)), Obj(settings), Plain(JBool(disableResolveMessage)), Plain(OptStr(provenance)), Plain(JStr(kind))];
    var jsons := [JStr(name), settingsJson, JBool(disableResolveMessage), OptStr(provenance), JStr(kind)];
    EmailValues(cls, name, settings, disableResolveMessage, provenance, kind, settingsJson);
    EmailKeys();
    EmailDistinct();
    SerializePlainBuilt(cls, EmailFields, values, None, jsons);
    EmailZip(name, disableResolveMessage, provenance, kind, settingsJson, jsons);
  }

  /** The default envelope of either contact point, whatever its type: only the unset
      `provenance` is dropped. */
  lemma ContactDefaultsClean(name: string, settingsJson: Json, kind: string)
    requires settingsJson != JNull
    ensures CleanNone([("name", JStr(name)), ("settings", settingsJson), ("disableResolveMessage", JBool(false)), ("provenance", JNull), ("type", JStr(kind))]) == [("name", JStr(name)), ("settings", settingsJson), ("disableResolveMessage", JBool(false)), ("type", JStr(kind))]
  {
    var kept := [("name", JStr(name)), ("settings", settingsJson), ("disableResolveMessage", JBool(false))];
    CleanNoneSegments(kept, [("provenance", JNull)], [("type", JStr(kind))]);
    assert kept + [("provenance", JNull)] + [("type", JStr(kind))] == [("name", JStr(name)), ("settings", settingsJson), ("disableResolveMessage", JBool(false)), ("provenance", JNull), ("type", JStr(kind))];
  }

  /** With the defaults, an e-mail contact point has type `"email"`, does not disable the resolve
      message, and carries no `provenance`. */
  lemma EmailDefaults(cls: Class, name: string, settings: Instance, settingsJson: Json)
    requires settings.cls != RegexpsMatcher
    requires cls == Email || cls == LegacyEmail
    requires Serialize(settings) == Ok(settingsJson)
    ensures Serialize(EmailOf(cls, name, settings)) ==
      Ok(JObj([("name", JStr(name)), ("settings", settingsJson), ("disableResolveMessage", JBool(false)),
         ("type", JStr("email"))]))
  {
    EmailSerialize(cls, name, settings, false, None, "email", settingsJson);
    SerializedObj(settings, settingsJson);
    ContactDefaultsClean(name, settingsJson, "email");
  }

  const SlackFields := ["name", "settings", "disableResolveMessage", "provenance", "type"]

  /** `ModelGrafanaContactPointSlack` (or the older `GrafanaContactPointModelSlack`): the same envelope
      as the e-mail contact point with `type` defaulting to `"slack"`. */
  function SlackOf(cls: Class, name: string, settings: Instance, disableResolveMessage: bool := false,
     provenance: Option<string> := None, kind: string := "slack"): Instance
  {
    Build(cls, SlackFields,
          [Plain(JStr(name)), Obj(settings), Plain(JBool(disableResolveMessage)), Plain(OptStr(provenance)),
           Plain(JStr(kind))],
          None)
  }

  lemma SlackKeys()
    ensures RenamedKeys(SlackFields, None) == ["name", "settings", "disableResolveMessage", "provenance", "type"]
  {
  }

  lemma SlackDistinct()
    ensures Distinct(["name", "settings", "disableResolveMessage", "provenance", "type"]) && RemoveKey !in SlackFields
  {
  }

  lemma SlackZip(name: string, disableResolveMessage: bool, provenance: Option<string>, kind: string, settingsJson: Json,
    jsons: seq<Json>)
    requires jsons == [JStr(name), settingsJson, JBool(disableResolveMessage), OptStr(provenance), JStr(kind)]
    ensures Zip(["name", "settings", "disableResolveMessage", "provenance", "type"], jsons) == [("name", JStr(name)), ("settings", settingsJson),
       ("disableResolveMessage", JBool(disableResolveMessage)), ("provenance", OptStr(provenance)),
       ("type", JStr(kind))]
  {
  }

  /** Each field of a Slack contact point serializes to its JSON. */
  lemma SlackValues(cls: Class, name: string, settings: Instance, disableResolveMessage: bool, provenance: Option<string>,
    kind: string, settingsJson: Json)
    requires settings.cls != RegexpsMatcher
    requires cls == Slack || cls == LegacySlack
    requires Serialize(settings) == Ok(settingsJson)
    ensures var values := [Plain(JStr(name)), Obj(settings), Plain(JBool(disableResolveMessage)), Plain(OptStr(provenance)), Plain(JStr(kind))];
      var jsons := [JStr(name), settingsJson, JBool(disableResolveMessage), OptStr(provenance), JStr(kind)];
      forall i :: 0 <= i < 5 ==> !HasConverter(cls, SlackFields[i]) && SerializeValue(values[i]) == Ok(jsons[i])
  {
    SerializedObj(settings, settingsJson);
  }

  /** A Slack contact point has the same envelope as an e-mail one. */
  lemma SlackSerialize(cls: Class, name: string, settings: Instance, disableResolveMessage: bool, provenance: Option<string>,
    kind: string, settingsJson: Json)
    requires settings.cls != RegexpsMatcher
    requires cls == Slack || cls == LegacySlack
    requires Serialize(settings) == Ok(settingsJson)
    ensures Serialize(SlackOf(cls, name, settings, disableResolveMessage, provenance, kind)) ==
      Ok(JObj(CleanNone([("name", JStr(name)), ("settings", settingsJson),
         ("disableResolveMessage", JBool(disableResolveMessage)), ("provenance", OptStr(provenance)),
         ("type", JStr(kind))])))
  {
    var values := [Plain(JStr(name)), Obj(settings), Plain(JBool(disableResolveMessage)), Plain(OptStr(provenance)), Plain(JStr(kind))];
    var jsons := [JStr(name), settingsJson, JBool(disableResolveMessage), OptStr(provenance), JStr(kind)];
    SlackValues(cls, name, settings, disableResolveMessage, provenance, kind, settingsJson);
    SlackKeys();
    SlackDistinct();
    SerializePlainBuilt(cls, SlackFields, values, None, jsons);
    SlackZip(name, disableResolveMessage, provenance, kind, settingsJson, jsons);
  }

  /** With the defaults, a Slack contact point has type `"slack"`, does not disable the resolve
      message, and carries no `provenance`. */
  lemma SlackDefaults(cls: Class, name: string, settings: Instance, settingsJson: Json)
    requires settings.cls != RegexpsMatcher
    requires cls == Slack || cls == LegacySlack
    requires Serialize(settings) == Ok(settingsJson)
    ensures Serialize(SlackOf(cls, name, settings)) ==
      Ok(JObj([("name", JStr(name)), ("settings", settingsJson), ("disableResolveMessage", JBool(false)),
         ("type", JStr("slack"))]))
  {
    SlackSerialize(cls, name, settings, false, None, "slack", settingsJson);
    SerializedObj(settings, settingsJson);
    ContactDefaultsClean(name, settingsJson, "slack");
  }

  /** The two copies of each contact-point class serialize identically. */
  lemma LegacyContactsAgree(addresses: seq<string>, recipient: string, token: Option<string>, url: Option<string>)
    ensures Serialize(EmailSettingsOf(EmailSettings, addresses)) == Serialize(EmailSettingsOf(LegacyEmailSettings, addresses))
    ensures Serialize(SlackSettingsOf(SlackSettings, recipient, token, url)) == Serialize(SlackSettingsOf(LegacySlackSettings, recipient, token, url))
  {
    EmailSettingsDefaults(EmailSettings, addresses);
    EmailSettingsDefaults(LegacyEmailSettings, addresses);
    SlackSettingsSerialize(SlackSettings, recipient, token, url, None, None, None, None, None, None, None, None, None);
    SlackSettingsSerialize(LegacySlackSettings, recipient, token, url, None, None, None, None, None, None, None, None, None);
  }
}
