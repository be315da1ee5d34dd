/** The contact-point add-ons of ccres_api/services/grafana_api/addons/contact.py and the
    folder add-on of addons/folder.py: plain dataclasses whose `to_json_data` builds a
    dictionary literal and passes it through `clean_none`. Their base class is the
    `GrafanaValidator` of ccres_api/services/grafana_api/addons/base.py, which is not part of
    this model; it is taken to run the hooks and `validate` as grafana_api/addons/base.py does. */
module ContactAddons {
  import opened Wrappers
  import opened Dict
  import opened Strings
  import opened Json
  import opened Exceptions
  import opened Validation
  import opened Utils
  import ContactModels

  /** `ContactPointEmailSettings`. */
  datatype EmailSettings = EmailSettings(addresses: seq<string>, singleEmail: bool,
                                         message: Option<string>, subject: Option<string>)

  /** `ContactPointSlackSettings`: a recipient and eleven optional strings. */
  datatype SlackSettings = SlackSettings(
    recipient: string, token: Option<string>, url: Option<string>, endpointUrl: Option<string>,
    iconEmoji: Option<string>, iconUrl: Option<string>, mentionChannel: Option<string>,
    mentionGroups: Option<string>, mentionUsers: Option<string>, text: Option<string>,
    title: Option<string>, username: Option<string>)

  /** `ContactPointEmail` and `ContactPointSlack`: the same envelope around different settings. */
  datatype ContactPoint =
    | EmailContact(name: string, email: EmailSettings, disableResolveMessage: bool, provenance: Option<string>)
    | SlackContact(name: string, slack: SlackSettings, disableResolveMessage: bool, provenance: Option<string>)

  /** `Folder`. */
  datatype Folder = Folder(name: string, uid: Option<string>)

  const EmailKeys := ["addresses", "singleEmail", "message", "subject"]

  const SlackKeys := ["recipient", "token", "url", "endpointUrl", "icon_emoji", "icon_url", "mentionChannel",
                      "mentionGroups", "mentionUsers", "text", "title", "username"]

  const ContactKeys := ["name", "settings", "disableResolveMessage", "provenance", "type"]

  const FolderKeys := ["title", "uid"]

  function EmailValues(s: EmailSettings): seq<Json> {
    [JStr(Join(s.addresses, ";")), JBool(s.singleEmail), OptStr(s.message), OptStr(s.subject)]
  }

  /** `ContactPointEmailSettings.to_json_data`. */
  function EmailSettingsJson(s: EmailSettings): Json {
    CleanRecord(EmailKeys, EmailValues(s))
  }

  /** The addresses are joined with `";"` in order (an empty list gives `""`) and
      `singleEmail` is always present; `message` and `subject` appear exactly when set;
      nothing else appears. */
  lemma EmailSettingsJsonSpec(s: EmailSettings)
    ensures var f := EmailSettingsJson(s).fields;
      && Get(f, "addresses") == Some(JStr(Join(s.addresses, ";")))
      && (s.addresses == [] ==> Get(f, "addresses") == Some(JStr("")))
      && Get(f, "singleEmail") == Some(JBool(s.singleEmail))
      && Get(f, "message") == (if s.message.Some? then Some(JStr(s.message.value)) else None)
      && Get(f, "subject") == (if s.subject.Some? then Some(JStr(s.subject.value)) else None)
      && forall k :: HasKey(f, k) ==> k in EmailKeys
  {
    var vals := EmailValues(s);
    CleanRecordGet(EmailKeys, vals, 0);
    CleanRecordGet(EmailKeys, vals, 1);
    CleanRecordGet(EmailKeys, vals, 2);
    CleanRecordGet(EmailKeys, vals, 3);
    forall k | HasKey(EmailSettingsJson(s).fields, k)
      ensures k in EmailKeys
    {
      if k !in EmailKeys {
        CleanRecordKeys(EmailKeys, vals, k);
      }
    }
  }

  /** The eleven optional Slack fields, in declaration order. */
  function SlackOptionals(s: SlackSettings): (r: seq<Option<string>>)
    ensures |r| == |SlackKeys| - 1
  {
    [s.token, s.url, s.endpointUrl, s.iconEmoji, s.iconUrl, s.mentionChannel, s.mentionGroups,
     s.mentionUsers, s.text, s.title, s.username]
  }

  function SlackValues(s: SlackSettings): (r: seq<Json>)
    ensures |r| == |SlackKeys|
    ensures r[0] == JStr(s.recipient)
    ensures forall i :: 0 <= i < |SlackOptionals(s)| ==> r[i + 1] == OptStr(SlackOptionals(s)[i])
  {
    var opts := SlackOptionals(s);
    [JStr(s.recipient)] + seq(|opts|, i requires 0 <= i < |opts| => OptStr(opts[i]))
  }

  /** `ContactPointSlackSettings.to_json_data`. */
  function SlackSettingsJson(s: SlackSettings): Json {
    CleanRecord(SlackKeys, SlackValues(s))
  }

  /** `recipient` is always kept; each optional field appears, under its own name, exactly
      when it is set; nothing else appears. */
  lemma SlackSettingsJsonSpec(s: SlackSettings)
    ensures var f := SlackSettingsJson(s).fields;
      && Get(f, "recipient") == Some(JStr(s.recipient))
      && (forall i :: 0 <= i < |SlackOptionals(s)| ==>
            Get(f, SlackKeys[i + 1]) == if SlackOptionals(s)[i].Some? then Some(JStr(SlackOptionals(s)[i].value)) else None)
      && forall k :: HasKey(f, k) ==> k in SlackKeys
  {
    var vals := SlackValues(s);
    assert Distinct(SlackKeys);
    CleanRecordGet(SlackKeys, vals, 0);
    forall i | 0 <= i < |SlackOptionals(s)|
      ensures Get(SlackSettingsJson(s).fields, SlackKeys[i + 1])
              == if SlackOptionals(s)[i].Some? then Some(JStr(SlackOptionals(s)[i].value)) else None
    {
      CleanRecordGet(SlackKeys, vals, i + 1);
    }
    forall k | HasKey(SlackSettingsJson(s).fields, k)
      ensures k in SlackKeys
    {
      if k !in SlackKeys {
        CleanRecordKeys(SlackKeys, vals, k);
      }
    }
  }

  /** The dataclass fields of Slack settings as `__post_init__` sees them. */
  function SlackFields(s: SlackSettings): Assoc<Json> {
    Zip(SlackKeys, SlackValues(s))
  }

  /** `ContactPointSlackSettings.validate`: `not self.token and not self.url`. */
  function SlackCheck(fields: Assoc<Json>): Option<Error> {
    if !Truthy(Get(fields, "token").GetOr(JNull)) && !Truthy(Get(fields, "url").GetOr(JNull))
    then Some(ContactModels.SlackError) else None
  }

  function SlackSettingsHooks(): Hooks<Json> {
    Hooks(_ => None, Some(SlackCheck))
  }

  /** Constructing Slack settings: the `GrafanaValidator` post-init with no field hook and
      the `validate()` above. */
  function NewSlackSettings(s: SlackSettings): Result<SlackSettings, Error> {
    var _ :- ValidatorPostInit(SlackFields(s), SlackSettingsHooks());
    Ok(s)
  }

  /** `token` and `url` are the second and third dataclass fields. */
  lemma SlackFieldsTokenUrl(s: SlackSettings)
    ensures Get(SlackFields(s), "token") == Some(OptStr(s.token))
    ensures Get(SlackFields(s), "url") == Some(OptStr(s.url))
  {
    var fields := SlackFields(s);
    assert fields[0].0 == "recipient" && fields[1] == ("token", OptStr(s.token));
    assert fields[1..][1..][0] == ("url", OptStr(s.url));
  }

  /** An optional string is falsy exactly when it is `None` or empty. */
  lemma OptStrFalsy(o: Option<string>)
    ensures !Truthy(OptStr(o)) <==> ContactModels.Blank(o)
  {
  }

  /** `validate()` on the fields of `s` raises exactly when both `token` and `url` are blank. */
  lemma SlackCheckFields(s: SlackSettings)
    ensures SlackCheck(SlackFields(s)) ==
      if ContactModels.Blank(s.token) && ContactModels.Blank(s.url) then Some(ContactModels.SlackError) else None
  {
    SlackFieldsTokenUrl(s);
    OptStrFalsy(s.token);
    OptStrFalsy(s.url);
  }

  /** Construction raises the `ValueError` exactly when `token` and `url` are both
      `None` or empty, and otherwise keeps every field. */
  lemma NewSlackSettingsSpec(s: SlackSettings)
    ensures var r := NewSlackSettings(s);
      && (r.Err? <==> ContactModels.Blank(s.token) && ContactModels.Blank(s.url))
      && (r.Err? ==> r.error == ContactModels.SlackError)
      && (r.Ok? ==> r.value == s)
  {
    ValidateOnly(SlackFields(s), SlackSettingsHooks());
    SlackCheckFields(s);
  }

  /** The `type` a contact point declares. */
  function ContactType(c: ContactPoint): string {
    if c.EmailContact? then "email" else "slack"
  }

  function SettingsJson(c: ContactPoint): Json {
    if c.EmailContact? then EmailSettingsJson(c.email) else SlackSettingsJson(c.slack)
  }

  function ContactValues(c: ContactPoint): seq<Json> {
    [JStr(c.name), SettingsJson(c), JBool(c.disableResolveMessage), OptStr(c.provenance), JStr(ContactType(c))]
  }

  /** `ContactPointEmail.to_json_data` and `ContactPointSlack.to_json_data`. */
  function ContactPointJson(c: ContactPoint): Json {
    CleanRecord(ContactKeys, ContactValues(c))
  }

  /** The envelope holds the name, the settings' own serialization, the resolve flag and
      the type (`"email"` or `"slack"`); `provenance` appears exactly when set; nothing else
      appears. */
  lemma ContactPointJsonSpec(c: ContactPoint)
    ensures var f := ContactPointJson(c).fields;
      && Get(f, "name") == Some(JStr(c.name))
      && Get(f, "settings") == Some(if c.EmailContact? then EmailSettingsJson(c.email) else SlackSettingsJson(c.slack))
      && Get(f, "disableResolveMessage") == Some(JBool(c.disableResolveMessage))
      && Get(f, "provenance") == (if c.provenance.Some? then Some(JStr(c.provenance.value)) else None)
      && Get(f, "type") == Some(JStr(if c.EmailContact? then "email" else "slack"))
      && forall k :: HasKey(f, k) ==> k in ContactKeys
  {
    var vals := ContactValues(c);
    CleanRecordGet(ContactKeys, vals, 0);
    CleanRecordGet(ContactKeys, vals, 1);
    CleanRecordGet(ContactKeys, vals, 2);
    CleanRecordGet(ContactKeys, vals, 3);
    CleanRecordGet(ContactKeys, vals, 4);
    forall k | HasKey(ContactPointJson(c).fields, k)
      ensures k in ContactKeys
    {
      if k !in ContactKeys {
        CleanRecordKeys(ContactKeys, vals, k);
      }
    }
  }

  /** Email and Slack contact points have the same envelope: the same keys, in the same
      order, when their provenance is equally set. */
  lemma ContactEnvelopeShape(e: ContactPoint, s: ContactPoint)
    requires e.EmailContact? && s.SlackContact?
    requires e.provenance.Some? == s.provenance.Some?
    ensures Keys(ContactPointJson(e).fields) == Keys(ContactPointJson(s).fields)
  {
    var ve, vs := ContactValues(e), ContactValues(s);
    assert forall i :: 0 <= i < 5 ==> (ve[i] == JNull <==> vs[i] == JNull);
    CleanNoneSameKeys(Zip(ContactKeys, ve), Zip(ContactKeys, vs));
  }

  /** Two dictionaries with the same keys and `None` in the same places clean to the same keys. */
  lemma {:induction false} CleanNoneSameKeys(a: Assoc<Json>, b: Assoc<Json>)
    requires |a| == |b|
    requires forall i :: 0 <= i < |a| ==> a[i].0 == b[i].0 && (a[i].1 == JNull <==> b[i].1 == JNull)
    ensures Keys(CleanNone(a)) == Keys(CleanNone(b))
  {
    if |a| > 0 {
      CleanNoneSameKeys(a[1..], b[1..]);
    }
  }

  function FolderValues(f: Folder): seq<Json> {
    [JStr(f.name), OptStr(f.uid)]
  }

  /** `Folder.to_json_data`. `Folder` declares no hook, so construction cannot fail
      (`Validation.NoHooksIdentity`). */
  function FolderJson(f: Folder): Json {
    CleanRecord(FolderKeys, FolderValues(f))
  }

  /** `title` is the folder's name; `uid` follows it exactly when set, unchanged; nothing
      else appears. */
  lemma FolderJsonSpec(f: Folder)
    ensures FolderJson(f) == JObj([("title", JStr(f.name))] + if f.uid.Some? then [("uid", JStr(f.uid.value))] else [])
    ensures var d := FolderJson(f).fields;
      && Get(d, "title") == Some(JStr(f.name))
      && Get(d, "uid") == (if f.uid.Some? then Some(JStr(f.uid.value)) else None)
  {
    var vals := FolderValues(f);
    CleanRecordGet(FolderKeys, vals, 0);
    CleanRecordGet(FolderKeys, vals, 1);
    var d := [("title", JStr(f.name)), ("uid", OptStr(f.uid))];
    assert Zip(FolderKeys, vals) == d;
    assert d[1..][1..] == [];
    if f.uid.Some? {
      assert CleanNone(d[1..]) == [("uid", JStr(f.uid.value))];
    } else {
      assert CleanNone(d[1..]) == [];
    }
    assert CleanNone(d) == [d[0]] + CleanNone(d[1..]);
  }
}
