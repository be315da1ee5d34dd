# ACTRIS-CCRES Grafana client, modelled in Dafny

This project models the client side of the ACTRIS-CCRES catalog service's Grafana
integration. That code turns catalog records into Grafana configuration documents and
sends them over HTTP. The model covers:

- **JSON and HTTP.** JSON values are a datatype with ordered dictionary keys, so
  insertion order and "first" or "last match" are explicit (`Json`, `Dict`). Each HTTP
  request gets a `Response` from a caller-supplied `Network`, a numbered sequence of
  answers. The methods return the requests they send and either a value or the
  exception raised (`Http`, `Exceptions`).
- **Success statuses.** `AcceptableCodes` holds the statuses that count as success:
  200, 202, 409 and 412.
- **The managers.** Each one is a record threaded through its operations:
  - the current and the older notification managers, which edit the
    alertmanager configuration's receivers and routes;
  - the older alert manager;
  - the alert-group, folder and dashboard managers, which queue documents and push them.
- **Serializers and validators.**
  - `clean_none`.
  - The `GrafanaSerializer` key cleaning and serialization.
  - The `GrafanaValidator` hooks.
  - The contact, route and alert dataclasses.
  - The add-ons: contact points, folder, notification policy and `AlertRulev9Fixed`.
- **The Flux query builder,** in its current and its older version.
- **Catalog-side logic:**
  - the housekeeping alert's trigger validation and the duration conversion;
  - the two signal handlers that create folders and dashboards, and contact points;
  - the Grafana 6 to 9 migrator's alert payload and dashboard migration;
  - the selection of the Grafana session's credentials;
  - the mapping of Keycloak groups to Django groups.

The alert manager sends whole groups and never reads what it fetched.

The dashboard handler calls `add_dashboard` with a `folder_uid` argument that
the dashboard manager does not take, so the handler raises TypeError as soon as a
station has an instrument model (see "## Findings").

## Model

| member | source | states |
|---|---|---|
| Utils.CleanNoneSpec | ccres_api/services/grafana_api/addons/utils.py:3-9 | the cleaned dictionary keeps exactly the entries whose value is not `None`, in their original order, and its keys stay distinct |
| Utils.CleanNoneGet | ccres_api/services/grafana_api/addons/utils.py:5-8 | each key keeps its value, except that a key holding `None` disappears |
| Utils.CleanNoneFixpoint | ccres_api/services/grafana_api/addons/utils.py:5-8 | a dictionary without `None` values comes back unchanged |
| Utils.CleanNoneIdempotent | ccres_api/services/grafana_api/addons/utils.py:3-9 | cleaning twice gives the same result as cleaning once |
| Utils.CleanNoneShallow | ccres_api/services/grafana_api/addons/utils.py:6 | only top-level values are tested, so a `None` nested in a kept dict or list survives |
| Utils.CleanNoneAppend | ccres_api/services/grafana_api/addons/utils.py:5-8 | one more entry extends the cleaning by that entry, unless its value is `None` |
| Utils.CleanNoneConcat | ccres_api/services/grafana_api/addons/utils.py:5-8 | cleaning distributes over concatenating two dictionaries |
| Utils.CleanNoneKeys | ccres_api/services/grafana_api/addons/utils.py:4-8 | the cleaning never introduces a key that was not in the input |
| Utils.CleanNoneSegments | ccres_api/services/grafana_api/addons/utils.py:5-8 | a run of set entries is kept and a run of `None` entries after it is dropped |
| Utils.CleanNoneNulls | ccres_api/services/grafana_api/addons/utils.py:6-7 | a dictionary of only `None` values cleans to `{}` |
| Utils.CleanNoneLoop | ccres_api/services/grafana_api/addons/utils.py:4-9 | the loop, written as a loop, computes the cleaning |
| Utils.CleanRecordGet | ccres_api/services/grafana_api/addons/utils.py:5-8 | on a dict literal, each literal key maps to its value when that value is not `None`, and is absent otherwise |
| Utils.CleanRecordKeys | ccres_api/services/grafana_api/addons/utils.py:4-8 | on a dict literal, no key outside the literal appears |
| Serializer.CleanedKey | grafana_api/models/base.py:34-43 | the bookkeeping key gives `None`. Any other key comes back unchanged, or without its leading underscore when it is listed in `remove_first_underscore`. A class without that list never renames |
| Serializer.CleanedKeyListed | grafana_api/models/base.py:34-43 | for a class whose last field is `remove_first_underscore`, exactly the listed keys that start with `_` lose that underscore |
| Serializer.JoinSemicolon | grafana_api/models/contact.py:18-19 | a list of strings is joined with `;`, in order, and a list holding anything else raises TypeError; a string is joined by its characters and a dict by its keys; a scalar or a dataclass raises TypeError |
| Serializer.JoinChars | grafana_api/models/contact.py:18-19 | joining a string puts its characters at the even positions and `;` between them |
| Serializer.JoinSemicolonSplits | grafana_api/models/contact.py:18-19 | the joined list of strings, none holding `;`, splits back at `;` into the strings |
| Serializer.SerializeField | grafana_api/models/base.py:45-66 | a field with a `convert_<key>` method yields the converter's result, except that a dataclass field with a converter raises because the converted string has no `serialize`; a field without one is serialized as its value |
| Serializer.SerializeValue | grafana_api/models/base.py:53-64 | plain JSON yields itself; a nested dataclass yields its dictionary, except a matcher, which raises TypeError because its list result makes `_serialize` iterate the matcher itself; a list keeps its length and a dict its keys, in order |
| Serializer.SerializeListCollect | grafana_api/models/base.py:56-59 | a list field serializes exactly when every element does, to the elements' serializations in order; otherwise the exception is one an element raised |
| Serializer.SerializeDictEntries | grafana_api/models/base.py:61-64 | a dict field keeps each key in place with its value's serialization |
| Serializer.MatcherSerialize | grafana_api/notification_policies.py:24-28 | a matcher serializes to a three-element list |
| Serializer.SerializeUpToClean | grafana_api/models/base.py:76-89 | the serialized dict holds no `None` value and no key twice |
| Serializer.SerializeUpToOk | grafana_api/models/base.py:77-87 | a loop that succeeds processed every earlier field without raising |
| Serializer.SerializedUnderCleanedKey | grafana_api/models/base.py:79-87 | a field's value is found under its cleaned key unless a later field writes the same key |
| Serializer.SerializedKeysComeFromFields | grafana_api/models/base.py:79-87 | every emitted key is the cleaned key of a field whose value was not `None` |
| Serializer.SerializeUpToView | grafana_api/models/base.py:76-89 | with distinct keys, the loop equals an independent reading: pair each field with its cleaned key, then drop the `None` values |
| Serializer.SerializeByView | grafana_api/models/base.py:68-89 | `serialize` returns that reading as a dict |
| Serializer.SerializeBuilt | grafana_api/models/base.py:68-89 | a dataclass built from field names and values serializes to its renamed keys zipped with the field serializations, `None`s dropped |
| Serializer.SerializePlainBuilt | grafana_api/models/base.py:68-89 | the same for a dataclass without converters, from each value's own serialization |
| Serializer.SerializePlainsBuilt | grafana_api/models/base.py:68-89 | the same for a dataclass whose fields hold plain JSON |
| Serializer.SerializeNotNull | grafana_api/models/base.py:68-89 | a serialization is a dict, or the matcher's list, and never `None` |
| Serializer.SerializeObjList | grafana_api/models/base.py:56-59 | a list field of dataclasses serializes to the list of their serializations, in order |
| Serializer.SubstituteField | grafana_api/models/base.py:53-54 | a nested dataclass contributes only its serialization: replacing it by that JSON leaves the outer serialization unchanged |
| Validation.ApplyFieldHooksSpec | grafana_api/addons/base.py:25-28 | the `validate_<name>` loop succeeds exactly when every hook does. It then keeps field names and order and stores each hook's result. On failure it raises the error of the first failing hook |
| Validation.NoFieldHooks | grafana_api/models/base.py:29-32 | a class without field hooks keeps every field as given |
| Validation.NoHooksIdentity | grafana_api/addons/base.py:17-31 | construction of a class with no hooks never fails and changes nothing, under both base classes |
| Validation.ValidateOnly | grafana_api/models/base.py:26-32 | with only `validate()`, construction fails exactly when `validate()` raises, under both base classes |
| Validation.OrderIrrelevantWithoutValidate | grafana_api/addons/base.py:25-31 | without `validate()`, running hooks-then-validate and validate-then-hooks agree |
| Validation.OrderMatters | grafana_api/addons/base.py:25-31 | the two orders differ: a hook that fills in an empty `token` satisfies `validate()` in `GrafanaValidator` but not in `GrafanaSerializer` (grafana_api/models/base.py:26-32) |
| AcceptableCodes.List | grafana_api/base.py:10-18 | `list()` gives the member values 200, 202, 409, 412 in declaration order, with no repeats |
| AcceptableCodes.AcceptableExactly | grafana_api/base.py:10-18 | a status is acceptable exactly when it is 200, 202, 409 or 412 |
| AcceptableCodes.NoAliases | grafana_api/base.py:10-14 | no two members share a value, so none of them is an alias |
| Http.CheckFetch | ccres_api/services/grafana_api/notification_manager.py:27-33 | `fetch` succeeds exactly on an acceptable status and returns the decoded body; otherwise it raises an HTTP error carrying that status |
| Http.CheckPost | ccres_api/services/grafana_api/notification_manager.py:80-86 | `push` succeeds exactly on an acceptable status; otherwise it raises an HTTP error carrying that status |
| NotificationManager.New | ccres_api/services/grafana_api/notification_manager.py:16-33 | construction succeeds exactly when the initial GET has an acceptable status and a dict or list body. Otherwise it raises an HTTP error with that status. The fetched document and the copy being edited both start as the response body |
| NotificationManager.Fetch | ccres_api/services/grafana_api/notification_manager.py:26-33 | a re-fetch succeeds exactly on an acceptable status and replaces `fetched_json` only; the copy being edited is not refreshed |
| NotificationManager.Push | ccres_api/services/grafana_api/notification_manager.py:78-86 | `push` returns the response exactly on an acceptable status. Otherwise it raises `[status] : content`, with the contact-point hint appended only on a 400 |
| NotificationManager.LastHitOk | ccres_api/services/grafana_api/notification_manager.py:47-52 | the receivers loop succeeds exactly when every turn does |
| NotificationManager.LastHitFound | ccres_api/services/grafana_api/notification_manager.py:47-52 | a successful loop finds a hit exactly when some receiver matches, and that hit is the last match, since each match overwrites the index |
| NotificationManager.LastHitError | ccres_api/services/grafana_api/notification_manager.py:47-52 | a failing loop raises the error of the first turn that raises |
| NotificationManager.ScanSpec | ccres_api/services/grafana_api/notification_manager.py:45-52 | the scan over the receivers succeeds exactly when no turn raises. It then finds exactly the last receiver whose name matches; on failure it carries the first turn's error |
| NotificationManager.StepOnDict | ccres_api/services/grafana_api/notification_manager.py:48-50 | on a dict receiver a turn never raises, and it hits exactly when the receiver's `name` equals the contact's name |
| NotificationManager.ScanDicts | ccres_api/services/grafana_api/notification_manager.py:45-52 | on a list of dicts the scan never raises, and it finds nothing exactly when no receiver has the name |
| NotificationManager.AddContactVia | ccres_api/services/grafana_api/notification_manager.py:35-66 | on a well-formed configuration, `add_contact_point` is the upsert of `alertmanager_config.receivers` written back into the edited copy |
| NotificationManager.UpsertNew | ccres_api/services/grafana_api/notification_manager.py:54-60 | a name no receiver has appends `{grafana_managed_receiver_configs: [contact], name}` |
| NotificationManager.UpsertExisting | ccres_api/services/grafana_api/notification_manager.py:61-64 | a name some receiver has replaces the configs of the last such receiver and changes nothing else |
| NotificationManager.AddContactNew | ccres_api/services/grafana_api/notification_manager.py:35-66 | adding a new contact grows the receivers by exactly one new receiver |
| NotificationManager.AddContactExisting | ccres_api/services/grafana_api/notification_manager.py:35-66 | adding a known contact updates only the last receiver of that name, whose configs become `[contact]` |
| NotificationManager.SetConfigsItem | ccres_api/services/grafana_api/notification_manager.py:62-64 | the updated receiver gets the new configs and keeps every other key, its name included |
| NotificationManager.AddContactIdempotent | ccres_api/services/grafana_api/notification_manager.py:35-66 | adding the same contact twice gives the same result as adding it once |
| NotificationManager.UpsertIdempotent | ccres_api/services/grafana_api/notification_manager.py:45-64 | the receivers upsert is idempotent |
| NotificationManager.ScanUpdate | ccres_api/services/grafana_api/notification_manager.py:47-52 | replacing a receiver by one the scan treats alike leaves the scan's result unchanged |
| NotificationManager.AddPolicyVia | ccres_api/services/grafana_api/notification_manager.py:68-76 | `add_notification_policy` appends the policy dict to `alertmanager_config.route.routes` of the edited copy |
| NotificationManager.WithRoutesOf | ccres_api/services/grafana_api/notification_manager.py:75 | editing the routes leaves the receivers alone |
| NotificationManager.AddPolicyAppends | ccres_api/services/grafana_api/notification_manager.py:68-76 | a policy is appended without de-duplication, as exactly one more route, and the receivers are unchanged |
| LegacyNotificationManager.New | grafana_api/notification_manager.py:16-26 | construction succeeds exactly on an acceptable status and keeps the body as the configuration. Otherwise it raises "Unable to get the current configuration" with the status line |
| LegacyNotificationManager.WithReceiversKeepsRoutes | grafana_api/notification_manager.py:41 | editing the receivers leaves the routes as they were |
| LegacyNotificationManager.AppendReceiverSpec | grafana_api/notification_manager.py:41-46 | the receivers append succeeds exactly when the receivers are a list, adds exactly the new receiver at the end and leaves the routes alone |
| LegacyNotificationManager.AppendRouteSpec | grafana_api/notification_manager.py:56 | the routes append succeeds exactly when the routes are a list, adds the route at the end and leaves the receivers alone |
| LegacyNotificationManager.Push | grafana_api/notification_manager.py:59-67 | `push` returns the response exactly on an acceptable status. Otherwise it raises the status line, plus the contact-point hint on a 400 |
| LegacyNotificationManager.AddContactAppends | grafana_api/notification_manager.py:31-47 | a contact always adds exactly one receiver `{grafana_managed_receiver_configs: [contact], name}` |
| LegacyNotificationManager.AddContactDuplicates | grafana_api/notification_manager.py:41-46 | there is no check for an existing name, so a second receiver of the same name appears |
| LegacyNotificationManager.AddPolicyAppends | grafana_api/notification_manager.py:49-57 | a policy is appended as exactly one more route, and the receivers are unchanged |
| LegacyAlertManager.UncheckedStatus | grafana_api/alert_manager.py:17-21 | this manager keeps the body of a failed GET, and `commit` hands back a refused POST (lines 44-46), where `NotificationManager` raises for both |
| LegacyAlertManager.AddContactAppends | grafana_api/alert_manager.py:23-35 | `add_contact_point` succeeds exactly when the contact has a name and serializes. It then appends exactly one receiver holding the serialized contact, and the routes are unchanged |
| LegacyAlertManager.AddPolicyAppends | grafana_api/alert_manager.py:37-42 | `add_notification_policy` succeeds exactly when the route serializes. It then appends it as one more route, and the receivers are unchanged |
| AlertManager.New | ccres_api/services/grafana_api/alert_manager.py:15-33 | construction succeeds exactly on an acceptable status, keeps the body as `fetched_json` and starts with no queued alert |
| AlertManager.Fetch | ccres_api/services/grafana_api/alert_manager.py:26-33 | a re-fetch succeeds exactly on an acceptable status and changes only the fetched document |
| AlertManager.AddAlert | ccres_api/services/grafana_api/alert_manager.py:35-46 | `add_alert` appends exactly one entry holding the group. Its folder is the one given, or `"Alerts"` when none is; nothing queued before changes |
| AlertManager.Requests | ccres_api/services/grafana_api/alert_manager.py:50-55 | every queued entry costs exactly two requests |
| AlertManager.RequestsAt | ccres_api/services/grafana_api/alert_manager.py:54-55 | entry k sends the folder POST `{"title": folder}` to `/folders`, then the group to `/ruler/grafana/api/v1/rules/<folder>` |
| AlertManager.Push | ccres_api/services/grafana_api/alert_manager.py:48-59 | `push` succeeds exactly when every group POST is accepted; the folder POST's answer is never read. On success it has sent both requests for each entry in queue order and returns the group responses. Otherwise it stops at the first refused group, raising its status line |
| FolderManager.New | ccres_api/services/grafana_api/folder_manager.py:16-33 | construction succeeds exactly on an acceptable status, keeps the body and starts with no queued folder |
| FolderManager.Fetch | ccres_api/services/grafana_api/folder_manager.py:26-33 | a re-fetch succeeds exactly on an acceptable status and changes only the fetched document |
| FolderManager.AddFolderSpec | ccres_api/services/grafana_api/folder_manager.py:35-43 | exactly one dict is queued, after the others. A raw dict is queued as given. A `Folder` is queued as its JSON, with its title, and with a `uid` exactly when it has one |
| FolderManager.Requests | ccres_api/services/grafana_api/folder_manager.py:47-50 | a full run posts each queued folder to `/folders/`, in queue order |
| FolderManager.Push | ccres_api/services/grafana_api/folder_manager.py:45-55 | `push` succeeds exactly when every POST is accepted and then returns the responses in order. Otherwise it stops at the first refused POST, raising its status line |
| FolderManager.ExistingFoldersAccepted | ccres_api/services/grafana_api/folder_manager.py:51 | answers of 409 and 412 count as accepted, so pushing folders that already exist does not fail |
| DashboardManager.Envelope | ccres_api/services/grafana_api/dashboard_manager.py:37-42 | the posted envelope has exactly the keys `dashboard`, `overwrite`, `folderUid`, `message`, in that order |
| DashboardManager.EnvelopeSpec | ccres_api/services/grafana_api/dashboard_manager.py:37-42 | the envelope carries the dashboard unchanged, with `overwrite` false, `folderUid` empty and the message "Updated from API" |
| DashboardManager.Push | ccres_api/services/grafana_api/dashboard_manager.py:36-50 | `push` returns the response exactly on an acceptable status; otherwise it raises its status line |
| DashboardManager.LastDashboardWins | ccres_api/services/grafana_api/dashboard_manager.py:16-34 | only the last dashboard added is kept, and it is what `get` returns and `push` posts. Before any add, `{}` is posted |
| DashboardManager.EnvelopeInSpec | ccres_api/services/grafana_api/dashboard_manager.py:37-42 | the envelope with a folder carries the dashboard and the folder uid unchanged, with `overwrite` false and the API message |
| DashboardManager.LastFiledWins | ccres_api/services/grafana_api/dashboard_manager.py:25-42 | with the intended `add_dashboard(dashboard, folder_uid)`, the last dashboard and its folder are posted; before any add, and with the folder left at `""`, it posts what the written manager posts |
| ContactModels.AddressesField | grafana_api/models/contact.py:18-19 | what `serialize` emits for `addresses` is the output of `convert_addresses`: the addresses joined by `;` |
| ContactModels.EmailSettingsSerialize | grafana_api/models/contact.py:12-19 | the e-mail settings serialize to the joined addresses and `singleEmail`, with `message` and `subject` only when they are set |
| ContactModels.EmailSettingsDefaults | grafana_api/models/contact.py:13-16 | with the defaults, the settings are the joined addresses and `singleEmail: false` |
| ContactModels.AddressesRoundTrip | grafana_api/models/contact.py:18-19 | the joined addresses split back into the addresses when none contains `;`; an empty list joins to `""` |
| ContactModels.SlackValidateBuilt | grafana_api/models/contact.py:63-67 | `validate()` rejects exactly a blank `token` together with a blank `url` |
| ContactModels.SlackSettingsConstruct | grafana_api/models/contact.py:49-67 | constructing the Slack settings fails, with the "token and url can't be both empty" `ValueError`, exactly when both are empty or missing. Otherwise the settings hold the given fields |
| ContactModels.SlackSettingsSerialize | grafana_api/models/contact.py:49-61 | `recipient` is always emitted, and every optional Slack field only when it is set, in declaration order |
| ContactModels.SlackSettingsDefaults | grafana_api/models/contact.py:49-61 | settings with only a recipient and a token serialize to exactly those two |
| ContactModels.EmailSerialize | grafana_api/models/contact.py:41-45 | an e-mail contact point is its name, its settings' own serialization, the flag and the type, with `provenance` only when set |
| ContactModels.EmailDefaults | grafana_api/models/contact.py:41-45 | with the defaults, an e-mail contact point has type `"email"`, `disableResolveMessage` false and no `provenance` |
| ContactModels.SlackSerialize | grafana_api/models/contact.py:90-94 | a Slack contact point has the same envelope as an e-mail one |
| ContactModels.SlackDefaults | grafana_api/models/contact.py:90-94 | with the defaults, a Slack contact point has type `"slack"`, `disableResolveMessage` false and no `provenance` |
| ContactModels.LegacyContactsAgree | grafana_api/contact.py:11-61 | the older copies of the settings classes serialize exactly as the current ones do |
| RouteModels.MatchTypeByName | grafana_api/notification_policies.py:11-15 | lookup by name succeeds exactly for the four declared names |
| RouteModels.MatchTypeByValue | grafana_api/notification_policies.py:11-15 | lookup by value finds a member whose value is the one asked for |
| RouteModels.MatchTypeMembers | grafana_api/notification_policies.py:11-15 | each member is found again from its value. `NOT_EQUAL` repeats `"="`, so it is an alias of `EQUAL` |
| RouteModels.MatcherSerializeTriple | grafana_api/notification_policies.py:24-28 | a matcher serializes to the list `[name, type, value]`, not to a dict |
| RouteModels.MatcherSerializeEnum | grafana_api/notification_policies.py:24-28 | an enum type is emitted by its value, so `NOT_EQUAL` is emitted as `"="` |
| RouteModels.MatchersSerialize | grafana_api/notification_policies.py:36 | a list of matchers serializes to their triples, in order |
| RouteModels.RouteSerialize | grafana_api/notification_policies.py:31-47 | a route emits its fields in declaration order. `_continue` is emitted as `continue`, the matchers as their triples, and `None` fields are dropped |
| RouteModels.RouteDefaults | grafana_api/notification_policies.py:31-47 | the default route serializes to `{}`: neither the bookkeeping list nor any unset field is emitted |
| RouteModels.RouteContinue | grafana_api/notification_policies.py:37-47 | the output never holds `remove_first_underscore` or `_continue`, and holds `continue` exactly when `_continue` is set |
| RouteModels.RouteReceiverMatchers | grafana_api/notification_policies.py:31-47 | a route to one receiver for some matchers is exactly the receiver and the matchers' triples |
| AlertModels.EvaluatorByName | grafana_api/models/alert.py:33-38 | lookup by name succeeds exactly for the five declared names |
| AlertModels.EvaluatorByValue | grafana_api/models/alert.py:33-38 | lookup by value finds a member whose value is the one asked for |
| AlertModels.EvaluatorMembers | grafana_api/models/alert.py:33-38 | each member is found again from its value. `NO_VALUE` repeats `"outside_range"`, so it is an alias of `OUTSIDE_RANGE` |
| AlertModels.RelativeTimeRangeSerialize | grafana_api/models/alert.py:21-24 | the range serializes to `from`/`to` with the leading underscore dropped, and defaults to 300..0 |
| AlertModels.DatasourceSerialize | grafana_api/models/alert.py:28-31 | a datasource serializes to `type` and `uid`, and a `None` uid is dropped |
| AlertModels.ParamsSerialize | grafana_api/models/alert.py:62-82 | evaluator, operator, query and reducer serialize to `params` and `type`, with defaults `[]` and `""` |
| AlertModels.ConditionSerialize | grafana_api/models/alert.py:86-91 | a condition serializes its four parts as nested objects, in declaration order, followed by its type |
| AlertModels.DefaultConditionSerialize | grafana_api/models/alert.py:86-91 | the default condition holds four empty parts and the type `"query"` |
| AlertModels.DataModelSerialize | grafana_api/models/alert.py:122-131 | the data model serializes its ten fields in order, with the datasource and conditions nested and `None`s dropped |
| AlertModels.DataModelConstruct | grafana_api/models/alert.py:133-135 | construction fails with the ValueError exactly when both conditions and query are `None`; otherwise it keeps the fields given |
| AlertModels.DataModelDefaults | grafana_api/models/alert.py:124-131 | a data model built from a query alone has a 300000 ms interval, 100 data points and is not hidden |
| AlertModels.AlertDataSerialize | grafana_api/models/alert.py:157-161 | alert data serializes its five fields in order, with the model and time range nested |
| AlertModels.AlertDataDefaultRange | grafana_api/models/alert.py:157-161 | by default the time range is 300..0 and the query type is `""` |
| AlertModels.GrafanaAlertSerialize | grafana_api/models/alert.py:203-218 | the rule serializes `_for` as `for`, nests its data, and drops every `None` field |
| AlertModels.GrafanaAlertDefaults | grafana_api/models/alert.py:203-218 | a rule given only its four required fields has `no_data_state` "NoData", `execErrState` "Error" and no other key |
| AlertModels.AnnotationsSerialize | grafana_api/models/alert.py:242-247 | the annotations serialize under their own names, double underscores included, with `None`s dropped |
| AlertModels.AnnotationsDefaults | grafana_api/models/alert.py:242-247 | annotations with every field unset serialize to an empty object |
| AlertModels.AlertRuleSerialize | grafana_api/models/alert.py:269-272 | a rule serializes to `for`, the nested alert and the nested annotations |
| AlertModels.AlertRuleDefaults | grafana_api/models/alert.py:269-272 | without annotations the rule holds only `for` and the alert |
| AlertModels.AlertGroupSerialize | grafana_api/models/alert.py:294-297 | a group serializes its name, interval, nested rules and labels, and drops labels that are `None` |
| ContactAddons.EmailSettingsJsonSpec | ccres_api/services/grafana_api/addons/contact.py:40-47 | the addresses are joined with `;` in order, the flag is kept, message and subject appear exactly when set, and no other key appears |
| ContactAddons.SlackSettingsJsonSpec | ccres_api/services/grafana_api/addons/contact.py:136-151 | the recipient is always kept and each of the eleven optional fields appears under its own name exactly when set |
| ContactAddons.SlackFieldsTokenUrl | ccres_api/services/grafana_api/addons/contact.py:117-128 | the dataclass fields seen by validation carry the settings' token and url |
| ContactAddons.OptStrFalsy | ccres_api/services/grafana_api/addons/contact.py:131 | an optional string is falsy exactly when it is `None` or empty |
| ContactAddons.SlackCheckFields | ccres_api/services/grafana_api/addons/contact.py:130-134 | validation raises exactly when token and url are both blank |
| ContactAddons.NewSlackSettingsSpec | ccres_api/services/grafana_api/addons/contact.py:130-134 | construction fails with the ValueError exactly when token and url are both blank, and otherwise returns the settings unchanged |
| ContactAddons.ContactPointJsonSpec | ccres_api/services/grafana_api/addons/contact.py:73-81 | the envelope holds the name, the settings' own serialization, the flag, the provenance when set and the type `email` or `slack`, and nothing else |
| ContactAddons.ContactEnvelopeShape | ccres_api/services/grafana_api/addons/contact.py:175-183 | email and Slack envelopes have the same keys in the same order when their provenance is set alike |
| ContactAddons.CleanNoneSameKeys | ccres_api/services/grafana_api/addons/utils.py:3-9 | dictionaries with the same keys and `None` in the same places clean to the same keys |
| ContactAddons.FolderJsonSpec | ccres_api/services/grafana_api/addons/folder.py:23-28 | a folder serializes to its name as `title`, followed by its uid exactly when set |
| PolicyAddons.MatcherJson | grafana_api/addons/notification_policies.py:35-39 | a matcher serializes to a list of exactly three items |
| PolicyAddons.MatcherRoundTrip | grafana_api/addons/notification_policies.py:35-39 | the triple is name, type, value: reading it back gives the matcher, with a type string that names a member read as that member |
| PolicyAddons.MatcherEnumIsValue | grafana_api/addons/notification_policies.py:10-14 | an enum type and its value string serialize alike, and `NOT_EQUAL` is emitted as `"="` |
| PolicyAddons.MatchersRoundTrip | grafana_api/addons/notification_policies.py:90 | reading the serialized `object_matchers` back gives the matchers in their order, each type written as its enum member |
| PolicyAddons.NotificationKeysDistinct | grafana_api/addons/notification_policies.py:88-101 | the policy's twelve keys are distinct |
| PolicyAddons.NotificationRecordSpec | grafana_api/addons/notification_policies.py:88-102 | each optional field appears under its JSON name exactly when set, the matchers always appear, and no other key does |
| PolicyAddons.NotificationJsonSpec | grafana_api/addons/notification_policies.py:87-102 | serialization fails with a TypeError exactly when the matchers are `None`; otherwise each field appears as in the record |
| AlertAddon.TargetOf | grafana_api/addons/alert.py:14-24 | what is read back from a data entry is always a target |
| AlertAddon.TriggerJsonSpec | grafana_api/addons/alert.py:13-26 | a target's entry gives the target back (its refId, datasource and model, under the rule's time range); any other trigger is its own serialization |
| AlertAddon.TriggersData | grafana_api/addons/alert.py:11-26 | the data list holds one entry per trigger, in order |
| AlertAddon.AlertRuleToJson | grafana_api/addons/alert.py:10-40 | the rule's envelope around a data list with one entry per trigger, in order |
| AlertAddon.RuleKeysDistinct | grafana_api/addons/alert.py:28-40 | the keys of the envelope and of `grafana_alert` are each distinct |
| AlertAddon.AlertRuleJsonSpec | grafana_api/addons/alert.py:28-32 | the envelope has exactly the keys uid, for, labels, annotations and grafana_alert, each carrying the rule's attribute |
| AlertAddon.GrafanaAlertJsonSpec | grafana_api/addons/alert.py:33-39 | `grafana_alert` has exactly the title, condition, data and the two states, each carrying the rule's attribute |
| FluxQuery.Lines | ccres_api/services/grafana_api/query.py:24-34 | a query with a range has the `from` line, the indented `range` line and one indented `filter` line per filter, in filter order |
| FluxQuery.Build | ccres_api/services/grafana_api/query.py:23-35 | without a range the build fails with the ValueError; otherwise it is the lines joined with newlines |
| FluxQuery.QueryLines | ccres_api/services/grafana_api/query.py:23-35 | when no part holds a newline, splitting the query on newlines gives back its lines, one per filter plus two |
| FluxQuery.FilterNew | ccres_api/services/grafana_api/query.py:19-21 | filtering on a new column adds it last |
| FluxQuery.FilterOrder | ccres_api/services/grafana_api/query.py:19-21 | from a fresh builder, the columns follow the order of their first filter call, each once, with the value of its last call |
| FluxQuery.Refilter | ccres_api/services/grafana_api/query.py:19-21 | filtering a column again keeps its place, takes the new value and changes no other column |
| FluxQuery.RangeOverwrites | ccres_api/services/grafana_api/query.py:14-17 | a second range replaces both bounds, and leaving out `stop` clears it |
| LegacyFluxQuery.LegacyLines | grafana_api/query.py:22-32 | the older query has the same lines without indentation, and each filter line is built from the two characters of the column's name |
| LegacyFluxQuery.LegacyBuild | grafana_api/query.py:21-33 | without a range the build fails with the ValueError; a column whose name is not two characters long makes it fail at the first such column; otherwise it is the lines joined |
| LegacyFluxQuery.NoFilters | grafana_api/query.py:22-29 | without filters the query is the `from` line and the unindented `range` line |
| LegacyFluxQuery.ValuesIgnored | grafana_api/query.py:30-32 | the filter values never reach the query: builders with the same columns give the same lines |
| LegacyFluxQuery.IndentDiffers | grafana_api/query.py:29 | the older and newer builders disagree on the `range` line of every query |
| DurationUnits.Trunc | ccres_api/hkd/models/helpers.py:61 | `int()` truncates toward zero: the result is within one of the value, on the side of zero |
| DurationUnits.ToSecondsDiscrepancy | ccres_api/hkd/models/helpers.py:48-61 | as written, minute, second and unknown units convert the value, but hour, day and year give one unit's seconds whatever the value (two hours give 3600) |
| DurationUnits.SecondsPerPositive | ccres_api/hkd/models/helpers.py:39-46 | one unit of each of the five choices is at least one second |
| DurationUnits.ToSecondsWhole | ccres_api/hkd/models/helpers.py:48-61 | the corrected conversion of a whole number of units is that number times the unit's seconds |
| DurationUnits.ToSecondsMonotonic | ccres_api/hkd/models/helpers.py:48-61 | the corrected conversion never decreases as the value grows |
| AlertValidation.CleanSpec | ccres_api/hkd/models/alert.py:43-67 | an alert is accepted exactly when no threshold pair is half filled and some pair is complete; with both pairs empty all four fields carry the general message, and otherwise exactly the half-filled pairs' fields are named |
| AlertValidation.ZeroThresholdIsUnset | ccres_api/hkd/models/alert.py:44-61 | a zero threshold is falsy, so a zero minimum with a condition is rejected as half filled |
| DashboardSignal.UidInSpec | ccres_api/hkd/signals/create_dashboards.py:33-37 | the lookup answers from the first entry titled with the station's name, gives `None` when no entry is, and raises when it meets an entry that is not a dictionary first |
| DashboardSignal.StationUidSpec | ccres_api/hkd/signals/create_dashboards.py:33-37 | on a list of dictionaries the lookup never raises, gives `None` when no title matches, and otherwise the uid of the first match (`None` if it has none) |
| DashboardSignal.FirstTitledExists | ccres_api/hkd/signals/create_dashboards.py:34-37 | when some entry has the title, there is a first one |
| DashboardSignal.FirstTitled | ccres_api/hkd/signals/create_dashboards.py:34-37 | the index returned is the first entry with the title |
| DashboardSignal.SetUpQuery | ccres_api/hkd/signals/create_dashboards.py:50-56 | the chained builder calls give the dashboard's time range and the three filters on measurement, field and site |
| DashboardSignal.PanelQuerySpec | ccres_api/hkd/signals/create_dashboards.py:50-56 | a panel's query has five lines: the bucket, the time range, and filters on the instrument model, the parameter and the station, in that order |
| DashboardSignal.PanelTitle | ccres_api/hkd/signals/create_dashboards.py:61 | the panel title starts with the parameter's name and ends with the bracketed unit |
| DashboardSignal.BuildPanels | ccres_api/hkd/signals/create_dashboards.py:47-73 | one panel per parameter, in order, each with the parameter's title and one InfluxDB target holding its query |
| DashboardSignal.AddDashboards | ccres_api/hkd/signals/create_dashboards.py:76-94 | the first station with an instrument model makes the call raise a TypeError before anything is sent, because `add_dashboard` takes no `folder_uid`; with no instrument model anywhere only the push is sent |
| DashboardSignal.LastPlacedSpec | ccres_api/hkd/signals/create_dashboards.py:76-93 | the dashboard added last is that of the last instrument model of the last station that has one; there is none exactly when no station has a model |
| DashboardSignal.FileStations | ccres_api/hkd/signals/create_dashboards.py:77-92 | the loops succeed exactly when every station's uid lookup does; they then hold the last dashboard filed in its station's folder, and otherwise stop at the first station whose lookup raises |
| DashboardSignal.AddDashboardsFiled | ccres_api/hkd/signals/create_dashboards.py:76-94 | with the intended `add_dashboard`, the run raises the first station lookup's error before sending anything, and otherwise posts the last dashboard filed in its station's folder |
| DashboardSignal.FiledIntoStationFolder | ccres_api/hkd/signals/create_dashboards.py:76-94 | on a folder list no lookup raises, and the post carries the last dashboard with `folderUid` equal to its own station's uid, or `{}` with `""` when no station has a model |
| DashboardSignal.StationFoldersTitled | ccres_api/hkd/signals/create_dashboards.py:40-43 | each station's folder is exactly `{"title": <station name>}`: the title the uid lookup matches, and no uid |
| DashboardSignal.CreateFolders | ccres_api/hkd/signals/create_dashboards.py:40-44 | one folder per station is queued behind those already there, and the push succeeds exactly when every POST is accepted |
| DashboardSignal.CreateDashboards | ccres_api/hkd/signals/create_dashboards.py:101-115 | an update does nothing; a creation first fetches the folder list; a run that succeeds sent the folder phase and then the dashboard push, and no station had an instrument model |
| ContactSignal.GroupContactSpec | ccres_api/hkd/signals/create_contact.py:36-39 | a group's contact point is an email contact named after the group whose addresses are the members' emails joined with `;` |
| ContactSignal.CycleIs | ccres_api/hkd/signals/create_contact.py:41-42 | after an accepted, well-formed fetch the cycle is the upsert on the fetched document |
| ContactSignal.GroupArgParts | ccres_api/hkd/signals/create_contact.py:36-42 | the receiver is named after the group and configured with the group's contact point |
| ContactSignal.UpsertedExisting | ccres_api/hkd/signals/create_contact.py:42 | when a receiver already has the name, the upsert succeeds and a receiver with that name carries the contact |
| ContactSignal.UpsertedNew | ccres_api/hkd/signals/create_contact.py:42 | when no receiver has the name, the upsert succeeds and a receiver with that name carries the contact |
| ContactSignal.NewReceiverParts | ccres_api/hkd/signals/create_contact.py:42 | a new receiver carries the name and exactly the one contact |
| ContactSignal.CycleSpec | ccres_api/hkd/signals/create_contact.py:41-42 | on a well-formed configuration the cycle succeeds and the document it posts has a receiver for the group carrying its contact point |
| ContactSignal.CycleSent | ccres_api/hkd/signals/create_contact.py:41-43 | a group's cycle sends the GET first and at most one POST after it |
| ContactSignal.GroupCycle | ccres_api/hkd/signals/create_contact.py:30-43 | one group's fetch, upsert and push succeed exactly when the cycle goes through, and then send two requests |
| ContactSignal.CyclesOkStep | ccres_api/hkd/signals/create_contact.py:29-43 | the first `k + 1` groups went through exactly when the first `k` did and group `k` does |
| ContactSignal.CyclesOkBreak | ccres_api/hkd/signals/create_contact.py:29-43 | one group's failure fails the whole run |
| ContactSignal.CreateContact | ccres_api/hkd/signals/create_contact.py:22-43 | any action but `post_add` does nothing; otherwise the run succeeds exactly when every group's cycle does and sends two requests per group, and a failure stops at the first failing group |
| ContactSignal.AnsweredRunsGoThrough | ccres_api/hkd/signals/create_contact.py:29-43 | when every configuration fetched is well formed and every push accepted, every group's cycle goes through |
| AlertMigration.QueryOf | ccres_api/services/grafana_api/migrators/6to9.py:248-263 | a query is taken only from a condition that is a dictionary |
| Loops.CollectSpec | ccres_api/services/grafana_api/migrators/6to9.py:248-264 | gathering the outcomes succeeds exactly when each one does, keeps them in order, and otherwise stops at the first exception |
| AlertMigration.QueriesSpec | ccres_api/services/grafana_api/migrators/6to9.py:248-264 | the first loop succeeds exactly when every condition gives a query, keeps the conditions' order, and otherwise raises the first condition's exception |
| AlertMigration.ReparamSpec | ccres_api/services/grafana_api/migrators/6to9.py:278-281 | the edited condition's `query` becomes `{"params": [refId]}` and every other key is kept |
| AlertMigration.Reparams | ccres_api/services/grafana_api/migrators/6to9.py:278-281 | one edited condition per condition |
| AlertMigration.NextRefId | ccres_api/services/grafana_api/migrators/6to9.py:271 | the next refId is the code point after a one-character refId; any other refId raises |
| AlertMigration.NextRefIdLetters | ccres_api/services/grafana_api/migrators/6to9.py:271 | a capital letter steps to the next one, so `A` gives `B` |
| AlertMigration.ReadHeader | ccres_api/services/grafana_api/migrators/6to9.py:225-235 | the header keeps the alert's dashboard uid and panel id |
| AlertMigration.ReadBodySpec | ccres_api/services/grafana_api/migrators/6to9.py:247-294 | one query per condition, each from its own condition; the conditions edited to point at their query; the condition is the refId after the last query's; an alert without conditions raises IndexError |
| AlertMigration.PayloadSpec | ccres_api/services/grafana_api/migrators/6to9.py:201-295 | a payload is made of what the header and the loops read, and keeps the alert's dashboard uid and panel id |
| AlertMigration.NoConditionsFails | ccres_api/services/grafana_api/migrators/6to9.py:271 | an alert without conditions fails, with an IndexError once its header was read |
| AlertMigration.DataJson | ccres_api/services/grafana_api/migrators/6to9.py:247-293 | `Data` has one entry per query plus one |
| AlertMigration.RuleKeysDistinct | ccres_api/services/grafana_api/migrators/6to9.py:225-294 | the payload's keys are distinct |
| AlertMigration.ClassicKeysDistinct | ccres_api/services/grafana_api/migrators/6to9.py:273-290 | the keys of the classic entry and of its model are distinct |
| AlertMigration.RuleJsonStates | ccres_api/services/grafana_api/migrators/6to9.py:238-239 | the error state is `Error` and the no-data state `NoData` |
| AlertMigration.RuleJsonLabels | ccres_api/services/grafana_api/migrators/6to9.py:225-228 | the labels and the rule group are fixed, and the annotations hold the `str` of the dashboard uid and panel id |
| AlertMigration.RuleJsonData | ccres_api/services/grafana_api/migrators/6to9.py:247-294 | `Data` holds the queries' entries in order, then the classic entry, and `Condition` is the classic entry's refId |
| AlertMigration.ClassicJsonSpec | ccres_api/services/grafana_api/migrators/6to9.py:273-290 | the classic entry uses the expression datasource `-100`, a 600..0 range, and a model of type `classic_conditions` that repeats the refId and holds the edited conditions |
| DashboardMigration.FolderStatusesVsAcceptable | ccres_api/services/grafana_api/migrators/6to9.py:82 | a folder status passes exactly when the managers would accept it, except 202 |
| DashboardMigration.FolderPayload | ccres_api/services/grafana_api/migrators/6to9.py:80 | the folder posted holds only the old folder's title and uid, in that order |
| DashboardMigration.DashboardPost | ccres_api/services/grafana_api/migrators/6to9.py:97-103 | the body posted is a new dashboard (its `id` is `None`) placed in the folder |
| DashboardMigration.DashboardPostSpec | ccres_api/services/grafana_api/migrators/6to9.py:97-103 | the body can be built exactly when the answer holds a `dashboard` dictionary; the body has exactly `dashboard` and `folderUid`, and every key but `id` is as fetched |
| DashboardMigration.AllIntoAppend | ccres_api/services/grafana_api/migrators/6to9.py:92-103 | two runs of requests into a folder join into one |
| DashboardMigration.AllNewAppend | ccres_api/services/grafana_api/migrators/6to9.py:79-103 | two runs of requests that post only new dashboards join into one |
| DashboardMigration.FolderPhaseNew | ccres_api/services/grafana_api/migrators/6to9.py:79-103 | the folder's own POST is not a dashboard's, so a folder's phase posts only new dashboards |
| DashboardMigration.MigrateDashboard | ccres_api/services/grafana_api/migrators/6to9.py:93-103 | a dashboard without a uid raises before any request; otherwise it is fetched, and it succeeds exactly when the answer holds a dashboard, which is then posted into the folder |
| DashboardMigration.MigrateDashboards | ccres_api/services/grafana_api/migrators/6to9.py:92-103 | every request is for the folder, and a run that succeeds sends two requests per dashboard |
| DashboardMigration.CheckFolder | ccres_api/services/grafana_api/migrators/6to9.py:82-85 | the folder check passes exactly for 200, 409 and 412 |
| DashboardMigration.MigrateFolder | ccres_api/services/grafana_api/migrators/6to9.py:79-103 | the folder's POST comes first; a status outside 200, 409 and 412 stops the folder there; the dashboards that follow go into the folder's uid |
| DashboardMigration.FolderDashboards | ccres_api/services/grafana_api/migrators/6to9.py:87-103 | the folder's dashboards are searched by its id, and every request is for the folder |
| DashboardMigration.Migrate | ccres_api/services/grafana_api/migrators/6to9.py:77-103 | a folder list that cannot be iterated raises before any request, and every POST to the dashboards endpoint is a new dashboard |
| GrafanaSession.BaseHeaders | ccres_api/hkd/sessions.py:12 | every session starts with the provenance header and no `Authorization` |
| GrafanaSession.AsWrittenAlwaysBasic | ccres_api/hkd/sessions.py:15-32 | as written, every credential counts: basic auth is always attached, nothing is logged and the bearer token is never sent |
| GrafanaSession.AsWrittenIgnoresToken | ccres_api/hkd/sessions.py:15-32 | with no username or password and a token, the session as written has a basic-auth pair of `None`s and no token, while the corrected one sends `Bearer <token>` |
| GrafanaSession.GetSessionSpec | ccres_api/hkd/sessions.py:12-32 | corrected: basic auth exactly when both credentials are set, a warning exactly when one is, the bearer token exactly when basic auth is off and a token is set, and always the provenance header |
| GrafanaSession.WarningsSpec | ccres_api/hkd/sessions.py:16-23 | with one credential set, the log holds the general warning, then the name of the credential that is `None`, if any |
| KeycloakGroups.AddMember | ccres_api/users/backend.py:20 | adding a group keeps the user's groups in order and makes the group one of them, without touching the groups that exist |
| KeycloakGroups.Ensure | ccres_api/users/backend.py:19 | `create` succeeds exactly when no group has the name and otherwise raises the IntegrityError; `get_or_create` always succeeds; either way the group then exists |
| KeycloakGroups.LowerOf | ccres_api/users/backend.py:17 | only a string can be lower-cased; anything else raises AttributeError |
| KeycloakGroups.Lowered | ccres_api/users/backend.py:16-17 | one lower-cased name per item, in order |
| KeycloakGroups.SaveGroupInert | ccres_api/users/backend.py:6-12 | another backend, a missing or falsy `keycloak_groups`, or one that is not a list leaves users and groups unchanged |
| KeycloakGroups.SyncSpec | ccres_api/users/backend.py:14-21 | corrected: on a list of strings the loop never fails; the user keeps their groups in order and gains exactly the lower-cased names, and exactly the names not among the user's groups are created |
| KeycloakGroups.LoweredTail | ccres_api/users/backend.py:16-17 | the lower-cased names of a list are the first one followed by those of its tail |
| KeycloakGroups.NotAllStringsTail | ccres_api/users/backend.py:16-17 | a list whose tail holds a non-string is not all strings |
| KeycloakGroups.RefusedSkip | ccres_api/users/backend.py:17-18 | a name among the user's groups is skipped and adds no reason to fail |
| KeycloakGroups.RefusedCreate | ccres_api/users/backend.py:19 | a name that is created joins the names a later item must not repeat |
| KeycloakGroups.SyncAsWrittenSpec | ccres_api/users/backend.py:14-21 | as written, the loop fails exactly when an item is not a string or a lower-cased name outside the user's groups already exists or came earlier; otherwise it does what the corrected loop does |
| KeycloakGroups.SyncState | ccres_api/users/backend.py:16-21 | the database after the loop, whether it finishes or raises, keeps every group it had and the user's groups in order, and every group it gains is one the user was put in |
| KeycloakGroups.SyncStateAgrees | ccres_api/users/backend.py:16-21 | a loop that finishes leaves exactly the directory it returns |
| KeycloakGroups.PartialSyncPersists | ccres_api/users/backend.py:16-21 | `["dev", "ops"]` while `ops` exists: as written the loop raises IntegrityError, yet the group `dev` and the user's membership in it stay |
| KeycloakGroups.LowerOps | ccres_api/users/backend.py:17 | `ops`, `Ops` and `OPS` all lower-case to `ops` |
| KeycloakGroups.DuplicateEntries | ccres_api/users/backend.py:16-21 | `["Ops", "ops"]` for a new user: as written the second `create` raises IntegrityError, while the corrected step makes one group `ops` and adds the user to it |
| KeycloakGroups.SecondMemberRefused | ccres_api/users/backend.py:19 | a user whose Keycloak group already exists: as written `create` raises IntegrityError, while the corrected step adds the user to the group |
| KeycloakGroups.EntryNamesNotLowered | ccres_api/users/backend.py:15-17 | the user's group names are compared as stored: a user in `Ops` with Keycloak group `OPS` is also put in a new group `ops` |

## Left out

- `ccres_api/services/grafana_api/base.py` is not part of this model. It is assumed to declare the same `AcceptableCodes` as grafana_api/base.py, and its `get_encodable_dict` is assumed to be the identity.
- `ccres_api/services/grafana_api/addons/base.py` is not part of this model. Its `GrafanaValidator`, the base class of the contact and folder add-ons, is assumed to run the `validate_<field>` hooks and then `validate` as grafana_api/addons/base.py:17-31 does (`Validation.ApplyFieldHooksSpec`, `ContactAddons.NewSlackSettingsSpec`).
- The `from base import GrafanaSerializer, AcceptableCodes` of grafana_api/models/alert.py:8, grafana_api/models/contact.py:8 and grafana_api/notification_policies.py:8 names a module that no file here defines with both names. It is assumed to resolve to `GrafanaSerializer` of grafana_api/models/base.py and `AcceptableCodes` of grafana_api/base.py.
- Python version: the alert models use dataclass instances as field defaults (`ModelEvaluator()` and its siblings at grafana_api/models/alert.py:87-90, `GrafanaRelativeTimeRange()` at alert.py:160). From Python 3.11 on, such an unhashable default makes the class definition raise ValueError, so the module would not import. The model assumes Python 3.10 or older, where every instance built without that argument shares one default object. `AlertModels.DefaultConditionSerialize` and `AlertModels.AlertDataDefaultRange` state that behaviour. Sharing does not show in the model: serialization writes back only into lists and dicts that hold instances, and the shared defaults hold none.
- Equality on decoded JSON: Python `==`, as used in the name and title tests (`NotificationManager.ScanSpec`, `DashboardSignal.UidInSpec`, `DashboardSignal.FirstTitled`), is modelled as structural `Json` equality. So `True == 1`, `1 == 1.0` and dict equality regardless of key order, which hold in Python, do not hold in the model. Only strings are compared in these tests on well-formed input.
- `ccres_api/services/grafana_api/addons/notification_policies.py` is not part of this model. The `Notification` that `NotificationManager.add_notification_policy` takes (ccres_api/services/grafana_api/notification_manager.py:5) is assumed to be the `Notification` of grafana_api/addons/notification_policies.py (`NotificationManager.AddPolicyVia`, `NotificationManager.AddPolicyAppends`).
- `grafana_api/addons/contact.py` is not part of this model. The `ContactPoint` that the older manager takes (grafana_api/notification_manager.py:5) is assumed to be the `ContactPoint` of ccres_api/services/grafana_api/addons/contact.py (`LegacyNotificationManager.AddContactAppends`, `LegacyNotificationManager.AddContactDuplicates`).
- `grafana_api/addons/utils.py` is not part of this model. The `clean_none` that grafana_api/addons/notification_policies.py:8 imports is assumed to be that of ccres_api/services/grafana_api/addons/utils.py (`PolicyAddons.NotificationRecordSpec`, `PolicyAddons.NotificationJsonSpec`).
- In-place mutation: `_serialize` writes the serializations of the instances held in a list or dict field back into that list or dict (grafana_api/models/base.py:56-64). The model is immutable and returns a new JSON value instead, so an instance serialized once keeps its nested instances. A second `serialize` call gives the same JSON either way, because a serialized element is plain JSON that serializes to itself (`Serializer.SubstituteField`).
- HTTP and sessions: `requests` calls become requests recorded in a trace, answered by a `Network` parameter. `.json()` decoding is not modelled: a response carries its decoded body. Library default headers are not modelled.
- Logging: `logger` calls are left out, except for the session's warnings, which are part of its result.
- The Django ORM: the querysets the handlers read become parameters (stations, instrument models, parameters, groups and members). For the Keycloak step, the database is reduced to the set of group names plus the user's groups. That `Group.name` is unique is taken from Django's `auth_group` table, which is not part of this model.
- grafanalib (`Dashboard`, `TimeSeries`, `Target`, `AlertRulev9`, `AlertGroup`): a foreign library. These become records of the fields the code reads. A trigger that is not a `Target` carries its own serialization as a value. `auto_panel_ids` is not modelled.
- Floating point: the duration conversion and the alert thresholds use exact reals. `int()` is modelled as truncation toward zero. Only zero and non-zero matter for the thresholds.
- `GrafanaAlertRuleManager` (grafana_api/alert_manager.py:49-61): it calls `exit()` and does no work.
- The WIP alert signal handlers and the spreadsheet download: they are unfinished or only do I/O.
- `GrafanaDatasourceMigrator6to9`, `GrafanaContactMigrator6to9` and the alert migrator's `migrate` loop (ccres_api/services/grafana_api/migrators/6to9.py:106-145, 297-304): they are network-only loops.
- `_get_folder_uid`, `_get_datasource_uid_from_id` and `_string_to_time` (ccres_api/services/grafana_api/migrators/6to9.py:176-199): these become the lookups in `AlertMigration.Lookups`, and their failures become a lookup's error.
- AlertMigration.NextRefId: refuses a refId whose successor would be a surrogate code point or lie beyond U+10FFFF, where Python would return a lone surrogate or raise ValueError, because Dafny's `char` has no surrogates.
- Json.Repr: writes strings in single quotes without escaping, so it is `repr` only for strings free of quotes and backslashes.
- URL parameters are appended without URL encoding.
- Strings.Lower: maps ASCII letters only, not the full Unicode case mapping of `str.lower`.
- DashboardMigration.Migrate: states the shape of the requests (every dashboard POST is a new dashboard) and the error on an unreadable folder list, not when the whole run succeeds, because that depends on every answer of an unbounded run.
- DashboardMigration.FolderDashboards: states the search request and that every request is for the folder, not when the phase succeeds, for the same reason.
- DashboardMigration.MigrateDashboards: states the requests and their count on success, not which answers make it succeed.
- The intended dashboard run: `DashboardSignal.AddDashboardsFiled` corrects `add_dashboards` alone. `DashboardSignal.CreateDashboards` keeps the code as written. grafanalib's `Dashboard.to_json_data` is its parameter `toJson`.
- DashboardSignal.CreateDashboards: states the outcome when every folder POST is accepted and the folder list is a list of dictionaries, not the failures of the folder phase, which `DashboardSignal.CreateFolders` states.

## Findings

| source | as written | input that shows it | evidently intended | confidence | as-written member | corrected member |
|---|---|---|---|---|---|---|
| ccres_api/hkd/models/helpers.py:55-60 | the hour, day and year branches assign one unit's seconds to `value` instead of multiplying it | `to_seconds("hour", 2)` gives 3600 | `value * 3600`, `value * 86400`, `value * 31536000`, as the minute branch does | high, not executed | DurationUnits.ToSecondsAsWritten, DurationUnits.ToSecondsDiscrepancy | DurationUnits.ToSeconds, DurationUnits.ToSecondsWhole, DurationUnits.ToSecondsMonotonic |
| ccres_api/hkd/sessions.py:15 | `x is not None or x != ""` is true for every value, so both credentials always count | no username or password, and a token `t`: the session gets basic auth `(None, None)` and no bearer header | `and`: count only credentials that are set and non-empty, so the token is used when basic auth is not configured | high, not executed | GrafanaSession.GetSessionAsWritten, GrafanaSession.AsWrittenAlwaysBasic, GrafanaSession.AsWrittenIgnoresToken | GrafanaSession.GetSession, GrafanaSession.GetSessionSpec |
| ccres_api/users/backend.py:19 | `Group.objects.create` makes a group even when one with that name exists; `Group.name` is unique, so this raises IntegrityError | a second user in Keycloak group `ops` when group `ops` already exists, or a response listing `["Ops", "ops"]` | `Group.objects.get_or_create`, adding the user to the existing group | medium, not executed | KeycloakGroups.SaveGroupAsWritten, KeycloakGroups.SecondMemberRefused, KeycloakGroups.DuplicateEntries, KeycloakGroups.SyncAsWrittenSpec, KeycloakGroups.PartialSyncPersists | KeycloakGroups.SaveGroup, KeycloakGroups.SyncSpec |
| grafana_api/query.py:30 | the loop iterates over the filter dictionary's keys and unpacks each key into two names, so the values are ignored and a key not two characters long raises | `.filter(on="_measurement", what="v")` then `build()` raises ValueError | `self.filters.items()`, as the newer builder does (ccres_api/services/grafana_api/query.py:32) | high, not executed | LegacyFluxQuery.LegacyBuild, LegacyFluxQuery.ValuesIgnored | FluxQuery.Build, FluxQuery.FilterOrder |
| ccres_api/hkd/signals/create_dashboards.py:93 | `add_dashboard(dashboard, folder_uid=...)` passes a keyword that `add_dashboard(self, dashboard)` does not declare (ccres_api/services/grafana_api/dashboard_manager.py:25-27) | a station with one instrument model: the handler raises TypeError before any dashboard is queued | `add_dashboard` keeps the folder uid and `push` posts it in the `folderUid` slot it already sends as `""` (dashboard_manager.py:40), so the dashboard is stored in its station's folder | high, not executed | DashboardSignal.AddDashboards | DashboardSignal.AddDashboardsFiled, DashboardSignal.FiledIntoStationFolder, DashboardManager.LastFiledWins |
