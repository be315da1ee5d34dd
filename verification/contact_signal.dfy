/** The `m2m_changed` handler of ccres_api/hkd/signals/create_contact.py: once contacts
    are added to groups, every group of the contact gets an email contact point named after
    it and addressed to ALL the group's members, through one fetch, upsert and push each.
    The catalog query is a parameter (`membersOf`). */
module ContactSignal {
  import opened Wrappers
  import opened Dict
  import opened Strings
  import opened Json
  import opened Exceptions
  import opened AcceptableCodes
  import opened Http
  import ContactAddons
  import NM = NotificationManager

  datatype AlertContact = AlertContact(email: string)
  datatype Group = Group(id: int, name: string)

  const PostAdd := "post_add"

  /** The members' addresses, in the order the catalog lists them. */
  function Emails(members: seq<AlertContact>): (r: seq<string>)
    ensures |r| == |members| && forall i :: 0 <= i < |members| ==> r[i] == members[i].email
  {
    seq(|members|, i requires 0 <= i < |members| => members[i].email)
  }

  /** The contact point of a group: email settings and envelope at their defaults. */
  function GroupContact(g: Group, members: seq<AlertContact>): ContactAddons.ContactPoint {
    ContactAddons.EmailContact(g.name, ContactAddons.EmailSettings(Emails(members), false, None, None), false, None)
  }

  /** The group's contact point is an email contact named after the group, whose
      `addresses` are every member's email joined with `";"`. */
  lemma GroupContactSpec(g: Group, members: seq<AlertContact>)
    ensures var f := ContactAddons.ContactPointJson(GroupContact(g, members)).fields;
      && Get(f, "name") == Some(JStr(g.name))
      && Get(f, "type") == Some(JStr("email"))
      && Get(f, "settings") == Some(ContactAddons.EmailSettingsJson(ContactAddons.EmailSettings(Emails(members), false, None, None)))
      && Get(ContactAddons.EmailSettingsJson(ContactAddons.EmailSettings(Emails(members), false, None, None)).fields, "addresses")
         == Some(JStr(Join(Emails(members), ";")))
  {
    ContactAddons.ContactPointJsonSpec(GroupContact(g, members));
    ContactAddons.EmailSettingsJsonSpec(ContactAddons.EmailSettings(Emails(members), false, None, None));
  }

  /** The argument `add_contact_point` is given for a group. */
  function GroupArg(g: Group, members: seq<AlertContact>): NM.ContactArg {
    NM.TypedContact(GroupContact(g, members))
  }

  /** One group's manager after the initial fetch (answered by `res`) and the upsert. */
  function Cycle(url: string, g: Group, members: seq<AlertContact>, res: Response): Result<NM.Manager, Error> {
    var m :- NM.New(url, res);
    NM.AddContactPoint(m, GroupArg(g, members))
  }

  /** A well-formed fetch gives the manager holding the fetched document twice. */
  lemma CycleIs(url: string, g: Group, members: seq<AlertContact>, res: Response)
    requires IsAcceptable(res.status) && NM.WellFormed(res.body)
    ensures Cycle(url, g, members, res) == NM.AddContactPoint(NM.Manager(url, res.body, res.body, true), GroupArg(g, members))
  {
    assert NM.New(url, res) == Ok(NM.Manager(url, res.body, res.body, true));
  }

  /** The group's receiver is named after the group and configured with its contact point. */
  lemma GroupArgParts(g: Group, members: seq<AlertContact>)
    ensures NM.ContactName(GroupArg(g, members)) == Ok(JStr(g.name))
    ensures NM.ContactDict(GroupArg(g, members)) == ContactAddons.ContactPointJson(GroupContact(g, members))
  {
  }

  /** After an upsert on a well-formed document, some receiver carries the contact's name
      and exactly the contact's configs. */
  predicate HasReceiver(doc: Json, name: Json, dict: Json) {
    && NM.ReceiversOf(doc).Some?
    && exists i :: && 0 <= i < |NM.ReceiversOf(doc).value|
                   && NM.Named(NM.ReceiversOf(doc).value[i], name)
                   && Get(NM.ReceiversOf(doc).value[i].fields, NM.Configs) == Some(JArr([dict]))
  }

  lemma UpsertedExisting(m: NM.Manager, a: NM.ContactArg, name: Json, dict: Json)
    requires NM.WellFormed(m.toPush) && NM.ContactName(a) == Ok(name) && NM.ContactDict(a) == dict
    requires exists i :: 0 <= i < |NM.ReceiversOf(m.toPush).value| && NM.Named(NM.ReceiversOf(m.toPush).value[i], name)
    ensures NM.AddContactPoint(m, a).Ok? && HasReceiver(NM.AddContactPoint(m, a).value.toPush, name, dict)
  {
    var items := NM.ReceiversOf(m.toPush).value;
    NM.AddContactExisting(m, a);
    var i :| && 0 <= i < |items| && NM.Named(items[i], name)
             && NM.ReceiversOf(NM.AddContactPoint(m, a).value.toPush)
                == Some(items[i := JObj(Put(items[i].fields, NM.Configs, JArr([dict])))]);
    NM.SetConfigsItem(items[i], dict);
    var after := NM.ReceiversOf(NM.AddContactPoint(m, a).value.toPush).value;
    assert after[i] == JObj(Put(items[i].fields, NM.Configs, JArr([dict])));
    assert NM.Named(after[i], name);
  }

  lemma UpsertedNew(m: NM.Manager, a: NM.ContactArg, name: Json, dict: Json)
    requires NM.WellFormed(m.toPush) && NM.ContactName(a) == Ok(name) && NM.ContactDict(a) == dict
    requires forall i :: 0 <= i < |NM.ReceiversOf(m.toPush).value| ==> !NM.Named(NM.ReceiversOf(m.toPush).value[i], name)
    ensures NM.AddContactPoint(m, a).Ok? && HasReceiver(NM.AddContactPoint(m, a).value.toPush, name, dict)
  {
    var items := NM.ReceiversOf(m.toPush).value;
    NM.AddContactNew(m, a);
    var after := NM.ReceiversOf(NM.AddContactPoint(m, a).value.toPush).value;
    assert after == items + [NM.NewReceiver(dict, name)];
    NewReceiverParts(dict, name);
    assert after[|items|] == NM.NewReceiver(dict, name);
  }

  lemma NewReceiverParts(dict: Json, name: Json)
    ensures NM.Named(NM.NewReceiver(dict, name), name)
    ensures Get(NM.NewReceiver(dict, name).fields, NM.Configs) == Some(JArr([dict]))
  {
  }

  /** On a well-formed configuration the cycle succeeds, and the document it posts holds
      a receiver named after the group whose configs are exactly the group's contact point. */
  lemma CycleSpec(url: string, g: Group, members: seq<AlertContact>, res: Response)
    requires IsAcceptable(res.status) && NM.WellFormed(res.body)
    ensures var c := Cycle(url, g, members, res);
      && c.Ok?
      && HasReceiver(c.value.toPush, JStr(g.name), ContactAddons.ContactPointJson(GroupContact(g, members)))
  {
    var m := NM.Manager(url, res.body, res.body, true);
    var a := GroupArg(g, members);
    var name := JStr(g.name);
    var dict := ContactAddons.ContactPointJson(GroupContact(g, members));
    CycleIs(url, g, members, res);
    GroupArgParts(g, members);
    if exists i :: 0 <= i < |NM.ReceiversOf(m.toPush).value| && NM.Named(NM.ReceiversOf(m.toPush).value[i], name) {
      UpsertedExisting(m, a, name, dict);
    } else {
      UpsertedNew(m, a, name, dict);
    }
  }

  /** A group's cycle went through: the configuration was fetched and edited, and the
      push (answered by `postRes`) was accepted. */
  predicate CycleOk(url: string, g: Group, members: seq<AlertContact>, getRes: Response, postRes: Response) {
    Cycle(url, g, members, getRes).Ok? && IsAcceptable(postRes.status)
  }

  /** The requests of a group's cycle: the GET, then the POST of the edited copy when the
      edit went through. */
  function CycleSent(url: string, g: Group, members: seq<AlertContact>, getRes: Response): (r: seq<Request>)
    ensures 1 <= |r| <= 2 && r[0] == GET(NM.Endpoint(url))
  {
    var c := Cycle(url, g, members, getRes);
    [GET(NM.Endpoint(url))] + if c.Ok? then [NM.PushRequest(c.value)] else []
  }

  /** One group's fetch, upsert and push. */
  method GroupCycle(url: string, g: Group, members: seq<AlertContact>, getRes: Response, postRes: Response)
    returns (sent: seq<Request>, r: Result<(), Error>)
    ensures sent == CycleSent(url, g, members, getRes)
    ensures r.Ok? <==> CycleOk(url, g, members, getRes, postRes)
    ensures r.Ok? ==> |sent| == 2
  {
    sent := [GET(NM.Endpoint(url))];
    var cycle := Cycle(url, g, members, getRes);
    if cycle.Err? {
      return sent, Err(cycle.error);
    }
    sent := sent + [NM.PushRequest(cycle.value)];
    var pushed := NM.Push(cycle.value, postRes);
    if pushed.Err? {
      return sent, Err(pushed.error);
    }
    r := Ok(());
  }

  /** Group `k`'s cycle went through; it is answered by the responses `2k` and `2k + 1`. */
  predicate GroupOk(url: string, groups: seq<Group>, membersOf: Group -> seq<AlertContact>, net: Network, k: nat)
    requires k < |groups|
  {
    CycleOk(url, groups[k], membersOf(groups[k]), net(2 * k), net(2 * k + 1))
  }

  /** The group cycles up to `n` all went through. */
  predicate CyclesOk(url: string, groups: seq<Group>, membersOf: Group -> seq<AlertContact>, net: Network, n: nat)
    requires n <= |groups|
  {
    forall k: nat :: k < n ==> GroupOk(url, groups, membersOf, net, k)
  }

  lemma CyclesOkStep(url: string, groups: seq<Group>, membersOf: Group -> seq<AlertContact>, net: Network, k: nat)
    requires k < |groups| && CyclesOk(url, groups, membersOf, net, k)
    ensures CyclesOk(url, groups, membersOf, net, k + 1) <==> GroupOk(url, groups, membersOf, net, k)
  {
  }

  /** The requests of the first `n` group cycles. */
  function CycleRequests(url: string, groups: seq<Group>, membersOf: Group -> seq<AlertContact>, net: Network, n: nat): seq<Request>
    requires n <= |groups|
    decreases n
  {
    if n == 0 then []
    else CycleRequests(url, groups, membersOf, net, n - 1) + CycleSent(url, groups[n - 1], membersOf(groups[n - 1]), net(2 * (n - 1)))
  }

  lemma CyclesOkBreak(url: string, groups: seq<Group>, membersOf: Group -> seq<AlertContact>, net: Network, k: nat)
    requires k < |groups| && !GroupOk(url, groups, membersOf, net, k)
    ensures !CyclesOk(url, groups, membersOf, net, |groups|)
  {
  }

  /** `create_grafana_contact` over the answers `net`: any action but `"post_add"` does
      nothing; otherwise each group of the contact, in order, costs a GET and, when the
      configuration could be edited, a POST. The first failure raises and ends the run;
      a run that goes through sent two requests per group. */
  method CreateContact(url: string, action: Option<string>, groups: seq<Group>,
                       membersOf: Group -> seq<AlertContact>, net: Network)
    returns (sent: seq<Request>, r: Result<(), Error>)
    ensures action != Some(PostAdd) ==> sent == [] && r == Ok(())
    ensures action == Some(PostAdd) ==> (r.Ok? <==> CyclesOk(url, groups, membersOf, net, |groups|))
    ensures action == Some(PostAdd) && r.Ok? ==>
              sent == CycleRequests(url, groups, membersOf, net, |groups|) && |sent| == 2 * |groups|
    ensures r.Err? ==> exists k :: && 0 <= k < |groups| && CyclesOk(url, groups, membersOf, net, k)
                                   && !GroupOk(url, groups, membersOf, net, k)
                                   && sent == CycleRequests(url, groups, membersOf, net, k + 1)
  {
    if action != Some(PostAdd) {
      return [], Ok(());
    }
    sent := [];
    for k := 0 to |groups|
      invariant CyclesOk(url, groups, membersOf, net, k)
      invariant sent == CycleRequests(url, groups, membersOf, net, k) && |sent| == 2 * k
    {
      var g := groups[k];
      var more, done := GroupCycle(url, g, membersOf(g), net(2 * k), net(2 * k + 1));
      CyclesOkStep(url, groups, membersOf, net, k);
      sent := sent + more;
      if done.Err? {
        CyclesOkBreak(url, groups, membersOf, net, k);
        return sent, Err(done.error);
      }
    }
    r := Ok(());
  }

  /** The answers group `k`'s cycle gets are a well-formed configuration and an accepted push. */
  predicate Answered(net: Network, k: nat) {
    IsAcceptable(net(2 * k).status) && NM.WellFormed(net(2 * k).body) && IsAcceptable(net(2 * k + 1).status)
  }

  /** When every group's configuration is well formed and every push is accepted, every
      cycle goes through, so the run succeeds whatever the groups and their members. */
  lemma AnsweredRunsGoThrough(url: string, groups: seq<Group>, membersOf: Group -> seq<AlertContact>, net: Network)
    requires forall k: nat :: k < |groups| ==> Answered(net, k)
    ensures CyclesOk(url, groups, membersOf, net, |groups|)
  {
    forall k: nat | k < |groups|
      ensures GroupOk(url, groups, membersOf, net, k)
    {
      assert Answered(net, k);
      CycleSpec(url, groups[k], membersOf(groups[k]), net(2 * k));
    }
  }
}
