/** `save_group` (ccres_api/users/backend.py): the social-auth pipeline step that copies a Keycloak
    user's groups into Django. The database is reduced to the set of group names it holds and
    the user's groups in order; Django's `Group.name` is unique, so creating a group whose name
    exists fails. */
module KeycloakGroups {
  import opened Wrappers
  import opened Dict
  import opened Json
  import opened Exceptions
  import Strings

  datatype Directory = Directory(groups: set<string>, member: seq<string>)

  /** How a missing group is made: `Group.objects.create` (as written) or the
      `get_or_create` the step evidently intends. */
  datatype Creation = CreateOnly | GetOrCreate

  const Keycloak := "keycloak"
  const GroupsKey := "keycloak_groups"
  const DuplicateName := "UNIQUE constraint failed: auth_group.name"

  /** `user.groups.add(group)`: adding a group the user is already in changes nothing. */
  function AddMember(d: Directory, name: string): (r: Directory)
    ensures r.groups == d.groups
    ensures name in r.member
    ensures forall n :: n in r.member <==> n in d.member || n == name
    ensures |d.member| <= |r.member| && r.member[..|d.member|] == d.member
  {
    if name in d.member then d else d.(member := d.member + [name])
  }

  /** Makes sure a group called `name` exists. */
  function Ensure(d: Directory, name: string, how: Creation): (r: Result<Directory, Error>)
    ensures r.Ok? <==> how.GetOrCreate? || name !in d.groups
    ensures r.Ok? ==> r.value == d.(groups := d.groups + {name})
    ensures r.Err? ==> r.error == IntegrityError(DuplicateName)
  {
    if how.CreateOnly? && name in d.groups then Err(IntegrityError(DuplicateName))
    else Ok(d.(groups := d.groups + {name}))
  }

  /** `keycloak_group.lower()`: only strings have the method. */
  function LowerOf(j: Json): (r: Result<string, Error>)
    ensures r.Ok? <==> j.JStr?
    ensures r.Ok? ==> r.value == Strings.Lower(j.s)
  {
    if j.JStr? then Ok(Strings.Lower(j.s)) else Err(AttributeError("lower"))
  }

  predicate AllStrings(items: seq<Json>) {
    forall i :: 0 <= i < |items| ==> items[i].JStr?
  }

  /** The lower-cased names of a list of strings. */
  function Lowered(items: seq<Json>): (r: seq<string>)
    requires AllStrings(items)
    ensures |r| == |items|
    ensures forall i :: 0 <= i < |items| ==> r[i] == Strings.Lower(items[i].s)
  {
    if |items| == 0 then [] else [Strings.Lower(items[0].s)] + Lowered(items[1..])
  }

  /** The loop of `save_group`: each name is lower-cased and skipped when it is among the
      names the user had on entry (`current`, not lower-cased); otherwise the group is made
      and the user added to it. */
  function Sync(items: seq<Json>, current: seq<string>, d: Directory, how: Creation): Result<Directory, Error>
    decreases |items|
  {
    if |items| == 0 then Ok(d)
    else
      var name :- LowerOf(items[0]);
      if name in current then Sync(items[1..], current, d, how)
      else
        var d1 :- Ensure(d, name, how);
        Sync(items[1..], current, AddMember(d1, name), how)
  }

  /** What the database holds once the loop stops, by finishing or by raising: each
      `create` and each `save` commits on its own, so the groups made and the memberships
      saved before a failing item stay. Every group it adds is one the user was put in. */
  function SyncState(items: seq<Json>, current: seq<string>, d: Directory, how: Creation): (r: Directory)
    ensures d.groups <= r.groups
    ensures |d.member| <= |r.member| && r.member[..|d.member|] == d.member
    ensures forall n :: n in r.groups && n !in d.groups ==> n in r.member
    decreases |items|
  {
    if |items| == 0 then d
    else
      match LowerOf(items[0])
      case Err(_) => d
      case Ok(name) =>
        if name in current then SyncState(items[1..], current, d, how)
        else
          match Ensure(d, name, how)
          case Err(_) => d
          case Ok(d1) =>
            var d2 := AddMember(d1, name);
            var r := SyncState(items[1..], current, d2, how);
            assert r.member[..|d.member|] == r.member[..|d2.member|][..|d.member|];
            assert forall n :: n in d2.member ==> n in r.member by {
              forall n | n in d2.member
                ensures n in r.member
              {
                var i :| 0 <= i < |d2.member| && d2.member[i] == n;
                assert r.member[i] == n;
              }
            }
            r
  }

  /** A loop that finishes leaves exactly the directory it returns. */
  lemma {:induction false} SyncStateAgrees(items: seq<Json>, current: seq<string>, d: Directory, how: Creation)
    ensures Sync(items, current, d, how).Ok? ==> Sync(items, current, d, how).value == SyncState(items, current, d, how)
    decreases |items|
  {
    if |items| > 0 && LowerOf(items[0]).Ok? {
      var name := LowerOf(items[0]).value;
      if name in current {
        SyncStateAgrees(items[1..], current, d, how);
      } else if Ensure(d, name, how).Ok? {
        SyncStateAgrees(items[1..], current, AddMember(Ensure(d, name, how).value, name), how);
      }
    }
  }

  /** `save_group(backend, user, response)`; `how` selects the code as written or its
      correction. */
  function SaveGroupWith(backendName: string, response: Json, d: Directory, how: Creation): Result<Directory, Error> {
    if backendName != Keycloak then Ok(d)
    else
      var found :- GetKey(response, GroupsKey);
      if found.None? || !Truthy(found.value) then Ok(d)
      else if !found.value.JArr? then Ok(d)
      else Sync(found.value.items, d.member, d, how)
  }

  function SaveGroupAsWritten(backendName: string, response: Json, d: Directory): Result<Directory, Error> {
    SaveGroupWith(backendName, response, d, CreateOnly)
  }

  function SaveGroup(backendName: string, response: Json, d: Directory): Result<Directory, Error> {
    SaveGroupWith(backendName, response, d, GetOrCreate)
  }

  /** The step leaves everything alone for another backend, and for a response whose
      `keycloak_groups` is missing, empty or not a list. */
  lemma SaveGroupInert(backendName: string, response: Json, d: Directory, how: Creation)
    requires response.JObj?
    requires || backendName != Keycloak
             || !HasKey(response.fields, GroupsKey)
             || !Truthy(Get(response.fields, GroupsKey).value)
             || !Get(response.fields, GroupsKey).value.JArr?
    ensures SaveGroupWith(backendName, response, d, how) == Ok(d)
  {
  }

  /** The corrected loop never fails on a list of strings. The user keeps every group they
      had, in order, and ends up in exactly those plus every lower-cased name; the database
      gains exactly the lower-cased names not among the entry names. */
  lemma {:induction false} SyncSpec(items: seq<Json>, current: seq<string>, d: Directory)
    requires AllStrings(items)
    requires forall c :: c in current ==> c in d.member
    ensures var r := Sync(items, current, d, GetOrCreate);
      && r.Ok?
      && |d.member| <= |r.value.member| && r.value.member[..|d.member|] == d.member
      && (forall n :: n in r.value.member <==> n in d.member || n in Lowered(items))
      && (forall n :: n in r.value.groups <==> n in d.groups || (n in Lowered(items) && n !in current))
    decreases |items|
  {
    if |items| > 0 {
      var name := Strings.Lower(items[0].s);
      var rest := items[1..];
      assert AllStrings(rest);
      assert Lowered(items) == [name] + Lowered(rest);
      if name in current {
        SyncSpec(rest, current, d);
      } else {
        var d2 := AddMember(d.(groups := d.groups + {name}), name);
        SyncSpec(rest, current, d2);
        var r := Sync(rest, current, d2, GetOrCreate);
        assert r.value.member[..|d.member|] == d2.member[..|d.member|];
      }
    }
  }

  /** The lower-cased names of a list seen from its second element. */
  lemma LoweredTail(items: seq<Json>)
    requires |items| > 0 && AllStrings(items)
    ensures AllStrings(items[1..])
    ensures Lowered(items)[0] == Strings.Lower(items[0].s)
    ensures forall i :: 1 <= i < |items| ==> Lowered(items)[i] == Lowered(items[1..])[i - 1]
    ensures forall i :: 1 <= i < |items| ==> Lowered(items)[..i] == [Lowered(items)[0]] + Lowered(items[1..])[..i - 1]
  {
    assert AllStrings(items[1..]);
    LoweredCons(Lowered(items), Lowered(items[1..]));
  }

  lemma LoweredCons(whole: seq<string>, tail: seq<string>)
    requires |whole| > 0 && whole == [whole[0]] + tail
    ensures forall i :: 1 <= i < |whole| ==> whole[i] == tail[i - 1]
    ensures forall i :: 1 <= i < |whole| ==> whole[..i] == [whole[0]] + tail[..i - 1]
  {
    forall i | 1 <= i < |whole|
      ensures whole[..i] == [whole[0]] + tail[..i - 1]
    {
      assert whole[..i] == ([whole[0]] + tail)[..i];
    }
  }

  /** A list whose tail holds a non-string is not all strings. */
  lemma NotAllStringsTail(items: seq<Json>)
    requires |items| > 0 && !AllStrings(items[1..])
    ensures !AllStrings(items)
  {
    var k :| 0 <= k < |items[1..]| && !items[1..][k].JStr?;
    assert !items[k + 1].JStr?;
  }

  /** When the loop fails as written: a non-string item, or a lower-cased name, not among the
      entry names, that is already a group or repeats an earlier one. */
  predicate Refused(items: seq<Json>, current: seq<string>, groups: set<string>) {
    !AllStrings(items) ||
    exists i :: 0 <= i < |items| && Lowered(items)[i] !in current &&
      (Lowered(items)[i] in groups || Lowered(items)[i] in Lowered(items)[..i])
  }

  /** A name among the entry names adds no reason to refuse. */
  lemma RefusedSkip(items: seq<Json>, current: seq<string>, groups: set<string>)
    requires |items| > 0 && AllStrings(items) && Strings.Lower(items[0].s) in current
    ensures Refused(items, current, groups) <==> Refused(items[1..], current, groups)
  {
    LoweredTail(items);
    var rest := items[1..];
    if Refused(items, current, groups) {
      var i :| 0 <= i < |items| && Lowered(items)[i] !in current &&
        (Lowered(items)[i] in groups || Lowered(items)[i] in Lowered(items)[..i]);
      assert Lowered(rest)[i - 1] !in current;
    }
    if Refused(rest, current, groups) {
      var i :| 0 <= i < |rest| && Lowered(rest)[i] !in current &&
        (Lowered(rest)[i] in groups || Lowered(rest)[i] in Lowered(rest)[..i]);
      assert Lowered(items)[i + 1] == Lowered(rest)[i];
    }
  }

  /** A name that is created joins the names a later item must not repeat. */
  lemma RefusedCreate(items: seq<Json>, current: seq<string>, groups: set<string>)
    requires |items| > 0 && AllStrings(items)
    requires Strings.Lower(items[0].s) !in current && Strings.Lower(items[0].s) !in groups
    ensures Refused(items, current, groups) <==> Refused(items[1..], current, groups + {Strings.Lower(items[0].s)})
  {
    LoweredTail(items);
    var rest := items[1..];
    var name := Strings.Lower(items[0].s);
    if Refused(items, current, groups) {
      var i :| 0 <= i < |items| && Lowered(items)[i] !in current &&
        (Lowered(items)[i] in groups || Lowered(items)[i] in Lowered(items)[..i]);
      assert i > 0;
      assert Lowered(rest)[i - 1] !in current;
    }
    if Refused(rest, current, groups + {name}) {
      var i :| 0 <= i < |rest| && Lowered(rest)[i] !in current &&
        (Lowered(rest)[i] in groups + {name} || Lowered(rest)[i] in Lowered(rest)[..i]);
      assert Lowered(items)[i + 1] == Lowered(rest)[i];
      assert Lowered(items)[0] == name;
    }
  }

  /** As written, the loop fails exactly when `Refused` holds; when it does not fail it does
      what the corrected loop does. */
  lemma {:induction false} SyncAsWrittenSpec(items: seq<Json>, current: seq<string>, d: Directory)
    ensures var r := Sync(items, current, d, CreateOnly);
      && (r.Ok? <==> !Refused(items, current, d.groups))
      && (r.Ok? ==> r == Sync(items, current, d, GetOrCreate))
    decreases |items|
  {
    if |items| > 0 {
      var rest := items[1..];
      if !items[0].JStr? {
        assert !AllStrings(items);
      } else if !AllStrings(rest) {
        NotAllStringsTail(items);
        var name := Strings.Lower(items[0].s);
        var d2 := AddMember(d.(groups := d.groups + {name}), name);
        SyncAsWrittenSpec(rest, current, d);
        SyncAsWrittenSpec(rest, current, d2);
      } else {
        var name := Strings.Lower(items[0].s);
        if name in current {
          RefusedSkip(items, current, d.groups);
          SyncAsWrittenSpec(rest, current, d);
        } else if name in d.groups {
          LoweredTail(items);
          assert Lowered(items)[0] in d.groups;
        } else {
          RefusedCreate(items, current, d.groups);
          SyncAsWrittenSpec(rest, current, AddMember(d.(groups := d.groups + {name}), name));
        }
      }
    }
  }

  /** The three spellings the examples below use. */
  lemma LowerOps()
    ensures Strings.Lower("ops") == "ops" && Strings.Lower("Ops") == "ops" && Strings.Lower("OPS") == "ops"
  {
    var a, b, c := Strings.Lower("ops"), Strings.Lower("Ops"), Strings.Lower("OPS");
    assert a[0] == 'o' && a[1] == 'p' && a[2] == 's';
    assert b[0] == 'o' && b[1] == 'p' && b[2] == 's';
    assert c[0] == 'o' && c[1] == 'p' && c[2] == 's';
  }

  /** Two entries that lower-case alike: the second `create` is refused as written, while the
      corrected step leaves the user in one group `ops`. */
  lemma DuplicateEntries()
    ensures SaveGroupAsWritten(Keycloak, JObj([(GroupsKey, JArr([JStr("Ops"), JStr("ops")]))]), Directory({}, []))
         == Err(IntegrityError(DuplicateName))
    ensures SaveGroup(Keycloak, JObj([(GroupsKey, JArr([JStr("Ops"), JStr("ops")]))]), Directory({}, []))
         == Ok(Directory({"ops"}, ["ops"]))
  {
    var items := [JStr("Ops"), JStr("ops")];
    var response := JObj([(GroupsKey, JArr(items))]);
    var d := Directory({}, []);
    var one := Directory({"ops"}, ["ops"]);
    assert GetKey(response, GroupsKey) == Ok(Some(JArr(items)));
    LowerOps();
    assert LowerOf(items[0]) == Ok("ops");
    assert items[1..] == [JStr("ops")];
    assert LowerOf(items[1..][0]) == Ok("ops");
    assert d.groups + {"ops"} == one.groups;
    assert one.groups + {"ops"} == one.groups;
    assert SaveGroupWith(Keycloak, response, d, CreateOnly) == Sync(items, [], d, CreateOnly);
    assert Sync(items, [], d, CreateOnly) == Sync(items[1..], [], one, CreateOnly);
    assert Sync(items[1..], [], one, CreateOnly) == Err(IntegrityError(DuplicateName));
    assert SaveGroupWith(Keycloak, response, d, GetOrCreate) == Sync(items, [], d, GetOrCreate);
    assert Sync(items, [], d, GetOrCreate) == Sync(items[1..], [], one, GetOrCreate);
    assert Sync(items[1..], [], one, GetOrCreate) == Sync([], [], one, GetOrCreate);
  }

  /** `["dev", "ops"]` for a user in no group while `ops` exists: as written the second `create`
      raises, yet the group `dev` made before it and the user's membership in it stay. */
  lemma PartialSyncPersists()
    ensures Sync([JStr("dev"), JStr("ops")], [], Directory({"ops"}, []), CreateOnly) == Err(IntegrityError(DuplicateName))
    ensures SyncState([JStr("dev"), JStr("ops")], [], Directory({"ops"}, []), CreateOnly) == Directory({"ops", "dev"}, ["dev"])
  {
    var items := [JStr("dev"), JStr("ops")];
    var d := Directory({"ops"}, []);
    var d1 := Directory({"ops", "dev"}, ["dev"]);
    LowerOps();
    LowerDev();
    assert LowerOf(items[0]) == Ok("dev");
    assert "dev"[0] != "ops"[0];
    assert "dev" !in d.groups;
    assert d.groups + {"dev"} == d1.groups;
    assert AddMember(d.(groups := d1.groups), "dev") == d1;
    assert items[1..] == [JStr("ops")];
    assert LowerOf(items[1..][0]) == Ok("ops");
    assert Sync(items, [], d, CreateOnly) == Sync(items[1..], [], d1, CreateOnly);
    assert SyncState(items, [], d, CreateOnly) == SyncState(items[1..], [], d1, CreateOnly);
  }

  lemma LowerDev()
    ensures Strings.Lower("dev") == "dev"
  {
    var a := Strings.Lower("dev");
    assert a[0] == 'd' && a[1] == 'e' && a[2] == 'v';
  }

  /** A user whose Keycloak group already exists in Django (made when another member logged
      in) is refused as written; the corrected step adds them to it. */
  lemma SecondMemberRefused()
    ensures SaveGroupAsWritten(Keycloak, JObj([(GroupsKey, JArr([JStr("ops")]))]), Directory({"ops"}, []))
         == Err(IntegrityError(DuplicateName))
    ensures SaveGroup(Keycloak, JObj([(GroupsKey, JArr([JStr("ops")]))]), Directory({"ops"}, []))
         == Ok(Directory({"ops"}, ["ops"]))
  {
    var items := [JStr("ops")];
    var response := JObj([(GroupsKey, JArr(items))]);
    var d := Directory({"ops"}, []);
    assert GetKey(response, GroupsKey) == Ok(Some(JArr(items)));
    LowerOps();
    assert LowerOf(items[0]) == Ok("ops");
    assert SaveGroupWith(Keycloak, response, d, CreateOnly) == Sync(items, [], d, CreateOnly);
    assert Sync(items, [], d, CreateOnly) == Err(IntegrityError(DuplicateName));
    assert SaveGroupWith(Keycloak, response, d, GetOrCreate) == Sync(items, [], d, GetOrCreate);
    assert d.groups + {"ops"} == d.groups;
    assert AddMember(d, "ops") == Directory({"ops"}, ["ops"]);
    assert Sync(items, [], d, GetOrCreate) == Sync([], [], Directory({"ops"}, ["ops"]), GetOrCreate);
  }

  /** The entry names are compared before lower-casing: a user in `Ops` with Keycloak group
      `OPS` is also put in a new group `ops`. */
  lemma EntryNamesNotLowered()
    ensures SaveGroupAsWritten(Keycloak, JObj([(GroupsKey, JArr([JStr("OPS")]))]), Directory({"Ops"}, ["Ops"]))
         == Ok(Directory({"Ops", "ops"}, ["Ops", "ops"]))
  {
    var items := [JStr("OPS")];
    var response := JObj([(GroupsKey, JArr(items))]);
    var d := Directory({"Ops"}, ["Ops"]);
    var after := Directory({"Ops", "ops"}, ["Ops", "ops"]);
    assert GetKey(response, GroupsKey) == Ok(Some(JArr(items)));
    LowerOps();
    assert LowerOf(items[0]) == Ok("ops");
    assert "ops"[0] != "Ops"[0];
    assert "ops" !in d.member && "ops" !in d.groups;
    assert d.groups + {"ops"} == after.groups;
    assert d.member + ["ops"] == after.member;
    assert SaveGroupWith(Keycloak, response, d, CreateOnly) == Sync(items, d.member, d, CreateOnly);
    assert Sync(items, d.member, d, CreateOnly) == Sync([], d.member, after, CreateOnly);
  }
}
