/** The construction-time hooks of the two dataclass base classes:
    `GrafanaValidator.__post_init__` (grafana_api/addons/base.py) runs every
    `validate_<field>` hook and then `validate()`; `GrafanaSerializer.__post_init__`
    (grafana_api/models/base.py) runs `validate()` first and the field hooks after.
    A dataclass instance is the ordered list of its fields, whatever their value type. */
module Validation {
  import opened Wrappers
  import opened Dict
  import opened Json
  import opened Exceptions

  /** A `validate_<name>` method: gets the field's value, returns its replacement or raises. */
  type Hook<!V> = V -> Result<V, Error>

  /** The hooks a class declares: `fieldHook(name)` is its `validate_<name>` method if it has
      one, `validate` its whole-object `validate()` if it has one (`Some(e)` means it raises `e`). */
  datatype Hooks<!V> = Hooks(fieldHook: string -> Option<Hook<V>>, validate: Option<Assoc<V> -> Option<Error>>)

  function RunHook<V>(h: Hooks<V>, name: string, value: V): Result<V, Error> {
    match h.fieldHook(name)
    case None => Ok(value)
    case Some(hook) => hook(value)
  }

  function RunValidate<V>(h: Hooks<V>, fields: Assoc<V>): Option<Error> {
    match h.validate
    case None => None
    case Some(check) => check(fields)
  }

  /** The hook of field `i` raises `e` and every earlier hook succeeded. */
  predicate FailsFirstAt<V>(fields: Assoc<V>, h: Hooks<V>, i: int, e: Error) {
    && 0 <= i < |fields|
    && RunHook(h, fields[i].0, fields[i].1) == Err(e)
    && forall j :: 0 <= j < i ==> RunHook(h, fields[j].0, fields[j].1).Ok?
  }

  /** The loop over `__dataclass_fields__`: each field that has a hook gets the hook's result;
      the first hook that raises aborts. */
  function ApplyFieldHooks<V>(fields: Assoc<V>, h: Hooks<V>): Result<Assoc<V>, Error> {
    if |fields| == 0 then Ok([])
    else
      var v :- RunHook(h, fields[0].0, fields[0].1);
      var rest :- ApplyFieldHooks(fields[1..], h);
      Ok([(fields[0].0, v)] + rest)
  }

  /** The loop succeeds exactly when every hook does, and then keeps the field names and order
      and holds each hook's result; otherwise it raises the error of the first failing hook. */
  lemma {:induction false} ApplyFieldHooksSpec<V>(fields: Assoc<V>, h: Hooks<V>)
    ensures var r := ApplyFieldHooks(fields, h);
      && (r.Ok? <==> forall i :: 0 <= i < |fields| ==> RunHook(h, fields[i].0, fields[i].1).Ok?)
      && (r.Ok? ==> |r.value| == |fields| && Keys(r.value) == Keys(fields))
      && (r.Ok? ==> forall i :: 0 <= i < |fields| ==> r.value[i].1 == RunHook(h, fields[i].0, fields[i].1).value)
      && (r.Err? ==> exists i :: FailsFirstAt(fields, h, i, r.error))
  {
    if |fields| > 0 {
      ApplyFieldHooksSpec(fields[1..], h);
      var first := RunHook(h, fields[0].0, fields[0].1);
      var rest := ApplyFieldHooks(fields[1..], h);
      assert forall j :: 1 <= j < |fields| ==> fields[j] == fields[1..][j - 1];
      if first.Err? {
        assert FailsFirstAt(fields, h, 0, first.error);
      } else if rest.Err? {
        var i :| FailsFirstAt(fields[1..], h, i, rest.error);
        assert FailsFirstAt(fields, h, i + 1, rest.error);
      } else {
        assert Keys(fields) == [fields[0].0] + Keys(fields[1..]);
        var r := [(fields[0].0, first.value)] + rest.value;
        assert Keys(r) == [fields[0].0] + Keys(rest.value);
      }
    }
  }

  /** Without field hooks the loop keeps every field as it is. */
  lemma {:induction false} NoFieldHooks<V>(fields: Assoc<V>, h: Hooks<V>)
    requires forall name :: h.fieldHook(name).None?
    ensures ApplyFieldHooks(fields, h) == Ok(fields)
  {
    if |fields| > 0 {
      NoFieldHooks(fields[1..], h);
      assert [(fields[0].0, fields[0].1)] + fields[1..] == fields;
    }
  }

  /** `GrafanaValidator.__post_init__`: field hooks first, then `validate()` on the updated fields. */
  function ValidatorPostInit<V>(fields: Assoc<V>, h: Hooks<V>): Result<Assoc<V>, Error> {
    var hooked :- ApplyFieldHooks(fields, h);
    match RunValidate(h, hooked)
    case Some(e) => Err(e)
    case None => Ok(hooked)
  }

  /** `GrafanaSerializer.__post_init__`: `validate()` on the fields as given, then the field hooks. */
  function SerializerPostInit<V>(fields: Assoc<V>, h: Hooks<V>): Result<Assoc<V>, Error> {
    match RunValidate(h, fields)
    case Some(e) => Err(e)
    case None => ApplyFieldHooks(fields, h)
  }

  function NoHooks<V>(): Hooks<V> {
    Hooks(_ => None, None)
  }

  /** A class that declares no hook keeps its fields: construction cannot fail. */
  lemma NoHooksIdentity<V>(fields: Assoc<V>)
    ensures ValidatorPostInit(fields, NoHooks()) == Ok(fields)
    ensures SerializerPostInit(fields, NoHooks()) == Ok(fields)
  {
    NoFieldHooks(fields, NoHooks<V>());
  }

  /** A class with a `validate()` but no field hook is constructed exactly when
      `validate()` does not raise, and then keeps its fields. */
  lemma ValidateOnly<V>(fields: Assoc<V>, h: Hooks<V>)
    requires forall name :: h.fieldHook(name).None?
    requires h.validate.Some?
    ensures var e := h.validate.value(fields);
      && SerializerPostInit(fields, h) == (if e.Some? then Err(e.value) else Ok(fields))
      && ValidatorPostInit(fields, h) == (if e.Some? then Err(e.value) else Ok(fields))
  {
    NoFieldHooks(fields, h);
  }

  /** Without a `validate()`, the two orders agree. */
  lemma {:induction false} OrderIrrelevantWithoutValidate<V>(fields: Assoc<V>, hook: string -> Option<Hook<V>>)
    ensures ValidatorPostInit(fields, Hooks(hook, None)) == SerializerPostInit(fields, Hooks(hook, None))
  {
  }

  /** The two orders differ: a hook that fills in an empty `token` satisfies a `validate()`
      that rejects an empty token only when the hook runs first. */
  lemma OrderMatters()
    ensures var fill := (v: Json) => if v == JStr("") then Ok(JStr("t")) else Ok(v);
            var h: Hooks<Json> := Hooks(n => if n == "token" then Some(fill) else None,
                           Some((fs: Assoc<Json>) => if Get(fs, "token") == Some(JStr("")) then Some(ValueError("empty")) else None));
            ValidatorPostInit([("token", JStr(""))], h) == Ok([("token", JStr("t"))])
            && SerializerPostInit([("token", JStr(""))], h) == Err(ValueError("empty"))
  {
    var fill := (v: Json) => if v == JStr("") then Ok(JStr("t")) else Ok(v);
    var h: Hooks<Json> := Hooks(n => if n == "token" then Some(fill) else None,
                   Some((fs: Assoc<Json>) => if Get(fs, "token") == Some(JStr("")) then Some(ValueError("empty")) else None));
    assert RunHook(h, "token", JStr("")) == Ok(JStr("t"));
    var fields := [("token", JStr(""))];
    assert ApplyFieldHooks(fields[1..], h) == Ok([]);
    assert [("token", JStr("t"))] + [] == [("token", JStr("t"))];
    assert ApplyFieldHooks(fields, h) == Ok([("token", JStr("t"))]);
  }
}
