/** Two loop shapes of the client, with the work of each turn abstracted away.
    `Fold` is the loop of `GrafanaSerializer.serialize` (grafana_api/models/base.py): each
    field yields an outcome, which is an exception, nothing to emit, or a key and a value; the
    first exception stops the loop and every emitted pair is assigned into the dictionary built
    so far. `Collect` gathers the results of a list of steps in order, stopping at the first
    exception, like the loops of the alert migrator and the list case of `_serialize`. */
module Loops {
  import opened Wrappers
  import opened Dict

  type Outcome<V, E> = Result<Option<(string, V)>, E>

  /** The dictionary the loop builds from the outcomes of the fields, in order. */
  function Fold<V, E>(outs: seq<Outcome<V, E>>): Result<Assoc<V>, E>
  {
    if |outs| == 0 then Ok([])
    else
      var acc :- Fold(outs[..|outs| - 1]);
      var out :- outs[|outs| - 1];
      if out.None? then Ok(acc) else Ok(Put(acc, out.value.0, out.value.1))
  }

  /** A pair emitted by outcome `k`. */
  predicate Emits<V, E>(outs: seq<Outcome<V, E>>, k: int, c: string) {
    0 <= k < |outs| && outs[k].Ok? && outs[k].value.Some? && outs[k].value.value.0 == c
  }

  /** A loop that finishes went through every field without an exception. */
  lemma {:induction false} FoldOk<V, E>(outs: seq<Outcome<V, E>>, k: int)
    requires 0 <= k < |outs| && Fold(outs).Ok?
    ensures outs[k].Ok? && Fold(outs[..k + 1]).Ok?
  {
    var n := |outs|;
    if k < n - 1 {
      var prev := outs[..n - 1];
      FoldOk(prev, k);
      assert prev[k] == outs[k] && prev[..k + 1] == outs[..k + 1];
    } else {
      assert outs[..k + 1] == outs;
    }
  }

  /** No key is assigned twice, and a value no outcome emits is never stored. */
  lemma {:induction false} FoldClean<V, E>(outs: seq<Outcome<V, E>>, absent: V)
    requires Fold(outs).Ok?
    requires forall k :: 0 <= k < |outs| && outs[k].Ok? && outs[k].value.Some? ==> outs[k].value.value.1 != absent
    ensures UniqueKeys(Fold(outs).value)
    ensures forall i :: 0 <= i < |Fold(outs).value| ==> Fold(outs).value[i].1 != absent
  {
    var n := |outs|;
    if n > 0 {
      var prev := outs[..n - 1];
      assert forall k :: 0 <= k < |prev| ==> prev[k] == outs[k];
      FoldClean(prev, absent);
      var acc := Fold(prev).value;
      var out := outs[n - 1].value;
      if out.Some? {
        var r := Put(acc, out.value.0, out.value.1);
        forall i | 0 <= i < |r|
          ensures r[i].1 != absent
        {
          GetAt(r, i);
          if r[i].0 != out.value.0 {
            assert Get(acc, r[i].0) == Some(r[i].1);
            assert exists j :: 0 <= j < |acc| && acc[j] == (r[i].0, r[i].1);
          }
        }
      }
    }
  }

  /** One more field: the dictionary so far, unchanged or with one pair assigned. */
  lemma FoldStep<V, E>(outs: seq<Outcome<V, E>>)
    requires |outs| > 0 && Fold(outs).Ok?
    ensures var prev := outs[..|outs| - 1];
      && Fold(prev).Ok? && outs[|outs| - 1].Ok?
      && Fold(outs).value == if outs[|outs| - 1].value.None? then Fold(prev).value
                             else Put(Fold(prev).value, outs[|outs| - 1].value.value.0, outs[|outs| - 1].value.value.1)
  {
  }

  /** Outcomes before the last emit the same keys without the last. */
  lemma EmitsPrefix<V, E>(outs: seq<Outcome<V, E>>, k: int, c: string)
    requires 0 <= k < |outs| - 1
    ensures Emits(outs[..|outs| - 1], k, c) == Emits(outs, k, c)
  {
    assert outs[..|outs| - 1][k] == outs[k];
  }

  /** The value emitted by outcome `j` is found under its key unless a later outcome
      emits the same key. */
  lemma {:induction false} FoldUnder<V, E>(outs: seq<Outcome<V, E>>, j: int, c: string, v: V)
    requires 0 <= j < |outs| && Fold(outs).Ok?
    requires outs[j] == Ok(Some((c, v)))
    requires forall k :: j < k < |outs| ==> !Emits(outs, k, c)
    ensures Get(Fold(outs).value, c) == Some(v)
  {
    var n := |outs|;
    var prev := outs[..n - 1];
    FoldStep(outs);
    if j < n - 1 {
      EmitsPrefix(outs, j, c);
      forall k | j < k < |prev|
        ensures !Emits(prev, k, c)
      {
        EmitsPrefix(outs, k, c);
      }
      FoldUnder(prev, j, c, v);
      assert !Emits(outs, n - 1, c);
    }
  }

  /** Every key of the result was emitted by some outcome. */
  lemma {:induction false} FoldKeys<V, E>(outs: seq<Outcome<V, E>>, c: string)
    requires Fold(outs).Ok? && HasKey(Fold(outs).value, c)
    ensures exists k :: Emits(outs, k, c)
  {
    var n := |outs|;
    var prev := outs[..n - 1];
    FoldStep(outs);
    var out := outs[n - 1].value;
    if out.Some? && out.value.0 == c {
      assert Emits(outs, n - 1, c);
    } else {
      assert Get(Fold(outs).value, c) == Get(Fold(prev).value, c);
      FoldKeys(prev, c);
      var k :| Emits(prev, k, c);
      EmitsPrefix(outs, k, c);
    }
  }

  /** The outcomes gathered in order, or the first exception among them. */
  function Collect<T, E>(rs: seq<Result<T, E>>): Result<seq<T>, E> {
    if |rs| == 0 then Ok([])
    else
      var x :- rs[0];
      var rest :- Collect(rs[1..]);
      Ok([x] + rest)
  }

  /** Collecting succeeds exactly when every outcome does, and then gives their values in
      order; otherwise its exception is the first one, every outcome before it a success. */
  lemma {:induction false} CollectSpec<T, E>(rs: seq<Result<T, E>>)
    ensures var r := Collect(rs);
      && (r.Ok? <==> forall i :: 0 <= i < |rs| ==> rs[i].Ok?)
      && (r.Ok? ==> |r.value| == |rs| && forall i :: 0 <= i < |rs| ==> rs[i] == Ok(r.value[i]))
      && (r.Err? ==> exists i :: && 0 <= i < |rs| && rs[i].Err?
                                 && (forall j :: 0 <= j < i ==> rs[j].Ok?)
                                 && r.error == rs[i].error)
  {
    if |rs| > 0 {
      var tail := rs[1..];
      CollectSpec(tail);
      var r := Collect(rs);
      if rs[0].Ok? && Collect(tail).Err? {
        var i :| && 0 <= i < |tail| && tail[i].Err?
                 && (forall j :: 0 <= j < i ==> tail[j].Ok?)
                 && Collect(tail).error == tail[i].error;
        assert rs[i + 1] == tail[i];
        forall j | 0 <= j < i + 1
          ensures rs[j].Ok?
        {
          if j > 0 {
            assert rs[j] == tail[j - 1];
          }
        }
      }
      if r.Ok? {
        forall i | 0 <= i < |rs|
          ensures rs[i] == Ok(r.value[i])
        {
          if i > 0 {
            assert rs[i] == tail[i - 1];
          }
        }
      }
      if forall i :: 0 <= i < |rs| ==> rs[i].Ok? {
        forall i | 0 <= i < |tail|
          ensures tail[i].Ok?
        {
          assert tail[i] == rs[i + 1];
        }
      }
    }
  }
}
