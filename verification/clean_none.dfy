/** `clean_none` (ccres_api/services/grafana_api/addons/utils.py): a copy of a
    dictionary without the entries whose value is `None`. */
module Utils {
  import opened Wrappers
  import opened Dict
  import opened Json

  /** `a` is `b` with some entries left out, order kept. */
  predicate IsSubsequence<T(==)>(a: seq<T>, b: seq<T>)
    decreases |b|
  {
    if |a| == 0 then true
    else if |b| == 0 then false
    else if a[0] == b[0] then IsSubsequence(a[1..], b[1..])
    else IsSubsequence(a, b[1..])
  }

  function CleanNone(d: Assoc<Json>): Assoc<Json>
  {
    if |d| == 0 then []
    else if d[0].1 == JNull then CleanNone(d[1..])
    else [d[0]] + CleanNone(d[1..])
  }

  /** The cleaning keeps exactly the entries that are not `None`, in their order,
      so a dictionary stays a dictionary. */
  lemma {:induction false} CleanNoneSpec(d: Assoc<Json>)
    ensures forall i :: 0 <= i < |CleanNone(d)| ==> CleanNone(d)[i].1 != JNull
    ensures IsSubsequence(CleanNone(d), d)
    ensures forall p :: p in CleanNone(d) ==> p in d
    ensures forall p :: p in d && p.1 != JNull ==> p in CleanNone(d)
    ensures UniqueKeys(d) ==> UniqueKeys(CleanNone(d))
  {
    if |d| > 0 {
      CleanNoneSpec(d[1..]);
    }
  }

  /** For a dictionary (unique keys), every key keeps its value unless that value is `None`. */
  lemma {:induction false} CleanNoneGet(d: Assoc<Json>, k: string)
    requires UniqueKeys(d)
    ensures Get(CleanNone(d), k) == if Get(d, k) == Some(JNull) then None else Get(d, k)
  {
    if |d| > 0 {
      CleanNoneGet(d[1..], k);
      if d[0].0 == k {
        assert forall i :: 0 <= i < |d[1..]| ==> d[1..][i].0 != k;
        assert !HasKey(d[1..], k);
      }
    }
  }

  /** A dictionary without `None` values is its own cleaning. */
  lemma {:induction false} CleanNoneFixpoint(d: Assoc<Json>)
    requires forall i :: 0 <= i < |d| ==> d[i].1 != JNull
    ensures CleanNone(d) == d
  {
    if |d| > 0 {
      CleanNoneFixpoint(d[1..]);
    }
  }

  /** Cleaning twice is cleaning once. */
  lemma CleanNoneIdempotent(d: Assoc<Json>)
    ensures CleanNone(CleanNone(d)) == CleanNone(d)
  {
    CleanNoneSpec(d);
    CleanNoneFixpoint(CleanNone(d));
  }

  /** Only the top level is cleaned: `None` inside a kept value stays. */
  lemma CleanNoneShallow(k: string, inner: Assoc<Json>)
    ensures CleanNone([(k, JObj(inner))]) == [(k, JObj(inner))]
    ensures CleanNone([(k, JArr([JNull]))]) == [(k, JArr([JNull]))]
  {
  }

  /** Cleaning a dictionary extended by one entry extends its cleaning by that entry, unless it is `None`. */
  lemma {:induction false} CleanNoneAppend(d: Assoc<Json>, p: (string, Json))
    ensures CleanNone(d + [p]) == CleanNone(d) + (if p.1 == JNull then [] else [p])
  {
    var tail := if p.1 == JNull then [] else [p];
    if |d| == 0 {
      assert d + [p] == [p];
      assert CleanNone([p]) == tail;
    } else {
      var e := d + [p];
      assert e[0] == d[0];
      assert e[1..] == d[1..] + [p];
      CleanNoneAppend(d[1..], p);
      if d[0].1 == JNull {
        assert CleanNone(e) == CleanNone(e[1..]);
        assert CleanNone(d) == CleanNone(d[1..]);
      } else {
        assert CleanNone(e) == [d[0]] + CleanNone(e[1..]);
        assert CleanNone(d) == [d[0]] + CleanNone(d[1..]);
      }
    }
  }

  /** Cleaning never introduces a key. */
  lemma CleanNoneKeys(d: Assoc<Json>, k: string)
    requires !HasKey(d, k)
    ensures !HasKey(CleanNone(d), k)
  {
    CleanNoneSpec(d);
  }

  /** Cleaning distributes over concatenation. */
  lemma {:induction false} CleanNoneConcat(a: Assoc<Json>, b: Assoc<Json>)
    ensures CleanNone(a + b) == CleanNone(a) + CleanNone(b)
  {
    if |a| == 0 {
      assert a + b == b;
    } else {
      var e := a + b;
      assert e[0] == a[0];
      assert e[1..] == a[1..] + b;
      CleanNoneConcat(a[1..], b);
    }
  }

  /** A dictionary whose values are all `None` cleans to nothing. */
  lemma {:induction false} CleanNoneNulls(d: Assoc<Json>)
    requires forall i :: 0 <= i < |d| ==> d[i].1 == JNull
    ensures CleanNone(d) == []
  {
    if |d| > 0 {
      CleanNoneNulls(d[1..]);
    }
  }

  /** A run of entries that are not `None` is kept and a run of `None` entries after it is dropped. */
  lemma CleanNoneSegments(kept: Assoc<Json>, unset: Assoc<Json>, rest: Assoc<Json>)
    requires forall i :: 0 <= i < |kept| ==> kept[i].1 != JNull
    requires forall i :: 0 <= i < |unset| ==> unset[i].1 == JNull
    ensures CleanNone(kept + unset + rest) == kept + CleanNone(rest)
  {
    var front := kept + unset;
    CleanNoneConcat(front, rest);
    CleanNoneConcat(kept, unset);
    CleanNoneFixpoint(kept);
    CleanNoneNulls(unset);
    assert CleanNone(front) == kept + [];
    assert kept + [] == kept;
  }

  /** The loop as written: every entry whose value is not `None` is assigned into a fresh
      dictionary, in order. For a dictionary it builds exactly the cleaning. */
  method CleanNoneLoop(d: Assoc<Json>) returns (r: Assoc<Json>)
    requires UniqueKeys(d)
    ensures r == CleanNone(d)
  {
    r := [];
    for i := 0 to |d|
      invariant r == CleanNone(d[..i])
    {
      assert d[..i + 1] == d[..i] + [d[i]];
      CleanNoneAppend(d[..i], d[i]);
      if d[i].1 != JNull {
        CleanNoneSpec(d[..i]);
        r := Put(r, d[i].0, d[i].1);
      }
    }
    assert d[..|d|] == d;
  }

  /** A dictionary literal `{k1: v1, ...}` passed through `clean_none`, the shape of every
      add-on `to_json_data`. */
  function CleanRecord(keys: seq<string>, vals: seq<Json>): (r: Json)
    requires |keys| == |vals|
    ensures r.JObj?
  {
    JObj(CleanNone(Zip(keys, vals)))
  }

  /** Each literal key maps to its value when that value is not `None`, and is absent otherwise. */
  lemma CleanRecordGet(keys: seq<string>, vals: seq<Json>, i: int)
    requires |keys| == |vals| && Distinct(keys)
    requires 0 <= i < |keys|
    ensures Get(CleanRecord(keys, vals).fields, keys[i]) == if vals[i] == JNull then None else Some(vals[i])
  {
    var d := Zip(keys, vals);
    assert UniqueKeys(d);
    CleanNoneGet(d, keys[i]);
    GetAt(d, i);
  }

  /** No key outside the literal appears. */
  lemma CleanRecordKeys(keys: seq<string>, vals: seq<Json>, k: string)
    requires |keys| == |vals|
    requires k !in keys
    ensures !HasKey(CleanRecord(keys, vals).fields, k)
  {
    CleanNoneKeys(Zip(keys, vals), k);
  }
}
