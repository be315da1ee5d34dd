/** Insertion-ordered dictionaries, the way Python 3 dicts (and OrderedDict)
    with string keys behave: keys keep the position of their first insertion, assigning to an
    existing key replaces its value in place, assigning to a new key appends. */
module Dict {
  import opened Wrappers

  type Assoc<V> = seq<(string, V)>

  function Keys<V>(d: Assoc<V>): (ks: seq<string>)
    ensures |ks| == |d|
    ensures forall i :: 0 <= i < |d| ==> ks[i] == d[i].0
  {
    if |d| == 0 then [] else [d[0].0] + Keys(d[1..])
  }

  /** The dictionary that pairs `names[i]` with `values[i]`, in order. */
  function Zip<V>(names: seq<string>, values: seq<V>): (r: Assoc<V>)
    requires |names| == |values|
    ensures |r| == |names| && Keys(r) == names
    ensures forall i :: 0 <= i < |names| ==> r[i] == (names[i], values[i])
  {
    seq(|names|, i requires 0 <= i < |names| => (names[i], values[i]))
  }

  /** `Zip` of two sequences of a fixed length, written out entry by entry. */
  lemma ZipOf6<V>(names: seq<string>, values: seq<V>)
    requires |names| == 6 && |values| == 6
    ensures Zip(names, values) == [(names[0], values[0]), (names[1], values[1]), (names[2], values[2]), (names[3], values[3]), (names[4], values[4]), (names[5], values[5])]
  {
  }

  lemma ZipOf10<V>(names: seq<string>, values: seq<V>)
    requires |names| == 10 && |values| == 10
    ensures Zip(names, values) == [(names[0], values[0]), (names[1], values[1]), (names[2], values[2]), (names[3], values[3]), (names[4], values[4]), (names[5], values[5]), (names[6], values[6]), (names[7], values[7]), (names[8], values[8]), (names[9], values[9])]
  {
  }

  lemma ZipOf12<V>(names: seq<string>, values: seq<V>)
    requires |names| == 12 && |values| == 12
    ensures Zip(names, values) == [(names[0], values[0]), (names[1], values[1]), (names[2], values[2]), (names[3], values[3]), (names[4], values[4]), (names[5], values[5]), (names[6], values[6]), (names[7], values[7]), (names[8], values[8]), (names[9], values[9]), (names[10], values[10]), (names[11], values[11])]
  {
  }

  lemma ZipOf15<V>(names: seq<string>, values: seq<V>)
    requires |names| == 15 && |values| == 15
    ensures Zip(names, values) == [(names[0], values[0]), (names[1], values[1]), (names[2], values[2]), (names[3], values[3]), (names[4], values[4]), (names[5], values[5]), (names[6], values[6]), (names[7], values[7]), (names[8], values[8]), (names[9], values[9]), (names[10], values[10]), (names[11], values[11]), (names[12], values[12]), (names[13], values[13]), (names[14], values[14])]
  {
  }

  /** No name occurs twice. */
  predicate Distinct(xs: seq<string>) {
    forall i, j :: 0 <= i < j < |xs| ==> xs[i] != xs[j]
  }

  predicate HasKey<V>(d: Assoc<V>, k: string) {
    k in Keys(d)
  }

  /** Python dicts never hold a key twice. */
  predicate UniqueKeys<V>(d: Assoc<V>) {
    forall i, j :: 0 <= i < j < |d| ==> d[i].0 != d[j].0
  }

  /** `d.get(k)`: the value stored under `k`, if any. */
  function Get<V>(d: Assoc<V>, k: string): (r: Option<V>)
    ensures r.None? <==> !HasKey(d, k)
    ensures r.Some? ==> exists i :: 0 <= i < |d| && d[i] == (k, r.value)
  {
    if |d| == 0 then None
    else if d[0].0 == k then Some(d[0].1)
    else
      var r := Get(d[1..], k);
      assert r.Some? ==> exists i :: 0 <= i < |d[1..]| && d[1..][i] == (k, r.value);
      r
  }

  lemma GetAt<V>(d: Assoc<V>, i: int)
    requires UniqueKeys(d)
    requires 0 <= i < |d|
    ensures Get(d, d[i].0) == Some(d[i].1)
  {
    if i > 0 {
      assert d[1..][i - 1] == d[i];
      GetAt(d[1..], i - 1);
    }
  }

  /** Two dictionaries that agree on where `k` sits and what it maps to agree on `get(k)`. */
  lemma {:induction false} GetCongruent<V>(d: Assoc<V>, e: Assoc<V>, k: string)
    requires |d| == |e|
    requires forall i :: 0 <= i < |d| ==> (d[i].0 == k <==> e[i].0 == k)
    requires forall i :: 0 <= i < |d| && d[i].0 == k ==> d[i].1 == e[i].1
    ensures Get(d, k) == Get(e, k)
  {
    if |d| > 0 {
      GetCongruent(d[1..], e[1..], k);
    }
  }

  lemma {:induction false} GetAppend<V>(d: Assoc<V>, k: string, v: V, k': string)
    ensures Get(d + [(k, v)], k') == if HasKey(d, k') then Get(d, k') else if k == k' then Some(v) else None
  {
    if |d| > 0 {
      assert (d + [(k, v)])[1..] == d[1..] + [(k, v)];
      GetAppend(d[1..], k, v, k');
    } else {
      assert d + [(k, v)] == [(k, v)];
    }
  }

  /** Every entry stored under `k` now holds `v`. */
  function Replace<V>(d: Assoc<V>, k: string, v: V): (r: Assoc<V>)
    ensures |r| == |d|
    ensures forall i :: 0 <= i < |d| ==> r[i] == (if d[i].0 == k then (k, v) else d[i])
  {
    if |d| == 0 then [] else [if d[0].0 == k then (k, v) else d[0]] + Replace(d[1..], k, v)
  }

  lemma {:induction false} GetReplaced<V>(d: Assoc<V>, k: string, v: V)
    requires HasKey(d, k)
    ensures Get(Replace(d, k, v), k) == Some(v)
  {
    if d[0].0 != k {
      assert Keys(d) == [d[0].0] + Keys(d[1..]);
      assert Replace(d, k, v)[1..] == Replace(d[1..], k, v);
      GetReplaced(d[1..], k, v);
    }
  }

  /** `d[k] = v`. */
  function Put<V>(d: Assoc<V>, k: string, v: V): (r: Assoc<V>)
    ensures Get(r, k) == Some(v)
    ensures forall k' :: k' != k ==> Get(r, k') == Get(d, k')
    ensures HasKey(d, k) ==> Keys(r) == Keys(d)
    ensures !HasKey(d, k) ==> r == d + [(k, v)]
    ensures UniqueKeys(d) ==> UniqueKeys(r)
  {
    if HasKey(d, k) then
      ReplaceSpec(d, k, v);
      Replace(d, k, v)
    else
      AppendSpec(d, k, v);
      d + [(k, v)]
  }

  /** Overwriting a present key changes only that key's value. */
  lemma ReplaceSpec<V>(d: Assoc<V>, k: string, v: V)
    requires HasKey(d, k)
    ensures var r := Replace(d, k, v);
      && Get(r, k) == Some(v)
      && (forall k' :: k' != k ==> Get(r, k') == Get(d, k'))
      && Keys(r) == Keys(d)
      && (UniqueKeys(d) ==> UniqueKeys(r))
  {
    var r := Replace(d, k, v);
    GetReplaced(d, k, v);
    forall k' | k' != k
      ensures Get(r, k') == Get(d, k')
    {
      GetCongruent(r, d, k');
    }
    assert forall i :: 0 <= i < |d| ==> r[i].0 == d[i].0;
  }

  /** Appending an absent key adds that key and changes nothing else. */
  lemma AppendSpec<V>(d: Assoc<V>, k: string, v: V)
    requires !HasKey(d, k)
    ensures var r := d + [(k, v)];
      && Get(r, k) == Some(v)
      && (forall k' :: k' != k ==> Get(r, k') == Get(d, k'))
      && (UniqueKeys(d) ==> UniqueKeys(r))
  {
    var r := d + [(k, v)];
    forall k'
      ensures Get(r, k') == if HasKey(d, k') then Get(d, k') else if k == k' then Some(v) else None
    {
      GetAppend(d, k, v, k');
    }
    assert forall i :: 0 <= i < |d| ==> d[i].0 == Keys(d)[i];
  }

  /** A key not yet present, appended, keeps the keys unique. */
  lemma UniqueSnoc<V>(d: Assoc<V>, p: (string, V))
    requires UniqueKeys(d) && p.0 !in Keys(d)
    ensures UniqueKeys(d + [p]) && Keys(d + [p]) == Keys(d) + [p.0]
  {
    assert forall i :: 0 <= i < |d| ==> (d + [p])[i] == d[i];
  }

  /** A prefix of a dictionary has unique keys when the dictionary does. */
  lemma UniqueKeysPrefix<V>(d: Assoc<V>, n: nat)
    requires n <= |d| && UniqueKeys(d)
    ensures UniqueKeys(d[..n])
  {
  }

  /** A dictionary built from distinct names has unique keys. */
  lemma ZipUnique<V>(names: seq<string>, values: seq<V>)
    requires |names| == |values| && Distinct(names)
    ensures UniqueKeys(Zip(names, values))
  {
  }

  /** A dictionary built from distinct names maps each name to its own value. */
  lemma ZipGet<V>(names: seq<string>, values: seq<V>, i: int)
    requires |names| == |values| && Distinct(names)
    requires 0 <= i < |names|
    ensures Get(Zip(names, values), names[i]) == Some(values[i])
  {
    GetAt(Zip(names, values), i);
  }

  /** Assigning the same value twice is assigning it once. */
  lemma PutTwice<V>(d: Assoc<V>, k: string, v: V)
    ensures Put(Put(d, k, v), k, v) == Put(d, k, v)
  {
    var r := Put(d, k, v);
    assert HasKey(r, k);
    var r2 := Replace(r, k, v);
    if HasKey(d, k) {
      assert forall i :: 0 <= i < |r| ==> r2[i] == r[i];
    } else {
      assert forall i :: 0 <= i < |d| ==> d[i].0 != k;
      assert forall i :: 0 <= i < |r| ==> r2[i] == r[i];
    }
  }
}
