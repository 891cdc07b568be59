/** Python's `dict` where its insertion order is observable: a sequence of
    entries with pairwise distinct keys. Assigning to a present key keeps its
    position; assigning to a new key appends it. */
module OrderedDicts {
  import opened Wrappers

  type ODict<V> = seq<(string, V)>

  function Keys<V>(d: ODict<V>): (ks: seq<string>)
    ensures |ks| == |d|
    ensures forall i :: 0 <= i < |d| ==> ks[i] == d[i].0
  {
    if d == [] then [] else [d[0].0] + Keys(d[1..])
  }

  predicate DistinctKeys<V>(d: ODict<V>) {
    forall i, j :: 0 <= i < j < |d| ==> d[i].0 != d[j].0
  }

  /** `d.get(k)`. */
  function Get<V>(d: ODict<V>, k: string): (r: Option<V>)
    ensures r.None? <==> k !in Keys(d)
    ensures r.Some? ==> (k, r.value) in d
  {
    if d == [] then None
    else if d[0].0 == k then Some(d[0].1)
    else Get(d[1..], k)
  }

  lemma {:induction false} KeysTail<V>(d: ODict<V>, k: string)
    requires d != []
    ensures k in Keys(d) <==> k == d[0].0 || k in Keys(d[1..])
  {
    assert Keys(d) == [d[0].0] + Keys(d[1..]);
  }

  /** `d[k] = v`. */
  function Put<V>(d: ODict<V>, k: string, v: V): (r: ODict<V>)
    requires DistinctKeys(d)
    ensures DistinctKeys(r)
    ensures Get(r, k) == Some(v)
    ensures forall k' :: k' != k ==> Get(r, k') == Get(d, k')
    ensures Keys(r) == if k in Keys(d) then Keys(d) else Keys(d) + [k]
  {
    PutProps(d, k, v);
    Assign(d, k, v)
  }

  /** `d[k] = v` for a key not yet present: it is appended. */
  function PutNew<V>(d: ODict<V>, k: string, v: V): (r: ODict<V>)
    requires DistinctKeys(d) && k !in Keys(d)
    ensures DistinctKeys(r)
    ensures Keys(r) == Keys(d) + [k]
    ensures Get(r, k) == Some(v)
    ensures forall k' :: k' != k ==> Get(r, k') == Get(d, k')
    ensures r == d + [(k, v)]
  {
    AssignAbsent(d, k, v);
    Put(d, k, v)
  }

  lemma {:induction false} AssignAbsent<V>(d: ODict<V>, k: string, v: V)
    requires k !in Keys(d)
    ensures Assign(d, k, v) == d + [(k, v)]
    decreases |d|
  {
    if d != [] {
      KeysTail(d, k);
      AssignAbsent(d[1..], k, v);
      assert d == [d[0]] + d[1..];
    }
  }

  function Assign<V>(d: ODict<V>, k: string, v: V): ODict<V>
    decreases |d|
  {
    if d == [] then [(k, v)]
    else if d[0].0 == k then [(k, v)] + d[1..]
    else [d[0]] + Assign(d[1..], k, v)
  }

  lemma {:induction false} PutProps<V>(d: ODict<V>, k: string, v: V)
    requires DistinctKeys(d)
    ensures Keys(Assign(d, k, v)) == if k in Keys(d) then Keys(d) else Keys(d) + [k]
    ensures DistinctKeys(Assign(d, k, v))
    ensures Get(Assign(d, k, v), k) == Some(v)
    ensures forall k' :: k' != k ==> Get(Assign(d, k, v), k') == Get(d, k')
  {
    AssignKeys(d, k, v);
    AssignDistinct(d, k, v);
    AssignGet(d, k, v);
  }

  lemma {:induction false} AssignKeys<V>(d: ODict<V>, k: string, v: V)
    requires DistinctKeys(d)
    ensures Keys(Assign(d, k, v)) == if k in Keys(d) then Keys(d) else Keys(d) + [k]
    decreases |d|
  {
    var r := Assign(d, k, v);
    if d == [] {
    } else if d[0].0 == k {
      assert r[1..] == d[1..];
      assert Keys(r) == [k] + Keys(d[1..]) == Keys(d);
    } else {
      var tail := Assign(d[1..], k, v);
      AssignKeys(d[1..], k, v);
      assert r[1..] == tail;
      KeysTail(d, k);
      assert Keys(r) == [d[0].0] + Keys(tail);
      assert Keys(d) == [d[0].0] + Keys(d[1..]);
    }
  }

  lemma DistinctByKeys<V>(d: ODict<V>)
    requires forall i, j :: 0 <= i < j < |Keys(d)| ==> Keys(d)[i] != Keys(d)[j]
    ensures DistinctKeys(d)
  {
    var ks := Keys(d);
    forall i, j | 0 <= i < j < |d| ensures d[i].0 != d[j].0 {
      assert ks[i] == d[i].0 && ks[j] == d[j].0;
    }
  }

  lemma {:induction false} AssignDistinct<V>(d: ODict<V>, k: string, v: V)
    requires DistinctKeys(d)
    ensures DistinctKeys(Assign(d, k, v))
  {
    AssignKeys(d, k, v);
    var r := Assign(d, k, v);
    if k !in Keys(d) {
      assert forall i :: 0 <= i < |d| ==> Keys(d)[i] != k;
    }
    DistinctByKeys(r);
  }

  lemma {:induction false} AssignGet<V>(d: ODict<V>, k: string, v: V)
    ensures Get(Assign(d, k, v), k) == Some(v)
    ensures forall k' :: k' != k ==> Get(Assign(d, k, v), k') == Get(d, k')
    decreases |d|
  {
    if d != [] && d[0].0 != k {
      AssignGet(d[1..], k, v);
    }
  }

  /** `d.update(e)`: the entries of `e` assigned in their order. */
  function Update<V>(d: ODict<V>, e: ODict<V>): (r: ODict<V>)
    requires DistinctKeys(d) && DistinctKeys(e)
    ensures DistinctKeys(r)
    ensures forall k :: k in Keys(e) ==> Get(r, k) == Get(e, k)
    ensures forall k :: k !in Keys(e) ==> Get(r, k) == Get(d, k)
    decreases |e|
  {
    if e == [] then d
    else
      var r := Update(Put(d, e[0].0, e[0].1), e[1..]);
      KeysTail(e, e[0].0);
      forall k | k in Keys(e) ensures Get(r, k) == Get(e, k) {
        KeysTail(e, k);
      }
      forall k | k !in Keys(e) ensures Get(r, k) == Get(d, k) {
        KeysTail(e, k);
      }
      r
  }

  /** The dict's contents with the order forgotten. */
  function ToMap<V>(d: ODict<V>): (m: map<string, V>)
    ensures forall k :: k in m <==> k in Keys(d)
    ensures forall k :: k in m ==> Get(d, k) == Some(m[k])
    decreases |d|
  {
    if d == [] then map[]
    else
      var m := ToMap(d[1..])[d[0].0 := d[0].1];
      assert forall k :: k in m <==> k in Keys(d) by {
        forall k ensures k in m <==> k in Keys(d) {
          KeysTail(d, k);
        }
      }
      m
  }

  lemma ToMapOne<V>(a: string, x: V)
    ensures ToMap([(a, x)]) == map[a := x]
  {
    assert [(a, x)][1..] == [];
  }

  lemma ToMapTwo<V>(a: string, x: V, b: string, y: V)
    requires a != b
    ensures ToMap([(a, x), (b, y)]) == map[a := x, b := y]
  {
    assert [(a, x), (b, y)][1..] == [(b, y)];
    ToMapOne(b, y);
  }
}
