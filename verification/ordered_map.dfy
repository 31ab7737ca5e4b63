/**
 A JavaScript object's own enumerable properties, in the order `Object.keys`
 enumerates them. The order is taken as given: the model does not re-derive
 the engine's "integer-like keys first" rule.
 */
module OrderedMap {
  import opened Wrappers

  /** One own property: its key and its value. */
  datatype Entry<V> = Entry(key: string, value: V)

  /** Own properties in enumeration order. */
  type OMap<V> = seq<Entry<V>>

  /** The keys, in enumeration order. */
  function Keys<V>(m: OMap<V>): (ks: seq<string>)
    ensures |ks| == |m|
    ensures forall i :: 0 <= i < |m| ==> ks[i] == m[i].key
  {
    seq(|m|, i requires 0 <= i < |m| => m[i].key)
  }

  /** A real JavaScript object never holds the same own key twice. */
  predicate Valid<V>(m: OMap<V>) {
    forall i, j :: 0 <= i < j < |m| ==> m[i].key != m[j].key
  }

  /** The position of key `k`, if present (the first one, should there be several). */
  function IndexOf<V>(m: OMap<V>, k: string): (r: Option<nat>)
    ensures r.Some? ==> r.value < |m| && m[r.value].key == k
    ensures r.Some? ==> forall j :: 0 <= j < r.value ==> m[j].key != k
    ensures r.None? <==> k !in Keys(m)
    decreases |m|
  {
    if |m| == 0 then None
    else if m[0].key == k then Some(0)
    else
      match IndexOf(m[1..], k)
      case None => None
      case Some(i) => Some(i + 1)
  }

  /** The first position holding `k` is unique: any position that holds `k` with no earlier one is it. */
  lemma IndexOfUnique<V>(m: OMap<V>, k: string, i: nat)
    requires i < |m| && m[i].key == k
    requires forall j :: 0 <= j < i ==> m[j].key != k
    ensures IndexOf(m, k) == Some(i)
  {
  }

  /** `m[k]`: the value of own property `k`, or None when `m` has no such property. */
  function Lookup<V>(m: OMap<V>, k: string): (r: Option<V>)
    ensures r.Some? <==> k in Keys(m)
    ensures Valid(m) ==> forall i :: 0 <= i < |m| && m[i].key == k ==> r == Some(m[i].value)
  {
    match IndexOf(m, k)
    case None => None
    case Some(i) => Some(m[i].value)
  }

  /**
   `m[k] = v`: an existing property keeps its place and takes the new value; a
   new one is appended at the end of the enumeration order.
   */
  function Put<V>(m: OMap<V>, k: string, v: V): (r: OMap<V>)
    ensures Lookup(r, k) == Some(v)
    ensures forall j :: j != k ==> Lookup(r, j) == Lookup(m, j)
    ensures k in Keys(m) ==> Keys(r) == Keys(m)
    ensures k !in Keys(m) ==> Keys(r) == Keys(m) + [k]
    ensures Valid(m) ==> Valid(r)
  {
    match IndexOf(m, k)
    case Some(i) =>
      var r := m[i := Entry(k, v)];
      IndexOfUnique(r, k, i);
      forall j | j != k
        ensures Lookup(r, j) == Lookup(m, j)
      {
        PutFramesOtherKeys(m, i, k, v, j);
      }
      r
    case None =>
      var r := m + [Entry(k, v)];
      IndexOfUnique(r, k, |m|);
      forall j | j != k
        ensures Lookup(r, j) == Lookup(m, j)
      {
        AppendFramesOtherKeys(m, k, v, j);
      }
      r
  }

  lemma PutFramesOtherKeys<V>(m: OMap<V>, i: nat, k: string, v: V, j: string)
    requires i < |m| && m[i].key == k && j != k
    ensures Lookup(m[i := Entry(k, v)], j) == Lookup(m, j)
  {
    var r := m[i := Entry(k, v)];
    match IndexOf(m, j)
    case None =>
      assert j !in Keys(r) by {
        forall p | 0 <= p < |r| ensures r[p].key != j {
          assert Keys(m)[p] == m[p].key;
        }
      }
    case Some(p) =>
      assert p != i;
      IndexOfUnique(r, j, p);
  }

  lemma AppendFramesOtherKeys<V>(m: OMap<V>, k: string, v: V, j: string)
    requires j != k
    ensures Lookup(m + [Entry(k, v)], j) == Lookup(m, j)
  {
    var r := m + [Entry(k, v)];
    match IndexOf(m, j)
    case None =>
      assert j !in Keys(r) by {
        forall p | 0 <= p < |r| ensures r[p].key != j {
          if p < |m| { assert Keys(m)[p] == m[p].key; }
        }
      }
    case Some(p) =>
      IndexOfUnique(r, j, p);
  }

  /** Writing the value a property already holds changes nothing. */
  lemma PutExisting<V>(m: OMap<V>, k: string, v: V)
    requires Lookup(m, k) == Some(v)
    ensures Put(m, k, v) == m
  {
  }

  /** The same value-transformation applied to every property; keys and their order are kept. */
  function MapValues<V, W>(m: OMap<V>, f: V -> W): (r: OMap<W>)
    ensures Keys(r) == Keys(m)
    ensures forall i :: 0 <= i < |m| ==> r[i].value == f(m[i].value)
  {
    seq(|m|, i requires 0 <= i < |m| => Entry(m[i].key, f(m[i].value)))
  }

  /** Looking a key up after MapValues finds the transformed value of the same property. */
  lemma LookupMapValues<V, W>(m: OMap<V>, f: V -> W, k: string)
    ensures Lookup(MapValues(m, f), k) == if Lookup(m, k).Some? then Some(f(Lookup(m, k).value)) else None
  {
  }
}
