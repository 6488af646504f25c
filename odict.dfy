/** An insertion-ordered Python `dict` with string keys: a map together with the order in
    which its keys were first inserted. Assigning to an existing key keeps
    its position; deleting a key forgets its position. */
module ODict {
  import opened Common

  datatype ODict<V> = ODict(keys: seq<string>, vals: map<string, V>) {

    /** Keys are distinct and are exactly the keys of the map. */
    ghost predicate Valid() {
      && (forall i, j :: 0 <= i < j < |keys| ==> keys[i] != keys[j])
      && (forall k :: k in vals <==> k in keys)
    }

    /** `k in d` */
    predicate Has(k: string) {
      k in vals
    }

    /** `d.get(k)` */
    function Get(k: string): (r: Option<V>)
      ensures r.Some? <==> k in vals
      ensures r.Some? ==> r.value == vals[k]
    {
      if k in vals then Some(vals[k]) else None
    }

    /** `d[k] = v` */
    function Put(k: string, v: V): (d: ODict<V>)
      requires Valid()
      ensures d.Valid()
      ensures d.vals == vals[k := v]
      ensures d.keys == if k in vals then keys else keys + [k]
    {
      if k in vals then ODict(keys, vals[k := v]) else ODict(keys + [k], vals[k := v])
    }

    /** `del d[k]` when `k in d`, and nothing otherwise. */
    function Remove(k: string): (d: ODict<V>)
      requires Valid()
      ensures d.Valid()
      ensures d.vals == vals - {k}
      ensures k !in d.keys
      ensures forall x :: x in d.keys <==> x in keys && x != k
      ensures k !in vals ==> d == this
    {
      ODict(Without(keys, k), vals - {k})
    }

    /** `list(d.values())`, in key order. */
    function Values(): (vs: seq<V>)
      requires Valid()
      ensures |vs| == |keys|
      ensures forall i :: 0 <= i < |keys| ==> vs[i] == vals[keys[i]]
    {
      seq(|keys|, i requires 0 <= i < |keys| => vals[keys[i]])
    }
  }

  function Empty<V>(): (d: ODict<V>)
    ensures d.Valid() && d.keys == [] && d.vals == map[]
  {
    ODict([], map[])
  }

  /** The sequence with every copy of `k` removed, the rest in order. */
  function Without(s: seq<string>, k: string): (r: seq<string>)
    ensures forall x :: x in r <==> x in s && x != k
    ensures (forall i, j :: 0 <= i < j < |s| ==> s[i] != s[j]) ==>
              (forall i, j :: 0 <= i < j < |r| ==> r[i] != r[j])
    ensures k !in s ==> r == s
  {
    if s == [] then []
    else if s[0] == k then Without(s[1..], k)
    else
      var rest := Without(s[1..], k);
      assert (forall i, j :: 0 <= i < j < |s| ==> s[i] != s[j]) ==> s[0] !in s[1..];
      [s[0]] + rest
  }

  /** Removing a key that occurs once closes the gap it leaves and keeps
      every other key in its place in the order. */
  lemma {:induction false} WithoutAt(s: seq<string>, p: int)
    requires forall i, j :: 0 <= i < j < |s| ==> s[i] != s[j]
    requires 0 <= p < |s|
    ensures Without(s, s[p]) == s[..p] + s[p + 1..]
  {
    if p == 0 {
      assert s[0] !in s[1..];
      assert Without(s, s[0]) == Without(s[1..], s[0]);
    } else {
      assert s[0] != s[p];
      var t := s[1..];
      assert t[p - 1] == s[p];
      WithoutAt(t, p - 1);
      assert Without(s, s[p]) == [s[0]] + Without(t, s[p]);
      assert [s[0]] + (t[..p - 1] + t[p..]) == s[..p] + s[p + 1..];
    }
  }

  /** Where a stored key sits, and what removing it leaves: the other
      keys, in order. */
  lemma RemoveKeepsOrder<V>(d: ODict<V>, k: string) returns (p: int)
    requires d.Valid() && k in d.vals
    ensures 0 <= p < |d.keys| && d.keys[p] == k
    ensures d.Remove(k).keys == d.keys[..p] + d.keys[p + 1..]
  {
    p :| 0 <= p < |d.keys| && d.keys[p] == k;
    WithoutAt(d.keys, p);
  }

  /** Assigns `src[k]` to `d[k]` for each `k` of `ks` in turn. */
  function PutKeys<V>(d: ODict<V>, ks: seq<string>, src: map<string, V>): (r: ODict<V>)
    requires d.Valid()
    requires forall k :: k in ks ==> k in src
    ensures r.Valid()
    ensures forall k :: k in r.vals <==> k in d.vals || k in ks
    ensures forall k :: k in ks ==> r.vals[k] == src[k]
    ensures forall k :: k in d.vals && k !in ks ==> r.vals[k] == d.vals[k]
    ensures |d.keys| <= |r.keys| && r.keys[..|d.keys|] == d.keys
  {
    if ks == [] then d
    else
      var k := ks[|ks| - 1];
      var init := ks[..|ks| - 1];
      assert ks == init + [k];
      var mid := PutKeys(d, init, src);
      mid.Put(k, src[k])
  }

  /** `{**d, **e}`: the keys of `d` first, in their order, then those of
      `e` that `d` lacks; a key of `e` takes its value from `e`, any other
      key keeps its value from `d`. */
  function Merge<V>(d: ODict<V>, e: ODict<V>): (r: ODict<V>)
    requires d.Valid() && e.Valid()
    ensures r.Valid()
    ensures forall k :: k in r.vals <==> k in d.vals || k in e.vals
    ensures forall k :: k in e.vals ==> r.vals[k] == e.vals[k]
    ensures forall k :: k in d.vals && k !in e.vals ==> r.vals[k] == d.vals[k]
    ensures |d.keys| <= |r.keys| && r.keys[..|d.keys|] == d.keys
  {
    PutKeys(d, e.keys, e.vals)
  }

  /** Removing twice is removing once. */
  lemma RemoveIdempotent<V>(d: ODict<V>, k: string)
    requires d.Valid()
    ensures d.Remove(k).Remove(k) == d.Remove(k)
  {
  }

  /** Putting a key leaves every other key's value alone. */
  lemma PutOthers<V>(d: ODict<V>, k: string, v: V, x: string)
    requires d.Valid() && x != k
    ensures d.Put(k, v).Get(x) == d.Get(x)
  {
  }
}
