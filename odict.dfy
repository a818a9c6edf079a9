/** A Python `dict` keyed by `str`: a finite map together with the order in which its keys were
    first inserted (Python dicts iterate, and `json.dump` writes, in that order). Assigning to
    an existing key keeps its position. */
module ODicts {

  datatype ODict<V> = ODict(keys: seq<string>, m: map<string, V>) {

    /** The key sequence lists each key of the map exactly once. */
    ghost predicate Valid() {
      && (forall i, j :: 0 <= i < j < |keys| ==> keys[i] != keys[j])
      && (forall k :: k in m <==> k in keys)
    }

    /** `d[k] = v` */
    function Put(k: string, v: V): (d: ODict<V>)
      ensures Valid() ==> d.Valid()
      ensures d.m == m[k := v]
      ensures d.keys == if k in m then keys else keys + [k]
    {
      if k in m then ODict(keys, m[k := v]) else ODict(keys + [k], m[k := v])
    }

    /** `d.items()`: the entries in key order. */
    function Items(): (r: seq<(string, V)>)
      ensures forall i :: 0 <= i < |r| ==> r[i].0 in m && r[i].1 == m[r[i].0]
      ensures Valid() ==> |r| == |keys| && forall i :: 0 <= i < |r| ==> r[i].0 == keys[i]
    {
      ItemsOf(keys, m)
    }

    /** `d.get(k, dflt)` */
    function GetOr(k: string, dflt: V): V {
      if k in m then m[k] else dflt
    }
  }

  /** `{}` */
  function Empty<V>(): (d: ODict<V>)
    ensures d.Valid() && d.keys == [] && d.m == map[]
  {
    ODict([], map[])
  }

  /** The entries of `m` for the keys `ks` that it holds, in the order of `ks`. */
  function ItemsOf<V>(ks: seq<string>, m: map<string, V>): (r: seq<(string, V)>)
    ensures forall i :: 0 <= i < |r| ==> r[i].0 in m && r[i].1 == m[r[i].0]
    ensures (forall i :: 0 <= i < |ks| ==> ks[i] in m) ==> |r| == |ks| && forall i :: 0 <= i < |r| ==> r[i].0 == ks[i]
  {
    if |ks| == 0 then []
    else (if ks[0] in m then [(ks[0], m[ks[0]])] else []) + ItemsOf(ks[1..], m)
  }
}
