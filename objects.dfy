/** A JavaScript plain object as the list of its own properties in
    insertion order, which is the order object spread and the form
    encoder walk them in. */
module Objects {
  import opened Wrappers

  type Entries<V> = seq<(string, V)>

  /** The property names, in order (`Object.keys`). */
  function Keys<V>(o: Entries<V>): seq<string>
  {
    if o == [] then [] else [o[0].0] + Keys(o[1..])
  }

  /** A JavaScript object never holds the same property twice. */
  ghost predicate DistinctKeys<V>(o: Entries<V>)
  {
    o == [] || (o[0].0 !in Keys(o[1..]) && DistinctKeys(o[1..]))
  }

  /** Property access `o[k]`, `None` standing for `undefined`. */
  function Lookup<V>(o: Entries<V>, k: string): (r: Option<V>)
    ensures r.Some? <==> k in Keys(o)
    ensures r.Some? ==> (k, r.value) in o
  {
    if o == [] then None
    else if o[0].0 == k then Some(o[0].1)
    else Lookup(o[1..], k)
  }

  /** `{...o, [k]: v}`: a property already present keeps its position and
      takes the new value; a new property goes last. */
  function Put<V>(o: Entries<V>, k: string, v: V): (r: Entries<V>)
    ensures Lookup(r, k) == Some(v)
    ensures forall k' :: k' != k ==> Lookup(r, k') == Lookup(o, k')
    ensures Keys(r) == if k in Keys(o) then Keys(o) else Keys(o) + [k]
    ensures DistinctKeys(o) ==> DistinctKeys(r)
  {
    if o == [] then [(k, v)]
    else if o[0].0 == k then [(k, v)] + o[1..]
    else
      var r := [o[0]] + Put(o[1..], k, v);
      assert r[1..] == Put(o[1..], k, v);
      r
  }

  /** `{...a, ...b}`: the properties of `b` are put onto a copy of `a`, one
      after the other. */
  function Spread<V>(a: Entries<V>, b: Entries<V>): (r: Entries<V>)
    ensures DistinctKeys(b) ==>
      forall k :: Lookup(r, k) == if k in Keys(b) then Lookup(b, k) else Lookup(a, k)
    ensures DistinctKeys(a) ==> DistinctKeys(r)
    ensures |Keys(a)| <= |Keys(r)| && Keys(r)[..|Keys(a)|] == Keys(a)
    decreases |b|
  {
    if b == [] then a
    else Spread(Put(a, b[0].0, b[0].1), b[1..])
  }
}
