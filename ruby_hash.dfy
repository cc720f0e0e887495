/** The part of Ruby's `Hash` that the yank command uses to build its form
    data: an insertion-ordered table of string keys, read with `h[k]` and
    written with `h[k] = v`. Writing an existing key replaces its value where
    it stands; writing a new key appends it at the end. */
module RubyHash {
  import opened Wrappers

  type Entries = seq<(string, string)>

  /** The keys of `h`, in insertion order. */
  function Keys(h: Entries): (ks: seq<string>)
    ensures |ks| == |h|
    ensures forall i :: 0 <= i < |h| ==> ks[i] == h[i].0
  {
    if h == [] then [] else [h[0].0] + Keys(h[1..])
  }

  /** No key occurs twice: every table built by Store keeps this. */
  predicate DistinctKeys(h: Entries)
  {
    forall i, j :: 0 <= i < j < |h| ==> h[i].0 != h[j].0
  }

  /** `h[k]`: the value stored under `k`, or nil when `k` is absent. */
  function Lookup(h: Entries, k: string): (r: Option<string>)
    ensures r.None? <==> k !in Keys(h)
    ensures r.Some? ==> (k, r.value) in h
  {
    if h == [] then None
    else if h[0].0 == k then Some(h[0].1)
    else Lookup(h[1..], k)
  }

  /** `h[k] = v`. */
  function Store(h: Entries, k: string, v: string): (r: Entries)
    ensures k !in Keys(h) ==> r == h + [(k, v)]
    ensures k in Keys(h) ==> Keys(r) == Keys(h)
    ensures Lookup(r, k) == Some(v)
    ensures forall k' :: k' != k ==> Lookup(r, k') == Lookup(h, k')
  {
    if h == [] then [(k, v)]
    else if h[0].0 == k then [(k, v)] + h[1..]
    else [h[0]] + Store(h[1..], k, v)
  }

}
