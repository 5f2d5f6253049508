/** A JavaScript object with string keys (a parsed CSV or spreadsheet row, a record returned by
    the web service): its own properties in insertion order. `Object.keys` lists them in that
    order only when no key is an array index; keys such as "2024" come first in JavaScript, and
    this model does not reorder them. */
module Records {
  import opened JsValues
  import opened Seqs

  type Record = seq<(string, JsValue)>

  /** `Object.keys(r)`. */
  function Keys(r: Record): (ks: seq<string>)
    ensures |ks| == |r|
    ensures forall i :: 0 <= i < |r| ==> ks[i] == r[i].0
  {
    if r == [] then [] else [r[0].0] + Keys(r[1..])
  }

  predicate WellFormed(r: Record) {
    Distinct(Keys(r))
  }

  /** `r[k]`: the value stored under `k`, `undefined` when there is none. */
  function Get(r: Record, k: string): (v: JsValue)
    ensures k !in Keys(r) ==> v == Undefined
  {
    if r == [] then Undefined
    else if r[0].0 == k then r[0].1
    else Get(r[1..], k)
  }

  /** Reading a key returns the value of its first entry. */
  lemma {:induction false} GetFirstEntry(r: Record, k: string, i: nat)
    requires i < |r| && r[i].0 == k
    requires forall j :: 0 <= j < i ==> r[j].0 != k
    ensures Get(r, k) == r[i].1
  {
    if i > 0 {
      GetFirstEntry(r[1..], k, i - 1);
    }
  }

  /** `r[k] = v`: overwrite in place when `k` is present, otherwise add it last. */
  function Set(r: Record, k: string, v: JsValue): Record {
    if r == [] then [(k, v)]
    else if r[0].0 == k then [(k, v)] + r[1..]
    else [r[0]] + Set(r[1..], k, v)
  }

  /** After `r[k] = v`, `r[k]` is `v` and every other key reads as before. */
  lemma {:induction false} GetSet(r: Record, k: string, v: JsValue, k': string)
    ensures Get(Set(r, k, v), k) == v
    ensures k' != k ==> Get(Set(r, k, v), k') == Get(r, k')
  {
    if r != [] && r[0].0 != k {
      GetSet(r[1..], k, v, k');
    }
  }

  /** An assignment keeps the key order, adding a new key last. */
  lemma {:induction false} KeysSet(r: Record, k: string, v: JsValue)
    ensures Keys(Set(r, k, v)) == if k in Keys(r) then Keys(r) else Keys(r) + [k]
  {
    if r != [] && r[0].0 != k {
      KeysSet(r[1..], k, v);
    }
  }

  /** Assigning keeps the keys distinct. */
  lemma SetWellFormed(r: Record, k: string, v: JsValue)
    requires WellFormed(r)
    ensures WellFormed(Set(r, k, v))
  {
    KeysSet(r, k, v);
  }

  /** Setting keys one by one keeps the keys the first-appearance list of the keys set. */
  lemma KeysSetDedup(r: Record, keys: seq<string>, k: string, v: JsValue)
    requires Keys(r) == Dedup(keys)
    ensures Keys(Set(r, k, v)) == Dedup(keys + [k])
  {
    KeysSet(r, k, v);
    DedupSnoc(keys, k);
  }
}
