/**
 * The shared Redis key space, reduced to a finite map from key to string value.
 * Each function is one Redis command issued through the reactive template;
 * expiry is not a clock here but an environment step (`Lock.Expire`).
 */
module KeyValue {
  import opened Results

  type Store = map<string, string>

  /** `a` and `b` hold the same entries at every key other than `key`. */
  ghost predicate AgreeExcept(a: Store, b: Store, key: string) {
    forall k :: k != key ==> (k in a <==> k in b) && (k in a ==> a[k] == b[k])
  }

  /** GET: the value under `key`, or empty when there is none. */
  function Get(kv: Store, key: string): (r: Option<string>)
    ensures r.Some? <==> key in kv
    ensures r.Some? ==> r.value == kv[key]
  {
    if key in kv then Some(kv[key]) else None
  }

  /** SET: overwrite (or create) `key` and touch nothing else. */
  function Set(kv: Store, key: string, value: string): (kv': Store)
    ensures Get(kv', key) == Some(value)
    ensures kv'.Keys == kv.Keys + {key}
    ensures AgreeExcept(kv, kv', key)
  {
    kv[key := value]
  }

  /** DEL: remove `key` if present; a missing key is not an error. */
  function Delete(kv: Store, key: string): (kv': Store)
    ensures Get(kv', key) == None
    ensures kv'.Keys == kv.Keys - {key}
    ensures AgreeExcept(kv, kv', key)
    ensures key !in kv ==> kv' == kv
  {
    kv - {key}
  }

  /** A second SET of the same key hides the first. */
  lemma SetTwice(kv: Store, key: string, a: string, b: string)
    ensures Set(Set(kv, key, a), key, b) == Set(kv, key, b)
  {
  }

  /** The outcome of a conditional write: whether it wrote, and the store after. */
  datatype Written = Written(wrote: bool, kv: Store)

  /** SET NX: write `value` under `key` only when the key is absent, atomically. */
  function SetIfAbsent(kv: Store, key: string, value: string): (r: Written)
    ensures r.wrote <==> key !in kv
    ensures r.wrote ==> r.kv == Set(kv, key, value)
    ensures !r.wrote ==> r.kv == kv
  {
    if key in kv then Written(false, kv) else Written(true, Set(kv, key, value))
  }
}
