/**
 * `LockService`: a lock is the presence of its key in the shared store.
 * Acquiring is SET NX with the fixed value "locked"; releasing is an
 * unconditional DEL with no owner check. The time-to-live is not a clock
 * here: its firing is the environment step `Expire`.
 */
module Lock {
  import opened KeyValue

  const Sentinel: string := "locked"

  /** `tryLock(key, ttl)`: true exactly when this call created the key. */
  function TryLock(kv: Store, key: string): (r: Written)
    ensures r.wrote <==> key !in kv
    ensures r.wrote ==> key in r.kv && r.kv[key] == Sentinel
    ensures !r.wrote ==> r.kv == kv
    ensures r.kv.Keys == kv.Keys + {key}
    ensures AgreeExcept(kv, r.kv, key)
  {
    SetIfAbsent(kv, key, Sentinel)
  }

  /** `releaseLock(key)`: delete the key whoever set it. */
  function ReleaseLock(kv: Store, key: string): (kv': Store)
    ensures key !in kv'
    ensures kv'.Keys == kv.Keys - {key}
    ensures AgreeExcept(kv, kv', key)
  {
    Delete(kv, key)
  }

  /** The store dropping `key` because its time-to-live ran out. */
  function Expire(kv: Store, key: string): (kv': Store)
    ensures key !in kv'
    ensures AgreeExcept(kv, kv', key)
  {
    Delete(kv, key)
  }

  /** Two acquisitions of the same key with nothing in between: at most one succeeds. */
  lemma MutualExclusion(kv: Store, key: string)
    ensures var first := TryLock(kv, key);
            !(first.wrote && TryLock(first.kv, key).wrote)
  {
  }

  /** After a release, or after expiry, the next acquisition succeeds. */
  lemma ReleaseEnablesAcquire(kv: Store, key: string)
    ensures TryLock(ReleaseLock(kv, key), key).wrote
    ensures TryLock(Expire(kv, key), key).wrote
  {
  }

  /** What can happen to one lock key: some worker tries it, some worker releases it, or it expires. */
  datatype Event = Acquire | Release | Expiry

  function Step(kv: Store, key: string, e: Event): (r: Written)
    ensures e != Acquire ==> !r.wrote
  {
    match e
    case Acquire => TryLock(kv, key)
    case Release => Written(false, ReleaseLock(kv, key))
    case Expiry => Written(false, Expire(kv, key))
  }

  /** For each event in turn, whether it was a successful acquisition. */
  function Replay(kv: Store, key: string, events: seq<Event>): (acquired: seq<bool>)
    ensures |acquired| == |events|
    decreases |events|
  {
    if |events| == 0 then []
    else
      var r := Step(kv, key, events[0]);
      [r.wrote] + Replay(r.kv, key, events[1..])
  }

  /** While the key is held and nobody releases it or lets it expire, every attempt fails. */
  lemma {:induction false} HeldKeyBlocks(kv: Store, key: string, events: seq<Event>, j: nat)
    requires key in kv
    requires j < |events|
    requires forall m :: 0 <= m < j ==> events[m] == Acquire
    ensures !Replay(kv, key, events)[j]
    decreases j
  {
    if j > 0 {
      var r := Step(kv, key, events[0]);
      assert r.kv == kv;
      HeldKeyBlocks(kv, key, events[1..], j - 1);
    }
  }

  /**
   * Mutual exclusion over any history of one key: between two successful
   * acquisitions there is always a release or an expiry.
   */
  lemma {:induction false} AtMostOneHolder(kv: Store, key: string, events: seq<Event>, i: nat, j: nat)
    requires i < j < |events|
    requires Replay(kv, key, events)[i] && Replay(kv, key, events)[j]
    ensures exists m :: i < m < j && events[m] != Acquire
    decreases i
  {
    var r := Step(kv, key, events[0]);
    var rest := Replay(r.kv, key, events[1..]);
    assert Replay(kv, key, events) == [r.wrote] + rest;
    if i == 0 {
      if forall m :: 0 < m < j ==> events[m] == Acquire {
        assert key in r.kv;
        HeldKeyBlocks(r.kv, key, events[1..], j - 1);
        assert false;
      }
    } else {
      AtMostOneHolder(r.kv, key, events[1..], i - 1, j - 1);
      var m :| i - 1 < m < j - 1 && events[1..][m] != Acquire;
      assert events[m + 1] != Acquire;
    }
  }
}
