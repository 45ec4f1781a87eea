/**
 * `FailedMessageService`: the failure ledger. Each order's record is one
 * string `"<count>|<payload>"` stored under `failed-order:<orderId>`.
 * Reading splits at the first `|` only, so the payload may itself hold `|`.
 * Redis failures are not modelled here; the pipeline injects them around
 * these commands.
 */
module Ledger {
  import opened Results
  import opened Decimal
  import opened KeyValue
  import opened Errors

  const KeyPrefix: string := "failed-order:"
  const Delimiter: char := '|'

  /** `buildKey`. */
  function KeyFor(orderId: string): (key: string)
    ensures |key| == |KeyPrefix| + |orderId|
    ensures key[..|KeyPrefix|] == KeyPrefix && key[|KeyPrefix|..] == orderId
  {
    KeyPrefix + orderId
  }

  /** The stored form of a record. */
  function Encode(count: int, payload: string): string {
    IntToString(count) + [Delimiter] + payload
  }

  /**
   * A stored record is the count's digits, then the value's first `|`, then
   * the payload exactly as given.
   */
  lemma EncodeLayout(count: int, payload: string)
    ensures var e := Encode(count, payload);
            var n := |IntToString(count)|;
            && n < |e| && e[..n] == IntToString(count)
            && e[n] == Delimiter && Delimiter !in e[..n]
            && e[n + 1..] == payload
  {
    IntToStringExcludes(count, Delimiter);
  }

  /** A decoded record. */
  datatype Entry = Entry(count: Int32, payload: string)

  /** The position of the first `c` in `s`, if any. */
  function FirstIndexOf(s: string, c: char): (r: Option<nat>)
    ensures r.None? <==> c !in s
    ensures r.Some? ==> r.value < |s| && s[r.value] == c && c !in s[..r.value]
    decreases |s|
  {
    if |s| == 0 then None
    else if s[0] == c then Some(0)
    else
      match FirstIndexOf(s[1..], c)
      case None => None
      case Some(i) =>
        assert s[1..][..i] == s[1..i + 1];
        assert s[..i + 1] == [s[0]] + s[1..i + 1];
        Some(i + 1)
  }

  /**
   * `value.split("\\|", 2)` followed by `Integer.parseInt(parts[0])`:
   * no delimiter is a malformed value, an unreadable count a number-format error.
   */
  function Decode(key: string, value: string): (r: Result<Entry, Failure>)
    ensures r == Failure(MalformedLedgerValue(key)) <==> Delimiter !in value
    ensures r.Success? ==>
              && |r.value.payload| < |value|
              && var cut := |value| - |r.value.payload| - 1;
              && value[cut] == Delimiter
              && Delimiter !in value[..cut]
              && value[cut + 1..] == r.value.payload
              && ParseInt(value[..cut]) == Some(r.value.count)
    ensures Delimiter in value ==>
              var cut := FirstIndexOf(value, Delimiter).value;
              && (ParseInt(value[..cut]).Some? ==>
                    r == Success(Entry(ParseInt(value[..cut]).value, value[cut + 1..])))
              && (ParseInt(value[..cut]).None? ==> r == Failure(NumberFormat(value[..cut])))
  {
    match FirstIndexOf(value, Delimiter)
    case None => Failure(MalformedLedgerValue(key))
    case Some(cut) =>
      var head := value[..cut];
      match ParseInt(head)
      case None => Failure(NumberFormat(head))
      case Some(n) => Success(Entry(n, value[cut + 1..]))
  }

  /** Splitting at the first delimiter undoes `Encode`, whatever the payload holds. */
  lemma DecodeEncode(key: string, count: Int32, payload: string)
    ensures Decode(key, Encode(count, payload)) == Success(Entry(count, payload))
  {
    EncodeLayout(count, payload);
    assert FirstIndexOf(Encode(count, payload), Delimiter) == Some(|IntToString(count)|);
    ParseIntToString(count);
  }

  /** `storeFailedMessage(orderId, payload, count)`. */
  function StoreFailedMessage(kv: Store, orderId: string, payload: string, count: Int32): (kv': Store)
    ensures kv'.Keys == kv.Keys + {KeyFor(orderId)}
    ensures AgreeExcept(kv, kv', KeyFor(orderId))
    ensures Decode(KeyFor(orderId), kv'[KeyFor(orderId)]) == Success(Entry(count, payload))
  {
    DecodeEncode(KeyFor(orderId), count, payload);
    Set(kv, KeyFor(orderId), Encode(count, payload))
  }

  /** `getRetryAndMessage(orderId)`: empty when there is no record. */
  function GetRetryAndMessage(kv: Store, orderId: string): (r: Result<Option<Entry>, Failure>)
    ensures r == Success(None) <==> KeyFor(orderId) !in kv
    ensures r == Failure(MalformedLedgerValue(KeyFor(orderId))) <==>
              KeyFor(orderId) in kv && Delimiter !in kv[KeyFor(orderId)]
    ensures r.Success? && r.value.Some? ==>
              KeyFor(orderId) in kv && Decode(KeyFor(orderId), kv[KeyFor(orderId)]) == Success(r.value.value)
    ensures KeyFor(orderId) in kv && Decode(KeyFor(orderId), kv[KeyFor(orderId)]).Success? ==>
              r.Success? && r.value.Some?
    ensures KeyFor(orderId) in kv && Decode(KeyFor(orderId), kv[KeyFor(orderId)]).Failure? ==>
              r == Failure(Decode(KeyFor(orderId), kv[KeyFor(orderId)]).error)
  {
    match Get(kv, KeyFor(orderId))
    case None => Success(None)
    case Some(v) =>
      match Decode(KeyFor(orderId), v)
      case Failure(e) => Failure(e)
      case Success(entry) => Success(Some(entry))
  }

  /** The count `incrementRetry` emits, with the store it leaves behind. */
  datatype Bumped = Bumped(count: Int32, kv: Store)

  /**
   * `incrementRetry(orderId)`: read the record, add one to its count in Java
   * `int` arithmetic, write it back with the payload it had, and emit the new
   * count. No record: nothing is written and nothing emitted.
   */
  function IncrementRetry(kv: Store, orderId: string): (r: Result<Option<Bumped>, Failure>)
    ensures r == Success(None) <==> KeyFor(orderId) !in kv
    ensures r == Failure(MalformedLedgerValue(KeyFor(orderId))) <==>
              KeyFor(orderId) in kv && Delimiter !in kv[KeyFor(orderId)]
    ensures r.Success? && r.value.Some? ==>
              && KeyFor(orderId) in kv
              && var before := Decode(KeyFor(orderId), kv[KeyFor(orderId)]);
              && before.Success?
              && r.value.value.count == Wrap(before.value.count + 1)
              && KeyFor(orderId) in r.value.value.kv
              && Decode(KeyFor(orderId), r.value.value.kv[KeyFor(orderId)])
                   == Success(Entry(r.value.value.count, before.value.payload))
              && r.value.value.kv.Keys == kv.Keys
              && AgreeExcept(kv, r.value.value.kv, KeyFor(orderId))
    ensures KeyFor(orderId) in kv && Decode(KeyFor(orderId), kv[KeyFor(orderId)]).Success? ==>
              r.Success? && r.value.Some?
    ensures KeyFor(orderId) in kv && Decode(KeyFor(orderId), kv[KeyFor(orderId)]).Failure? ==>
              r == Failure(Decode(KeyFor(orderId), kv[KeyFor(orderId)]).error)
  {
    match GetRetryAndMessage(kv, orderId)
    case Failure(e) => Failure(e)
    case Success(None) => Success(None)
    case Success(Some(entry)) =>
      var next := Wrap(entry.count + 1);
      Success(Some(Bumped(next, StoreFailedMessage(kv, orderId, entry.payload, next))))
  }

  /** `removeFailedMessage(orderId)`. */
  function RemoveFailedMessage(kv: Store, orderId: string): (kv': Store)
    ensures GetRetryAndMessage(kv', orderId) == Success(None)
    ensures kv'.Keys == kv.Keys - {KeyFor(orderId)}
    ensures AgreeExcept(kv, kv', KeyFor(orderId))
    ensures KeyFor(orderId) !in kv ==> kv' == kv
  {
    Delete(kv, KeyFor(orderId))
  }

  /** The wire format: key `failed-order:<orderId>`, value `<count>|<payload>`. */
  lemma StoreFormat(kv: Store, orderId: string, payload: string, count: Int32)
    ensures StoreFailedMessage(kv, orderId, payload, count)["failed-order:" + orderId]
              == IntToString(count) + "|" + payload
  {
  }

  /** A dead letter's stored form. */
  lemma EncodeZero(payload: string)
    ensures Encode(0, payload) == "0|" + payload
  {
    assert IntToString(0) == [DigitChar(0)];
  }

  /** A value without `|` is reported with the key it was read from, by both readers. */
  lemma MalformedReported(kv: Store, orderId: string)
    requires KeyFor(orderId) in kv && Delimiter !in kv[KeyFor(orderId)]
    ensures GetRetryAndMessage(kv, orderId).Failure?
    ensures IncrementRetry(kv, orderId).Failure?
    ensures Message(GetRetryAndMessage(kv, orderId).error)
              == "Malformed Redis value for key: " + "failed-order:" + orderId
    ensures IncrementRetry(kv, orderId).error == GetRetryAndMessage(kv, orderId).error
  {
    assert GetRetryAndMessage(kv, orderId) == Failure(MalformedLedgerValue(KeyFor(orderId)));
  }

  /** Distinct orders have distinct ledger keys. */
  lemma KeyForInjective(a: string, b: string)
    requires KeyFor(a) == KeyFor(b)
    ensures a == b
  {
    assert a == KeyFor(a)[|KeyPrefix|..];
  }

  /** Store then read: the same count and payload come back, even when the payload holds `|`. */
  lemma StoreThenRead(kv: Store, orderId: string, payload: string, count: Int32)
    ensures GetRetryAndMessage(StoreFailedMessage(kv, orderId, payload, count), orderId)
              == Success(Some(Entry(count, payload)))
  {
  }

  /** Incrementing `"n|p"` stores `"(n+1)|p"` and emits `n+1`. */
  lemma IncrementEncoded(kv: Store, orderId: string, n: Int32, p: string)
    requires KeyFor(orderId) in kv && kv[KeyFor(orderId)] == Encode(n, p)
    requires n < IntMax
    ensures IncrementRetry(kv, orderId)
              == Success(Some(Bumped(n + 1, kv[KeyFor(orderId) := Encode(n + 1, p)])))
  {
    DecodeEncode(KeyFor(orderId), n, p);
  }

  /** `k` increments in a row. */
  function IncrementTimes(kv: Store, orderId: string, k: nat): Result<Option<Bumped>, Failure>
    decreases k
  {
    if k == 0 then Success(Some(Bumped(0, kv)))
    else
      match IncrementTimes(kv, orderId, k - 1)
      case Success(Some(b)) => IncrementRetry(b.kv, orderId)
      case other => other
  }

  lemma IncrementTimesStep(kv: Store, orderId: string, k: nat, b: Bumped)
    requires 0 < k && IncrementTimes(kv, orderId, k - 1) == Success(Some(b))
    ensures IncrementTimes(kv, orderId, k) == IncrementRetry(b.kv, orderId)
  {
  }

  lemma IncrementTimesNext(kv: Store, orderId: string, n: Int32, p: string, k: nat)
    requires 1 < k && n + k <= IntMax
    requires IncrementTimes(kv, orderId, k - 1)
               == Success(Some(Bumped(n + k - 1, kv[KeyFor(orderId) := Encode(n + k - 1, p)])))
    ensures IncrementTimes(kv, orderId, k)
              == Success(Some(Bumped(n + k, kv[KeyFor(orderId) := Encode(n + k, p)])))
  {
    var m: Int32 := n + k - 1;
    IncrementTimesStep(kv, orderId, k, Bumped(m, kv[KeyFor(orderId) := Encode(m, p)]));
    IncrementOver(kv, orderId, m, p);
  }

  /** Incrementing over a record written as `"m|p"`: the record becomes `"(m+1)|p"`, whatever stood there before. */
  lemma IncrementOver(kv: Store, orderId: string, m: Int32, p: string)
    requires m < IntMax
    ensures var key := KeyFor(orderId);
            IncrementRetry(kv[key := Encode(m, p)], orderId) == Success(Some(Bumped(m + 1, kv[key := Encode(m + 1, p)])))
  {
    var key := KeyFor(orderId);
    IncrementEncoded(kv[key := Encode(m, p)], orderId, m, p);
    SetTwice(kv, key, Encode(m, p), Encode(m + 1, p));
  }

  /** A single increment of `"n|p"` leaves `"(n+1)|p"`. */
  lemma IncrementTimesOnce(kv: Store, orderId: string, n: Int32, p: string)
    requires KeyFor(orderId) in kv && kv[KeyFor(orderId)] == Encode(n, p)
    requires n < IntMax
    ensures IncrementTimes(kv, orderId, 1)
              == Success(Some(Bumped(n + 1, kv[KeyFor(orderId) := Encode(n + 1, p)])))
  {
    IncrementTimesStep(kv, orderId, 1, Bumped(0, kv));
    IncrementEncoded(kv, orderId, n, p);
  }

  /**
   * `k` increments of `"n|p"` leave `"(n+k)|p"` as long as the count stays
   * in the `int` range: the count only ever goes up and the payload never moves.
   */
  lemma {:induction false} IncrementTimesEncoded(kv: Store, orderId: string, n: Int32, p: string, k: nat)
    requires KeyFor(orderId) in kv && kv[KeyFor(orderId)] == Encode(n, p)
    requires 0 < k && n + k <= IntMax
    ensures IncrementTimes(kv, orderId, k)
              == Success(Some(Bumped(n + k, kv[KeyFor(orderId) := Encode(n + k, p)])))
    decreases k
  {
    if k == 1 {
      IncrementTimesOnce(kv, orderId, n, p);
    } else {
      IncrementTimesEncoded(kv, orderId, n, p, k - 1);
      IncrementTimesNext(kv, orderId, n, p, k);
    }
  }

  /** At the top of the `int` range the count wraps to the most negative `int`. */
  lemma IncrementWrapsAtIntMax(kv: Store, orderId: string, p: string)
    ensures var key := KeyFor(orderId);
            IncrementRetry(kv[key := Encode(IntMax, p)], orderId)
              == Success(Some(Bumped(IntMin, kv[key := Encode(IntMin, p)])))
  {
    var key := KeyFor(orderId);
    DecodeEncode(key, IntMax, p);
    SetTwice(kv, key, Encode(IntMax, p), Encode(IntMin, p));
  }
}
