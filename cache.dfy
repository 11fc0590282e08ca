/**
 * The cache rule shared by the fact and trends widgets: a stored value is
 * served without a request while its stored timestamp is less than five
 * minutes old, and a successful request stores a value and a timestamp with
 * two `localStorage.setItem` calls.
 */
module Cache {
  import opened JsValues

  /** Five minutes, in milliseconds. */
  const StalenessWindow := 300000

  /** The cache test: both stored strings are truthy and
      `now - parseInt(stamp) < 300000`; a NaN age fails the comparison. */
  predicate IsFresh(value: Option<string>, stamp: Option<string>, now: int) {
    Truthy(value) && Truthy(stamp) &&
    match ParseInt(stamp.value)
    case None => false
    case Some(t) => now - t < StalenessWindow
  }

  /** How the two `setItem` calls of a success path ended: both stored, or
      the storage quota made the first (nothing stored) or the second (only
      the value stored) throw. */
  datatype Writes = BothStored | FirstThrows | SecondThrows

  /** Storage after `setItem(valueKey, value)` then `setItem(stampKey, stamp)`. */
  function Persist(storage: map<string, string>, valueKey: string, stampKey: string,
                   value: string, stamp: string, writes: Writes): (r: map<string, string>)
    requires valueKey != stampKey
    ensures forall k :: k != valueKey && k != stampKey ==>
      (k in r <==> k in storage) && (k in r ==> r[k] == storage[k])
    ensures writes.FirstThrows? ==> r == storage
    ensures !writes.FirstThrows? ==> valueKey in r && r[valueKey] == value
    ensures writes.BothStored? ==> stampKey in r && r[stampKey] == stamp
    ensures writes.SecondThrows? ==> GetItem(r, stampKey) == GetItem(storage, stampKey)
  {
    match writes
    case BothStored => storage[valueKey := value][stampKey := stamp]
    case SecondThrows => storage[valueKey := value]
    case FirstThrows => storage
  }

  /** A value stored together with `t.toString()` is served from the cache
      exactly when it is non-empty and less than 300000 ms have passed since
      `t`: at an age of exactly 300000 ms the cache is stale. */
  lemma StoredStampFreshness(value: string, t: int, now: int)
    ensures IsFresh(Some(value), Some(IntToString(t)), now) <==>
      value != "" && now - t < StalenessWindow
  {
    ParseIntToString(t);
    assert IntToString(t) != "" by {
      if t < 0 { assert IntToString(t)[0] == '-'; }
    }
  }

  /** A stored timestamp that does not start (after white space) with a sign
      or a digit parses to NaN, so the cache is never fresh and a request
      follows. */
  lemma NonNumericStampIsStale(value: Option<string>, stamp: string, now: int)
    requires var t := TrimStart(stamp);
      t == "" || (t[0] != '+' && t[0] != '-' && !IsDecimalDigit(t[0]))
    ensures !IsFresh(value, Some(stamp), now)
  {
    ParseIntNaN(stamp);
  }
}
