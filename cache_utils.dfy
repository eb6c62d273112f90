/** The time-to-live check shared by the product, category and featured caches. */
module CacheUtils {
  import opened Wrappers
  import opened JsText
  import opened Numeric
  import opened Storage

  /** One hour, in milliseconds. */
  const CacheDuration: int := 3600000

  /** The sibling key under which the write time of `key` is stored. */
  function TimestampKey(key: string): string {
    key + "_timestamp"
  }

  /** Distinct keys have distinct timestamp siblings. */
  lemma TimestampKeyInjective(a: string, b: string)
    ensures TimestampKey(a) == TimestampKey(b) ==> a == b
  {
    if TimestampKey(a) == TimestampKey(b) {
      assert a == TimestampKey(a)[..|a|];
      assert b == TimestampKey(b)[..|b|];
    }
  }

  /**
   * `isCacheValid(key)` at clock value `now`: the timestamp sibling must be present and
   * non-empty, `parseInt` must read a number from it, and strictly less than one hour
   * must have passed since.
   */
  function IsCacheValid(items: map<string, string>, key: string, now: int): (valid: bool)
    ensures valid ==> Present(items, TimestampKey(key))
    ensures valid ==> exists t :: ParseInt(items[TimestampKey(key)]) == Some(t) && now - t < CacheDuration
  {
    var stamp := TimestampKey(key);
    if !Present(items, stamp) then
      false
    else
      match ParseInt(items[stamp])
      case None => false
      case Some(t) => now - t < CacheDuration
  }

  /** A timestamp written as `String(t)` makes the entry valid exactly while less than an hour has passed. */
  lemma StampedEntryValidity(items: map<string, string>, key: string, t: int, now: int)
    ensures IsCacheValid(items[TimestampKey(key) := IntToString(t)], key, now) <==> now - t < CacheDuration
  {
    ParseIntOfIntToString(t);
  }

  /** The same, for a map that already holds the stamp `String(t)`. */
  lemma StampValidity(items: map<string, string>, key: string, t: int, now: int)
    requires TimestampKey(key) in items && items[TimestampKey(key)] == IntToString(t)
    ensures IsCacheValid(items, key, now) <==> now - t < CacheDuration
  {
    assert items == items[TimestampKey(key) := IntToString(t)];
    StampedEntryValidity(items, key, t, now);
  }

  /** The boundary: valid 3,599,999 ms after writing, stale at exactly 3,600,000 ms. */
  lemma ExpiryBoundary(items: map<string, string>, key: string, t: int)
    ensures IsCacheValid(items[TimestampKey(key) := IntToString(t)], key, t + 3599999)
    ensures !IsCacheValid(items[TimestampKey(key) := IntToString(t)], key, t + 3600000)
  {
    StampedEntryValidity(items, key, t, t + 3599999);
    StampedEntryValidity(items, key, t, t + 3600000);
  }

  /** A timestamp with no digit at all reads as NaN, which makes the entry stale rather than an error. */
  lemma UnreadableStampIsStale(items: map<string, string>, key: string, now: int)
    requires TimestampKey(key) in items
    requires forall i | 0 <= i < |items[TimestampKey(key)]| :: !IsDigit(items[TimestampKey(key)][i])
    ensures !IsCacheValid(items, key, now)
  {
    ParseIntWithoutDigits(items[TimestampKey(key)]);
  }

  /** Valid now means valid at every earlier clock value, including one before the stamp. */
  lemma ValidityIsMonotone(items: map<string, string>, key: string, now: int, earlier: int)
    requires earlier <= now
    ensures IsCacheValid(items, key, now) ==> IsCacheValid(items, key, earlier)
  {
  }

  /** The answer depends on the timestamp sibling alone: every other key may differ. */
  lemma ReadsOnlyTimestamp(items: map<string, string>, other: map<string, string>, key: string, now: int)
    requires TimestampKey(key) in items <==> TimestampKey(key) in other
    requires TimestampKey(key) in items ==> items[TimestampKey(key)] == other[TimestampKey(key)]
    ensures IsCacheValid(items, key, now) == IsCacheValid(other, key, now)
  {
  }
}
