/**
 * CachedWeatherData: a reading paired with the clock reading (milliseconds)
 * taken when it was cached, and its time-to-live check.
 */
module Cache {
  import opened Models

  datatype CachedWeatherData = CachedWeatherData(data: WeatherResponse, timestamp: int)

  /** Duration.ofMinutes(m).toMillis(). */
  function MinutesToMillis(minutes: int): int {
    minutes * 60 * 1000
  }

  /** isExpired(ttl), with the clock read `now` passed in: the age strictly exceeds the TTL. */
  predicate IsExpired(entry: CachedWeatherData, ttlMillis: int, now: int) {
    now - entry.timestamp > ttlMillis
  }

  /** Expiry sets in just after the TTL: at an age equal to the TTL the entry is still live. */
  lemma ExpiryBoundary(entry: CachedWeatherData, ttlMillis: int)
    ensures !IsExpired(entry, ttlMillis, entry.timestamp + ttlMillis)
    ensures IsExpired(entry, ttlMillis, entry.timestamp + ttlMillis + 1)
  {
  }

  /** An entry created now (timestamp == now) is live for every TTL that is not negative. */
  lemma FreshEntryLive(data: WeatherResponse, now: int, ttlMillis: int)
    requires ttlMillis >= 0
    ensures !IsExpired(CachedWeatherData(data, now), ttlMillis, now)
  {
  }

  /** Once expired, an entry stays expired as the clock moves on. */
  lemma ExpiryMonotoneInTime(entry: CachedWeatherData, ttlMillis: int, now: int, later: int)
    requires now <= later
    ensures IsExpired(entry, ttlMillis, now) ==> IsExpired(entry, ttlMillis, later)
  {
  }

  /** A longer TTL never turns a live entry into an expired one. */
  lemma ExpiryAntitoneInTtl(entry: CachedWeatherData, ttlMillis: int, longerTtl: int, now: int)
    requires ttlMillis <= longerTtl
    ensures IsExpired(entry, longerTtl, now) ==> IsExpired(entry, ttlMillis, now)
  {
  }
}
