/** The cache's freshness rule (`getEarliestValidInstant` and the two
    `isValid` overloads): a blob is fresh while its last-accessed time, or its
    last-modified time when access tracking is off, is after "now, truncated
    to the second, minus the TTL". */
module Validity {
  import opened Wrappers
  import opened BlobStore

  const MillisPerSecond := 1000

  /** `Instant.truncatedTo(ChronoUnit.SECONDS)` on epoch milliseconds (a floor,
      also for instants before the epoch). */
  function TruncateToSeconds(t: int): (r: int)
    ensures r <= t < r + MillisPerSecond
    ensures r % MillisPerSecond == 0
  {
    t - t % MillisPerSecond
  }

  /** `getEarliestValidInstant`: `None` stands for `Instant.MIN`, used when the
      TTL is zero or negative. */
  function EarliestValidInstant(ttlSeconds: int, now: int): (r: Option<int>)
    ensures r.None? <==> ttlSeconds <= 0
    ensures r.Some? ==> r.value % MillisPerSecond == 0
    ensures r.Some? ==> now - ttlSeconds * MillisPerSecond - MillisPerSecond < r.value <= now - ttlSeconds * MillisPerSecond
  {
    if ttlSeconds > 0 then Some(TruncateToSeconds(now) - ttlSeconds * MillisPerSecond) else None
  }

  /** The time the TTL is measured from: last access, else last modification. */
  function ReferenceTime(b: Blob): int {
    b.lastAccessed.GetOr(b.lastModified)
  }

  /** `isValid(BlobClient)` and `isValid(BlobItem)` (`isAfter` is strict). */
  predicate IsValid(b: Blob, ttlSeconds: int, now: int) {
    match EarliestValidInstant(ttlSeconds, now)
    case None => true
    case Some(earliest) => ReferenceTime(b) > earliest
  }

  /** Validity in terms of age: with a positive TTL, a blob is valid exactly
      while its age, measured against the clock truncated to the second, is
      below the TTL. */
  lemma ValidIffYoungerThanTtl(b: Blob, ttlSeconds: int, now: int)
    ensures IsValid(b, ttlSeconds, now)
        <==> ttlSeconds <= 0 || TruncateToSeconds(now) - ReferenceTime(b) < ttlSeconds * MillisPerSecond
  {
  }

  /** A non-positive TTL disables expiry. */
  lemma NoExpiryWithoutTtl(b: Blob, ttlSeconds: int, now: int)
    requires ttlSeconds <= 0
    ensures IsValid(b, ttlSeconds, now)
  {
  }

  /** The last-accessed time, when present, decides alone. */
  lemma AccessTimeTakesPrecedence(b: Blob, lastModified: int, ttlSeconds: int, now: int)
    requires b.lastAccessed.Some?
    ensures IsValid(b, ttlSeconds, now) == IsValid(b.(lastModified := lastModified), ttlSeconds, now)
  {
  }

  lemma TruncateMonotone(t1: int, t2: int)
    requires t1 <= t2
    ensures TruncateToSeconds(t1) <= TruncateToSeconds(t2)
  {
  }

  /** Validity only ever decays as the clock moves on. */
  lemma ValidityDecays(b: Blob, ttlSeconds: int, earlier: int, later: int)
    requires earlier <= later
    requires IsValid(b, ttlSeconds, later)
    ensures IsValid(b, ttlSeconds, earlier)
  {
    TruncateMonotone(earlier, later);
  }

  /** The clock is only read to the second. */
  lemma ClockReadToTheSecond(b: Blob, ttlSeconds: int, now: int)
    ensures IsValid(b, ttlSeconds, now) == IsValid(b, ttlSeconds, TruncateToSeconds(now))
  {
    var t := TruncateToSeconds(now);
    assert TruncateToSeconds(t) == t;
  }

  /** The worked example of a 300-second TTL: a blob last modified 400 s ago
      with no access time is stale, and one accessed 100 s ago is fresh. */
  lemma ThreeHundredSecondExample(now: int, data: seq<Byte>)
    requires now % MillisPerSecond == 0
    ensures !IsValid(Blob(None, now - 400_000, None, data), 300, now)
    ensures IsValid(Blob(Some(now - 100_000), now - 400_000, None, data), 300, now)
  {
  }
}
