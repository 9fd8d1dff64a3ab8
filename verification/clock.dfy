/** The wall clock as the handlers read it. `time.Now` is a parameter of every operation. */
module Clock {

  /** An instant as Unix time in nanoseconds, the resolution of Go's `time.Time`. */
  type Instant = int

  const Millisecond: int := 1_000_000
  const Second: int := 1_000_000_000
  const Hour: int := 3600 * Second

  /** Formatting an instant with RFC 3339 and parsing it back, as the handlers do for
      `created_at` and `updated_at`: the fraction of a second is dropped. */
  function Rfc3339(t: Instant): (r: Instant)
    ensures r % Second == 0
    ensures r <= t < r + Second
  {
    t - t % Second
  }

  /** The precision of a BSON DateTime: `Unix()*1e3 + Nanosecond()/1e6` milliseconds,
      that is, the instant rounded down to the millisecond. */
  function Millis(t: Instant): (r: Instant)
    ensures r % Millisecond == 0
    ensures r <= t < r + Millisecond
  {
    t - t % Millisecond
  }

  /** An RFC 3339 timestamp is a whole second, so storing it as a DateTime loses nothing. */
  lemma Rfc3339IsWholeMillis(t: Instant)
    ensures Millis(Rfc3339(t)) == Rfc3339(t)
  {
    var r := Rfc3339(t);
    assert r == (r / Second) * Second;
    assert r == ((r / Second) * 1000) * Millisecond;
  }

  /** `Time.Unix()`: whole seconds since the epoch, rounded down. */
  function UnixSeconds(t: Instant): (r: int)
    ensures r * Second <= t < (r + 1) * Second
  {
    t / Second
  }

  /** A later clock reading never gives an earlier stored timestamp. */
  lemma Rfc3339Monotonic(a: Instant, b: Instant)
    requires a <= b
    ensures Rfc3339(a) <= Rfc3339(b)
  {
  }

  /** Shifting by whole hours shifts `Unix()` by whole hours' worth of seconds. */
  lemma UnixSecondsAfterHours(t: Instant, hours: int)
    ensures UnixSeconds(t + hours * Hour) == UnixSeconds(t) + 3600 * hours
  {
    assert t + hours * Hour == t + (3600 * hours) * Second;
  }
}
