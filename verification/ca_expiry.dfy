/** The half-life rotation test on a certificate's validity window
    (`CertHalfwayExpired`), with the clock reading passed in as `now`. */
module CaExpiry {
  import opened GoInt
  import opened GoTime
  import opened X509

  /** `NotBefore.Add(half)`, where `half` is `NotAfter.Sub(NotBefore)` in
      nanoseconds halved by Go's truncating division. The subtraction saturates
      at the `time.Duration` range. */
  function HalfExpiration(notBefore: Time, notAfter: Time): (h: Time)
    ensures notBefore <= notAfter ==> notBefore <= h <= notAfter
    ensures notAfter <= notBefore ==> notAfter <= h <= notBefore
  {
    var halfValidPeriod := Quo(Sub(notAfter, notBefore), 2);
    notBefore + halfValidPeriod * Nanosecond
  }

  /** The instant the source evidently aims at: `now` lies strictly past the
      midpoint of `[notBefore, notAfter]`, with no rounding and no bound on the
      window. */
  predicate PastMidpoint(notBefore: Time, notAfter: Time, now: Time) {
    2 * now > notBefore + notAfter
  }

  /** True when the clock has moved strictly past the half-life instant of the
      certificate's validity window. On a well-formed window whose length fits
      in a `time.Duration` this is exactly "strictly past the midpoint":
      truncating an odd length loses nothing because the comparison is strict.
      On every well-formed window a certificate is never due before it becomes
      valid and always due once it has expired. */
  function CertHalfwayExpired(cert: Certificate, now: Time): (due: bool)
    ensures cert.notBefore <= cert.notAfter && IsInt64(cert.notAfter - cert.notBefore) ==>
      (due <==> PastMidpoint(cert.notBefore, cert.notAfter, now))
    ensures cert.notBefore <= cert.notAfter && due ==> now > cert.notBefore
    ensures cert.notBefore <= cert.notAfter && now >= cert.notAfter && cert.notBefore < cert.notAfter ==> due
  {
    After(now, HalfExpiration(cert.notBefore, cert.notAfter))
  }

  /** The comparison is strict: exactly at the half-life instant the
      certificate is not yet due, one nanosecond later it is. */
  lemma HalfwayExpiredStrictAtMidpoint(cert: Certificate)
    ensures !CertHalfwayExpired(cert, cert.notBefore + Quo(Sub(cert.notAfter, cert.notBefore), 2))
    ensures CertHalfwayExpired(cert, cert.notBefore + Quo(Sub(cert.notAfter, cert.notBefore), 2) + 1)
  {
  }

  /** Once due, a certificate stays due as the clock advances. */
  lemma HalfwayExpiredMonotone(cert: Certificate, now: Time, later: Time)
    requires now <= later
    requires CertHalfwayExpired(cert, now)
    ensures CertHalfwayExpired(cert, later)
  {
  }

  /** An empty window is due as soon as the clock passes its single instant. */
  lemma HalfwayExpiredDegenerateWindow(cert: Certificate, now: Time)
    requires cert.notBefore == cert.notAfter
    ensures CertHalfwayExpired(cert, now) <==> now > cert.notBefore
  {
  }

  /* The three table cases of the unit test. The test reads the clock once per
     `time.Now()` call: `t1` while building the first bound, `t2` for the
     second, `now` inside the predicate, so `t1 <= t2 <= now`. */

  /** "expired now": valid from a day before `t1` until `t2`. */
  lemma ScenarioExpiredNow(cert: Certificate, t1: Time, t2: Time, now: Time)
    requires t1 <= t2 <= now
    requires cert.notBefore == t1 - Day && cert.notAfter == t2
    ensures CertHalfwayExpired(cert, now)
  {
  }

  /** "time left": valid from a day before `t1` until two days after `t2`; not
      due while the test runs for less than half a day. */
  lemma ScenarioTimeLeft(cert: Certificate, t1: Time, t2: Time, now: Time)
    requires t1 <= t2 <= now && now - t1 <= Day / 2
    requires cert.notBefore == t1 - Day && cert.notAfter == t2 + 2 * Day
    ensures !CertHalfwayExpired(cert, now)
  {
  }

  /** "time up": valid from two days before `t1` until a day after `t2`. */
  lemma ScenarioTimeUp(cert: Certificate, t1: Time, t2: Time, now: Time)
    requires t1 <= t2 <= now
    requires cert.notBefore == t1 - 2 * Day && cert.notAfter == t2 + Day
    ensures CertHalfwayExpired(cert, now)
  {
  }

  /** The half-life test with the window length computed exactly, the
      behaviour the doc comment of the source promises for every window: on
      every well-formed window, however long, it is "strictly past the
      midpoint". */
  function CertHalfwayExpiredExact(cert: Certificate, now: Time): (due: bool)
    ensures cert.notBefore <= cert.notAfter ==>
      (due <==> PastMidpoint(cert.notBefore, cert.notAfter, now))
  {
    now > cert.notBefore + Quo(cert.notAfter - cert.notBefore, 2)
  }

  /** The two tests agree whenever the window fits in a `time.Duration`. */
  lemma HalfwayExpiredAgreesWithExact(cert: Certificate, now: Time)
    requires IsInt64(cert.notAfter - cert.notBefore)
    ensures CertHalfwayExpired(cert, now) <==> CertHalfwayExpiredExact(cert, now)
  {
  }

  /** A window longer than a `time.Duration` (about 292 years, e.g. a
      certificate valid until 9999-12-31) saturates in `Sub`, so the source
      reports it due long before half of it has elapsed. Here the window is
      2e19 ns (about 634 years): the source's test turns true one nanosecond
      after `MaxInt64 / 2` (about 4.61e18 ns, 146 years, 23% of the window),
      and at 5e18 ns (a quarter of the window) it already holds. */
  lemma SaturatedWindowExpiresEarly(cert: Certificate)
    requires cert.notBefore == 0 && cert.notAfter == 20_000_000_000_000_000_000
    ensures !CertHalfwayExpired(cert, MaxInt64 / 2)
    ensures CertHalfwayExpired(cert, MaxInt64 / 2 + 1)
    ensures CertHalfwayExpired(cert, 5_000_000_000_000_000_000)
    ensures !PastMidpoint(cert.notBefore, cert.notAfter, 5_000_000_000_000_000_000)
    ensures !CertHalfwayExpiredExact(cert, 5_000_000_000_000_000_000)
  {
  }
}
