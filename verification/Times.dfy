// Instants are nanoseconds; the database keeps RFC 3339 text without a
// fraction, so everything that goes through it is cut to whole seconds.

module Times {
  const SECOND := 1_000_000_000
  const MINUTE := 60 * SECOND
  const HOUR := 60 * MINUTE
  const DAY := 24 * HOUR

  function Trunc(t: int): (r: int)
    ensures r <= t < r + SECOND
    ensures t % SECOND == 0 <==> r == t
  {
    t - t % SECOND
  }

  /** Writing a stored instant back does not move it. */
  lemma TruncIdempotent(t: int)
    ensures Trunc(Trunc(t)) == Trunc(t)
  {
    assert t == SECOND * (t / SECOND) + t % SECOND;
    assert Trunc(t) == SECOND * (t / SECOND);
    assert (SECOND * (t / SECOND)) % SECOND == 0;
  }
}
