/**
 Instants and durations in nanoseconds, as the operator's clock has them, and the
 whole-second instants that survive a round trip through a persisted object.
 */
module Times {

  const SECOND: nat := 1_000_000_000
  const MINUTE: nat := 60 * SECOND

  /** What is left of an instant once it has been stored: its whole seconds. */
  function Persisted(t: nat): nat
  {
    t / SECOND * SECOND
  }

  lemma PersistedBounds(t: nat)
    ensures Persisted(t) <= t < Persisted(t) + SECOND
    ensures Persisted(t) % SECOND == 0
  {
  }

  /** Storing keeps the order of instants, and loses nothing against whole seconds. */
  lemma PersistedMonotone(s: nat, t: nat)
    requires s <= t
    ensures Persisted(s) <= Persisted(t)
    ensures s % SECOND == 0 ==> s <= Persisted(t)
  {
    var q := s / SECOND;
    assert q <= t / SECOND;
    assert q * SECOND <= t / SECOND * SECOND;
  }
}
