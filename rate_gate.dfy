/**
 * The arithmetic of the outbound-call gate (`waitBetweenCalls`) and of the
 * retry back-off, on an integer millisecond clock.
 */
module RateGate {

  /** `MIN_INTERVAL_MS`: no BGG setting exists in the environment schema, so the 5000 ms default applies. */
  const MinIntervalMs: nat := 5000

  /** The time `waitBetweenCalls` returns at when entered at `now` with the last call finished at `last`. */
  function ReadyAt(now: int, last: int): (t: int)
    ensures t >= now && t - last >= MinIntervalMs
    ensures t == now <==> now - last >= MinIntervalMs
    ensures t > now ==> t - last == MinIntervalMs
  {
    var delta := now - last;
    if delta < MinIntervalMs then now + (MinIntervalMs - delta) else now
  }

  /** The pause after failed attempt `i` (0-based): `900 + i * 400` ms. */
  function Backoff(i: nat): nat {
    900 + i * 400
  }

  /** The back-off pauses grow strictly from one attempt to the next. */
  lemma BackoffGrows(i: nat, j: nat)
    requires i < j
    ensures Backoff(i) + 400 * (j - i) == Backoff(j)
  {
  }
}
